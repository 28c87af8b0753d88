/** The score cache refines rescoring; the baseline and every refit keep their promises. */
module PipelineProofs {
  import opened Wrappers
  import opened Sequences
  import opened Features
  import opened Feedback
  import opened Pipeline

  /* ------------------------------------------------------------- the score cache */

  /** A cached pair is what scoring `v` now would give, for a vector `v` with that fingerprint. */
  ghost predicate CachedFor(
    eng: Engine, history: seq<KernelEvent>, m: Model, signalOnly: bool, k: string,
    entry: (Fingerprint, Detection), v: ProcessFeatures)
  {
    && Subsequence(v.relatedEvents, history)
    && v.chainKey == k && FingerprintOf(v) == entry.0
    && entry.1 == Detect(eng, m, signalOnly, v)
  }

  ghost predicate Fresh(
    eng: Engine, history: seq<KernelEvent>, m: Model, signalOnly: bool, k: string, entry: (Fingerprint, Detection))
  {
    exists v :: CachedFor(eng, history, m, signalOnly, k, entry, v)
  }

  /** Every cache entry is fresh under the current detector and mode. */
  ghost predicate CacheSound(eng: Engine, history: seq<KernelEvent>, s: State) {
    && (forall k :: k in s.cache ==> Fresh(eng, history, s.model, s.signalOnly, k, s.cache[k]))
    && (s.learning ==> s.cache == map[])
  }

  /** The vectors of an operation come from extraction over the collected events. */
  ghost predicate FromHistory(history: seq<KernelEvent>, op: Op) {
    match op
    case AnalyzeWindow(vs) => Drawn(history, vs)
    case _ => true
  }

  /** The reference pipeline: the same state without a cache. */
  function Uncached(s: State): (r: State) {
    s.(cache := map[])
  }

  lemma HitIsFresh(eng: Engine, history: seq<KernelEvent>, s: State, v: ProcessFeatures)
    requires UniqueIds(history) && CacheSound(eng, history, s)
    requires Subsequence(v.relatedEvents, history) && CacheHit(s, v)
    ensures s.cache[v.chainKey].1 == Detect(eng, s.model, s.signalOnly, v)
  {
    assert Fresh(eng, history, s.model, s.signalOnly, v.chainKey, s.cache[v.chainKey]);
    var w :| CachedFor(eng, history, s.model, s.signalOnly, v.chainKey, s.cache[v.chainKey], w);
    FingerprintIdentifies(history, v, w);
  }

  lemma AnalyzeVectorAgrees(eng: Engine, cfg: Config, history: seq<KernelEvent>, s: State, v: ProcessFeatures)
    requires UniqueIds(history) && CacheSound(eng, history, s) && !s.learning
    requires Subsequence(v.relatedEvents, history)
    ensures var s1 := AnalyzeVector(eng, cfg, s, v, true);
      && AnalyzeVector(eng, cfg, Uncached(s), v, false) == Uncached(s1)
      && CacheSound(eng, history, s1) && !s1.learning
  {
    if CacheHit(s, v) {
      HitIsFresh(eng, history, s, v);
    }
    var entry := (FingerprintOf(v), Detect(eng, s.model, s.signalOnly, v));
    assert CachedFor(eng, history, s.model, s.signalOnly, v.chainKey, entry, v);
    assert Fresh(eng, history, s.model, s.signalOnly, v.chainKey, entry);
  }

  lemma {:induction false} AnalyzeVectorsAgree(
      eng: Engine, cfg: Config, history: seq<KernelEvent>, s: State, vs: seq<ProcessFeatures>)
    requires UniqueIds(history) && CacheSound(eng, history, s) && !s.learning && Drawn(history, vs)
    ensures var s1 := AnalyzeVectors(eng, cfg, s, vs, true);
      && AnalyzeVectors(eng, cfg, Uncached(s), vs, false) == Uncached(s1)
      && CacheSound(eng, history, s1) && !s1.learning
  {
    if vs != [] {
      var n := |vs| - 1;
      assert vs[n] in vs && forall v :: v in vs[..n] ==> v in vs;
      AnalyzeVectorsAgree(eng, cfg, history, s, vs[..n]);
      AnalyzeVectorAgrees(eng, cfg, history, AnalyzeVectors(eng, cfg, s, vs[..n], true), vs[n]);
    }
  }

  lemma RefitAgrees(eng: Engine, history: seq<KernelEvent>, s: State)
    requires CacheSound(eng, history, s)
    ensures Refit(Uncached(s)) == Uncached(Refit(s)) && CacheSound(eng, history, Refit(s))
  {
  }

  /** Fields that scoring does not read may change under the cache. */
  lemma SameScoring(eng: Engine, history: seq<KernelEvent>, s: State, s1: State)
    requires CacheSound(eng, history, s)
    requires s1.model == s.model && s1.signalOnly == s.signalOnly && s1.learning == s.learning
    requires forall k :: k in s1.cache ==> k in s.cache && s1.cache[k] == s.cache[k]
    ensures CacheSound(eng, history, s1)
  {
  }

  lemma RelabelAgrees(
      eng: Engine, cfg: Config, history: seq<KernelEvent>, s: State, key: string, verdict: string,
      ledger: seq<LedgerEntry>)
    requires CacheSound(eng, history, s)
    ensures Relabel(cfg, Uncached(s), key, verdict, ledger) == Uncached(Relabel(cfg, s, key, verdict, ledger))
    ensures CacheSound(eng, history, Relabel(cfg, s, key, verdict, ledger))
  {
    var folded :=
      if verdict == BENIGN && key in s.vectors
      then AddToBaseline(cfg, s.baseline, [s.vectors[key]]) else s.baseline;
    var before := s.(ledger := ledger, baseline := ReweightBaseline(folded, ledger));
    SameScoring(eng, history, s, before);
    RefitAgrees(eng, history, before);
    SameScoring(eng, history, Refit(before), Relabel(cfg, s, key, verdict, ledger));
  }

  lemma LabelAgrees(
      eng: Engine, cfg: Config, history: seq<KernelEvent>, s: State, reportId: nat, verdict: string,
      note: Option<string>, now: nat)
    requires CacheSound(eng, history, s)
    ensures var s1 := Label(cfg, s, reportId, verdict, note, now);
      && Label(cfg, Uncached(s), reportId, verdict, note, now) == Uncached(s1)
      && CacheSound(eng, history, s1)
  {
    var a := AcceptVerdict(s.reports, s.ledger, reportId, verdict, note, now);
    if a.Some? {
      if a.value.changed {
        RelabelAgrees(eng, cfg, history, s, a.value.key, verdict, a.value.ledger);
      } else {
        SameScoring(eng, history, s, s.(ledger := a.value.ledger));
      }
    }
  }

  lemma MaybeRefitAgrees(eng: Engine, cfg: Config, history: seq<KernelEvent>, s: State)
    requires CacheSound(eng, history, s)
    ensures MaybeRefit(cfg, Uncached(s)) == Uncached(MaybeRefit(cfg, s))
    ensures CacheSound(eng, history, MaybeRefit(cfg, s))
  {
    RefitAgrees(eng, history, s.(sinceRefit := 0));
  }

  lemma AnalyzeAgrees(eng: Engine, cfg: Config, history: seq<KernelEvent>, s: State, vs: seq<ProcessFeatures>)
    requires UniqueIds(history) && CacheSound(eng, history, s) && Drawn(history, vs)
    ensures var s1 := Analyze(eng, cfg, s, vs, true);
      Analyze(eng, cfg, Uncached(s), vs, false) == Uncached(s1) && CacheSound(eng, history, s1)
  {
    if !s.learning {
      AnalyzeVectorsAgree(eng, cfg, history, s, vs);
      MaybeRefitAgrees(eng, cfg, history, AnalyzeVectors(eng, cfg, s, vs, true));
    }
  }

  lemma StepAgrees(eng: Engine, cfg: Config, history: seq<KernelEvent>, s: State, op: Op)
    requires UniqueIds(history) && CacheSound(eng, history, s) && FromHistory(history, op)
    requires op.CompleteLearning? ==> s.learning
    ensures var s1 := Step(eng, cfg, s, op, true);
      Step(eng, cfg, Uncached(s), op, false) == Uncached(s1) && CacheSound(eng, history, s1)
  {
    match op
    case Accumulate(vs) => SameScoring(eng, history, s, s.(baseline := AddToBaseline(cfg, s.baseline, vs)));
    case LearningStep(minWindows, normalEnd, elapsed, vs) =>
    case CompleteLearning(vs) =>
    case AnalyzeWindow(vs) => AnalyzeAgrees(eng, cfg, history, s, vs);
    case LabelChain(reportId, verdict, note, now) => LabelAgrees(eng, cfg, history, s, reportId, verdict, note, now);
  }

  /** Learning is completed only while learning, and windows come from the collected events. */
  ghost predicate Disciplined(eng: Engine, cfg: Config, history: seq<KernelEvent>, s: State, ops: seq<Op>) {
    ops == [] ||
    (var init, last := ops[..|ops| - 1], ops[|ops| - 1];
     && Disciplined(eng, cfg, history, s, init)
     && FromHistory(history, last)
     && (last.CompleteLearning? ==> Run(eng, cfg, s, init, true).learning))
  }

  /**
   * In every reachable state each cache entry is what scoring its fingerprint under the
   * current detector and mode returns, and the cached pipeline is in the same state,
   * reports and baseline included, as one that always rescores.
   */
  lemma {:induction false} CachedRefinesRescoring(
      eng: Engine, cfg: Config, history: seq<KernelEvent>, loaded: bool, ledger: seq<LedgerEntry>, ops: seq<Op>)
    requires UniqueIds(history) && Disciplined(eng, cfg, history, Start(loaded, ledger), ops)
    ensures var s := Run(eng, cfg, Start(loaded, ledger), ops, true);
      && CacheSound(eng, history, s)
      && Run(eng, cfg, Start(loaded, ledger), ops, false) == Uncached(s)
  {
    if ops != [] {
      var init, last := ops[..|ops| - 1], ops[|ops| - 1];
      CachedRefinesRescoring(eng, cfg, history, loaded, ledger, init);
      StepAgrees(eng, cfg, history, Run(eng, cfg, Start(loaded, ledger), init, true), last);
    }
  }

  /** For every vector of the history, not only the one that was scored: a hit is a fresh score. */
  lemma ReachableHitIsFresh(
      eng: Engine, cfg: Config, history: seq<KernelEvent>, loaded: bool, ledger: seq<LedgerEntry>, ops: seq<Op>,
      v: ProcessFeatures)
    requires UniqueIds(history) && Disciplined(eng, cfg, history, Start(loaded, ledger), ops)
    requires Subsequence(v.relatedEvents, history)
    ensures var s := Run(eng, cfg, Start(loaded, ledger), ops, true);
      CacheHit(s, v) ==> s.cache[v.chainKey].1 == Detect(eng, s.model, s.signalOnly, v)
  {
    CachedRefinesRescoring(eng, cfg, history, loaded, ledger, ops);
    var s := Run(eng, cfg, Start(loaded, ledger), ops, true);
    if CacheHit(s, v) {
      HitIsFresh(eng, history, s, v);
    }
  }

  /* ------------------------------------------------------------ what a window reports */

  function FlaggedBy(eng: Engine, m: Model, signalOnly: bool): (p: ProcessFeatures -> bool) {
    (v: ProcessFeatures) => Detect(eng, m, signalOnly, v).score.flagged
  }

  function ReportFor(eng: Engine, m: Model, signalOnly: bool, id: nat, v: ProcessFeatures): (r: Report) {
    var d := Detect(eng, m, signalOnly, v);
    Report(id, d, eng.respond(v, d.score))
  }

  /** One report for each vector, numbered from `first`. */
  function ReportsFor(eng: Engine, m: Model, signalOnly: bool, first: nat, vs: seq<ProcessFeatures>): (r: seq<Report>)
    ensures |r| == |vs|
  {
    seq(|vs|, i requires 0 <= i < |vs| => ReportFor(eng, m, signalOnly, first + i, vs[i]))
  }

  lemma ReportsForSnoc(eng: Engine, m: Model, signalOnly: bool, first: nat, vs: seq<ProcessFeatures>, v: ProcessFeatures)
    ensures ReportsFor(eng, m, signalOnly, first, vs + [v])
            == ReportsFor(eng, m, signalOnly, first, vs) + [ReportFor(eng, m, signalOnly, first + |vs|, v)]
  {
  }

  /** The reports a window owes: one for each vector that scoring it now would flag. */
  function FoundIn(eng: Engine, s: State, vs: seq<ProcessFeatures>): (r: seq<Report>) {
    ReportsFor(eng, s.model, s.signalOnly, |s.emitted|, Filter(vs, FlaggedBy(eng, s.model, s.signalOnly)))
  }

  /** Every vector new to the baseline is one of `vs` that was not flagged. */
  ghost predicate FedUnflagged(eng: Engine, s: State, vs: seq<ProcessFeatures>, baseline: seq<ProcessFeatures>) {
    forall v :: v in baseline ==> v in s.baseline || (v in vs && !FlaggedBy(eng, s.model, s.signalOnly)(v))
  }

  /** What analyzing `vs` adds to `s`, rescoring each vector, gives `s1`. */
  ghost predicate WindowOutcome(eng: Engine, s: State, vs: seq<ProcessFeatures>, s1: State) {
    && s1.emitted == s.emitted + FoundIn(eng, s, vs)
    && s1.reports == LastN(s.reports + FoundIn(eng, s, vs), REPORTS_MAX)
    && FedUnflagged(eng, s, vs, s1.baseline)
  }

  lemma FoundSnoc(eng: Engine, s: State, vs: seq<ProcessFeatures>, v: ProcessFeatures)
    ensures FoundIn(eng, s, vs + [v]) ==
      if FlaggedBy(eng, s.model, s.signalOnly)(v)
      then FoundIn(eng, s, vs) + [ReportFor(eng, s.model, s.signalOnly, |s.emitted| + |FoundIn(eng, s, vs)|, v)]
      else FoundIn(eng, s, vs)
  {
    var flagged := FlaggedBy(eng, s.model, s.signalOnly);
    FilterSnoc(vs, v, flagged);
    Grown(eng, s, Filter(vs, flagged), v, Filter(vs + [v], flagged), flagged(v),
          FoundIn(eng, s, vs), FoundIn(eng, s, vs + [v]));
  }

  lemma Grown(
      eng: Engine, s: State, kept: seq<ProcessFeatures>, v: ProcessFeatures, kept1: seq<ProcessFeatures>, flagged: bool,
      found: seq<Report>, found1: seq<Report>)
    requires found == ReportsFor(eng, s.model, s.signalOnly, |s.emitted|, kept)
    requires found1 == ReportsFor(eng, s.model, s.signalOnly, |s.emitted|, kept1)
    requires kept1 == if flagged then kept + [v] else kept
    ensures found1 ==
      if flagged then found + [ReportFor(eng, s.model, s.signalOnly, |s.emitted| + |found|, v)] else found
  {
    if flagged {
      GrownReports(eng, s, kept, v, kept1);
    }
  }

  lemma GrownReports(
      eng: Engine, s: State, kept: seq<ProcessFeatures>, v: ProcessFeatures, kept1: seq<ProcessFeatures>)
    requires kept1 == kept + [v]
    ensures ReportsFor(eng, s.model, s.signalOnly, |s.emitted|, kept1)
            == ReportsFor(eng, s.model, s.signalOnly, |s.emitted|, kept)
               + [ReportFor(eng, s.model, s.signalOnly, |s.emitted| + |kept|, v)]
  {
    ReportsForSnoc(eng, s.model, s.signalOnly, |s.emitted|, kept, v);
  }

  lemma AddedFrom(cfg: Config, baseline: seq<ProcessFeatures>, v: ProcessFeatures)
    ensures forall x :: x in AddToBaseline(cfg, baseline, [v]) ==> x in baseline || x == v
  {
  }

  /** One vector, rescored: reported when flagged, else fed to the baseline. */
  lemma RescoredVector(eng: Engine, cfg: Config, s: State, v: ProcessFeatures)
    ensures var s1 := AnalyzeVector(eng, cfg, s, v, false);
      var report := ReportFor(eng, s.model, s.signalOnly, |s.emitted|, v);
      && s1.model == s.model && s1.signalOnly == s.signalOnly
      && (FlaggedBy(eng, s.model, s.signalOnly)(v) ==>
            s1.emitted == s.emitted + [report] && s1.reports == LastN(s.reports + [report], REPORTS_MAX)
            && s1.baseline == s.baseline)
      && (!FlaggedBy(eng, s.model, s.signalOnly)(v) ==>
            s1.emitted == s.emitted && s1.reports == s.reports
            && s1.baseline == AddToBaseline(cfg, s.baseline, [v]))
  {
  }

  lemma FlaggedOutcome(eng: Engine, s: State, vs: seq<ProcessFeatures>, s1: State, v: ProcessFeatures, s2: State)
    requires WindowOutcome(eng, s, vs, s1) && FlaggedBy(eng, s.model, s.signalOnly)(v)
    requires var report := ReportFor(eng, s.model, s.signalOnly, |s1.emitted|, v);
      && s2.emitted == s1.emitted + [report] && s2.reports == LastN(s1.reports + [report], REPORTS_MAX)
      && s2.baseline == s1.baseline
    ensures WindowOutcome(eng, s, vs + [v], s2)
  {
    var found := FoundIn(eng, s, vs);
    var report := ReportFor(eng, s.model, s.signalOnly, |s1.emitted|, v);
    FoundSnoc(eng, s, vs, v);
    OneMoreReport(s.emitted, found, report);
    OneMoreReport(s.reports, found, report);
    LastNTwice(s.reports + found, report, REPORTS_MAX);
  }

  lemma OneMoreReport(before: seq<Report>, found: seq<Report>, report: Report)
    ensures before + found + [report] == before + (found + [report])
  {
  }

  lemma UnflaggedOutcome(
      eng: Engine, cfg: Config, s: State, vs: seq<ProcessFeatures>, s1: State, v: ProcessFeatures, s2: State)
    requires WindowOutcome(eng, s, vs, s1) && !FlaggedBy(eng, s.model, s.signalOnly)(v)
    requires s2.emitted == s1.emitted && s2.reports == s1.reports
    requires s2.baseline == AddToBaseline(cfg, s1.baseline, [v])
    ensures WindowOutcome(eng, s, vs + [v], s2)
  {
    FoundSnoc(eng, s, vs, v);
    AddedFrom(cfg, s1.baseline, v);
  }

  lemma {:induction false} RescoredWindow(eng: Engine, cfg: Config, s: State, vs: seq<ProcessFeatures>)
    requires |s.reports| <= REPORTS_MAX
    ensures var s1 := AnalyzeVectors(eng, cfg, s, vs, false);
      WindowOutcome(eng, s, vs, s1) && s1.model == s.model && s1.signalOnly == s.signalOnly
  {
    if vs == [] {
      assert s.emitted + [] == s.emitted && s.reports + [] == s.reports;
    } else {
      var init, v := vs[..|vs| - 1], vs[|vs| - 1];
      RescoredWindow(eng, cfg, s, init);
      var s1 := AnalyzeVectors(eng, cfg, s, init, false);
      RescoredVector(eng, cfg, s1, v);
      assert vs == init + [v];
      if FlaggedBy(eng, s.model, s.signalOnly)(v) {
        FlaggedOutcome(eng, s, init, s1, v, AnalyzeVector(eng, cfg, s1, v, false));
      } else {
        UnflaggedOutcome(eng, cfg, s, init, s1, v, AnalyzeVector(eng, cfg, s1, v, false));
      }
    }
  }

  lemma {:induction false} ReportsCapped(eng: Engine, cfg: Config, s: State, vs: seq<ProcessFeatures>, useCache: bool)
    requires |s.reports| <= REPORTS_MAX
    ensures |AnalyzeVectors(eng, cfg, s, vs, useCache).reports| <= REPORTS_MAX
  {
    if vs != [] {
      ReportsCapped(eng, cfg, s, vs[..|vs| - 1], useCache);
    }
  }

  lemma StepKeepsCap(eng: Engine, cfg: Config, s: State, op: Op)
    requires |s.reports| <= REPORTS_MAX
    ensures |Step(eng, cfg, s, op, true).reports| <= REPORTS_MAX
  {
    match op
    case AnalyzeWindow(vs) => ReportsCapped(eng, cfg, s, vs, true);
    case LabelChain(reportId, verdict, note, now) => LabelKeepsReports(cfg, s, reportId, verdict, note, now);
    case _ =>
  }

  lemma LabelKeepsReports(cfg: Config, s: State, reportId: nat, verdict: string, note: Option<string>, now: nat)
    ensures Label(cfg, s, reportId, verdict, note, now).reports == s.reports
  {
  }

  lemma {:induction false} ReportsStayCapped(
      eng: Engine, cfg: Config, loaded: bool, ledger: seq<LedgerEntry>, ops: seq<Op>)
    ensures |Run(eng, cfg, Start(loaded, ledger), ops, true).reports| <= REPORTS_MAX
  {
    if ops != [] {
      ReportsStayCapped(eng, cfg, loaded, ledger, ops[..|ops| - 1]);
      StepKeepsCap(eng, cfg, Run(eng, cfg, Start(loaded, ledger), ops[..|ops| - 1], true), ops[|ops| - 1]);
    }
  }

  /**
   * In every reachable detection state a window, cache and all, reports exactly the
   * vectors that scoring them now would flag, one report each and in order, and nothing
   * flagged enters the baseline.
   */
  lemma WindowReportsExactly(
      eng: Engine, cfg: Config, history: seq<KernelEvent>, loaded: bool, ledger: seq<LedgerEntry>, ops: seq<Op>,
      vs: seq<ProcessFeatures>)
    requires UniqueIds(history) && Disciplined(eng, cfg, history, Start(loaded, ledger), ops) && Drawn(history, vs)
    requires !Run(eng, cfg, Start(loaded, ledger), ops, true).learning
    ensures var s := Run(eng, cfg, Start(loaded, ledger), ops, true);
      WindowOutcome(eng, s, vs, Analyze(eng, cfg, s, vs, true))
  {
    var s := Run(eng, cfg, Start(loaded, ledger), ops, true);
    CachedRefinesRescoring(eng, cfg, history, loaded, ledger, ops);
    ReportsStayCapped(eng, cfg, loaded, ledger, ops);
    AnalyzeAgrees(eng, cfg, history, s, vs);
    RescoredWindow(eng, cfg, Uncached(s), vs);
    RefitKeepsOutcome(eng, cfg, s, vs, AnalyzeVectors(eng, cfg, Uncached(s), vs, false), Analyze(eng, cfg, s, vs, true));
  }

  lemma RefitKeepsOutcome(eng: Engine, cfg: Config, s: State, vs: seq<ProcessFeatures>, s1: State, s2: State)
    requires WindowOutcome(eng, Uncached(s), vs, s1) && Uncached(s2) == MaybeRefit(cfg, s1)
    ensures WindowOutcome(eng, s, vs, s2)
  {
    RefitKeepsReports(cfg, s1);
    assert s2.emitted == s1.emitted && s2.reports == s1.reports && s2.baseline == s1.baseline;
  }

  lemma RefitKeepsReports(cfg: Config, s: State)
    ensures var s1 := MaybeRefit(cfg, s);
      s1.emitted == s.emitted && s1.reports == s.reports && s1.baseline == s.baseline
  {
  }

  /* ------------------------------------------- completing learning during detection */

  /** Whatever completing learning changes, no cached score depends on it. */
  predicate NothingToForget(s: State, vs: seq<ProcessFeatures>) {
    s.cache == map[] || (s.baseline == [] && vs == [] && (s.signalOnly || !Trained(s.model)))
  }

  /** A scorer like `eng` that answers otherwise than `score` under the model `m`. */
  function Contradicting(eng: Engine, m: Model, score: Score): (r: Engine) {
    eng.(predict := (m1: Model, v: ProcessFeatures) =>
           if m1 == m then Score(!score.flagged, "") else eng.predict(m1, v))
  }

  function SignalContradicting(eng: Engine, score: Score): (r: Engine) {
    eng.(signal := (m: Model, v: ProcessFeatures) => Score(!score.flagged, ""))
  }

  /** Two scorers that agree under the current model and mode find the same caches sound. */
  lemma SoundForBoth(eng: Engine, eng2: Engine, history: seq<KernelEvent>, s: State)
    requires CacheSound(eng, history, s)
    requires forall v :: Detect(eng, s.model, s.signalOnly, v) == Detect(eng2, s.model, s.signalOnly, v)
    ensures CacheSound(eng2, history, s)
  {
    forall k | k in s.cache ensures Fresh(eng2, history, s.model, s.signalOnly, k, s.cache[k]) {
      var v :| CachedFor(eng, history, s.model, s.signalOnly, k, s.cache[k], v);
      assert CachedFor(eng2, history, s.model, s.signalOnly, k, s.cache[k], v);
    }
  }

  lemma StaleEntry(eng: Engine, history: seq<KernelEvent>, s: State, k: string)
    requires k in s.cache
    requires forall v :: Detect(eng, s.model, s.signalOnly, v).score.flagged != s.cache[k].1.score.flagged
    ensures !CacheSound(eng, history, s)
  {
    assert !Fresh(eng, history, s.model, s.signalOnly, k, s.cache[k]);
  }

  lemma AddToEmpty(cfg: Config, vs: seq<ProcessFeatures>)
    ensures AddToBaseline(cfg, [], vs) == [] <==> vs == []
  {
    if vs != [] {
      assert NewTo([])(vs[0]) && vs[0] in Filter(vs, NewTo([]));
    }
  }

  lemma NewModelForgets(eng: Engine, cfg: Config, history: seq<KernelEvent>, s: State, vs: seq<ProcessFeatures>,
        k: string)
    requires CacheSound(eng, history, s) && k in s.cache && (s.baseline != [] || vs != [])
    ensures exists eng2 :: CacheSound(eng2, history, s) && !CacheSound(eng2, history, Complete(cfg, s, vs))
  {
    AddToEmpty(cfg, vs);
    var s1 := Complete(cfg, s, vs);
    assert |s1.model.fits| == |s.model.fits| + 1;
    var eng2 := Contradicting(eng, s1.model, s.cache[k].1.score);
    SoundForBoth(eng, eng2, history, s);
    StaleEntry(eng2, history, s1, k);
  }

  lemma NewModeForgets(eng: Engine, cfg: Config, history: seq<KernelEvent>, s: State, k: string)
    requires CacheSound(eng, history, s) && k in s.cache
    requires s.baseline == [] && !s.signalOnly && Trained(s.model)
    ensures exists eng2 :: CacheSound(eng2, history, s) && !CacheSound(eng2, history, Complete(cfg, s, []))
  {
    AddToEmpty(cfg, []);
    var eng2 := SignalContradicting(eng, s.cache[k].1.score);
    SoundForBoth(eng, eng2, history, s);
    StaleEntry(eng2, history, Complete(cfg, s, []), k);
  }

  lemma CompleteKeepsSound(eng: Engine, cfg: Config, history: seq<KernelEvent>, s: State, vs: seq<ProcessFeatures>)
    requires CacheSound(eng, history, s) && NothingToForget(s, vs)
    ensures CacheSound(eng, history, Complete(cfg, s, vs))
  {
    if s.cache != map[] {
      AddToEmpty(cfg, vs);
      var s1 := Complete(cfg, s, vs);
      forall k | k in s.cache ensures Fresh(eng, history, s1.model, s1.signalOnly, k, s.cache[k]) {
        var v :| CachedFor(eng, history, s.model, s.signalOnly, k, s.cache[k], v);
        assert CachedFor(eng, history, s1.model, s1.signalOnly, k, s.cache[k], v);
      }
    }
  }

  /**
   * Completing learning once more during detection does not clear the cache. It is
   * harmless, for every scorer that could have filled the cache, exactly when the cache is
   * empty or there is nothing to fit and the mode was already to go by the signals.
   */
  lemma LateCompletionIsSoundIff(
      eng: Engine, cfg: Config, history: seq<KernelEvent>, s: State, vs: seq<ProcessFeatures>)
    requires !s.learning && CacheSound(eng, history, s)
    ensures (forall eng2 :: CacheSound(eng2, history, s) ==> CacheSound(eng2, history, Complete(cfg, s, vs)))
            <==> NothingToForget(s, vs)
  {
    if NothingToForget(s, vs) {
      forall eng2 | CacheSound(eng2, history, s) ensures CacheSound(eng2, history, Complete(cfg, s, vs)) {
        CompleteKeepsSound(eng2, cfg, history, s, vs);
      }
    } else {
      var k :| k in s.cache;
      if s.baseline != [] || vs != [] {
        NewModelForgets(eng, cfg, history, s, vs, k);
      } else {
        NewModeForgets(eng, cfg, history, s, k);
      }
    }
  }

  /** A chain the baseline has already: analyzing it again only caches its score. */
  lemma KnownChain(eng: Engine, cfg: Config, s: State, v: ProcessFeatures)
    requires s.baseline == [v] && s.cache == map[]
    ensures var s1 := AnalyzeVector(eng, cfg, s, v, true);
      && s1.model == s.model && s1.baseline == [v] && s1.signalOnly == s.signalOnly
      && s1.cache == map[v.chainKey := (FingerprintOf(v), Detect(eng, s.model, s.signalOnly, v))]
  {
    assert v.chainKey in KeysOf(s.baseline);
    assert Filter([v], NewTo(s.baseline)) == [];
  }

  lemma TooFewToRefit(cfg: Config, s: State)
    requires |s.baseline| < 2
    ensures var s1 := MaybeRefit(cfg, s); s1 == s.(sinceRefit := s1.sinceRefit)
  {
    ReweightIsFilter(s.baseline, s.ledger);
  }

  lemma FirstChain(cfg: Config, v: ProcessFeatures)
    ensures Complete(cfg, Start(false, []), [v])
            == Start(false, []).(baseline := [v], learning := false, model := Model(false, [[v]]))
  {
    FirstAdded(cfg, v);
    assert Start(false, []).model.fits + [[v]] == [[v]];
  }

  lemma FirstAdded(cfg: Config, v: ProcessFeatures)
    ensures AddToBaseline(cfg, [], [v]) == [v]
  {
    var none: seq<ProcessFeatures> := [];
    FilterSnoc(none, v, NewTo(none));
    assert none + [v] == [v];
  }

  lemma VectorsSnoc(eng: Engine, cfg: Config, s: State, vs: seq<ProcessFeatures>, v: ProcessFeatures,
        all: seq<ProcessFeatures>)
    requires all == vs + [v]
    ensures AnalyzeVectors(eng, cfg, s, all, true)
            == AnalyzeVector(eng, cfg, AnalyzeVectors(eng, cfg, s, vs, true), v, true)
  {
    assert all[..|all| - 1] == vs;
  }

  lemma AnalyzeSingle(eng: Engine, cfg: Config, s: State, v: ProcessFeatures)
    requires !s.learning
    ensures Analyze(eng, cfg, s, [v], true) == MaybeRefit(cfg, AnalyzeVector(eng, cfg, s, v, true))
  {
    VectorsSnoc(eng, cfg, s, [], v, [v]);
  }

  /** After learning one chain and analyzing it: scored by the first model, and in the baseline. */
  lemma OneChainScored(eng: Engine, cfg: Config, v: ProcessFeatures)
    ensures var s := Step(eng, cfg, Complete(cfg, Start(false, []), [v]), AnalyzeWindow([v]), true);
      && s.model == Model(false, [[v]]) && s.baseline == [v] && !s.signalOnly
      && s.cache == map[v.chainKey := (FingerprintOf(v), Detection(v.chainKey, eng.predict(s.model, v)))]
  {
    FirstChain(cfg, v);
    var s := Start(false, []).(baseline := [v], learning := false, model := Model(false, [[v]]));
    OneChainAnalyzed(eng, cfg, s, v, AnalyzeVector(eng, cfg, s, v, true));
    AnalyzeSingle(eng, cfg, s, v);
  }

  lemma OneChainAnalyzed(eng: Engine, cfg: Config, s: State, v: ProcessFeatures, s1: State)
    requires s.baseline == [v] && s.cache == map[] && s1 == AnalyzeVector(eng, cfg, s, v, true)
    ensures var s2 := MaybeRefit(cfg, s1);
      && s2.model == s.model && s2.baseline == [v] && s2.signalOnly == s.signalOnly
      && s2.cache == map[v.chainKey := (FingerprintOf(v), Detect(eng, s.model, s.signalOnly, v))]
  {
    KnownChain(eng, cfg, s, v);
    TooFewToRefit(cfg, s1);
  }

  /**
   * A run that ends so, with any scorer: learn one chain, score it, complete learning
   * again. The cache still serves the score of the first model, which is right exactly when
   * the second fit makes no difference.
   */
  lemma LateCompletionLeavesStaleScores(eng: Engine, cfg: Config, v: ProcessFeatures)
    ensures
      var s := Run(eng, cfg, Start(false, []), [CompleteLearning([v]), AnalyzeWindow([v]), CompleteLearning([])], true);
      && CacheHit(s, v) && s.model == Model(false, [[v], [v]])
      && (s.cache[v.chainKey].1 == Detect(eng, s.model, s.signalOnly, v) <==>
          eng.predict(Model(false, [[v]]), v) == eng.predict(Model(false, [[v], [v]]), v))
  {
    RunThree(eng, cfg, Start(false, []), [CompleteLearning([v]), AnalyzeWindow([v]), CompleteLearning([])]);
    OneChainScored(eng, cfg, v);
    assert [[v]] + [[v]] == [[v], [v]];
  }

  lemma RunThree(eng: Engine, cfg: Config, s: State, ops: seq<Op>)
    requires |ops| == 3
    ensures var s2 := Step(eng, cfg, Step(eng, cfg, s, ops[0], true), ops[1], true);
      && Run(eng, cfg, s, ops[..2], true) == s2
      && Run(eng, cfg, s, ops, true) == Step(eng, cfg, s2, ops[2], true)
  {
    assert ops[..2][..1] == ops[..1] && ops[..1][..0] == [];
    assert Run(eng, cfg, s, ops[..1], true) == Step(eng, cfg, s, ops[0], true);
  }

  /* ------------------------------------------------------------------ signal-only mode */

  /** The mode and the learning phase are left alone by all but completing learning. */
  lemma StepKeepsMode(eng: Engine, cfg: Config, s: State, op: Op)
    requires !s.learning && !op.CompleteLearning?
    ensures var s1 := Step(eng, cfg, s, op, true); !s1.learning && s1.signalOnly == s.signalOnly
  {
    match op
    case AnalyzeWindow(vs) =>
      AnalyzeKeepsMode(eng, cfg, s, vs);
    case _ =>
  }

  lemma {:induction false} AnalyzeKeepsMode(eng: Engine, cfg: Config, s: State, vs: seq<ProcessFeatures>)
    ensures var s1 := AnalyzeVectors(eng, cfg, s, vs, true); s1.learning == s.learning && s1.signalOnly == s.signalOnly
  {
    if vs != [] {
      AnalyzeKeepsMode(eng, cfg, s, vs[..|vs| - 1]);
    }
  }

  /**
   * Once learning is over the mode never changes again, however much baseline accumulates
   * and however often the detector is refitted: a pipeline in signal-only mode scores every
   * later vector by the signals alone, trained or not.
   */
  lemma {:induction false} ModeIsForever(
      eng: Engine, cfg: Config, history: seq<KernelEvent>, loaded: bool, ledger: seq<LedgerEntry>, ops: seq<Op>, n: nat)
    requires n <= |ops| && Disciplined(eng, cfg, history, Start(loaded, ledger), ops)
    requires !Run(eng, cfg, Start(loaded, ledger), ops[..n], true).learning
    ensures var s, s1 := Run(eng, cfg, Start(loaded, ledger), ops[..n], true),
                         Run(eng, cfg, Start(loaded, ledger), ops, true);
      && !s1.learning && s1.signalOnly == s.signalOnly
      && (s.signalOnly ==> forall v :: Detect(eng, s1.model, s1.signalOnly, v).score == eng.signal(s1.model, v))
    decreases |ops|
  {
    if n == |ops| {
      assert ops[..n] == ops;
    } else {
      var init := ops[..|ops| - 1];
      assert init[..n] == ops[..n];
      ModeIsForever(eng, cfg, history, loaded, ledger, init, n);
      StepKeepsMode(eng, cfg, Run(eng, cfg, Start(loaded, ledger), init, true), ops[|ops| - 1]);
    }
  }

  /** So a detector refitted on an accumulated baseline is trained and never asked. */
  lemma TrainedButNotAsked(eng: Engine, cfg: Config, v: ProcessFeatures, w: ProcessFeatures)
    requires v.chainKey != w.chainKey && cfg.baselineMax != 1 && cfg.refitInterval == 1
    requires !eng.signal(Model(false, []), v).flagged && !eng.signal(Model(false, []), w).flagged
    ensures var s := Run(eng, cfg, Start(false, []), [CompleteLearning([]), AnalyzeWindow([v, w])], true);
      s.model == Model(false, [[v, w]]) && s.signalOnly
  {
    var s0 := Complete(cfg, Start(false, []), []);
    AddToEmpty(cfg, []);
    RunTwo(eng, cfg, Start(false, []), [CompleteLearning([]), AnalyzeWindow([v, w])]);
    TwoUnflagged(eng, cfg, s0, v, w);
    assert KeysWith(s0.ledger, MALICIOUS) == {};
  }

  lemma RunTwo(eng: Engine, cfg: Config, s: State, ops: seq<Op>)
    requires |ops| == 2
    ensures Run(eng, cfg, s, ops, true) == Step(eng, cfg, Step(eng, cfg, s, ops[0], true), ops[1], true)
  {
    assert ops[..1][..0] == [];
    assert Run(eng, cfg, s, ops[..1], true) == Step(eng, cfg, s, ops[0], true);
  }

  lemma TwoUnflagged(eng: Engine, cfg: Config, s: State, v: ProcessFeatures, w: ProcessFeatures)
    requires s.baseline == [] && s.cache == map[] && s.signalOnly && cfg.baselineMax != 1
    requires v.chainKey != w.chainKey && !eng.signal(s.model, v).flagged && !eng.signal(s.model, w).flagged
    ensures var s2 := AnalyzeVectors(eng, cfg, s, [v, w], true);
      s2.baseline == [v, w] && s2.ledger == s.ledger && s2.model == s.model && s2.signalOnly
      && s2.sinceRefit == s.sinceRefit
  {
    VectorsSnoc(eng, cfg, s, [], v, [v]);
    VectorsSnoc(eng, cfg, s, [v], w, [v, w]);
    OneUnflagged(eng, cfg, s, v);
    OneUnflagged(eng, cfg, AnalyzeVector(eng, cfg, s, v, true), w);
  }

  lemma OneUnflagged(eng: Engine, cfg: Config, s: State, v: ProcessFeatures)
    requires v.chainKey !in s.cache && s.signalOnly && !eng.signal(s.model, v).flagged
    requires v.chainKey !in KeysOf(s.baseline) && (cfg.baselineMax == 0 || |s.baseline| < cfg.baselineMax)
    ensures var s1 := AnalyzeVector(eng, cfg, s, v, true);
      && s1.baseline == s.baseline + [v] && s1.ledger == s.ledger && s1.model == s.model && s1.signalOnly
      && s1.sinceRefit == s.sinceRefit && s1.cache.Keys == s.cache.Keys + {v.chainKey}
  {
    assert Filter([v], NewTo(s.baseline)) == [v] by {
      assert [v][1..] == [];
    }
  }

  /* ------------------------------------------------------- baseline and training */

  predicate Differ(vs: seq<ProcessFeatures>, i: nat, j: nat)
    requires i < |vs| && j < |vs|
  {
    vs[i].chainKey != vs[j].chainKey
  }

  /** No two vectors belong to the same chain. */
  ghost predicate DistinctChains(vs: seq<ProcessFeatures>) {
    forall i, j {:trigger Differ(vs, i, j)} :: 0 <= i < j < |vs| ==> Differ(vs, i, j)
  }

  ghost predicate BaselineOk(cfg: Config, baseline: seq<ProcessFeatures>) {
    DistinctChains(baseline) && (cfg.baselineMax != 0 ==> |baseline| <= cfg.baselineMax)
  }

  /** Extraction yields one vector per chain; stored vectors are filed under their own chain. */
  ghost predicate OneVectorPerChain(op: Op) {
    match op
    case Accumulate(vs) => DistinctChains(vs)
    case LearningStep(_, _, _, vs) => DistinctChains(vs)
    case CompleteLearning(vs) => DistinctChains(vs)
    case AnalyzeWindow(vs) => DistinctChains(vs)
    case LabelChain(_, _, _, _) => true
  }

  ghost predicate TrainingInv(cfg: Config, s: State) {
    && BaselineOk(cfg, s.baseline)
    && (forall k :: k in s.vectors ==> s.vectors[k].chainKey == k)
  }

  lemma {:induction false} FilterChains(vs: seq<ProcessFeatures>, p: ProcessFeatures -> bool)
    requires DistinctChains(vs)
    ensures DistinctChains(Filter(vs, p))
  {
    if vs != [] {
      var rest, kept := vs[1..], Filter(vs[1..], p);
      DropChains(vs, 1);
      FilterChains(rest, p);
      var r := Filter(vs, p);
      assert r == (if p(vs[0]) then [vs[0]] else []) + kept;
      forall i, j | 0 <= i < j < |r| ensures Differ(r, i, j) {
        if !p(vs[0]) {
          assert Differ(kept, i, j);
        } else if i > 0 {
          assert Differ(kept, i - 1, j - 1);
        } else {
          assert kept[j - 1] in rest;
          var k :| 0 <= k < |rest| && rest[k] == kept[j - 1];
          assert Differ(vs, 0, k + 1);
        }
      }
    }
  }

  lemma AppendChains(a: seq<ProcessFeatures>, b: seq<ProcessFeatures>)
    requires DistinctChains(a) && DistinctChains(b)
    requires forall v, w :: v in a && w in b ==> v.chainKey != w.chainKey
    ensures DistinctChains(a + b)
  {
    forall i, j | 0 <= i < j < |a + b| ensures Differ(a + b, i, j) {
      if j < |a| {
        assert Differ(a, i, j);
      } else if i >= |a| {
        assert Differ(b, i - |a|, j - |a|);
      } else {
        assert a[i] in a && b[j - |a|] in b;
      }
    }
  }

  lemma DropChains(vs: seq<ProcessFeatures>, k: nat)
    requires DistinctChains(vs) && k <= |vs|
    ensures DistinctChains(vs[k..])
  {
    forall i, j | 0 <= i < j < |vs| - k ensures Differ(vs[k..], i, j) {
      assert Differ(vs, i + k, j + k);
    }
  }

  /** The baseline stays duplicate-free and capped. */
  lemma AddKeepsBaseline(cfg: Config, baseline: seq<ProcessFeatures>, vs: seq<ProcessFeatures>)
    requires BaselineOk(cfg, baseline) && DistinctChains(vs)
    ensures BaselineOk(cfg, AddToBaseline(cfg, baseline, vs))
  {
    var added := Filter(vs, NewTo(baseline));
    FilterChains(vs, NewTo(baseline));
    AddedAreNew(baseline, vs);
    AppendChains(baseline, added);
    CapKeepsChains(cfg, baseline + added);
  }

  lemma AddedAreNew(baseline: seq<ProcessFeatures>, vs: seq<ProcessFeatures>)
    ensures forall v, w :: v in baseline && w in Filter(vs, NewTo(baseline)) ==> v.chainKey != w.chainKey
  {
    forall v, w | v in baseline && w in Filter(vs, NewTo(baseline)) ensures v.chainKey != w.chainKey {
      assert v.chainKey in KeysOf(baseline) && w.chainKey !in KeysOf(baseline);
    }
  }

  lemma CapKeepsChains(cfg: Config, all: seq<ProcessFeatures>)
    requires DistinctChains(all)
    ensures BaselineOk(cfg, if cfg.baselineMax != 0 then LastN(all, cfg.baselineMax) else all)
  {
    if cfg.baselineMax != 0 && |all| > cfg.baselineMax {
      DropChains(all, |all| - cfg.baselineMax);
    }
  }

  lemma OneChain(v: ProcessFeatures)
    ensures DistinctChains([v])
  {
  }

  /** The vector just added, or an earlier one of the same chain, is in the baseline. */
  lemma OneAdded(cfg: Config, baseline: seq<ProcessFeatures>, v: ProcessFeatures)
    requires cfg.baselineMax != 0 ==> |baseline| <= cfg.baselineMax
    ensures v.chainKey in KeysOf(AddToBaseline(cfg, baseline, [v]))
  {
    var r := AddToBaseline(cfg, baseline, [v]);
    if v.chainKey in KeysOf(baseline) {
      assert Filter([v], NewTo(baseline)) == [];
      assert r == baseline;
    } else {
      assert Filter([v], NewTo(baseline)) == [v];
      assert r[|r| - 1] == v;
    }
  }

  lemma ReweightKeepsBaseline(cfg: Config, baseline: seq<ProcessFeatures>, ledger: seq<LedgerEntry>)
    requires BaselineOk(cfg, baseline)
    ensures BaselineOk(cfg, ReweightBaseline(baseline, ledger))
  {
    ReweightIsFilter(baseline, ledger);
    FilterChains(baseline, NotMalicious(ledger));
  }

  lemma ReweightMembers(baseline: seq<ProcessFeatures>, ledger: seq<LedgerEntry>)
    ensures forall v :: v in ReweightBaseline(baseline, ledger) <==>
      v in baseline && v.chainKey !in KeysWith(ledger, MALICIOUS)
  {
    ReweightIsFilter(baseline, ledger);
  }

  /** A list the periodic or analyst refit may train on, under the verdicts of `ledger`. */
  ghost predicate CleanTraining(cfg: Config, vs: seq<ProcessFeatures>, ledger: seq<LedgerEntry>) {
    && |vs| >= 2 && BaselineOk(cfg, vs)
    && (forall v :: v in vs ==> v.chainKey !in KeysWith(ledger, MALICIOUS))
  }

  lemma RefitTrainsClean(cfg: Config, s: State)
    requires BaselineOk(cfg, s.baseline)
    ensures var s1 := Refit(s);
      s1.model == s.model ||
      (CleanTraining(cfg, ReweightBaseline(s.baseline, s.ledger), s.ledger) &&
       s1.model == s.model.(fits := s.model.fits + [ReweightBaseline(s.baseline, s.ledger)]))
  {
    ReweightKeepsBaseline(cfg, s.baseline, s.ledger);
    ReweightMembers(s.baseline, s.ledger);
  }

  lemma SettleTrains(eng: Engine, cfg: Config, s: State, v: ProcessFeatures, d: Detection)
    requires TrainingInv(cfg, s)
    ensures var s1 := Settle(eng, cfg, s, v, d);
      TrainingInv(cfg, s1) && s1.model == s.model && s1.ledger == s.ledger
  {
    OneChain(v);
    AddKeepsBaseline(cfg, s.baseline, [v]);
  }

  lemma {:induction false} AnalyzeVectorsTrain(eng: Engine, cfg: Config, s: State, vs: seq<ProcessFeatures>,
        useCache: bool)
    requires TrainingInv(cfg, s)
    ensures var s1 := AnalyzeVectors(eng, cfg, s, vs, useCache);
      TrainingInv(cfg, s1) && s1.model == s.model && s1.ledger == s.ledger
  {
    if vs != [] {
      var n := |vs| - 1;
      AnalyzeVectorsTrain(eng, cfg, s, vs[..n], useCache);
      var s1, v := AnalyzeVectors(eng, cfg, s, vs[..n], useCache), vs[n];
      var d := ScoreOf(eng, s1, v, useCache);
      SettleTrains(eng, cfg, s1.(cache := CacheAfter(s1, v, d, useCache)), v, d);
    }
  }

  /** What one step may add to the training history: at most one list, and which. */
  ghost predicate TrainsOn(cfg: Config, s: State, op: Op, s1: State) {
    s1.model == s.model ||
    (exists vs: seq<ProcessFeatures> ::
      && s1.model == s.model.(fits := s.model.fits + [vs])
      && if op.AnalyzeWindow? || op.LabelChain? then CleanTraining(cfg, vs, s1.ledger)
         else vs != [] && vs == s1.baseline && BaselineOk(cfg, vs))
  }

  lemma RelabelTrains(cfg: Config, s: State, key: string, verdict: string, ledger: seq<LedgerEntry>, op: Op)
    requires TrainingInv(cfg, s) && op.LabelChain?
    ensures var s1 := Relabel(cfg, s, key, verdict, ledger);
      TrainingInv(cfg, s1) && TrainsOn(cfg, s, op, s1)
  {
    var folded := s.baseline;
    if verdict == BENIGN && key in s.vectors {
      folded := AddToBaseline(cfg, s.baseline, [s.vectors[key]]);
      OneChain(s.vectors[key]);
      AddKeepsBaseline(cfg, s.baseline, [s.vectors[key]]);
    }
    ReweightKeepsBaseline(cfg, folded, ledger);
    RefitTrainsClean(cfg, s.(ledger := ledger, baseline := ReweightBaseline(folded, ledger)));
  }

  lemma CompleteTrains(cfg: Config, s: State, vs: seq<ProcessFeatures>, op: Op)
    requires TrainingInv(cfg, s) && DistinctChains(vs) && !op.AnalyzeWindow? && !op.LabelChain?
    ensures TrainingInv(cfg, Complete(cfg, s, vs)) && TrainsOn(cfg, s, op, Complete(cfg, s, vs))
  {
    if s.baseline == [] {
      AddKeepsBaseline(cfg, [], vs);
    }
  }

  lemma LearnTickTrains(
      cfg: Config, s: State, minWindows: Option<nat>, normalEnd: Option<real>, elapsed: Option<real>,
      vs: seq<ProcessFeatures>)
    requires TrainingInv(cfg, s) && DistinctChains(vs)
    ensures var s1 := LearnTick(cfg, s, minWindows, normalEnd, elapsed, vs);
      TrainingInv(cfg, s1) && TrainsOn(cfg, s, LearningStep(minWindows, normalEnd, elapsed, vs), s1)
  {
    var op := LearningStep(minWindows, normalEnd, elapsed, vs);
    var s1 := s.(ticks := s.ticks + 1);
    CompleteTrains(cfg, s1, vs, op);
    assert TrainsOn(cfg, s, op, Complete(cfg, s1, vs));
  }

  lemma AnalyzeTrains(eng: Engine, cfg: Config, s: State, vs: seq<ProcessFeatures>)
    requires TrainingInv(cfg, s)
    ensures var s1 := Analyze(eng, cfg, s, vs, true);
      TrainingInv(cfg, s1) && TrainsOn(cfg, s, AnalyzeWindow(vs), s1)
  {
    if !s.learning {
      AnalyzeVectorsTrain(eng, cfg, s, vs, true);
      RefitTrainsClean(cfg, AnalyzeVectors(eng, cfg, s, vs, true).(sinceRefit := 0));
    }
  }

  lemma LabelTrains(cfg: Config, s: State, reportId: nat, verdict: string, note: Option<string>, now: nat)
    requires TrainingInv(cfg, s)
    ensures var s1 := Label(cfg, s, reportId, verdict, note, now);
      TrainingInv(cfg, s1) && TrainsOn(cfg, s, LabelChain(reportId, verdict, note, now), s1)
  {
    var a := AcceptVerdict(s.reports, s.ledger, reportId, verdict, note, now);
    if a.Some? && a.value.changed {
      RelabelTrains(cfg, s, a.value.key, verdict, a.value.ledger, LabelChain(reportId, verdict, note, now));
    }
  }

  lemma StepTrains(eng: Engine, cfg: Config, s: State, op: Op)
    requires TrainingInv(cfg, s) && OneVectorPerChain(op)
    ensures var s1 := Step(eng, cfg, s, op, true);
      TrainingInv(cfg, s1) && TrainsOn(cfg, s, op, s1)
  {
    match op
    case Accumulate(vs) => AddKeepsBaseline(cfg, s.baseline, vs);
    case LearningStep(minWindows, normalEnd, elapsed, vs) => LearnTickTrains(cfg, s, minWindows, normalEnd, elapsed, vs);
    case CompleteLearning(vs) => CompleteTrains(cfg, s, vs, op);
    case AnalyzeWindow(vs) => AnalyzeTrains(eng, cfg, s, vs);
    case LabelChain(reportId, verdict, note, now) => LabelTrains(cfg, s, reportId, verdict, note, now);
  }

  /**
   * Over every run: the baseline has one vector per chain and respects the cap, and each
   * step trains on at most one list, which for a refit has at least two vectors and no
   * chain that is labelled malicious at that moment.
   */
  lemma {:induction false} TrainingStaysClean(eng: Engine, cfg: Config, loaded: bool, ledger: seq<LedgerEntry>,
        ops: seq<Op>)
    requires forall op :: op in ops ==> OneVectorPerChain(op)
    ensures TrainingInv(cfg, Run(eng, cfg, Start(loaded, ledger), ops, true))
    ensures ops != [] ==>
      var n := |ops| - 1;
      TrainsOn(cfg, Run(eng, cfg, Start(loaded, ledger), ops[..n], true), ops[n],
               Run(eng, cfg, Start(loaded, ledger), ops, true))
  {
    if ops != [] {
      var n := |ops| - 1;
      assert ops[n] in ops && forall op :: op in ops[..n] ==> op in ops;
      TrainingStaysClean(eng, cfg, loaded, ledger, ops[..n]);
      StepTrains(eng, cfg, Run(eng, cfg, Start(loaded, ledger), ops[..n], true), ops[n]);
    }
  }

  /** No step gives a chain two verdicts. */
  lemma StepKeepsKeys(eng: Engine, cfg: Config, s: State, op: Op)
    requires TrainingInv(cfg, s) && DistinctKeys(s.ledger)
    ensures DistinctKeys(Step(eng, cfg, s, op, true).ledger)
  {
    match op
    case AnalyzeWindow(vs) => AnalyzeVectorsTrain(eng, cfg, s, vs, true);
    case LabelChain(reportId, verdict, note, now) => LabelKeepsKeys(cfg, s, reportId, verdict, note, now);
    case _ =>
  }

  lemma LabelKeepsKeys(cfg: Config, s: State, reportId: nat, verdict: string, note: Option<string>, now: nat)
    requires DistinctKeys(s.ledger)
    ensures DistinctKeys(Label(cfg, s, reportId, verdict, note, now).ledger)
  {
    var found := FindReport(s.reports, reportId);
    if found.Some? {
      PutIsAssignment(s.ledger, LedgerEntry(found.value.detection.chainKey, verdict, Some(reportId), note, now));
    }
  }

  lemma {:induction false} KeysStayDistinct(eng: Engine, cfg: Config, loaded: bool, ledger: seq<LedgerEntry>,
        ops: seq<Op>)
    requires DistinctKeys(ledger) && forall op :: op in ops ==> OneVectorPerChain(op)
    ensures DistinctKeys(Run(eng, cfg, Start(loaded, ledger), ops, true).ledger)
  {
    if ops != [] {
      var n := |ops| - 1;
      assert ops[n] in ops && forall op :: op in ops[..n] ==> op in ops;
      KeysStayDistinct(eng, cfg, loaded, ledger, ops[..n]);
      TrainingStaysClean(eng, cfg, loaded, ledger, ops[..n]);
      StepKeepsKeys(eng, cfg, Run(eng, cfg, Start(loaded, ledger), ops[..n], true), ops[n]);
    }
  }

  /** The report labelled is one the state knows, of a chain that has not that verdict already. */
  predicate ChangesLabel(s: State, reportId: nat, verdict: string) {
    && (verdict == BENIGN || verdict == MALICIOUS)
    && FindReport(s.reports, reportId).Some?
    && var key := FindReport(s.reports, reportId).value.detection.chainKey;
       key != "" && VerdictFor(s.ledger, key) != Some(verdict)
  }

  /** The effect of a changed label of the chain `key`, between `s` and `s1`. */
  ghost predicate LabelHolds(s: State, key: string, verdict: string, s1: State) {
    && key !in s1.cache
    && VerdictFor(s1.ledger, key) == Some(verdict)
    && (verdict == BENIGN && key in s.vectors ==> key in KeysOf(s1.baseline))
    && (verdict == MALICIOUS ==> key !in KeysOf(s1.baseline))
  }

  lemma RelabelHolds(cfg: Config, s: State, key: string, verdict: string, ledger: seq<LedgerEntry>)
    requires TrainingInv(cfg, s)
    requires VerdictFor(ledger, key) == Some(verdict)
    requires key in KeysWith(ledger, MALICIOUS) <==> verdict == MALICIOUS
    ensures LabelHolds(s, key, verdict, Relabel(cfg, s, key, verdict, ledger))
  {
    if verdict == BENIGN && key in s.vectors {
      OneAdded(cfg, s.baseline, s.vectors[key]);
      ReweightMembers(AddToBaseline(cfg, s.baseline, [s.vectors[key]]), ledger);
    } else {
      ReweightMembers(s.baseline, ledger);
    }
  }

  /**
   * In every reachable state a changed label takes hold at once: a benign chain whose
   * vector is known is in the baseline, a malicious one is out of it, and either way its
   * cached score is gone.
   */
  lemma LabelTakesHold(eng: Engine, cfg: Config, loaded: bool, saved: seq<LedgerEntry>,
        ops: seq<Op>, reportId: nat, verdict: string, note: Option<string>, now: nat)
    requires forall op :: op in ops ==> OneVectorPerChain(op)
    requires ChangesLabel(Run(eng, cfg, Start(loaded, Load(saved)), ops, true), reportId, verdict)
    ensures var s := Run(eng, cfg, Start(loaded, Load(saved)), ops, true);
      LabelHolds(s, FindReport(s.reports, reportId).value.detection.chainKey, verdict,
                 Label(cfg, s, reportId, verdict, note, now))
  {
    LedgerHoldsLatest(saved, "");
    KeysStayDistinct(eng, cfg, loaded, Load(saved), ops);
    TrainingStaysClean(eng, cfg, loaded, Load(saved), ops);
    var s := Run(eng, cfg, Start(loaded, Load(saved)), ops, true);
    var key := FindReport(s.reports, reportId).value.detection.chainKey;
    var e := LedgerEntry(key, verdict, Some(reportId), note, now);
    PutIsAssignment(s.ledger, e);
    KeysWithVerdict(Put(s.ledger, e), key, MALICIOUS);
    RelabelHolds(cfg, s, key, verdict, Put(s.ledger, e));
  }
}
