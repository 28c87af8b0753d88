/**
 * The learning and detection loop: sliding baseline, score cache, periodic refit and
 * analyst feedback.
 *
 * The detector is any deterministic scorer. Its state is the history of the lists it was
 * fitted on (`Model`), which every deterministic `fit` factors through; `Engine` holds
 * the scoring and response functions.
 */
module Pipeline {
  import opened Wrappers
  import opened Sequences
  import opened Features
  import opened Feedback

  const REPORTS_MAX: nat := 1000

  /** A `baselineMax` or `refitInterval` of 0 switches the cap or the refit off. */
  datatype Config = Config(baselineMax: nat, refitInterval: nat, minLearningWindows: nat)

  /** `loaded`: restored from disk when the pipeline started. */
  datatype Model = Model(loaded: bool, fits: seq<seq<ProcessFeatures>>)

  datatype Score = Score(flagged: bool, detail: string)

  datatype Engine = Engine(
    predict: (Model, ProcessFeatures) -> Score,
    signal: (Model, ProcessFeatures) -> Score,
    respond: (ProcessFeatures, Score) -> seq<string>)

  datatype Detection = Detection(chainKey: string, score: Score)

  datatype Report = Report(id: nat, detection: Detection, actions: seq<string>)

  /** Feature values and the sorted ids of the backing events (a multiset, being sorted). */
  datatype Fingerprint = Fingerprint(values: map<string, real>, ids: multiset<string>)

  datatype State = State(
    learning: bool, signalOnly: bool, baseline: seq<ProcessFeatures>, model: Model,
    ticks: nat, sinceRefit: nat, cache: map<string, (Fingerprint, Detection)>,
    vectors: map<string, ProcessFeatures>, reports: seq<Report>, emitted: seq<Report>,
    ledger: seq<LedgerEntry>)

  /** A learning tick reads the scripted phase end and clock, and the extraction it may need. */
  datatype Op =
    | Accumulate(vs: seq<ProcessFeatures>)
    | LearningStep(minWindows: Option<nat>, normalEnd: Option<real>, elapsed: Option<real>, vs: seq<ProcessFeatures>)
    | CompleteLearning(vs: seq<ProcessFeatures>)
    | AnalyzeWindow(vs: seq<ProcessFeatures>)
    | LabelChain(reportId: nat, verdict: string, note: Option<string>, now: nat)

  /* ------------------------------------------------------------ scoring and caching */

  function IdsOf(events: seq<KernelEvent>): (r: seq<string>)
    ensures |r| == |events|
  {
    seq(|events|, i requires 0 <= i < |events| => events[i].eventId)
  }

  function FingerprintOf(v: ProcessFeatures): (r: Fingerprint) {
    Fingerprint(v.values, multiset(IdsOf(v.relatedEvents)))
  }

  predicate Trained(m: Model) {
    m.loaded || m.fits != []
  }

  /** What scoring `v` from scratch returns under a model and a mode. */
  function Detect(eng: Engine, m: Model, signalOnly: bool, v: ProcessFeatures): (r: Detection) {
    Detection(v.chainKey, if signalOnly || !Trained(m) then eng.signal(m, v) else eng.predict(m, v))
  }

  predicate CacheHit(s: State, v: ProcessFeatures) {
    v.chainKey in s.cache && s.cache[v.chainKey].0 == FingerprintOf(v)
  }

  /* --------------------------------------------------------------- transitions */

  function KeysOf(vs: seq<ProcessFeatures>): (r: set<string>) {
    set v | v in vs :: v.chainKey
  }

  function NewTo(baseline: seq<ProcessFeatures>): (p: ProcessFeatures -> bool)
    ensures forall v :: p(v) <==> v.chainKey !in KeysOf(baseline)
  {
    (v: ProcessFeatures) => v.chainKey !in KeysOf(baseline)
  }

  function AddToBaseline(cfg: Config, baseline: seq<ProcessFeatures>, vs: seq<ProcessFeatures>)
    : (r: seq<ProcessFeatures>)
  {
    var all := baseline + Filter(vs, NewTo(baseline));
    if cfg.baselineMax != 0 then LastN(all, cfg.baselineMax) else all
  }

  function ScoreOf(eng: Engine, s: State, v: ProcessFeatures, useCache: bool): (r: Detection) {
    if useCache && CacheHit(s, v) then s.cache[v.chainKey].1 else Detect(eng, s.model, s.signalOnly, v)
  }

  function CacheAfter(s: State, v: ProcessFeatures, d: Detection, useCache: bool)
    : (r: map<string, (Fingerprint, Detection)>)
  {
    if useCache && !CacheHit(s, v) then s.cache[v.chainKey := (FingerprintOf(v), d)] else s.cache
  }

  /** A scored vector either feeds the baseline or becomes a report. */
  function Settle(eng: Engine, cfg: Config, s: State, v: ProcessFeatures, d: Detection): (r: State) {
    var s1 := s.(vectors := s.vectors[v.chainKey := v]);
    if !d.score.flagged then
      s1.(baseline := AddToBaseline(cfg, s.baseline, [v]))
    else
      var report := Report(|s.emitted|, d, eng.respond(v, d.score));
      s1.(reports := LastN(s.reports + [report], REPORTS_MAX), emitted := s.emitted + [report])
  }

  /** One vector of a window. `useCache` off is the reference pipeline, which always rescores. */
  function AnalyzeVector(eng: Engine, cfg: Config, s: State, v: ProcessFeatures, useCache: bool): (r: State) {
    var d := ScoreOf(eng, s, v, useCache);
    Settle(eng, cfg, s.(cache := CacheAfter(s, v, d, useCache)), v, d)
  }

  function AnalyzeVectors(eng: Engine, cfg: Config, s: State, vs: seq<ProcessFeatures>, useCache: bool): (r: State) {
    if vs == [] then s
    else AnalyzeVector(eng, cfg, AnalyzeVectors(eng, cfg, s, vs[..|vs| - 1], useCache), vs[|vs| - 1], useCache)
  }

  function Refit(s: State): (r: State) {
    var vs := ReweightBaseline(s.baseline, s.ledger);
    if |vs| < 2 then s
    else s.(model := s.model.(fits := s.model.fits + [vs]), cache := map[])
  }

  function MaybeRefit(cfg: Config, s: State): (r: State) {
    if cfg.refitInterval == 0 then s
    else if s.sinceRefit + 1 >= cfg.refitInterval then Refit(s.(sinceRefit := 0))
    else s.(sinceRefit := s.sinceRefit + 1)
  }

  /** Analyzing while still learning raises; the state is untouched. */
  function Analyze(eng: Engine, cfg: Config, s: State, vs: seq<ProcessFeatures>, useCache: bool): (r: State) {
    if s.learning then s else MaybeRefit(cfg, AnalyzeVectors(eng, cfg, s, vs, useCache))
  }

  /** `vs` is the extraction of the whole buffer, used only when no baseline was accumulated. */
  function Complete(cfg: Config, s: State, vs: seq<ProcessFeatures>): (r: State) {
    var baseline := if s.baseline == [] then AddToBaseline(cfg, [], vs) else s.baseline;
    if baseline == [] then s.(signalOnly := true, learning := false)
    else
      s.(baseline := baseline, signalOnly := false, learning := false,
         model := s.model.(fits := s.model.fits + [baseline]))
  }

  function LearnTick(
    cfg: Config, s: State, minWindows: Option<nat>, normalEnd: Option<real>, elapsed: Option<real>,
    vs: seq<ProcessFeatures>): (r: State)
  {
    if !s.learning then s
    else
      var s1 := s.(ticks := s.ticks + 1);
      if normalEnd.Some? then
        if elapsed.Some? && elapsed.value >= normalEnd.value then Complete(cfg, s1, vs) else s1
      else if s1.ticks >= (if minWindows.Some? then minWindows.value else cfg.minLearningWindows) then
        Complete(cfg, s1, vs)
      else s1
  }

  function FindReport(reports: seq<Report>, id: nat): (r: Option<Report>)
    ensures r.Some? ==> r.value in reports && r.value.id == id
    ensures r.None? ==> forall x :: x in reports ==> x.id != id
  {
    if reports == [] then None
    else if reports[0].id == id then Some(reports[0])
    else FindReport(reports[1..], id)
  }

  /** A changed label: fold a benign chain back in, drop malicious ones, refit, forget the score. */
  function Relabel(cfg: Config, s: State, key: string, verdict: string, ledger: seq<LedgerEntry>): (r: State) {
    var folded :=
      if verdict == BENIGN && key in s.vectors
      then AddToBaseline(cfg, s.baseline, [s.vectors[key]]) else s.baseline;
    var s1 := Refit(s.(ledger := ledger, baseline := ReweightBaseline(folded, ledger)));
    s1.(cache := s1.cache - {key})
  }

  /** A verdict accepted for a chain: the ledger after it, and whether the label changed. */
  datatype Accepted = Accepted(key: string, ledger: seq<LedgerEntry>, changed: bool)

  /** Nothing is accepted for an unknown report, nor an unknown verdict (a ValueError). */
  function AcceptVerdict(
    reports: seq<Report>, ledger: seq<LedgerEntry>, reportId: nat, verdict: string, note: Option<string>, now: nat)
    : (r: Option<Accepted>)
  {
    var found := FindReport(reports, reportId);
    if found.None? || found.value.detection.chainKey == "" then None
    else
      var key := found.value.detection.chainKey;
      var recorded := RecordVerdict(ledger, LedgerEntry(key, verdict, Some(reportId), note, now));
      if recorded.None? then None else Some(Accepted(key, recorded.value.0, recorded.value.1))
  }

  function Label(cfg: Config, s: State, reportId: nat, verdict: string, note: Option<string>, now: nat): (r: State) {
    match AcceptVerdict(s.reports, s.ledger, reportId, verdict, note, now)
    case None => s
    case Some(a) => if a.changed then Relabel(cfg, s, a.key, verdict, a.ledger) else s.(ledger := a.ledger)
  }

  function Step(eng: Engine, cfg: Config, s: State, op: Op, useCache: bool): (r: State) {
    match op
    case Accumulate(vs) => s.(baseline := AddToBaseline(cfg, s.baseline, vs))
    case LearningStep(minWindows, normalEnd, elapsed, vs) => LearnTick(cfg, s, minWindows, normalEnd, elapsed, vs)
    case CompleteLearning(vs) => Complete(cfg, s, vs)
    case AnalyzeWindow(vs) => Analyze(eng, cfg, s, vs, useCache)
    case LabelChain(reportId, verdict, note, now) => Label(cfg, s, reportId, verdict, note, now)
  }

  /** After `start`: a persisted detector, when there is one, switches learning off. */
  function Start(loaded: bool, ledger: seq<LedgerEntry>): (s: State) {
    State(!loaded, false, [], Model(loaded, []), 0, 0, map[], map[], [], [], ledger)
  }

  function Run(eng: Engine, cfg: Config, s: State, ops: seq<Op>, useCache: bool): (r: State) {
    if ops == [] then s else Step(eng, cfg, Run(eng, cfg, s, ops[..|ops| - 1], useCache), ops[|ops| - 1], useCache)
  }

  /* -------------------------------------------------------------------- the object */

  class GuardianPipeline {
    const eng: Engine
    const cfg: Config
    const feedback: FeedbackLedger
    var learning: bool
    var signalOnly: bool
    var baseline: seq<ProcessFeatures>
    var model: Model
    var ticks: nat
    var sinceRefit: nat
    var cache: map<string, (Fingerprint, Detection)>
    var vectors: map<string, ProcessFeatures>
    var reports: seq<Report>
    var emitted: seq<Report>

    ghost function Abs(): (s: State)
      reads this, feedback
    {
      State(learning, signalOnly, baseline, model, ticks, sinceRefit, cache, vectors, reports, emitted,
            feedback.entries)
    }

    constructor (eng: Engine, cfg: Config, feedback: FeedbackLedger, loaded: bool)
      ensures this.eng == eng && this.cfg == cfg && this.feedback == feedback
      ensures Abs() == Start(loaded, feedback.entries)
    {
      this.eng := eng;
      this.cfg := cfg;
      this.feedback := feedback;
      learning, signalOnly, baseline, model := !loaded, false, [], Model(loaded, []);
      ticks, sinceRefit, cache, vectors := 0, 0, map[], map[];
      reports, emitted := [], [];
    }

    method FoldIntoBaseline(vs: seq<ProcessFeatures>) returns (count: nat)
      modifies this`baseline
      ensures baseline == AddToBaseline(cfg, old(baseline), vs)
      ensures count == |Filter(vs, NewTo(old(baseline)))|
    {
      var added := Filter(vs, NewTo(baseline));
      baseline := baseline + added;
      if cfg.baselineMax != 0 && |baseline| > cfg.baselineMax {
        baseline := baseline[|baseline| - cfg.baselineMax..];
      }
      count := |added|;
    }

    method Accumulate(vs: seq<ProcessFeatures>) returns (count: nat)
      modifies this
      ensures Abs() == Step(eng, cfg, old(Abs()), Op.Accumulate(vs), true)
    {
      count := FoldIntoBaseline(vs);
    }

    method CompleteLearning(vs: seq<ProcessFeatures>)
      modifies this
      ensures Abs() == Complete(cfg, old(Abs()), vs)
    {
      if baseline == [] {
        var _ := FoldIntoBaseline(vs);
      }
      if baseline == [] {
        signalOnly, learning := true, false;
        return;
      }
      signalOnly := false;
      model := model.(fits := model.fits + [baseline]);
      learning := false;
    }

    method LearningStep(
        minWindows: Option<nat>, normalEnd: Option<real>, elapsed: Option<real>, vs: seq<ProcessFeatures>)
      modifies this
      ensures Abs() == LearnTick(cfg, old(Abs()), minWindows, normalEnd, elapsed, vs)
    {
      if !learning {
        return;
      }
      ticks := ticks + 1;
      if normalEnd.Some? {
        if elapsed.Some? && elapsed.value >= normalEnd.value {
          CompleteLearning(vs);
        }
        return;
      }
      if ticks >= (if minWindows.Some? then minWindows.value else cfg.minLearningWindows) {
        CompleteLearning(vs);
      }
    }

    /** One vector of a window: the body of the loop in `AnalyzeWindow`. */
    method AnalyzeOne(v: ProcessFeatures) returns (report: Option<Report>)
      modifies this
      ensures Abs() == AnalyzeVector(eng, cfg, old(Abs()), v, true)
      ensures emitted == old(emitted) + if report.Some? then [report.value] else []
    {
      vectors := vectors[v.chainKey := v];
      var fingerprint := FingerprintOf(v);
      var d: Detection;
      if v.chainKey in cache && cache[v.chainKey].0 == fingerprint {
        d := cache[v.chainKey].1;
      } else {
        if signalOnly || !Trained(model) {
          d := Detection(v.chainKey, eng.signal(model, v));
        } else {
          d := Detection(v.chainKey, eng.predict(model, v));
        }
        cache := cache[v.chainKey := (fingerprint, d)];
      }
      if !d.score.flagged {
        var _ := FoldIntoBaseline([v]);
        return None;
      }
      var r := Report(|emitted|, d, eng.respond(v, d.score));
      reports := LastN(reports + [r], REPORTS_MAX);
      emitted := emitted + [r];
      report := Some(r);
    }

    /** `None` stands for the RuntimeError of analyzing before learning is complete. */
    method AnalyzeWindow(vs: seq<ProcessFeatures>) returns (newReports: Option<seq<Report>>)
      modifies this
      ensures Abs() == Analyze(eng, cfg, old(Abs()), vs, true)
      ensures old(learning) <==> newReports == None
      ensures newReports.Some? ==> emitted == old(emitted) + newReports.value
    {
      if learning {
        return None;
      }
      var found: seq<Report> := [];
      var i := 0;
      while i < |vs|
        invariant 0 <= i <= |vs|
        invariant Abs() == AnalyzeVectors(eng, cfg, old(Abs()), vs[..i], true)
        invariant emitted == old(emitted) + found
      {
        assert vs[..i + 1][..i] == vs[..i];
        var report := AnalyzeOne(vs[i]);
        if report.Some? {
          found := found + [report.value];
        }
        i := i + 1;
      }
      assert vs[..i] == vs;
      PeriodicRefit();
      newReports := Some(found);
    }

    method RefitDetector()
      modifies this`model, this`cache
      ensures Abs() == Refit(old(Abs()))
    {
      var vs := ReweightBaseline(baseline, feedback.entries);
      if |vs| < 2 {
        return;
      }
      model := model.(fits := model.fits + [vs]);
      cache := map[];
    }

    method PeriodicRefit()
      modifies this`model, this`cache, this`sinceRefit
      ensures Abs() == MaybeRefit(cfg, old(Abs()))
    {
      if cfg.refitInterval == 0 {
        return;
      }
      sinceRefit := sinceRefit + 1;
      if sinceRefit >= cfg.refitInterval {
        sinceRefit := 0;
        RefitDetector();
      }
    }

    /** What `label_chain` does once the ledger says that the label changed. */
    method ApplyLabel(key: string, verdict: string)
      modifies this`baseline, this`model, this`cache
      ensures Abs() == Relabel(cfg, old(Abs()), key, verdict, feedback.entries)
    {
      if verdict == BENIGN && key in vectors {
        var _ := FoldIntoBaseline([vectors[key]]);
      }
      baseline := ReweightBaseline(baseline, feedback.entries);
      RefitDetector();
      cache := cache - {key};
    }

    /** The labelled report, nothing when no report has the id, `Err` for an unknown verdict. */
    method LabelChain(reportId: nat, verdict: string, note: Option<string>, now: nat)
        returns (r: Result<Option<Report>, string>)
      modifies this, feedback, feedback.file
      ensures Abs() == Label(cfg, old(Abs()), reportId, verdict, note, now)
      ensures r.Ok? ==> r.value == FindReport(old(reports), reportId)
      ensures r.Err? <==>
        && FindReport(old(reports), reportId).Some?
        && FindReport(old(reports), reportId).value.detection.chainKey != ""
        && verdict != BENIGN && verdict != MALICIOUS
    {
      var found := FindReport(reports, reportId);
      if found.None? || found.value.detection.chainKey == "" {
        return Ok(found);
      }
      var key := found.value.detection.chainKey;
      var changed := feedback.Record(LedgerEntry(key, verdict, Some(reportId), note, now));
      if changed.None? {
        return Err("ValueError");
      }
      if changed.value {
        ApplyLabel(key, verdict);
      }
      r := Ok(found);
    }
  }

  /* ----------------------------------------- what a fingerprint says about a vector */

  /** Events of one window: a subsequence of everything collected, in collection order. */
  ghost predicate Subsequence(es: seq<KernelEvent>, history: seq<KernelEvent>) {
    if es == [] then true
    else if history == [] then false
    else if es[0] == history[0] then Subsequence(es[1..], history[1..])
    else Subsequence(es, history[1..])
  }

  ghost predicate UniqueIds(history: seq<KernelEvent>) {
    forall i, j :: 0 <= i < j < |history| ==> history[i].eventId != history[j].eventId
  }

  ghost predicate Drawn(history: seq<KernelEvent>, vs: seq<ProcessFeatures>) {
    forall v :: v in vs ==> Subsequence(v.relatedEvents, history)
  }

  lemma {:induction false} SubsequenceElements(es: seq<KernelEvent>, history: seq<KernelEvent>, id: string)
    requires Subsequence(es, history) && id in IdsOf(es)
    ensures id in IdsOf(history)
  {
    if es != [] {
      if es[0] == history[0] {
        var k :| 0 <= k < |es| && IdsOf(es)[k] == id;
        if k > 0 {
          assert IdsOf(es[1..])[k - 1] == id;
          SubsequenceElements(es[1..], history[1..], id);
          var j :| 0 <= j < |history| - 1 && IdsOf(history[1..])[j] == id;
          assert IdsOf(history)[j + 1] == id;
        } else {
          assert IdsOf(history)[0] == id;
        }
      } else {
        SubsequenceElements(es, history[1..], id);
        var j :| 0 <= j < |history| - 1 && IdsOf(history[1..])[j] == id;
        assert IdsOf(history)[j + 1] == id;
      }
    }
  }

  lemma HeadIdIsNew(es: seq<KernelEvent>, history: seq<KernelEvent>)
    requires history != [] && UniqueIds(history) && Subsequence(es, history[1..])
    ensures history[0].eventId !in IdsOf(es)
  {
    forall j | 0 <= j < |history| - 1 ensures IdsOf(history[1..])[j] != history[0].eventId {
      assert history[1..][j] == history[j + 1];
    }
    if history[0].eventId in IdsOf(es) {
      SubsequenceElements(es, history[1..], history[0].eventId);
      assert false;
    }
  }

  /** The set of event ids determines the events: collection order fixes their order. */
  lemma {:induction false} IdsDetermineEvents(a: seq<KernelEvent>, b: seq<KernelEvent>, history: seq<KernelEvent>)
    requires UniqueIds(history) && Subsequence(a, history) && Subsequence(b, history)
    requires multiset(IdsOf(a)) == multiset(IdsOf(b))
    ensures a == b
  {
    assert |multiset(IdsOf(a))| == |a| && |multiset(IdsOf(b))| == |b|;
    if a != [] && b != [] {
      var h := history[0];
      assert IdsOf(a)[0] in multiset(IdsOf(b)) && IdsOf(b)[0] in multiset(IdsOf(a));
      assert IdsOf(a)[0] in IdsOf(b) && IdsOf(b)[0] in IdsOf(a);
      if a[0] == h && b[0] == h {
        TailIds(a);
        TailIds(b);
        IdsDetermineEvents(a[1..], b[1..], history[1..]);
        assert a == [a[0]] + a[1..] && b == [b[0]] + b[1..];
      } else if a[0] != h && b[0] != h {
        IdsDetermineEvents(a, b, history[1..]);
      } else {
        HeadIdIsNew(if a[0] == h then b else a, history);
        assert false;
      }
    }
  }

  lemma TailIds(es: seq<KernelEvent>)
    requires es != []
    ensures multiset(IdsOf(es[1..])) == multiset(IdsOf(es)) - multiset{es[0].eventId}
  {
    assert IdsOf(es) == [es[0].eventId] + IdsOf(es[1..]);
  }

  /** Within one collection history, chain key and fingerprint identify the vector. */
  lemma FingerprintIdentifies(history: seq<KernelEvent>, v: ProcessFeatures, w: ProcessFeatures)
    requires UniqueIds(history)
    requires Subsequence(v.relatedEvents, history) && Subsequence(w.relatedEvents, history)
    requires v.chainKey == w.chainKey && FingerprintOf(v) == FingerprintOf(w)
    ensures v == w
  {
    IdsDetermineEvents(v.relatedEvents, w.relatedEvents, history);
  }
}
