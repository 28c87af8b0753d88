/** Whole runs of requests and rollbacks: the host, its directories, dry runs and restarts. */
module ContainmentRuns {
  import opened Wrappers
  import opened Sequences
  import opened Containment
  import opened ContainmentRollback

  datatype Step = Do(req: Request) | RollbackReport(reportId: Option<string>)

  function StepState(cfg: Config, s: State, step: Step): (r: State) {
    match step
    case Do(req) => ApplyStep(cfg, s, req).0
    case RollbackReport(reportId) => RollbackAllStep(cfg, s, reportId).0
  }

  function RunSteps(cfg: Config, s: State, steps: seq<Step>): (r: State) {
    if steps == [] then s else StepState(cfg, RunSteps(cfg, s, steps[..|steps| - 1]), steps[|steps| - 1])
  }

  /**
   * What a live step must respect: an effect that takes place has a fresh id and a target
   * that no live entry holds and that is not frozen or blocked already.
   */
  ghost predicate CleanStep(cfg: Config, s: State, step: Step) {
    step.Do? ==>
      var op := OpOf(cfg, step.req.action, step.req.now);
      op.Some? && Perform(cfg, op.value, s.world).Ok? ==>
        && (forall x :: x in s.entries ==> x.id != step.req.id)
        && (cfg.dryRun ||
            (Admissible(op.value, s.world) &&
             forall x :: x in s.entries ==> Footprint(x.op) !! Footprint(op.value)))
  }

  ghost predicate CleanSteps(cfg: Config, s: State, steps: seq<Step>) {
    steps == [] ||
    (CleanSteps(cfg, s, steps[..|steps| - 1]) &&
     CleanStep(cfg, RunSteps(cfg, s, steps[..|steps| - 1]), steps[|steps| - 1]))
  }

  /** The requests among the steps, in order. */
  function RequestsOf(steps: seq<Step>): (r: seq<Request>) {
    if steps == [] then []
    else
      var last := steps[|steps| - 1];
      RequestsOf(steps[..|steps| - 1]) + if last.Do? then [last.req] else []
  }

  /* -------------------------------------------------------------- directories and dry runs */

  lemma DirsAfterUndo(cfg: Config, w0: World, s: State, reqs: seq<Request>, t: ContainmentEntry)
    requires DirInv(cfg, w0, s, reqs)
    requires WellFormed(t) && (t.op.Quarantine? ==> DirThere(s.world, cfg.quarantineDir))
    ensures var s1 := RollbackStep(cfg, s, t).0;
      DirInv(cfg, w0, s1, reqs) && s1.world.dirs == s.world.dirs
  {
    DirsKept(cfg, t.op, s.world);
    RemoveKeeps(s.entries, t);
  }

  lemma {:induction false} RemoveKeeps<T>(s: seq<T>, x: T)
    ensures forall y :: y in Remove(s, x) ==> y in s
  {
    if s != [] {
      RemoveKeeps(s[1..], x);
    }
  }

  lemma {:induction false} DirsAfterRollback(
      cfg: Config, w0: World, s: State, reqs: seq<Request>, targets: seq<ContainmentEntry>)
    requires DirInv(cfg, w0, s, reqs)
    requires forall t :: t in targets ==> WellFormed(t) && (t.op.Quarantine? ==> DirThere(s.world, cfg.quarantineDir))
    ensures DirInv(cfg, w0, RollbackTargets(cfg, s, targets).0, reqs)
    decreases |targets|
  {
    if targets != [] {
      assert targets[0] in targets && forall t :: t in targets[1..] ==> t in targets;
      DirsAfterUndo(cfg, w0, s, reqs, targets[0]);
      DirsAfterRollback(cfg, w0, RollbackStep(cfg, s, targets[0]).0, reqs, targets[1..]);
    }
  }

  /**
   * Over every run, live or dry, failures and rollbacks included: the quarantine directory
   * is made by the first quarantine request if it can be, and nothing else touches any
   * directory, ever.
   */
  lemma {:induction false} DirectoriesOfRun(cfg: Config, w0: World, steps: seq<Step>)
    ensures DirInv(cfg, w0, RunSteps(cfg, Start(w0), steps), RequestsOf(steps))
  {
    if steps != [] {
      var init, last := steps[..|steps| - 1], steps[|steps| - 1];
      DirectoriesOfRun(cfg, w0, init);
      var s := RunSteps(cfg, Start(w0), init);
      match last
      case Do(req) => DirsAfterApply(cfg, w0, s, RequestsOf(init), req);
      case RollbackReport(reportId) =>
        assert RequestsOf(steps) == RequestsOf(init);
        DirsAfterRollback(cfg, w0, s, RequestsOf(init), Filter(s.entries, SelectedBy(reportId)));
    }
  }

  lemma DryApply(cfg: Config, s: State, req: Request)
    requires cfg.dryRun
    ensures var w1 := ApplyStep(cfg, s, req).0.world; w1 == s.world.(dirs := w1.dirs)
  {
  }

  lemma {:induction false} DryRollback(cfg: Config, s: State, targets: seq<ContainmentEntry>)
    requires cfg.dryRun
    ensures RollbackTargets(cfg, s, targets).0.world == s.world
    decreases |targets|
  {
    if targets != [] {
      DryRollback(cfg, RollbackStep(cfg, s, targets[0]).0, targets[1..]);
    }
  }

  lemma {:induction false} DryRunHost(cfg: Config, w0: World, steps: seq<Step>)
    requires cfg.dryRun
    ensures var w := RunSteps(cfg, Start(w0), steps).world; w == w0.(dirs := w.dirs)
  {
    if steps != [] {
      DryRunHost(cfg, w0, steps[..|steps| - 1]);
      var s := RunSteps(cfg, Start(w0), steps[..|steps| - 1]);
      match steps[|steps| - 1]
      case Do(req) => DryApply(cfg, s, req);
      case RollbackReport(reportId) => DryRollback(cfg, s, Filter(s.entries, SelectedBy(reportId)));
    }
  }

  /**
   * A dry run leaves the host as it was exactly when it holds no quarantine request, or
   * the quarantine directory is already there, or a file stands in its way.
   */
  lemma DryRunTouchesNothingIff(cfg: Config, w0: World, steps: seq<Step>)
    requires cfg.dryRun
    ensures RunSteps(cfg, Start(w0), steps).world == w0 <==>
      !Needed(RequestsOf(steps)) || DirThere(w0, cfg.quarantineDir) || !CanMake(cfg, w0)
  {
    DryRunHost(cfg, w0, steps);
    DirectoriesOfRun(cfg, w0, steps);
    if CanMake(cfg, w0) {
      MadeDirsOnly(w0, cfg.quarantineDir);
    }
  }

  /** The dry run that does change the host: one quarantine request on a fresh installation. */
  lemma DryQuarantineMakesDirectory(w0: World, req: Request)
    requires w0.dirs == {} && w0.files == map[] && req.action.QuarantineFile?
    ensures var cfg := Config(true, "q", false);
      RunSteps(cfg, Start(w0), [Do(req)]).world == w0.(dirs := {"q"})
  {
    var cfg := Config(true, "q", false);
    var none: seq<Step> := [];
    assert [Do(req)][..0] == none;
    assert RunSteps(cfg, Start(w0), [Do(req)]) == ApplyStep(cfg, Start(w0), req).0;
    assert WithParents("q") == {"q"} by {
      assert "q"[..1] == "q";
    }
  }

  /* ------------------------------------------------------------------ the host over a run */

  ghost predicate Inv(cfg: Config, w0: World, s: State) {
    Distinct(s.entries) && Compatible(cfg, w0, Elements(s.entries)) && Carries(cfg, w0, s)
  }

  /**
   * Over any run mixing requests and per-report rollbacks, the host is always the start
   * plus the effects of the entries still listed, with the quarantine directory if a
   * request needed it: nothing else leaks and nothing is undone twice.
   */
  lemma {:induction false} HostMatchesEntries(cfg: Config, w0: World, steps: seq<Step>)
    requires CleanSteps(cfg, Start(w0), steps)
    ensures var s := RunSteps(cfg, Start(w0), steps);
      Inv(cfg, w0, s) && s.world.dirs == DirsAfter(cfg, w0, RequestsOf(steps))
  {
    DirectoriesOfRun(cfg, w0, steps);
    if steps != [] {
      var init, last := steps[..|steps| - 1], steps[|steps| - 1];
      HostMatchesEntries(cfg, w0, init);
      InvStep(cfg, w0, RunSteps(cfg, Start(w0), init), last);
    }
  }

  lemma InvDo(cfg: Config, w0: World, s: State, req: Request)
    requires Inv(cfg, w0, s) && CleanStep(cfg, s, Do(req))
    ensures Inv(cfg, w0, ApplyStep(cfg, s, req).0)
  {
    var op := OpOf(cfg, req.action, req.now);
    if op.Some? && Perform(cfg, op.value, s.world).Ok? {
      ApplyOne(cfg, w0, s, req, op.value);
    }
  }

  lemma InvRollback(cfg: Config, w0: World, s: State, reportId: Option<string>)
    requires Inv(cfg, w0, s)
    ensures Inv(cfg, w0, RollbackAllStep(cfg, s, reportId).0)
  {
    RollbackAllOfCompatible(cfg, w0, s, reportId);
    FilterDistinct(s.entries, Kept(reportId));
  }

  lemma InvStep(cfg: Config, w0: World, s: State, step: Step)
    requires Inv(cfg, w0, s) && CleanStep(cfg, s, step)
    ensures Inv(cfg, w0, StepState(cfg, s, step))
  {
    match step
    case Do(req) => InvDo(cfg, w0, s, req);
    case RollbackReport(reportId) => InvRollback(cfg, w0, s, reportId);
  }

  /**
   * After any clean run, a full rollback leaves only the kills in the list; on the host it
   * leaves only them and the quarantine directory, if a request needed it.
   */
  lemma FullRollbackLeavesOnlyKills(cfg: Config, w0: World, steps: seq<Step>)
    requires CleanSteps(cfg, Start(w0), steps)
    ensures var after := RollbackAllStep(cfg, RunSteps(cfg, Start(w0), steps), None).0;
      && (forall e :: e in after.entries ==> e.op.Kill?)
      && Carries(cfg, w0, after)
      && after.world.blocked == w0.blocked && after.world.files == w0.files
      && after.world.dirs == DirsAfter(cfg, w0, RequestsOf(steps))
      && (forall pid :: pid in after.world.procs ==> pid in w0.procs && after.world.procs[pid] == w0.procs[pid])
  {
    var s := RunSteps(cfg, Start(w0), steps);
    HostMatchesEntries(cfg, w0, steps);
    RollbackAllOfCompatible(cfg, w0, s, None);
    var kills := RollbackAllStep(cfg, s, None).0.entries;
    forall e | e in kills ensures e.op.Kill? {
      assert e in Elements(s.entries);
    }
    KillEffects(cfg, w0.(dirs := s.world.dirs), kills);
  }

  lemma {:induction false} KillEffects(cfg: Config, w0: World, es: seq<ContainmentEntry>)
    requires forall e :: e in es ==> e.op.Kill?
    ensures var w := Effects(cfg, w0, es);
      && w.blocked == w0.blocked && w.files == w0.files
      && (forall pid :: pid in w.procs ==> pid in w0.procs && w.procs[pid] == w0.procs[pid])
  {
    if es != [] {
      assert es[|es| - 1] in es;
      KillEffects(cfg, w0, es[..|es| - 1]);
    }
  }

  /* -------------------------------------------------------------------- restarts */

  function Records(es: seq<ContainmentEntry>): (r: seq<Record>)
    ensures |r| == |es|
  {
    seq(|es|, i requires 0 <= i < |es| => ToRecord(es[i]))
  }

  lemma ReloadRecords(es: seq<ContainmentEntry>)
    requires forall e :: e in es ==> WellFormed(e)
    ensures Reload(Records(es)) == es
  {
    assert forall i :: 0 <= i < |es| ==> es[i] in es;
  }

  /** The file against the lists: nothing leaves it, and it follows the entries until a rollback. */
  ghost predicate Persisted(s: State) {
    && (forall e :: e in s.entries ==> WellFormed(e))
    && multiset(s.file) == multiset(Records(s.entries)) + multiset(Records(s.rolledBack))
    && (s.rolledBack == [] ==> s.file == Records(s.entries))
  }

  lemma {:induction false} RemoveRecords(es: seq<ContainmentEntry>, e: ContainmentEntry)
    requires e in es
    ensures multiset(Records(es)) == multiset(Records(Remove(es, e))) + multiset{ToRecord(e)}
    ensures forall x :: x in Remove(es, e) ==> x in es
  {
    assert Records(es) == [ToRecord(es[0])] + Records(es[1..]);
    if es[0] != e {
      RemoveRecords(es[1..], e);
      assert Records(Remove(es, e)) == [ToRecord(es[0])] + Records(Remove(es[1..], e));
    }
  }

  lemma PersistedApply(cfg: Config, s: State, req: Request)
    requires cfg.persist && Persisted(s)
    ensures Persisted(ApplyStep(cfg, s, req).0)
  {
    var op := OpOf(cfg, req.action, req.now);
    if op.Some? {
      var e := EntryFor(op.value, req);
      assert Records(s.entries + [e]) == Records(s.entries) + [ToRecord(e)];
    }
  }

  lemma PersistedRollback(cfg: Config, s: State, e: ContainmentEntry)
    requires cfg.persist && Persisted(s) && e in s.entries
    ensures var s1 := RollbackStep(cfg, s, e).0;
      Persisted(s1) && s1.file == s.file
  {
    var s1 := RollbackStep(cfg, s, e).0;
    if s1 != s {
      RemoveRecords(s.entries, e);
      assert Records(s.rolledBack + [e]) == Records(s.rolledBack) + [ToRecord(e)];
    }
  }

  lemma {:induction false} PersistedTargets(cfg: Config, s: State, targets: seq<ContainmentEntry>)
    requires cfg.persist && Persisted(s) && Distinct(s.entries) && Distinct(targets)
    requires forall e :: e in targets ==> e in s.entries
    ensures var s1 := RollbackTargets(cfg, s, targets).0;
      Persisted(s1) && Distinct(s1.entries) && s1.file == s.file && forall e :: e in s1.entries ==> e in s.entries
    decreases |targets|
  {
    if targets != [] {
      var t, rest := targets[0], targets[1..];
      assert t in targets && forall e :: e in rest ==> e in targets && e != t;
      var s1 := RollbackStep(cfg, s, t).0;
      PersistedRollback(cfg, s, t);
      RemoveIsFilter(s.entries, t);
      FilterDistinct(s.entries, Except(t));
      PersistedTargets(cfg, s1, rest);
    }
  }

  /** Entry ids are never reused (they come from uuid4). */
  ghost predicate FreshIds(cfg: Config, s: State, steps: seq<Step>) {
    steps == [] ||
    (var s1 := RunSteps(cfg, s, steps[..|steps| - 1]);
     && FreshIds(cfg, s, steps[..|steps| - 1])
     && (steps[|steps| - 1].Do? ==> forall e :: e in s1.entries ==> e.id != steps[|steps| - 1].req.id))
  }

  lemma {:induction false} PersistedThroughout(cfg: Config, w0: World, steps: seq<Step>)
    requires cfg.persist && FreshIds(cfg, Start(w0), steps)
    ensures var s := RunSteps(cfg, Start(w0), steps); Persisted(s) && Distinct(s.entries)
  {
    if steps != [] {
      var init, last := steps[..|steps| - 1], steps[|steps| - 1];
      PersistedThroughout(cfg, w0, init);
      var s := RunSteps(cfg, Start(w0), init);
      match last
      case Do(req) => PersistedApply(cfg, s, req);
      case RollbackReport(reportId) =>
        FilterDistinct(s.entries, SelectedBy(reportId));
        PersistedTargets(cfg, s, Filter(s.entries, SelectedBy(reportId)));
    }
  }

  /**
   * Over any run whatsoever, failures and rollbacks included: every recorded entry is
   * either live or named by a rollback audit record, and a restart gives back the live
   * entries with equivalent undos if and only if nothing has been rolled back.
   */
  lemma RestartEquivalence(cfg: Config, w0: World, steps: seq<Step>)
    requires cfg.persist && FreshIds(cfg, Start(w0), steps)
    ensures var s := RunSteps(cfg, Start(w0), steps);
      && multiset(s.file) == multiset(Records(s.entries)) + multiset(Records(s.rolledBack))
      && (Reload(s.file) == s.entries <==> s.rolledBack == [])
  {
    PersistedThroughout(cfg, w0, steps);
    var s := RunSteps(cfg, Start(w0), steps);
    assert |s.file| == |multiset(s.file)| == |Records(s.entries)| + |Records(s.rolledBack)|;
    ReloadRecords(s.entries);
  }

  /** A restart of a run without rollbacks is no different: same host, entries and count. */
  lemma RollbackFreeRestart(cfg: Config, w0: World, steps: seq<Step>, reportId: Option<string>)
    requires cfg.persist && FreshIds(cfg, Start(w0), steps)
    requires RunSteps(cfg, Start(w0), steps).rolledBack == []
    ensures var s := RunSteps(cfg, Start(w0), steps);
      var restarted := State(s.world, Reload(s.file), s.file, []);
      restarted == s && RollbackAllStep(cfg, restarted, reportId) == RollbackAllStep(cfg, s, reportId)
  {
    RestartEquivalence(cfg, w0, steps);
  }

  /** What a run of clean requests and any rollbacks between them keeps. */
  ghost predicate CleanlyRun(cfg: Config, w0: World, s: State, reqs: seq<Request>) {
    && Inv(cfg, w0, s) && DirInv(cfg, w0, s, reqs)
    && s.file == Records(EntriesOf(cfg, reqs))
    && (forall e :: e in s.entries ==> e in EntriesOf(cfg, reqs))
  }

  lemma CleanlyApplied(cfg: Config, w0: World, s: State, reqs: seq<Request>, req: Request)
    requires cfg.persist && CleanlyRun(cfg, w0, s, reqs) && CleanNext(cfg, w0, reqs, req)
    ensures CleanlyRun(cfg, w0, ApplyStep(cfg, s, req).0, reqs + [req])
  {
    DirsAfterApply(cfg, w0, s, reqs, req);
    EntriesOfSnoc(cfg, reqs, req);
    var op := OpOf(cfg, req.action, req.now);
    if op.Some? {
      MadeWhenNeeded(cfg, w0, s, reqs);
      NewEntryIsApart(cfg, w0, reqs, req, op.value);
      ApplyOne(cfg, w0, s, req, op.value);
      RecordsSnoc(EntriesOf(cfg, reqs), EntryFor(op.value, req));
    }
  }

  lemma RecordsSnoc(es: seq<ContainmentEntry>, e: ContainmentEntry)
    ensures Records(es + [e]) == Records(es) + [ToRecord(e)]
  {
  }

  lemma {:induction false} RollbackKeepsFile(cfg: Config, s: State, targets: seq<ContainmentEntry>)
    ensures RollbackTargets(cfg, s, targets).0.file == s.file
    decreases |targets|
  {
    if targets != [] {
      RollbackKeepsFile(cfg, RollbackStep(cfg, s, targets[0]).0, targets[1..]);
    }
  }

  lemma CleanlyRolledBack(cfg: Config, w0: World, s: State, reqs: seq<Request>, reportId: Option<string>)
    requires CleanlyRun(cfg, w0, s, reqs)
    ensures CleanlyRun(cfg, w0, RollbackAllStep(cfg, s, reportId).0, reqs)
  {
    InvStep(cfg, w0, s, RollbackReport(reportId));
    RollbackAllOfCompatible(cfg, w0, s, reportId);
    DirsAfterRollback(cfg, w0, s, reqs, Filter(s.entries, SelectedBy(reportId)));
    RollbackKeepsFile(cfg, s, Filter(s.entries, SelectedBy(reportId)));
  }

  lemma {:induction false} CleanRequestsRun(cfg: Config, w0: World, steps: seq<Step>)
    requires cfg.persist && CleanRequests(cfg, w0, RequestsOf(steps))
    ensures CleanlyRun(cfg, w0, RunSteps(cfg, Start(w0), steps), RequestsOf(steps))
  {
    if steps != [] {
      var init, last := steps[..|steps| - 1], steps[|steps| - 1];
      var s := RunSteps(cfg, Start(w0), init);
      match last
      case Do(req) =>
        CleanPrefix(cfg, w0, RequestsOf(steps));
        assert RequestsOf(steps)[..|RequestsOf(steps)| - 1] == RequestsOf(init);
        CleanRequestsRun(cfg, w0, init);
        CleanlyApplied(cfg, w0, s, RequestsOf(init), req);
      case RollbackReport(reportId) =>
        assert RequestsOf(steps) == RequestsOf(init);
        CleanRequestsRun(cfg, w0, init);
        CleanlyRolledBack(cfg, w0, s, RequestsOf(init), reportId);
    }
  }

  /**
   * After any run of clean requests with rollbacks between them, a restart lists the
   * rolled-back entries again, and still a rollback brings the host to the same place as
   * without the restart: undoing what is already undone does nothing.
   */
  lemma {:induction false} RollbackAfterRestart(cfg: Config, w0: World, steps: seq<Step>, reportId: Option<string>)
    requires cfg.persist && CleanRequests(cfg, w0, RequestsOf(steps))
    ensures var s := RunSteps(cfg, Start(w0), steps);
      var restarted := State(s.world, Reload(s.file), s.file, []);
      RollbackAllStep(cfg, restarted, reportId).0.world == RollbackAllStep(cfg, s, reportId).0.world
  {
    var s := RunSteps(cfg, Start(w0), steps);
    var all := EntriesOf(cfg, RequestsOf(steps));
    CleanRequestsRun(cfg, w0, steps);
    CleanRun(cfg, w0, RequestsOf(steps));
    ReloadRecords(all);
    RestartedRollback(cfg, w0, s, all, reportId);
  }

  lemma RestartedRollback(cfg: Config, w0: World, s: State, all: seq<ContainmentEntry>, reportId: Option<string>)
    requires Inv(cfg, w0, s) && Distinct(all) && Compatible(cfg, w0, Elements(all))
    requires forall e :: e in s.entries ==> e in all
    ensures RollbackAllStep(cfg, State(s.world, all, s.file, []), reportId).0.world
            == RollbackAllStep(cfg, s, reportId).0.world
  {
    var targets := Filter(all, SelectedBy(reportId));
    var w1 := w0.(dirs := s.world.dirs);
    assert Compatible(cfg, w1, Elements(all));
    CompatibleEffects(cfg, w1, Elements(all));
    CompatibleSubset(cfg, w1, Elements(s.entries) + Elements(targets), Elements(all));
    FilterDistinct(all, SelectedBy(reportId));
    forall e | e in targets ensures WellFormed(e) {
      assert e in Elements(all);
    }
    RollbackMany(cfg, w1, State(s.world, all, s.file, []), s.entries, targets);
    FilterCongruence(s.entries, Stays(targets), Kept(reportId));
    RollbackAllOfCompatible(cfg, w0, s, reportId);
  }
}
