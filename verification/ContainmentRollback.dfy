/** What undoing an effect and rolling back a report restore, and when shared blocks get lost. */
module ContainmentRollback {
  import opened Wrappers
  import opened Sequences
  import opened Containment
  import RE = ReversibleEffects

  /* ------------------------------------------------------ targets and admissibility */

  datatype Resource = Proc(pid: int) | Address(ip: string) | File(path: Path)

  function Footprint(op: Op): (r: set<Resource>) {
    match op
    case Freeze(pid) => {Proc(pid)}
    case Kill(pid) => {Proc(pid)}
    case Block(ip) => {Address(ip)}
    case Quarantine(src, dest) => {File(src), File(dest)}
  }

  /** The target can be acted on and is not yet frozen or blocked; the quarantine name is free. */
  predicate Admissible(op: Op, w: World) {
    match op
    case Freeze(pid) => pid in w.procs && !w.procs[pid]
    case Kill(pid) => pid in w.procs
    case Block(ip) => w.linux && w.nftWorks && ip !in w.blocked
    case Quarantine(src, dest) => src != dest && dest !in w.files
  }

  /** What an operation does to its targets; its directory is accounted for apart. */
  function Effect(cfg: Config, op: Op, w: World): (r: World) {
    var p := Act(cfg, op, w);
    if p.Ok? then p.value else w
  }

  /** The manager's effects and undo closures, as entries act on the host. */
  function HostEffects(cfg: Config): (fx: RE.Effects<ContainmentEntry, World>) {
    RE.Effects(
      (e: ContainmentEntry, w: World) => Effect(cfg, e.op, w),
      (e: ContainmentEntry, w: World) => if e.undo.Some? then RunUndo(cfg, e.undo.value, w) else None,
      (e: ContainmentEntry) => e.reversible && e.undo.Some?,
      (e: ContainmentEntry, w: World) => cfg.dryRun || Admissible(e.op, w))
  }

  /** The host after performing the operations of `es`, in order. */
  function Effects(cfg: Config, w: World, es: seq<ContainmentEntry>): (r: World) {
    RE.Run(HostEffects(cfg), w, es)
  }

  predicate WellFormed(e: ContainmentEntry) {
    e.reversible == !e.op.Kill? && e.undo == ReconstructUndo(e.op)
  }

  /** Each target admissible in `w0` and different targets apart; nothing is asked of a dry run. */
  ghost predicate Compatible(cfg: Config, w0: World, es: set<ContainmentEntry>) {
    && (forall e :: e in es ==> WellFormed(e))
    && (cfg.dryRun ||
        ((forall e :: e in es ==> Admissible(e.op, w0)) &&
         (forall x, y :: x in es && y in es && x != y ==> Footprint(x.op) !! Footprint(y.op))))
  }

  ghost function Elements<T>(s: seq<T>): set<T> {
    set x | x in s
  }

  /**
   * Exactly when one live effect on its target is undone by its own inverse: the target
   * must not have been frozen or blocked before, and the quarantine name must have been free.
   */
  lemma ActUndoneIff(cfg: Config, op: Op, w: World)
    requires !cfg.dryRun && !op.Kill? && Act(cfg, op, w).Ok?
    requires op.Quarantine? ==> op.src != op.dest
    ensures RunUndo(cfg, ReconstructUndo(op).value, Act(cfg, op, w).value) == Some(w) <==> Admissible(op, w)
  {
    match op
    case Freeze(pid) =>
      assert pid in w.procs;
      if !w.procs[pid] {
        assert w.procs[pid := true][pid := false] == w.procs;
      } else {
        assert w.procs[pid := true][pid := false][pid] != w.procs[pid];
      }
    case Block(ip) =>
      if ip !in w.blocked {
        assert w.blocked + {ip} - {ip} == w.blocked;
      }
    case Quarantine(src, dest) =>
      var w1 := Act(cfg, Quarantine(src, dest), w).value;
      if dest !in w.files {
        if src in w.files {
          assert (w1.files - {dest})[src := w1.files[dest]] == w.files;
        }
      } else {
        assert src !in w1.files && dest in w1.files;
        assert dest !in RunUndo(cfg, MoveBack(dest, src), w1).value.files;
      }
  }

  /** Neither an operation on its target nor an undo makes or removes a directory. */
  lemma DirsKept(cfg: Config, op: Op, w: World)
    ensures Act(cfg, op, w).Ok? ==> Act(cfg, op, w).value.dirs == w.dirs
    ensures ReconstructUndo(op).Some? && RunUndo(cfg, ReconstructUndo(op).value, w).Some? ==>
      RunUndo(cfg, ReconstructUndo(op).value, w).value.dirs == w.dirs
  {
  }

  /**
   * A live handler's undo restores the host exactly when its target was admissible and, for
   * a quarantine, the directory was already there; the directory is all it can leave behind.
   */
  lemma UndoInvertsIffAdmissible(cfg: Config, req: Request, w: World)
    requires !cfg.dryRun && OpOf(cfg, req.action, req.now).Some?
    requires !OpOf(cfg, req.action, req.now).value.Kill?
    requires Perform(cfg, OpOf(cfg, req.action, req.now).value, w).Ok?
    ensures var op := OpOf(cfg, req.action, req.now).value;
      var after := Perform(cfg, op, w).value;
      var undone := RunUndo(cfg, ReconstructUndo(op).value, after);
      && (undone == Some(w.(dirs := after.dirs)) <==> Admissible(op, w))
      && (undone == Some(w) <==> Admissible(op, w) && (op.Quarantine? ==> DirThere(w, cfg.quarantineDir)))
  {
    var op := OpOf(cfg, req.action, req.now).value;
    var after := Perform(cfg, op, w).value;
    var made := if op.Quarantine? then MadeDirs(w, cfg.quarantineDir).value else w;
    if op.Quarantine? {
      MadeDirsOnly(w, cfg.quarantineDir);
    }
    DirsKept(cfg, op, made);
    DirsKept(cfg, op, after);
    ActUndoneIff(cfg, op, made);
    assert made == w.(dirs := after.dirs);
  }

  /** Making the directory changes nothing else, and nothing at all exactly when it is there. */
  lemma MadeDirsOnly(w: World, dir: string)
    requires MadeDirs(w, dir).Ok?
    ensures var made := MadeDirs(w, dir).value;
      && made == w.(dirs := made.dirs) && DirThere(made, dir)
      && (made.dirs == w.dirs <==> DirThere(w, dir))
  {
    if !DirThere(w, dir) {
      assert dir[..|dir|] == dir;
    }
  }

  /** Acting on one target neither makes nor breaks admissibility of another. */
  lemma AdmissibleFrame(cfg: Config, op: Op, other: Op, w: World)
    requires Footprint(op) !! Footprint(other)
    ensures Admissible(op, Effect(cfg, other, w)) <==> Admissible(op, w)
  {
    assert forall r :: r in Footprint(op) ==> r !in Footprint(other);
    match op
    case Freeze(pid) => assert Proc(pid) in Footprint(op);
    case Kill(pid) => assert Proc(pid) in Footprint(op);
    case Block(ip) => assert Address(ip) in Footprint(op);
    case Quarantine(src, dest) => assert File(src) in Footprint(op) && File(dest) in Footprint(op);
  }

  /** The file moves of a quarantine undo commute with those of another quarantine. */
  lemma MoveBackCommutes(w: World, src: Path, dest: Path, src2: Path, dest2: Path)
    requires {src, dest} !! {src2, dest2}
    ensures var cfg := Config(false, "", false);
      var u := MoveBack(dest, src);
      RunUndo(cfg, u, Effect(cfg, Quarantine(src2, dest2), w))
      == Some(Effect(cfg, Quarantine(src2, dest2), RunUndo(cfg, u, w).value))
  {
    assert src in {src, dest} && dest in {src, dest} && src2 in {src2, dest2} && dest2 in {src2, dest2};
    var f := w.files;
    if dest in f && src !in f && src2 in f {
      assert ((f - {src2})[dest2 := f[src2]] - {dest})[src := f[dest]]
          == ((f - {dest})[src := f[dest]] - {src2})[dest2 := f[src2]];
    }
  }

  /** Undoing one effect commutes with performing another on a different target. */
  lemma UndoCommutes(cfg: Config, op: Op, other: Op, w: World)
    requires !cfg.dryRun && !op.Kill?
    requires Footprint(op) !! Footprint(other)
    requires RunUndo(cfg, ReconstructUndo(op).value, w).Some?
    ensures var u := ReconstructUndo(op).value;
      RunUndo(cfg, u, Effect(cfg, other, w)) == Some(Effect(cfg, other, RunUndo(cfg, u, w).value))
  {
    match (op, other)
    case (Freeze(pid), Freeze(pid2)) =>
      assert Proc(pid) in Footprint(op) && Proc(pid2) in Footprint(other);
      assert pid2 in w.procs ==> w.procs[pid := false][pid2 := true] == w.procs[pid2 := true][pid := false];
    case (Freeze(pid), Kill(pid2)) =>
      assert Proc(pid) in Footprint(op) && Proc(pid2) in Footprint(other);
      assert (w.procs - {pid2})[pid := false] == w.procs[pid := false] - {pid2};
    case (Block(ip), Block(ip2)) =>
      assert Address(ip) in Footprint(op) && Address(ip2) in Footprint(other);
      assert w.blocked + {ip2} - {ip} == w.blocked - {ip} + {ip2};
    case (Quarantine(src, dest), Quarantine(src2, dest2)) =>
      assert File(src) in Footprint(op) && File(dest) in Footprint(op);
      assert File(src2) in Footprint(other) && File(dest2) in Footprint(other);
      MoveBackCommutes(w, src, dest, src2, dest2);
    case _ =>
  }

  lemma UndoInvertsLast(cfg: Config, e: ContainmentEntry, w: World)
    requires !cfg.dryRun && WellFormed(e) && !e.op.Kill? && Admissible(e.op, w)
    ensures RunUndo(cfg, e.undo.value, Effect(cfg, e.op, w)) == Some(w)
  {
    match e.op
    case Freeze(pid) => assert w.procs[pid := true][pid := false] == w.procs;
    case Block(ip) => assert w.blocked + {ip} - {ip} == w.blocked;
    case Quarantine(src, dest) =>
      if src in w.files {
        var w1 := Moved(w, src, dest);
        assert (w1.files - {dest})[src := w1.files[dest]] == w.files;
      }
  }

  /** Undoing an effect that is not there leaves the host alone. */
  lemma UndoOfNothing(cfg: Config, e: ContainmentEntry, w: World)
    requires !cfg.dryRun && WellFormed(e) && !e.op.Kill? && Admissible(e.op, w)
    ensures RunUndo(cfg, e.undo.value, w) == Some(w)
  {
    match e.op
    case Freeze(pid) => assert w.procs[pid := false] == w.procs;
    case Block(ip) => assert w.blocked - {ip} == w.blocked;
    case Quarantine(src, dest) =>
  }

  lemma ApartWhenDisjoint(cfg: Config, x: ContainmentEntry, y: ContainmentEntry)
    requires WellFormed(x)
    requires cfg.dryRun || Footprint(x.op) !! Footprint(y.op)
    ensures RE.Apart(HostEffects(cfg), x, y)
  {
    var fx := HostEffects(cfg);
    forall w
      ensures fx.admissible(x, fx.perform(y, w)) <==> fx.admissible(x, w)
      ensures fx.undo(x, w).Some? ==> fx.undo(x, fx.perform(y, w)) == Some(fx.perform(y, fx.undo(x, w).value))
    {
      if !cfg.dryRun {
        AdmissibleFrame(cfg, x.op, y.op, w);
        if fx.undo(x, w).Some? {
          UndoCommutes(cfg, x.op, y.op, w);
        }
      }
    }
  }

  lemma EntriesInvertible(cfg: Config, x: ContainmentEntry)
    requires WellFormed(x) && x.reversible
    ensures RE.Invertible(HostEffects(cfg), x)
  {
    var fx := HostEffects(cfg);
    forall w | fx.admissible(x, w)
      ensures fx.undo(x, fx.perform(x, w)) == Some(w) && fx.undo(x, w) == Some(w)
    {
      if !cfg.dryRun {
        UndoInvertsLast(cfg, x, w);
        UndoOfNothing(cfg, x, w);
      }
    }
  }

  lemma CompatibleEffects(cfg: Config, w0: World, es: set<ContainmentEntry>)
    requires Compatible(cfg, w0, es)
    ensures RE.Compatible(HostEffects(cfg), w0, es)
  {
    var fx := HostEffects(cfg);
    forall x | x in es && x.reversible ensures RE.Invertible(fx, x) {
      EntriesInvertible(cfg, x);
    }
    forall x, y | x in es && y in es && x != y && x.reversible ensures RE.Apart(fx, x, y) {
      ApartWhenDisjoint(cfg, x, y);
    }
  }

  /* -------------------------------------------------------------- rollback of a list */

  predicate IsReversible(e: ContainmentEntry) {
    e.reversible
  }

  /** The entries that survive a rollback of `targets`. */
  function Stays(targets: seq<ContainmentEntry>): (p: ContainmentEntry -> bool)
    ensures forall e :: p(e) <==> !(e in targets && e.reversible)
  {
    (e: ContainmentEntry) => !(e in targets && e.reversible)
  }

  /** The undo of `t` takes `t`, and nothing else, out of the effects of `active`. */
  lemma UndoTarget(cfg: Config, w0: World, active: seq<ContainmentEntry>, t: ContainmentEntry)
    requires Distinct(active) && WellFormed(t) && t.reversible
    requires RE.Compatible(HostEffects(cfg), w0, Elements(active) + {t})
    ensures RunUndo(cfg, t.undo.value, Effects(cfg, w0, active)) == Some(Effects(cfg, w0, Filter(active, Except(t))))
  {
    RE.UndoCompatible(HostEffects(cfg), w0, active, t, Elements(active) + {t});
  }

  /** What a rollback leaves when the undo does not raise. */
  lemma StepUndoes(cfg: Config, s: State, t: ContainmentEntry, w: World)
    requires Distinct(s.entries) && t in s.entries && t.reversible && t.undo.Some?
    requires RunUndo(cfg, t.undo.value, s.world) == Some(w)
    ensures RollbackStep(cfg, s, t)
         == (s.(world := w, entries := Filter(s.entries, Except(t)), rolledBack := s.rolledBack + [t]), Undone)
  {
    RemoveIsFilter(s.entries, t);
  }

  /** One rollback on a host that carries the effects of `active`. */
  lemma RollbackOne(cfg: Config, w0: World, s: State, active: seq<ContainmentEntry>, t: ContainmentEntry)
    requires Distinct(active) && Distinct(s.entries)
    requires RE.Compatible(HostEffects(cfg), w0, Elements(active) + {t})
    requires WellFormed(t) && t.reversible && t in s.entries
    requires s.world == Effects(cfg, w0, active)
    ensures RollbackStep(cfg, s, t)
         == (s.(world := Effects(cfg, w0, Filter(active, Except(t))),
                entries := Filter(s.entries, Except(t)),
                rolledBack := s.rolledBack + [t]),
             Undone)
  {
    UndoTarget(cfg, w0, active, t);
    StepUndoes(cfg, s, t, Effects(cfg, w0, Filter(active, Except(t))));
  }

  lemma CompatibleSubset(cfg: Config, w0: World, small: set<ContainmentEntry>, large: set<ContainmentEntry>)
    requires small <= large && RE.Compatible(HostEffects(cfg), w0, large)
    ensures RE.Compatible(HostEffects(cfg), w0, small)
  {
  }

  /** `s2` and the count `n` are what a rollback of `targets` from `s` should leave. */
  ghost predicate RolledBackExactly(
    cfg: Config, w0: World, s: State, active: seq<ContainmentEntry>, targets: seq<ContainmentEntry>,
    s2: State, n: nat)
  {
    && s2.world == Effects(cfg, w0, Filter(active, Stays(targets)))
    && s2.entries == Filter(s.entries, Stays(targets))
    && s2.file == s.file
    && s2.rolledBack == s.rolledBack + Filter(targets, IsReversible)
    && n == |Filter(targets, IsReversible)|
  }

  /** Well-formed entries on a host carrying the effects of `active`, some of them to be rolled back. */
  ghost predicate Ready(
    cfg: Config, w0: World, s: State, active: seq<ContainmentEntry>, targets: seq<ContainmentEntry>)
  {
    && Distinct(active) && Distinct(targets) && Distinct(s.entries)
    && RE.Compatible(HostEffects(cfg), w0, Elements(active) + Elements(targets))
    && (forall e :: e in targets ==> e in s.entries && WellFormed(e))
    && s.world == Effects(cfg, w0, active)
  }

  /**
   * Rolling back `targets` oldest first, on a host carrying the effects of `active`:
   * what remains is the effects of the entries not rolled back. `active` may lack some
   * of the targets, as it does after a restart.
   */
  lemma {:induction false} RollbackMany(
      cfg: Config, w0: World, s: State, active: seq<ContainmentEntry>, targets: seq<ContainmentEntry>)
    requires Ready(cfg, w0, s, active, targets)
    ensures var (s2, n) := RollbackTargets(cfg, s, targets);
      RolledBackExactly(cfg, w0, s, active, targets, s2, n)
    decreases |targets|
  {
    if targets == [] {
      FilterAll(active, Stays(targets));
      FilterAll(s.entries, Stays(targets));
    } else if targets[0].reversible {
      var s1, active1 := ReadyAfterReversible(cfg, w0, s, active, targets);
      RollbackMany(cfg, w0, s1, active1, targets[1..]);
      var (s2, n) := RollbackTargets(cfg, s1, targets[1..]);
      RollbackTargetsStep(cfg, s, targets, s1, Undone);
      ExactAfterReversible(cfg, w0, s, active, targets, s1, s2, n);
    } else {
      ReadyAfterKill(cfg, w0, s, active, targets);
      RollbackMany(cfg, w0, s, active, targets[1..]);
      var (s2, n) := RollbackTargets(cfg, s, targets[1..]);
      RollbackTargetsStep(cfg, s, targets, s, Refused);
      ExactAfterKill(cfg, w0, s, active, targets, s2, n);
    }
  }

  lemma ExactAfterReversible(
      cfg: Config, w0: World, s: State, active: seq<ContainmentEntry>, targets: seq<ContainmentEntry>,
      s1: State, s2: State, n: nat)
    requires targets != [] && targets[0].reversible
    requires s1.entries == Filter(s.entries, Except(targets[0])) && s1.file == s.file
    requires s1.rolledBack == s.rolledBack + [targets[0]]
    requires RolledBackExactly(cfg, w0, s1, Filter(active, Except(targets[0])), targets[1..], s2, n)
    ensures RolledBackExactly(cfg, w0, s, active, targets, s2, n + 1)
  {
    StaysStep(active, targets);
    StaysStep(s.entries, targets);
    ReversibleStep(s.rolledBack, targets);
  }

  lemma ReversibleStep(done: seq<ContainmentEntry>, targets: seq<ContainmentEntry>)
    requires targets != [] && targets[0].reversible
    ensures |Filter(targets, IsReversible)| == 1 + |Filter(targets[1..], IsReversible)|
    ensures done + [targets[0]] + Filter(targets[1..], IsReversible) == done + Filter(targets, IsReversible)
  {
    assert Filter(targets, IsReversible) == [targets[0]] + Filter(targets[1..], IsReversible);
  }

  lemma ExactAfterKill(
      cfg: Config, w0: World, s: State, active: seq<ContainmentEntry>, targets: seq<ContainmentEntry>,
      s2: State, n: nat)
    requires targets != [] && !targets[0].reversible
    requires RolledBackExactly(cfg, w0, s, active, targets[1..], s2, n)
    ensures RolledBackExactly(cfg, w0, s, active, targets, s2, n)
  {
    FilterCongruence(active, Stays(targets[1..]), Stays(targets));
    FilterCongruence(s.entries, Stays(targets[1..]), Stays(targets));
    assert Filter(targets, IsReversible) == Filter(targets[1..], IsReversible);
  }

  lemma ReadyAfterReversible(
      cfg: Config, w0: World, s: State, active: seq<ContainmentEntry>, targets: seq<ContainmentEntry>)
      returns (s1: State, active1: seq<ContainmentEntry>)
    requires Ready(cfg, w0, s, active, targets) && targets != [] && targets[0].reversible
    ensures RollbackStep(cfg, s, targets[0]) == (s1, Undone)
    ensures active1 == Filter(active, Except(targets[0]))
    ensures s1.entries == Filter(s.entries, Except(targets[0])) && s1.file == s.file
    ensures s1.rolledBack == s.rolledBack + [targets[0]]
    ensures Ready(cfg, w0, s1, active1, targets[1..])
  {
    var t, rest := targets[0], targets[1..];
    assert t in targets && forall e :: e in rest ==> e in targets && e != t;
    var all := Elements(active) + Elements(targets);
    active1 := Filter(active, Except(t));
    s1 := s.(world := Effects(cfg, w0, active1), entries := Filter(s.entries, Except(t)),
             rolledBack := s.rolledBack + [t]);
    CompatibleSubset(cfg, w0, Elements(active) + {t}, all);
    RollbackOne(cfg, w0, s, active, t);
    FilterDistinct(active, Except(t));
    FilterDistinct(s.entries, Except(t));
    CompatibleSubset(cfg, w0, Elements(active1) + Elements(rest), all);
  }

  lemma ReadyAfterKill(
      cfg: Config, w0: World, s: State, active: seq<ContainmentEntry>, targets: seq<ContainmentEntry>)
    requires Ready(cfg, w0, s, active, targets) && targets != []
    ensures Ready(cfg, w0, s, active, targets[1..])
  {
    assert forall e :: e in targets[1..] ==> e in targets;
    CompatibleSubset(
      cfg, w0, Elements(active) + Elements(targets[1..]), Elements(active) + Elements(targets));
  }

  lemma RollbackTargetsStep(
      cfg: Config, s: State, targets: seq<ContainmentEntry>, s1: State, outcome: RollbackOutcome)
    requires targets != [] && RollbackStep(cfg, s, targets[0]) == (s1, outcome)
    ensures var (s2, n) := RollbackTargets(cfg, s1, targets[1..]);
      RollbackTargets(cfg, s, targets) == (s2, n + if outcome.Undone? then 1 else 0)
  {
  }

  lemma StaysStep(es: seq<ContainmentEntry>, targets: seq<ContainmentEntry>)
    requires targets != [] && targets[0].reversible
    ensures Filter(Filter(es, Except(targets[0])), Stays(targets[1..])) == Filter(es, Stays(targets))
  {
    FilterTwice(es, Except(targets[0]), Stays(targets[1..]), Stays(targets));
  }

  /** Apart from the directories made since, the host is `w0` with the effects of the listed entries. */
  ghost predicate Carries(cfg: Config, w0: World, s: State) {
    s.world == Effects(cfg, w0.(dirs := s.world.dirs), s.entries)
  }

  /** `rollback_all` on a host whose live entries are compatible. */
  lemma RollbackAllOfCompatible(cfg: Config, w0: World, s: State, reportId: Option<string>)
    requires Distinct(s.entries) && Compatible(cfg, w0, Elements(s.entries)) && Carries(cfg, w0, s)
    ensures var (s2, n) := RollbackAllStep(cfg, s, reportId);
      && s2.entries == Filter(s.entries, Kept(reportId))
      && Carries(cfg, w0, s2) && s2.world.dirs == s.world.dirs
      && n == |Filter(s.entries, Undoable(reportId))|
  {
    var targets := Filter(s.entries, SelectedBy(reportId));
    var w1 := w0.(dirs := s.world.dirs);
    assert Compatible(cfg, w1, Elements(s.entries));
    CompatibleEffects(cfg, w1, Elements(s.entries));
    assert Elements(s.entries) + Elements(targets) == Elements(s.entries);
    FilterDistinct(s.entries, SelectedBy(reportId));
    RollbackMany(cfg, w1, s, s.entries, targets);
    FilterCongruence(s.entries, Stays(targets), Kept(reportId));
    FilterTwice(s.entries, SelectedBy(reportId), IsReversible, Undoable(reportId));
    EffectsOn(cfg, w0, s.world.dirs, Filter(s.entries, Kept(reportId)));
  }

  lemma EffectOn(cfg: Config, op: Op, w: World, dirs: set<string>)
    ensures Effect(cfg, op, w.(dirs := dirs)) == Effect(cfg, op, w).(dirs := dirs)
  {
  }

  /** Effects on targets do not look at directories. */
  lemma {:induction false} EffectsOn(cfg: Config, w: World, dirs: set<string>, es: seq<ContainmentEntry>)
    ensures Effects(cfg, w.(dirs := dirs), es) == Effects(cfg, w, es).(dirs := dirs)
  {
    if es != [] {
      EffectsOn(cfg, w, dirs, es[..|es| - 1]);
      EffectOn(cfg, es[|es| - 1].op, Effects(cfg, w, es[..|es| - 1]), dirs);
    }
  }

  function Undoable(reportId: Option<string>): (p: ContainmentEntry -> bool)
    ensures forall e :: p(e) <==> SelectedBy(reportId)(e) && e.reversible
  {
    (e: ContainmentEntry) => SelectedBy(reportId)(e) && e.reversible
  }

  function Kept(reportId: Option<string>): (p: ContainmentEntry -> bool)
    ensures forall e :: p(e) <==> !(SelectedBy(reportId)(e) && e.reversible)
  {
    (e: ContainmentEntry) => !(SelectedBy(reportId)(e) && e.reversible)
  }

  /* -------------------------------------------------------- the quarantine directory */

  predicate NeedsDir(req: Request) {
    req.action.QuarantineFile?
  }

  predicate Needed(reqs: seq<Request>) {
    exists x :: x in reqs && NeedsDir(x)
  }

  predicate CanMake(cfg: Config, w: World) {
    MadeDirs(w, cfg.quarantineDir).Ok?
  }

  /** The directories after these requests: the quarantine directory is made once, for good. */
  function DirsAfter(cfg: Config, w0: World, reqs: seq<Request>): (r: set<string>) {
    if Needed(reqs) && CanMake(cfg, w0) then MadeDirs(w0, cfg.quarantineDir).value.dirs else w0.dirs
  }

  /** The directories after `reqs`, and what holds as long as the quarantine directory is not there. */
  ghost predicate DirInv(cfg: Config, w0: World, s: State, reqs: seq<Request>) {
    && s.world.dirs == DirsAfter(cfg, w0, reqs)
    && (forall e :: e in s.entries ==> WellFormed(e) && (e.op.Quarantine? ==> DirThere(s.world, cfg.quarantineDir)))
    && (!DirThere(s.world, cfg.quarantineDir) ==> s.world.files == w0.files)
  }

  lemma NeededSnoc(reqs: seq<Request>, req: Request)
    ensures Needed(reqs + [req]) <==> Needed(reqs) || NeedsDir(req)
  {
    assert forall x :: x in reqs + [req] <==> x in reqs || x == req;
  }

  /** Whenever a quarantine comes, its directory can be made exactly if it could at the start. */
  lemma MadeWhenNeeded(cfg: Config, w0: World, s: State, reqs: seq<Request>)
    requires DirInv(cfg, w0, s, reqs)
    ensures DirThere(s.world, cfg.quarantineDir) || CanMake(cfg, s.world) == CanMake(cfg, w0)
    ensures CanMake(cfg, w0) ==> CanMake(cfg, s.world)
    ensures CanMake(cfg, s.world) ==>
      MadeDirs(s.world, cfg.quarantineDir).value.dirs ==
        if CanMake(cfg, w0) then MadeDirs(w0, cfg.quarantineDir).value.dirs else w0.dirs
  {
    if CanMake(cfg, w0) {
      MadeDirsOnly(w0, cfg.quarantineDir);
    }
  }

  lemma DirsAfterApply(cfg: Config, w0: World, s: State, reqs: seq<Request>, req: Request)
    requires DirInv(cfg, w0, s, reqs)
    ensures DirInv(cfg, w0, ApplyStep(cfg, s, req).0, reqs + [req])
  {
    NeededSnoc(reqs, req);
    MadeWhenNeeded(cfg, w0, s, reqs);
    if NeedsDir(req) {
      if CanMake(cfg, s.world) {
        MadeDirsOnly(s.world, cfg.quarantineDir);
      }
    }
  }

  /* ------------------------------------------------------ rollback is exact per report */

  function Start(w0: World): (s: State) {
    State(w0, [], [], [])
  }

  function ApplyAll(cfg: Config, s: State, reqs: seq<Request>): (r: State) {
    if reqs == [] then s
    else ApplyStep(cfg, ApplyAll(cfg, s, reqs[..|reqs| - 1]), reqs[|reqs| - 1]).0
  }

  lemma ApplyAllSnoc(cfg: Config, s: State, init: seq<Request>, last: Request)
    ensures ApplyAll(cfg, s, init + [last]) == ApplyStep(cfg, ApplyAll(cfg, s, init), last).0
  {
    assert (init + [last])[..|init|] == init;
  }

  /** The entries a run of successful requests records. */
  function EntriesOf(cfg: Config, reqs: seq<Request>): (r: seq<ContainmentEntry>) {
    if reqs == [] then []
    else
      var init, last := reqs[..|reqs| - 1], reqs[|reqs| - 1];
      match OpOf(cfg, last.action, last.now)
      case None => EntriesOf(cfg, init)
      case Some(op) => EntriesOf(cfg, init) + [EntryFor(op, last)]
  }

  ghost predicate ApartRequests(cfg: Config, x: Request, y: Request) {
    var a, b := OpOf(cfg, x.action, x.now), OpOf(cfg, y.action, y.now);
    x.id != y.id && (!cfg.dryRun && a.Some? && b.Some? ==> Footprint(a.value) !! Footprint(b.value))
  }

  /**
   * Fresh entry ids, a quarantine directory that can be made if one is needed and, unless in
   * a dry run, distinct targets that are untouched in `w0`.
   */
  ghost predicate CleanRequests(cfg: Config, w0: World, reqs: seq<Request>) {
    && Distinct(reqs) && (Needed(reqs) ==> CanMake(cfg, w0))
    && (forall x, y :: x in reqs && y in reqs && x != y ==> ApartRequests(cfg, x, y))
    && (forall x :: x in reqs ==>
          var op := OpOf(cfg, x.action, x.now); !cfg.dryRun && op.Some? ==> Admissible(op.value, w0))
  }

  lemma {:induction false} EntriesComeFromRequests(cfg: Config, reqs: seq<Request>, e: ContainmentEntry)
    requires e in EntriesOf(cfg, reqs)
    ensures exists x :: x in reqs && OpOf(cfg, x.action, x.now) == Some(e.op) && e == EntryFor(e.op, x)
  {
    var init, last := reqs[..|reqs| - 1], reqs[|reqs| - 1];
    if e in EntriesOf(cfg, init) {
      EntriesComeFromRequests(cfg, init, e);
    } else {
      assert last in reqs;
    }
  }

  lemma NewEntryIsApart(cfg: Config, w0: World, init: seq<Request>, last: Request, op: Op)
    requires OpOf(cfg, last.action, last.now) == Some(op)
    requires forall x :: x in init ==> ApartRequests(cfg, x, last)
    ensures forall e :: e in EntriesOf(cfg, init) ==> e.id != last.id && (cfg.dryRun || Footprint(e.op) !! Footprint(op))
  {
    forall e | e in EntriesOf(cfg, init)
      ensures e.id != last.id && (cfg.dryRun || Footprint(e.op) !! Footprint(op))
    {
      EntriesComeFromRequests(cfg, init, e);
      var r :| r in init && OpOf(cfg, r.action, r.now) == Some(e.op) && e == EntryFor(e.op, r);
      assert ApartRequests(cfg, r, last);
    }
  }

  /** A request that may follow `reqs`: apart from them, admissible, its directory no obstacle. */
  ghost predicate CleanNext(cfg: Config, w0: World, reqs: seq<Request>, req: Request) {
    && (NeedsDir(req) ==> CanMake(cfg, w0))
    && (forall x :: x in reqs ==> ApartRequests(cfg, x, req))
    && var op := OpOf(cfg, req.action, req.now); !cfg.dryRun && op.Some? ==> Admissible(op.value, w0)
  }

  lemma CleanPrefix(cfg: Config, w0: World, reqs: seq<Request>)
    requires CleanRequests(cfg, w0, reqs) && reqs != []
    ensures var init, last := reqs[..|reqs| - 1], reqs[|reqs| - 1];
      CleanRequests(cfg, w0, init) && reqs == init + [last] && CleanNext(cfg, w0, init, last)
  {
    var init, last := reqs[..|reqs| - 1], reqs[|reqs| - 1];
    assert reqs == init + [last] && last in reqs && last !in init;
    assert forall x :: x in init ==> x in reqs;
  }

  /** All of `reqs` succeeded and their effects, and nothing else, are on the host. */
  ghost predicate Ran(cfg: Config, w0: World, s: State, reqs: seq<Request>) {
    && s.entries == EntriesOf(cfg, reqs) && Carries(cfg, w0, s) && DirInv(cfg, w0, s, reqs)
    && Distinct(s.entries) && Compatible(cfg, w0, Elements(s.entries))
  }

  lemma RanSnoc(cfg: Config, w0: World, s: State, reqs: seq<Request>, req: Request)
    requires Ran(cfg, w0, s, reqs) && CleanNext(cfg, w0, reqs, req)
    ensures Ran(cfg, w0, ApplyStep(cfg, s, req).0, reqs + [req])
  {
    DirsAfterApply(cfg, w0, s, reqs, req);
    EntriesOfSnoc(cfg, reqs, req);
    var op := OpOf(cfg, req.action, req.now);
    if op.Some? {
      MadeWhenNeeded(cfg, w0, s, reqs);
      NewEntryIsApart(cfg, w0, reqs, req, op.value);
      ApplyOne(cfg, w0, s, req, op.value);
    }
  }

  /** A clean run of requests all succeed; the host is the start plus the recorded effects. */
  lemma {:induction false} CleanRun(cfg: Config, w0: World, reqs: seq<Request>)
    requires CleanRequests(cfg, w0, reqs)
    ensures Ran(cfg, w0, ApplyAll(cfg, Start(w0), reqs), reqs)
  {
    if reqs != [] {
      var init, last := reqs[..|reqs| - 1], reqs[|reqs| - 1];
      CleanPrefix(cfg, w0, reqs);
      CleanRun(cfg, w0, init);
      RanSnoc(cfg, w0, ApplyAll(cfg, Start(w0), init), init, last);
    }
  }

  /** Applying to a new target keeps the host at the effects of the live entries. */
  lemma ApplyOne(cfg: Config, w0: World, s: State, req: Request, op: Op)
    requires Compatible(cfg, w0, Elements(s.entries)) && Carries(cfg, w0, s)
    requires Distinct(s.entries) && OpOf(cfg, req.action, req.now) == Some(op)
    requires forall x :: x in s.entries ==> x.id != req.id
    requires op.Quarantine? ==> CanMake(cfg, s.world)
    requires cfg.dryRun ||
      ((Admissible(op, w0) || Admissible(op, s.world)) &&
       forall x :: x in s.entries ==> Footprint(x.op) !! Footprint(op))
    ensures var e := EntryFor(op, req);
      var s1 := ApplyStep(cfg, s, req).0;
      && s1.entries == s.entries + [e] && Carries(cfg, w0, s1)
      && (cfg.persist ==> s1.file == s.file + [ToRecord(e)])
      && Distinct(s1.entries) && Compatible(cfg, w0, Elements(s1.entries))
  {
    var e := EntryFor(op, req);
    AdmissibleNow(cfg, w0, s.entries, e);
    EffectsOn(cfg, w0, s.world.dirs, s.entries);
    ActsNow(cfg, w0, s, op);
    AddEntry(cfg, w0, s.entries, e);
    var dirs := ApplyStep(cfg, s, req).0.world.dirs;
    EffectsOn(cfg, w0, dirs, s.entries + [e]);
  }

  /** What performing `op` now gives: its effect after those of the entries, directories apart. */
  lemma ActsNow(cfg: Config, w0: World, s: State, op: Op)
    requires Carries(cfg, w0, s) && (op.Quarantine? ==> CanMake(cfg, s.world))
    requires cfg.dryRun || Admissible(op, s.world)
    ensures var p := Perform(cfg, op, s.world);
      p.Ok? && p.value == Effect(cfg, op, Effects(cfg, w0, s.entries)).(dirs := p.value.dirs)
  {
    var w := Effects(cfg, w0, s.entries);
    EffectsOn(cfg, w0, s.world.dirs, s.entries);
    var made := if op.Quarantine? then MadeDirs(s.world, cfg.quarantineDir).value else s.world;
    if op.Quarantine? {
      MadeDirsOnly(s.world, cfg.quarantineDir);
    }
    assert made == w.(dirs := made.dirs);
    EffectOn(cfg, op, w, made.dirs);
    DirsKept(cfg, op, made);
  }

  /** A new target is admissible now exactly when it was at the start. */
  lemma AdmissibleNow(cfg: Config, w0: World, es: seq<ContainmentEntry>, e: ContainmentEntry)
    requires WellFormed(e)
    requires cfg.dryRun || forall x :: x in es ==> Footprint(x.op) !! Footprint(e.op)
    ensures cfg.dryRun || (Admissible(e.op, Effects(cfg, w0, es)) <==> Admissible(e.op, w0))
  {
    var fx := HostEffects(cfg);
    forall x | x in es ensures RE.Apart(fx, e, x) {
      ApartWhenDisjoint(cfg, e, x);
    }
    RE.AdmissibleThroughout(fx, w0, es, e);
    assert !cfg.dryRun ==> (fx.admissible(e, Effects(cfg, w0, es)) <==> Admissible(e.op, Effects(cfg, w0, es)));
  }

  lemma AddEntry(cfg: Config, w0: World, es: seq<ContainmentEntry>, e: ContainmentEntry)
    requires Compatible(cfg, w0, Elements(es)) && Distinct(es) && e !in es && WellFormed(e)
    requires cfg.dryRun ||
      (Admissible(e.op, w0) && forall x :: x in es ==> Footprint(x.op) !! Footprint(e.op))
    ensures Distinct(es + [e]) && Compatible(cfg, w0, Elements(es + [e]))
    ensures Effects(cfg, w0, es + [e]) == Effect(cfg, e.op, Effects(cfg, w0, es))
  {
    RE.RunSnoc(HostEffects(cfg), w0, es, e);
    assert Elements(es + [e]) == Elements(es) + {e};
  }

  /** The requests a rollback of `reportId` takes back. */
  predicate TakenBack(reportId: Option<string>, req: Request) {
    (reportId.None? || req.reportId == reportId) && !req.action.KillProcess? && !req.action.OtherAction?
  }

  function Others(reportId: Option<string>): (p: Request -> bool)
    ensures forall x :: p(x) <==> !TakenBack(reportId, x)
  {
    (x: Request) => !TakenBack(reportId, x)
  }

  function Taken(reportId: Option<string>): (p: Request -> bool)
    ensures forall x :: p(x) <==> TakenBack(reportId, x)
  {
    (x: Request) => TakenBack(reportId, x)
  }

  lemma EntriesOfSnoc(cfg: Config, init: seq<Request>, last: Request)
    ensures EntriesOf(cfg, init + [last]) == EntriesOf(cfg, init) + EntryOf(cfg, last)
  {
    assert (init + [last])[..|init|] == init;
  }

  function EntryOf(cfg: Config, req: Request): (r: seq<ContainmentEntry>) {
    var op := OpOf(cfg, req.action, req.now);
    if op.Some? then [EntryFor(op.value, req)] else []
  }

  lemma KeptSnoc(cfg: Config, es: seq<ContainmentEntry>, req: Request, reportId: Option<string>)
    ensures Filter(es + EntryOf(cfg, req), Kept(reportId))
         == Filter(es, Kept(reportId)) + if Others(reportId)(req) then EntryOf(cfg, req) else []
  {
    var es1 := EntryOf(cfg, req);
    FilterAppend(es, es1, Kept(reportId));
    if es1 != [] {
      FilterOne(es1[0], Kept(reportId));
    }
  }

  lemma TakenSnoc(cfg: Config, es: seq<ContainmentEntry>, req: Request, reportId: Option<string>)
    ensures Filter(es + EntryOf(cfg, req), Undoable(reportId))
         == Filter(es, Undoable(reportId)) + if Taken(reportId)(req) then EntryOf(cfg, req) else []
  {
    var es1 := EntryOf(cfg, req);
    FilterAppend(es, es1, Undoable(reportId));
    if es1 != [] {
      FilterOne(es1[0], Undoable(reportId));
    }
  }

  lemma FilterOne(e: ContainmentEntry, p: ContainmentEntry -> bool)
    ensures Filter([e], p) == if p(e) then [e] else []
  {
  }

  lemma {:induction false} KeptEntries(cfg: Config, reqs: seq<Request>, reportId: Option<string>)
    ensures EntriesOf(cfg, Filter(reqs, Others(reportId))) == Filter(EntriesOf(cfg, reqs), Kept(reportId))
  {
    if reqs != [] {
      var init, last := reqs[..|reqs| - 1], reqs[|reqs| - 1];
      assert reqs == init + [last];
      KeptEntries(cfg, init, reportId);
      FilterSnoc(init, last, Others(reportId));
      EntriesOfSnoc(cfg, init, last);
      EntriesOfSnoc(cfg, Filter(init, Others(reportId)), last);
      KeptSnoc(cfg, EntriesOf(cfg, init), last, reportId);
    }
  }

  lemma {:induction false} TakenEntries(cfg: Config, reqs: seq<Request>, reportId: Option<string>)
    ensures |Filter(reqs, Taken(reportId))| == |Filter(EntriesOf(cfg, reqs), Undoable(reportId))|
  {
    if reqs != [] {
      var init, last := reqs[..|reqs| - 1], reqs[|reqs| - 1];
      assert reqs == init + [last];
      TakenEntries(cfg, init, reportId);
      FilterSnoc(init, last, Taken(reportId));
      EntriesOfSnoc(cfg, init, last);
      TakenSnoc(cfg, EntriesOf(cfg, init), last, reportId);
    }
  }

  /**
   * Rolling back one report (or, without a report id, everything) leaves the host and the
   * entries that the other requests alone would have produced, and returns the number of
   * requests taken back. The one thing left over is a quarantine directory that only
   * requests taken back needed: without that, and only then, the hosts are equal.
   */
  lemma {:induction false} PerReportRollbackIsExact(cfg: Config, w0: World, reqs: seq<Request>,
        reportId: Option<string>)
    requires CleanRequests(cfg, w0, reqs)
    ensures var (after, count) := RollbackAllStep(cfg, ApplyAll(cfg, Start(w0), reqs), reportId);
      var kept := Filter(reqs, Others(reportId));
      var without := ApplyAll(cfg, Start(w0), kept);
      && after.world == without.world.(dirs := after.world.dirs)
      && (after.world == without.world <==>
            DirThere(w0, cfg.quarantineDir) || Needed(kept) || !Needed(reqs))
      && after.entries == without.entries
      && count == |Filter(reqs, Taken(reportId))|
  {
    var kept := Filter(reqs, Others(reportId));
    CleanRun(cfg, w0, reqs);
    RollbackAllOfCompatible(cfg, w0, ApplyAll(cfg, Start(w0), reqs), reportId);
    FilterDistinct(reqs, Others(reportId));
    CleanRun(cfg, w0, kept);
    KeptEntries(cfg, reqs, reportId);
    TakenEntries(cfg, reqs, reportId);
    EffectsOn(cfg, w0, DirsAfter(cfg, w0, reqs), EntriesOf(cfg, kept));
    EffectsOn(cfg, w0, DirsAfter(cfg, w0, kept), EntriesOf(cfg, kept));
    if Needed(reqs) {
      MadeDirsOnly(w0, cfg.quarantineDir);
    }
  }

  /**
   * Distinct targets are needed: when two reports hold a block on one address, rolling
   * back the first unblocks it although the second entry is still listed.
   */
  lemma SharedBlockIsLost(w0: World, ip: string, r1: string, r2: string)
    requires w0.linux && w0.nftWorks && r1 != r2
    ensures var cfg := Config(false, "quarantine", true);
      var s := ApplyAll(cfg, Start(w0), [Request("a", BlockIp(ip), Some(r1), 0), Request("b", BlockIp(ip), Some(r2), 0)]);
      var after := RollbackAllStep(cfg, s, Some(r1)).0;
      |after.entries| == 1 && after.entries[0].op == Block(ip) && ip !in after.world.blocked
  {
    var cfg := Config(false, "quarantine", true);
    var q1, q2 := Request("a", BlockIp(ip), Some(r1), 0), Request("b", BlockIp(ip), Some(r2), 0);
    ApplyAllSnoc(cfg, Start(w0), [], q1);
    ApplyAllSnoc(cfg, Start(w0), [q1], q2);
    assert [] + [q1] == [q1] && [q1] + [q2] == [q1, q2];
    var s1 := ApplyStep(cfg, Start(w0), q1).0;
    var s2 := ApplyStep(cfg, s1, q2).0;
    assert ApplyAll(cfg, Start(w0), [q1]) == s1 && ApplyAll(cfg, Start(w0), [q1, q2]) == s2;
    var e1, e2 := EntryFor(Block(ip), q1), EntryFor(Block(ip), q2);
    assert s2.entries == [e1, e2];
    assert Filter([e1, e2][1..], SelectedBy(Some(r1))) == [];
    assert Filter([e1, e2], SelectedBy(Some(r1))) == [e1];
    assert RollbackTargets(cfg, s2, [e1]).0 == RollbackStep(cfg, s2, e1).0;
  }

  /* ------------------------------------------- blocks and freezes that share a target */

  /** A block, or a freeze of a process that is there. */
  predicate HoldRequest(w0: World, x: Request) {
    x.action.BlockIp? || (x.action.FreezeProcess? && x.action.pid in w0.procs)
  }

  /** No request has the id of one before it, and each blocks or freezes. */
  predicate Holds(w0: World, reqs: seq<Request>) {
    reqs == [] ||
    var init, last := reqs[..|reqs| - 1], reqs[|reqs| - 1];
    Holds(w0, init) && HoldRequest(w0, last) && forall x :: x in init ==> x.id != last.id
  }

  function HoldOp(a: Action): (op: Op)
    requires a.BlockIp? || a.FreezeProcess?
  {
    if a.BlockIp? then Block(a.ip) else Freeze(a.pid)
  }

  /** What the effect of an entry holds: a blocked address or a stopped process. */
  function TargetOf(op: Op): (r: Resource) {
    match op
    case Freeze(pid) => Proc(pid)
    case Block(ip) => Address(ip)
    case Quarantine(src, _) => File(src)
    case Kill(pid) => Proc(pid)
  }

  function HeldBy(es: seq<ContainmentEntry>): (r: set<Resource>) {
    set e | e in es :: TargetOf(e.op)
  }

  predicate HeldAt(w: World, r: Resource) {
    match r
    case Proc(pid) => pid in w.procs && w.procs[pid]
    case Address(ip) => ip in w.blocked
    case File(_) => false
  }

  function AddressesIn(rs: set<Resource>): (r: set<string>) {
    set x | x in rs && x.Address? :: x.ip
  }

  /** The host with the addresses and processes of `rs` held, besides those it has held already. */
  function Holding(w: World, rs: set<Resource>): (r: World) {
    w.(blocked := w.blocked + AddressesIn(rs), procs := map pid | pid in w.procs :: Proc(pid) in rs || w.procs[pid])
  }

  /** The host with them let go, whoever else held them. */
  function Releasing(w: World, rs: set<Resource>): (r: World) {
    w.(blocked := w.blocked - AddressesIn(rs), procs := map pid | pid in w.procs :: Proc(pid) !in rs && w.procs[pid])
  }

  ghost predicate LiveNft(cfg: Config, w: World) {
    !cfg.dryRun && w.linux && w.nftWorks
  }

  predicate HoldEntry(w: World, e: ContainmentEntry) {
    WellFormed(e) && (e.op.Block? || (e.op.Freeze? && e.op.pid in w.procs))
  }

  /** The requests' targets are held, shared or not, and each request is listed. */
  ghost predicate HoldsOn(cfg: Config, w0: World, s: State, reqs: seq<Request>) {
    && s.entries == EntriesOf(cfg, reqs)
    && s.world == Holding(w0, HeldBy(s.entries))
    && Distinct(s.entries)
    && (forall e :: e in s.entries ==> HoldEntry(w0, e))
  }

  lemma HeldSnoc(es: seq<ContainmentEntry>, e: ContainmentEntry)
    ensures HeldBy(es + [e]) == HeldBy(es) + {TargetOf(e.op)}
  {
    assert forall x :: x in es + [e] <==> x in es || x == e;
  }

  lemma HeldCons(t: ContainmentEntry, rest: seq<ContainmentEntry>)
    ensures HeldBy([t] + rest) == {TargetOf(t.op)} + HeldBy(rest)
  {
    assert forall x :: x in [t] + rest <==> x == t || x in rest;
  }

  lemma HoldNothing(w: World)
    ensures Holding(w, {}) == w && Releasing(w, {}) == w
  {
    assert AddressesIn({}) == {};
    assert Holding(w, {}).procs == w.procs && Releasing(w, {}).procs == w.procs;
  }

  lemma HoldMore(w: World, rs: set<Resource>, r: Resource)
    requires !r.File? && (r.Proc? ==> r.pid in w.procs)
    ensures Holding(w, rs + {r}) == match r
      case Address(ip) => Holding(w, rs).(blocked := Holding(w, rs).blocked + {ip})
      case Proc(pid) => Holding(w, rs).(procs := Holding(w, rs).procs[pid := true])
      case File(_) => w
  {
    var a, b := Holding(w, rs), Holding(w, rs + {r});
    assert AddressesIn(rs + {r}) == AddressesIn(rs) + if r.Address? then {r.ip} else {};
    if r.Proc? {
      assert b.procs == a.procs[r.pid := true];
    } else {
      assert b.procs == a.procs;
      assert b.blocked == a.blocked + {r.ip};
    }
  }

  lemma ReleaseMore(w: World, r: Resource, rest: set<Resource>)
    requires !r.File? && (r.Proc? ==> r.pid in w.procs)
    ensures Releasing(w, {r} + rest) == match r
      case Address(ip) => Releasing(w.(blocked := w.blocked - {ip}), rest)
      case Proc(pid) => Releasing(w.(procs := w.procs[pid := false]), rest)
      case File(_) => w
  {
    assert AddressesIn({r} + rest) == AddressesIn(rest) + if r.Address? then {r.ip} else {};
    if r.Proc? {
      var w1 := w.(procs := w.procs[r.pid := false]);
      assert Releasing(w, {r} + rest).procs == Releasing(w1, rest).procs;
    } else {
      var w1 := w.(blocked := w.blocked - {r.ip});
      assert Releasing(w, {r} + rest).blocked == Releasing(w1, rest).blocked;
      assert Releasing(w, {r} + rest).procs == Releasing(w1, rest).procs;
    }
  }

  lemma HoldApplied(cfg: Config, w0: World, s: State, reqs: seq<Request>, req: Request)
    requires LiveNft(cfg, w0) && HoldsOn(cfg, w0, s, reqs)
    requires HoldRequest(w0, req) && forall x :: x in reqs ==> x.id != req.id
    ensures HoldsOn(cfg, w0, ApplyStep(cfg, s, req).0, reqs + [req])
  {
    var op := HoldOp(req.action);
    var e := EntryFor(op, req);
    EntriesOfSnoc(cfg, reqs, req);
    HeldSnoc(s.entries, e);
    HoldMore(w0, HeldBy(s.entries), TargetOf(op));
    if e in s.entries {
      EntriesComeFromRequests(cfg, reqs, e);
      assert false;
    }
    DistinctSnoc(s.entries, e);
  }

  lemma {:induction false} HoldsRun(cfg: Config, w0: World, reqs: seq<Request>)
    requires LiveNft(cfg, w0) && Holds(w0, reqs)
    ensures HoldsOn(cfg, w0, ApplyAll(cfg, Start(w0), reqs), reqs)
  {
    if reqs == [] {
      HoldNothing(w0);
      assert HeldBy([]) == {};
    } else {
      var init, last := reqs[..|reqs| - 1], reqs[|reqs| - 1];
      assert reqs == init + [last];
      HoldsRun(cfg, w0, init);
      HoldApplied(cfg, w0, ApplyAll(cfg, Start(w0), init), init, last);
    }
  }

  /** The host after one hold is undone. */
  function Released(w: World, op: Op): (r: World)
    requires op.Block? || (op.Freeze? && op.pid in w.procs)
  {
    if op.Block? then w.(blocked := w.blocked - {op.ip}) else w.(procs := w.procs[op.pid := false])
  }

  lemma HoldUndone(cfg: Config, s: State, t: ContainmentEntry) returns (s1: State)
    requires LiveNft(cfg, s.world) && Distinct(s.entries) && t in s.entries && HoldEntry(s.world, t)
    ensures RollbackStep(cfg, s, t) == (s1, Undone) && s1.world == Released(s.world, t.op)
    ensures s1.entries == Filter(s.entries, Except(t)) && Distinct(s1.entries)
  {
    s1 := RollbackStep(cfg, s, t).0;
    StepUndoes(cfg, s, t, Released(s.world, t.op));
    FilterDistinct(s.entries, Except(t));
  }

  /** Undoing holds lets their targets go, whoever else held them. */
  lemma {:induction false} HoldsRolledBack(cfg: Config, s: State, targets: seq<ContainmentEntry>)
    requires LiveNft(cfg, s.world) && Distinct(s.entries) && Distinct(targets)
    requires forall e :: e in targets ==> e in s.entries && HoldEntry(s.world, e)
    ensures var s1 := RollbackTargets(cfg, s, targets).0;
      && s1.world == Releasing(s.world, HeldBy(targets))
      && s1.entries == Filter(s.entries, Stays(targets))
    decreases |targets|
  {
    if targets == [] {
      FilterAll(s.entries, Stays(targets));
      HoldNothing(s.world);
      assert HeldBy(targets) == {};
    } else {
      var t, rest := targets[0], targets[1..];
      assert t in targets && targets == [t] + rest && forall e :: e in rest ==> e in targets;
      DistinctRest(targets);
      var s1 := HoldUndone(cfg, s, t);
      HoldsRolledBack(cfg, s1, rest);
      RollbackTargetsStep(cfg, s, targets, s1, Undone);
      StaysStep(s.entries, targets);
      HeldCons(t, rest);
      ReleaseMore(s.world, TargetOf(t.op), HeldBy(rest));
    }
  }

  /** A request that `p` selects holds `r`. */
  predicate Names(reqs: seq<Request>, p: Request -> bool, r: Resource) {
    exists x :: x in reqs && p(x) && (x.action.BlockIp? || x.action.FreezeProcess?) && TargetOf(HoldOp(x.action)) == r
  }

  /** No kept request holds a target of a request taken back, and none of these was held before. */
  predicate OwnTargets(w0: World, reqs: seq<Request>, reportId: Option<string>) {
    forall x :: x in reqs && HoldRequest(w0, x) && TakenBack(reportId, x) ==>
      && !HeldAt(w0, TargetOf(HoldOp(x.action)))
      && (forall y :: y in reqs && HoldRequest(w0, y) && !TakenBack(reportId, y) ==>
            TargetOf(HoldOp(y.action)) != TargetOf(HoldOp(x.action)))
  }

  lemma NamesSnoc(init: seq<Request>, last: Request, p: Request -> bool, r: Resource)
    requires last.action.BlockIp? || last.action.FreezeProcess?
    ensures Names(init + [last], p, r) <==> Names(init, p, r) || (p(last) && TargetOf(HoldOp(last.action)) == r)
  {
    assert forall x :: x in init + [last] <==> x in init || x == last;
  }

  lemma EntriesOfSelected(cfg: Config, init: seq<Request>, last: Request, p: Request -> bool)
    requires last.action.BlockIp? || last.action.FreezeProcess?
    ensures EntriesOf(cfg, Filter(init + [last], p)) ==
      if p(last) then EntriesOf(cfg, Filter(init, p)) + [EntryFor(HoldOp(last.action), last)]
      else EntriesOf(cfg, Filter(init, p))
  {
    FilterSnoc(init, last, p);
    if p(last) {
      EntriesOfSnoc(cfg, Filter(init, p), last);
    }
  }

  lemma {:induction false} HeldByRequests(cfg: Config, w0: World, reqs: seq<Request>, p: Request -> bool, r: Resource)
    requires Holds(w0, reqs)
    ensures r in HeldBy(EntriesOf(cfg, Filter(reqs, p))) <==> Names(reqs, p, r)
  {
    if reqs != [] {
      var init, last := reqs[..|reqs| - 1], reqs[|reqs| - 1];
      assert reqs == init + [last];
      HeldByRequests(cfg, w0, init, p, r);
      EntriesOfSelected(cfg, init, last, p);
      NamesSnoc(init, last, p, r);
      HeldSnoc(EntriesOf(cfg, Filter(init, p)), EntryFor(HoldOp(last.action), last));
    }
  }

  lemma {:induction false} HoldsMembers(w0: World, reqs: seq<Request>)
    requires Holds(w0, reqs)
    ensures forall x :: x in reqs ==> HoldRequest(w0, x)
  {
    if reqs != [] {
      var init, last := reqs[..|reqs| - 1], reqs[|reqs| - 1];
      assert reqs == init + [last];
      HoldsMembers(w0, init);
    }
  }

  lemma {:induction false} KeptHolds(w0: World, reqs: seq<Request>, reportId: Option<string>)
    requires Holds(w0, reqs)
    ensures Holds(w0, Filter(reqs, Others(reportId)))
  {
    if reqs != [] {
      var init, last := reqs[..|reqs| - 1], reqs[|reqs| - 1];
      assert reqs == init + [last];
      KeptHolds(w0, init, reportId);
      FilterSnoc(init, last, Others(reportId));
      HoldsSnoc(w0, Filter(init, Others(reportId)), last);
    }
  }

  lemma HoldsSnoc(w0: World, reqs: seq<Request>, req: Request)
    requires Holds(w0, reqs) && HoldRequest(w0, req) && forall x :: x in reqs ==> x.id != req.id
    ensures Holds(w0, reqs + [req])
  {
    assert (reqs + [req])[..|reqs|] == reqs;
  }

  lemma {:induction false} SelectedEntries(cfg: Config, w0: World, reqs: seq<Request>, reportId: Option<string>)
    requires Holds(w0, reqs)
    ensures EntriesOf(cfg, Filter(reqs, Taken(reportId))) == Filter(EntriesOf(cfg, reqs), SelectedBy(reportId))
  {
    if reqs != [] {
      var init, last := reqs[..|reqs| - 1], reqs[|reqs| - 1];
      assert reqs == init + [last];
      SelectedEntries(cfg, w0, init, reportId);
      EntriesOfSelected(cfg, init, last, Taken(reportId));
      EntriesOfSnoc(cfg, init, last);
      FilterSnoc(EntriesOf(cfg, init), EntryFor(HoldOp(last.action), last), SelectedBy(reportId));
    }
  }

  /** Every target is held by a request taken back or by a kept one. */
  lemma AllHeld(es: seq<ContainmentEntry>, reportId: Option<string>)
    requires forall e :: e in es ==> e.reversible
    ensures HeldBy(es) == HeldBy(Filter(es, SelectedBy(reportId))) + HeldBy(Filter(es, Kept(reportId)))
  {
    forall e | e in es ensures e in Filter(es, SelectedBy(reportId)) || e in Filter(es, Kept(reportId)) {
      assert SelectedBy(reportId)(e) || Kept(reportId)(e);
    }
  }

  /** Letting go what was taken gives the host of the kept holds exactly when none of it was shared. */
  lemma ReleaseIff(w0: World, taken: set<Resource>, kept: set<Resource>)
    requires forall r :: r in taken ==> !r.File? && (r.Proc? ==> r.pid in w0.procs)
    ensures Releasing(Holding(w0, taken + kept), taken) == Holding(w0, kept) <==>
      forall r :: r in taken ==> r !in kept && !HeldAt(w0, r)
  {
    var after, without := Releasing(Holding(w0, taken + kept), taken), Holding(w0, kept);
    if forall r :: r in taken ==> r !in kept && !HeldAt(w0, r) {
      forall pid | pid in w0.procs ensures after.procs[pid] == without.procs[pid] {
        assert Proc(pid) in taken ==> Proc(pid) !in kept && !HeldAt(w0, Proc(pid));
      }
      assert after.procs == without.procs;
      ReleasedAddresses(w0, taken, kept);
    } else {
      var r :| r in taken && (r in kept || HeldAt(w0, r));
      match r
      case Proc(pid) => assert !after.procs[pid] && without.procs[pid];
      case Address(ip) => assert ip in AddressesIn(taken) && ip !in after.blocked && ip in without.blocked;
      case File(_) => assert false;
    }
  }

  lemma ReleasedAddresses(w0: World, taken: set<Resource>, kept: set<Resource>)
    requires forall r :: r in taken ==> r !in kept && !HeldAt(w0, r)
    ensures w0.blocked + AddressesIn(taken + kept) - AddressesIn(taken) == w0.blocked + AddressesIn(kept)
  {
    forall ip
      ensures ip in w0.blocked + AddressesIn(taken + kept) - AddressesIn(taken) <==> ip in w0.blocked + AddressesIn(kept)
    {
      assert ip in AddressesIn(taken) <==> Address(ip) in taken;
      assert ip in AddressesIn(kept) <==> Address(ip) in kept;
      assert ip in AddressesIn(taken + kept) <==> Address(ip) in taken + kept;
      assert Address(ip) in taken ==> Address(ip) !in kept && !HeldAt(w0, Address(ip));
    }
  }

  lemma OwnTargetsIff(w0: World, reqs: seq<Request>, reportId: Option<string>, taken: set<Resource>,
                      kept: set<Resource>)
    requires forall x :: x in reqs ==> HoldRequest(w0, x)
    requires forall r :: r in taken <==> Names(reqs, Taken(reportId), r)
    requires forall r :: r in kept <==> Names(reqs, Others(reportId), r)
    ensures OwnTargets(w0, reqs, reportId) <==> forall r :: r in taken ==> r !in kept && !HeldAt(w0, r)
  {
    if OwnTargets(w0, reqs, reportId) {
      forall r | r in taken ensures r !in kept && !HeldAt(w0, r) {
        assert Names(reqs, Taken(reportId), r);
      }
    } else {
      var x :| x in reqs && HoldRequest(w0, x) && TakenBack(reportId, x) &&
        (HeldAt(w0, TargetOf(HoldOp(x.action))) ||
         exists y :: y in reqs && HoldRequest(w0, y) && !TakenBack(reportId, y)
           && TargetOf(HoldOp(y.action)) == TargetOf(HoldOp(x.action)));
      var r := TargetOf(HoldOp(x.action));
      assert Names(reqs, Taken(reportId), r);
      if !HeldAt(w0, r) {
        assert Names(reqs, Others(reportId), r);
      }
    }
  }

  /** The targets of the requests that `p` selects. */
  function HeldFor(cfg: Config, reqs: seq<Request>, p: Request -> bool): (r: set<Resource>) {
    HeldBy(EntriesOf(cfg, Filter(reqs, p)))
  }

  /** A rollback on a host where the listed entries hold their targets. */
  lemma HoldsLetGo(cfg: Config, w0: World, s: State, reqs: seq<Request>, reportId: Option<string>)
    requires LiveNft(cfg, w0) && HoldsOn(cfg, w0, s, reqs)
    ensures var after := RollbackAllStep(cfg, s, reportId).0;
      && after.entries == Filter(s.entries, Kept(reportId))
      && after.world == Releasing(s.world, HeldBy(Filter(s.entries, SelectedBy(reportId))))
  {
    var targets := Filter(s.entries, SelectedBy(reportId));
    FilterDistinct(s.entries, SelectedBy(reportId));
    HoldsRolledBack(cfg, s, targets);
    FilterCongruence(s.entries, Stays(targets), Kept(reportId));
  }

  lemma TakenAreHolds(w0: World, es: seq<ContainmentEntry>, taken: set<Resource>)
    requires forall e :: e in es ==> HoldEntry(w0, e)
    requires taken <= HeldBy(es)
    ensures forall r :: r in taken ==> !r.File? && (r.Proc? ==> r.pid in w0.procs)
  {
  }

  /** What the rollback leaves. */
  lemma HoldsTakenBack(cfg: Config, w0: World, reqs: seq<Request>, reportId: Option<string>)
    requires LiveNft(cfg, w0) && Holds(w0, reqs)
    ensures var after := RollbackAllStep(cfg, ApplyAll(cfg, Start(w0), reqs), reportId).0;
      var taken, kept := HeldFor(cfg, reqs, Taken(reportId)), HeldFor(cfg, reqs, Others(reportId));
      && after.entries == EntriesOf(cfg, Filter(reqs, Others(reportId)))
      && after.world == Releasing(Holding(w0, taken + kept), taken)
      && (forall r :: r in taken ==> !r.File? && (r.Proc? ==> r.pid in w0.procs))
  {
    var s := ApplyAll(cfg, Start(w0), reqs);
    HoldsRun(cfg, w0, reqs);
    HoldsLetGo(cfg, w0, s, reqs, reportId);
    KeptEntries(cfg, reqs, reportId);
    SelectedEntries(cfg, w0, reqs, reportId);
    AllHeld(s.entries, reportId);
    TakenAreHolds(w0, s.entries, HeldFor(cfg, reqs, Taken(reportId)));
  }

  /** What the other requests alone leave. */
  lemma HoldsKept(cfg: Config, w0: World, reqs: seq<Request>, reportId: Option<string>)
    requires LiveNft(cfg, w0) && Holds(w0, reqs)
    ensures var without := ApplyAll(cfg, Start(w0), Filter(reqs, Others(reportId)));
      && without.entries == EntriesOf(cfg, Filter(reqs, Others(reportId)))
      && without.world == Holding(w0, HeldFor(cfg, reqs, Others(reportId)))
  {
    KeptHolds(w0, reqs, reportId);
    HoldsRun(cfg, w0, Filter(reqs, Others(reportId)));
  }

  lemma OwnTargetsHeld(cfg: Config, w0: World, reqs: seq<Request>, reportId: Option<string>)
    requires Holds(w0, reqs)
    ensures var taken, kept := HeldFor(cfg, reqs, Taken(reportId)), HeldFor(cfg, reqs, Others(reportId));
      OwnTargets(w0, reqs, reportId) <==> forall r :: r in taken ==> r !in kept && !HeldAt(w0, r)
  {
    HoldsMembers(w0, reqs);
    forall r
      ensures r in HeldFor(cfg, reqs, Taken(reportId)) <==> Names(reqs, Taken(reportId), r)
      ensures r in HeldFor(cfg, reqs, Others(reportId)) <==> Names(reqs, Others(reportId), r)
    {
      HeldByRequests(cfg, w0, reqs, Taken(reportId), r);
      HeldByRequests(cfg, w0, reqs, Others(reportId), r);
    }
    OwnTargetsIff(w0, reqs, reportId, HeldFor(cfg, reqs, Taken(reportId)), HeldFor(cfg, reqs, Others(reportId)));
  }

  /**
   * Blocks and freezes that share targets: a per-report rollback leaves the host that the
   * other requests alone would have produced exactly when none of them holds a target
   * taken back and no target taken back was held at the start. The list is right either way.
   */
  lemma {:induction false} SharedHoldsExactIff(cfg: Config, w0: World, reqs: seq<Request>, reportId: Option<string>)
    requires LiveNft(cfg, w0) && Holds(w0, reqs)
    ensures var after := RollbackAllStep(cfg, ApplyAll(cfg, Start(w0), reqs), reportId).0;
      var without := ApplyAll(cfg, Start(w0), Filter(reqs, Others(reportId)));
      && after.entries == without.entries
      && (after.world == without.world <==> OwnTargets(w0, reqs, reportId))
  {
    HoldsTakenBack(cfg, w0, reqs, reportId);
    HoldsKept(cfg, w0, reqs, reportId);
    OwnTargetsHeld(cfg, w0, reqs, reportId);
    ReleaseIff(w0, HeldFor(cfg, reqs, Taken(reportId)), HeldFor(cfg, reqs, Others(reportId)));
  }
}
