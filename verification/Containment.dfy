/**
 * The containment manager: platform effects with recorded inverses.
 *
 * Effects go through an abstract host (`World`). Every successful effect leaves a
 * `ContainmentEntry` whose undo is kept as data (`Undo`) and interpreted by `RunUndo`.
 * Entries are undone oldest first, so that rollback restores the host is a
 * commutation argument over disjoint targets, not a stack argument.
 */
module Containment {
  import opened Wrappers
  import opened Text
  import opened Sequences

  /** A file path: its parent directory and its last component. */
  datatype Path = Path(dir: string, name: string)

  /**
   * What the manager acts on: the process table (pid -> stopped?), the nftables set, the
   * files, the directories, and whether the host can run nftables at all. The containment
   * file and the directory it stands in are not part of it.
   */
  datatype World = World(
    procs: map<int, bool>, blocked: set<string>, files: map<Path, string>, dirs: set<string>,
    linux: bool, nftWorks: bool)

  datatype Action =
    | FreezeProcess(pid: int)
    | BlockIp(ip: string)
    | QuarantineFile(path: Path)
    | KillProcess(pid: int)
    | OtherAction(kind: string)

  /** A containment operation: the action type together with the entry's `target`. */
  datatype Op =
    | Freeze(pid: int)
    | Block(ip: string)
    | Quarantine(src: Path, dest: Path)
    | Kill(pid: int)

  datatype Undo =
    | ResumePid(pid: int)
    | DeleteElement(ip: string)
    | MoveBack(dest: Path, src: Path)

  datatype ContainmentEntry = ContainmentEntry(
    id: string, op: Op, reversible: bool, undo: Option<Undo>, reportId: Option<string>, timestamp: nat)

  /** One line of the containment file: `to_dict` drops the undo closure. */
  datatype Record = Record(id: string, op: Op, reversible: bool, reportId: Option<string>, timestamp: nat)

  datatype Config = Config(dryRun: bool, quarantineDir: string, persist: bool)

  /** A request to apply an action, with the entry id and the clock second it gets. */
  datatype Request = Request(id: string, action: Action, reportId: Option<string>, now: nat)

  datatype Fault = NoSuchProcess | RequiresLinux | NftFailed | FileInTheWay

  datatype ApplyOutcome = Applied(entry: ContainmentEntry) | NoHandler | Raised(fault: Fault)

  datatype RollbackOutcome = Undone | Refused | NotListed

  /* ---------------------------------------------------------------- the runner */

  function Suspended(w: World, pid: int): (r: Option<World>) {
    if pid in w.procs then Some(w.(procs := w.procs[pid := true])) else None
  }

  function Resumed(w: World, pid: int): (r: Option<World>) {
    if pid in w.procs then Some(w.(procs := w.procs[pid := false])) else None
  }

  function Terminated(w: World, pid: int): (r: Option<World>) {
    if pid in w.procs then Some(w.(procs := w.procs - {pid})) else None
  }

  function NftAdded(w: World, ip: string): (r: World) {
    if w.nftWorks then w.(blocked := w.blocked + {ip}) else w
  }

  function NftDeleted(w: World, ip: string): (r: World) {
    if w.nftWorks then w.(blocked := w.blocked - {ip}) else w
  }

  function Moved(w: World, src: Path, dst: Path): (r: World)
    requires src in w.files
  {
    w.(files := (w.files - {src})[dst := w.files[src]])
  }

  /* ------------------------------------------------------------- the quarantine directory */

  /** A path in one string. */
  function Joined(p: Path): (r: string) {
    if p.dir == "" || p.dir == "/" then p.dir + p.name else p.dir + "/" + p.name
  }

  /** A directory and those above it. */
  function WithParents(dir: string): (r: set<string>)
    ensures forall d :: d in r ==> |d| <= |dir|
  {
    set k | 0 < k <= |dir| && (k == |dir| || dir[k] == '/') :: dir[..k]
  }

  /** The working directory, or one that was made. */
  predicate DirThere(w: World, dir: string) {
    dir == "" || dir in w.dirs
  }

  predicate BlockedByFile(w: World, dir: string) {
    exists f :: f in w.files && Joined(f) in WithParents(dir)
  }

  /** `mkdir(parents=True, exist_ok=True)`: raises when a file stands where a directory must be. */
  function MadeDirs(w: World, dir: string): (r: Result<World, Fault>) {
    if DirThere(w, dir) then Ok(w)
    else if BlockedByFile(w, dir) then Err(FileInTheWay)
    else Ok(w.(dirs := w.dirs + WithParents(dir)))
  }

  /** The host, acted on by the runner and by the standard library. */
  class SystemRunner {
    var world: World

    constructor (w: World)
      ensures world == w
    {
      world := w;
    }

    method MakeDirs(dir: string) returns (ok: bool)
      modifies this
      ensures ok == MadeDirs(old(world), dir).Ok?
      ensures world == if ok then MadeDirs(old(world), dir).value else old(world)
    {
      if DirThere(world, dir) {
        return true;
      }
      ok := !BlockedByFile(world, dir);
      if ok {
        world := world.(dirs := world.dirs + WithParents(dir));
      }
    }

    method Suspend(pid: int) returns (ok: bool)
      modifies this
      ensures ok == Suspended(old(world), pid).Some?
      ensures world == if ok then Suspended(old(world), pid).value else old(world)
    {
      ok := pid in world.procs;
      if ok {
        world := world.(procs := world.procs[pid := true]);
      }
    }

    method Resume(pid: int) returns (ok: bool)
      modifies this
      ensures ok == Resumed(old(world), pid).Some?
      ensures world == if ok then Resumed(old(world), pid).value else old(world)
    {
      ok := pid in world.procs;
      if ok {
        world := world.(procs := world.procs[pid := false]);
      }
    }

    method Terminate(pid: int) returns (ok: bool)
      modifies this
      ensures ok == Terminated(old(world), pid).Some?
      ensures world == if ok then Terminated(old(world), pid).value else old(world)
    {
      ok := pid in world.procs;
      if ok {
        world := world.(procs := world.procs - {pid});
      }
    }

    /** `nft add element`: the exit code is zero exactly when nftables works. */
    method NftAdd(ip: string) returns (exitOk: bool)
      modifies this
      ensures exitOk == old(world).nftWorks
      ensures world == NftAdded(old(world), ip)
    {
      exitOk := world.nftWorks;
      if exitOk {
        world := world.(blocked := world.blocked + {ip});
      }
    }

    /** `nft delete element`: callers ignore the exit code. */
    method NftDelete(ip: string)
      modifies this
      ensures world == NftDeleted(old(world), ip)
    {
      if world.nftWorks {
        world := world.(blocked := world.blocked - {ip});
      }
    }

    method Move(src: Path, dst: Path)
      requires src in world.files
      modifies this
      ensures world == Moved(old(world), src, dst)
    {
      var content := world.files[src];
      world := world.(files := (world.files - {src})[dst := content]);
    }
  }

  /* ------------------------------------------------- what one operation means */

  /** Where a file goes: its base name, the second and a suffix, in the quarantine directory. */
  function QuarantineDest(cfg: Config, src: Path, now: nat): (r: Path)
    ensures r != src
  {
    var name := src.name + "." + Digits(now) + ".quarantined";
    assert |name| > |src.name|;
    Path(cfg.quarantineDir, name)
  }

  function OpOf(cfg: Config, action: Action, now: nat): (r: Option<Op>) {
    match action
    case FreezeProcess(pid) => Some(Freeze(pid))
    case BlockIp(ip) => Some(Block(ip))
    case QuarantineFile(path) => Some(Quarantine(path, QuarantineDest(cfg, path, now)))
    case KillProcess(pid) => Some(Kill(pid))
    case OtherAction(_) => None
  }

  /** The platform effect of an operation once its directory is there, or the exception it raises. */
  function Act(cfg: Config, op: Op, w: World): (r: Result<World, Fault>) {
    if cfg.dryRun then Ok(w)
    else
      match op
      case Freeze(pid) => if pid in w.procs then Ok(Suspended(w, pid).value) else Err(NoSuchProcess)
      case Block(ip) =>
        if !w.linux then Err(RequiresLinux)
        else if !w.nftWorks then Err(NftFailed)
        else Ok(NftAdded(w, ip))
      case Quarantine(src, dest) => Ok(if src in w.files then Moved(w, src, dest) else w)
      case Kill(pid) => if pid in w.procs then Ok(Terminated(w, pid).value) else Err(NoSuchProcess)
  }

  /** All a handler does to the host: a quarantine makes its directory first, dry run or not. */
  function Perform(cfg: Config, op: Op, w: World): (r: Result<World, Fault>) {
    if op.Quarantine? then
      var made := MadeDirs(w, cfg.quarantineDir);
      if made.Err? then Err(made.error) else Act(cfg, op, made.value)
    else Act(cfg, op, w)
  }

  /** Running an undo closure; `None` when it raises. */
  function RunUndo(cfg: Config, u: Undo, w: World): (r: Option<World>) {
    if cfg.dryRun then Some(w)
    else
      match u
      case ResumePid(pid) => Resumed(w, pid)
      case DeleteElement(ip) => Some(NftDeleted(w, ip))
      case MoveBack(dest, src) =>
        Some(if dest in w.files && src !in w.files then Moved(w, dest, src) else w)
  }

  function ReconstructUndo(op: Op): (r: Option<Undo>) {
    match op
    case Freeze(pid) => Some(ResumePid(pid))
    case Block(ip) => Some(DeleteElement(ip))
    case Quarantine(src, dest) => Some(MoveBack(dest, src))
    case Kill(_) => None
  }

  function EntryFor(op: Op, req: Request): (r: ContainmentEntry) {
    ContainmentEntry(req.id, op, !op.Kill?, ReconstructUndo(op), req.reportId, req.now)
  }

  function ToRecord(e: ContainmentEntry): (r: Record) {
    Record(e.id, e.op, e.reversible, e.reportId, e.timestamp)
  }

  function FromRecord(r: Record): (e: ContainmentEntry) {
    ContainmentEntry(r.id, r.op, r.reversible, ReconstructUndo(r.op), r.reportId, r.timestamp)
  }

  /* --------------------------------------------------- the manager's transitions */

  /** The host, the live entries, the containment file and the rolled-back entries. */
  datatype State = State(
    world: World, entries: seq<ContainmentEntry>, file: seq<Record>, rolledBack: seq<ContainmentEntry>)

  function ApplyStep(cfg: Config, s: State, req: Request): (r: (State, ApplyOutcome)) {
    match OpOf(cfg, req.action, req.now)
    case None => (s, NoHandler)
    case Some(op) =>
      match Perform(cfg, op, s.world)
      case Err(fault) => (s, Raised(fault))
      case Ok(w) =>
        var e := EntryFor(op, req);
        (s.(world := w, entries := s.entries + [e],
            file := if cfg.persist then s.file + [ToRecord(e)] else s.file),
         Applied(e))
  }

  function RollbackStep(cfg: Config, s: State, e: ContainmentEntry): (r: (State, RollbackOutcome)) {
    if !e.reversible || e.undo.None? then (s, Refused)
    else
      match RunUndo(cfg, e.undo.value, s.world)
      case None => (s, Refused)
      case Some(w) =>
        if e !in s.entries then (s.(world := w), NotListed)
        else (s.(world := w, entries := Remove(s.entries, e), rolledBack := s.rolledBack + [e]), Undone)
  }

  /** No report id selects every entry. */
  function SelectedBy(reportId: Option<string>): (p: ContainmentEntry -> bool)
    ensures forall e :: p(e) <==> reportId.None? || e.reportId == reportId
  {
    (e: ContainmentEntry) => reportId.None? || e.reportId == reportId
  }

  function RollbackTargets(cfg: Config, s: State, targets: seq<ContainmentEntry>): (r: (State, nat))
    decreases |targets|
  {
    if targets == [] then (s, 0)
    else
      var (s1, outcome) := RollbackStep(cfg, s, targets[0]);
      var (s2, n) := RollbackTargets(cfg, s1, targets[1..]);
      (s2, n + if outcome.Undone? then 1 else 0)
  }

  lemma RollbackTargetsAt(cfg: Config, s: State, targets: seq<ContainmentEntry>, i: nat)
    requires i < |targets|
    ensures var (s1, outcome) := RollbackStep(cfg, s, targets[i]);
      var (s2, n) := RollbackTargets(cfg, s1, targets[i + 1..]);
      RollbackTargets(cfg, s, targets[i..]) == (s2, n + if outcome.Undone? then 1 else 0)
  {
    assert targets[i..][0] == targets[i] && targets[i..][1..] == targets[i + 1..];
  }

  function RollbackAllStep(cfg: Config, s: State, reportId: Option<string>): (r: (State, nat)) {
    RollbackTargets(cfg, s, Filter(s.entries, SelectedBy(reportId)))
  }

  function Reload(file: seq<Record>): (r: seq<ContainmentEntry>)
    ensures |r| == |file|
  {
    seq(|file|, i requires 0 <= i < |file| => FromRecord(file[i]))
  }

  class ContainmentFile {
    var lines: seq<Record>

    constructor ()
      ensures lines == []
    {
      lines := [];
    }
  }

  class ContainmentManager {
    const cfg: Config
    const runner: SystemRunner
    const file: ContainmentFile
    var entries: seq<ContainmentEntry>
    /** The entries named by the "rollback" audit records, in order. */
    var rolledBack: seq<ContainmentEntry>

    ghost function Abs(): State
      reads this, runner, file
    {
      State(runner.world, entries, file.lines, rolledBack)
    }

    constructor (cfg: Config, runner: SystemRunner, file: ContainmentFile)
      ensures this.cfg == cfg && this.runner == runner && this.file == file
      ensures Abs() == State(runner.world, if cfg.persist then Reload(file.lines) else [], file.lines, [])
    {
      this.cfg := cfg;
      this.runner := runner;
      this.file := file;
      rolledBack := [];
      entries := [];
      new;
      if cfg.persist {
        var i := 0;
        while i < |file.lines|
          invariant 0 <= i <= |file.lines|
          invariant entries == Reload(file.lines)[..i]
          invariant rolledBack == []
          invariant this.cfg == cfg && this.runner == runner && this.file == file
        {
          entries := entries + [FromRecord(file.lines[i])];
          i := i + 1;
        }
      }
    }

    method ApplyFreezeProcess(pid: int, req: Request) returns (r: Result<ContainmentEntry, Fault>)
      modifies runner
      ensures Performed(Freeze(pid), req, old(runner.world), r)
    {
      if !cfg.dryRun {
        var ok := runner.Suspend(pid);
        if !ok {
          return Err(NoSuchProcess);
        }
      }
      r := Ok(ContainmentEntry(req.id, Freeze(pid), true, Some(ResumePid(pid)), req.reportId, req.now));
    }

    method ApplyBlockIp(ip: string, req: Request) returns (r: Result<ContainmentEntry, Fault>)
      modifies runner
      ensures Performed(Block(ip), req, old(runner.world), r)
    {
      if !cfg.dryRun {
        if !runner.world.linux {
          return Err(RequiresLinux);
        }
        var exitOk := runner.NftAdd(ip);
        if !exitOk {
          return Err(NftFailed);
        }
      }
      r := Ok(ContainmentEntry(req.id, Block(ip), true, Some(DeleteElement(ip)), req.reportId, req.now));
    }

    method ApplyQuarantineFile(src: Path, req: Request) returns (r: Result<ContainmentEntry, Fault>)
      modifies runner
      ensures Performed(Quarantine(src, QuarantineDest(cfg, src, req.now)), req, old(runner.world), r)
    {
      var ok := runner.MakeDirs(cfg.quarantineDir);
      if !ok {
        return Err(FileInTheWay);
      }
      var dest := QuarantineDest(cfg, src, req.now);
      if !cfg.dryRun && src in runner.world.files {
        runner.Move(src, dest);
      }
      r := Ok(ContainmentEntry(req.id, Quarantine(src, dest), true, Some(MoveBack(dest, src)), req.reportId, req.now));
    }

    method ApplyKillProcess(pid: int, req: Request) returns (r: Result<ContainmentEntry, Fault>)
      modifies runner
      ensures Performed(Kill(pid), req, old(runner.world), r)
    {
      if !cfg.dryRun {
        var ok := runner.Terminate(pid);
        if !ok {
          return Err(NoSuchProcess);
        }
      }
      r := Ok(ContainmentEntry(req.id, Kill(pid), false, None, req.reportId, req.now));
    }

    /** What a handler for `op` leaves behind: the effect and its entry, or the fault. */
    ghost predicate Performed(op: Op, req: Request, w: World, r: Result<ContainmentEntry, Fault>)
      reads runner
    {
      match Perform(cfg, op, w)
      case Ok(w') => runner.world == w' && r == Ok(EntryFor(op, req))
      case Err(fault) => runner.world == w && r == Err(fault)
    }

    method Apply(req: Request) returns (outcome: ApplyOutcome)
      modifies this, runner, file
      ensures Abs() == ApplyStep(cfg, old(Abs()), req).0
      ensures outcome == ApplyStep(cfg, old(Abs()), req).1
    {
      var r: Result<ContainmentEntry, Fault>;
      match req.action {
        case FreezeProcess(pid) => r := ApplyFreezeProcess(pid, req);
        case BlockIp(ip) => r := ApplyBlockIp(ip, req);
        case QuarantineFile(path) => r := ApplyQuarantineFile(path, req);
        case KillProcess(pid) => r := ApplyKillProcess(pid, req);
        case OtherAction(_) => return NoHandler;
      }
      if r.Err? {
        return Raised(r.error);
      }
      entries := entries + [r.value];
      if cfg.persist {
        file.lines := file.lines + [ToRecord(r.value)];
      }
      outcome := Applied(r.value);
    }

    method Rollback(e: ContainmentEntry) returns (outcome: RollbackOutcome)
      modifies this, runner
      ensures Abs() == RollbackStep(cfg, old(Abs()), e).0
      ensures outcome == RollbackStep(cfg, old(Abs()), e).1
    {
      if !e.reversible || e.undo.None? {
        return Refused;
      }
      if !cfg.dryRun {
        match e.undo.value
        case ResumePid(pid) =>
          var ok := runner.Resume(pid);
          if !ok {
            return Refused;
          }
        case DeleteElement(ip) =>
          runner.NftDelete(ip);
        case MoveBack(dest, src) =>
          if dest in runner.world.files && src !in runner.world.files {
            runner.Move(dest, src);
          }
      }
      if e !in entries {
        return NotListed;
      }
      entries := Remove(entries, e);
      rolledBack := rolledBack + [e];
      outcome := Undone;
    }

    method RollbackAll(reportId: Option<string>) returns (count: nat)
      modifies this, runner
      ensures Abs() == RollbackAllStep(cfg, old(Abs()), reportId).0
      ensures count == RollbackAllStep(cfg, old(Abs()), reportId).1
    {
      var targets := Filter(entries, SelectedBy(reportId));
      ghost var final := RollbackTargets(cfg, Abs(), targets);
      count := 0;
      var i := 0;
      assert targets[0..] == targets;
      while i < |targets|
        invariant 0 <= i <= |targets|
        invariant RollbackTargets(cfg, Abs(), targets[i..]).0 == final.0
        invariant count + RollbackTargets(cfg, Abs(), targets[i..]).1 == final.1
      {
        RollbackTargetsAt(cfg, Abs(), targets, i);
        var outcome := Rollback(targets[i]);
        if outcome.Undone? {
          count := count + 1;
        }
        i := i + 1;
      }
    }
  }
}
