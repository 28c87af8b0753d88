/**
 * Reassembly of auditd records into kernel events.
 *
 * The parser starts from tokenised lines: a line is a `Record`, or `None` when the header
 * does not match. Integer, socket address, flag and user-name decoding are the fields of
 * `Decoders`. Events carry no event id, so equality of events is equality up to ids.
 */
module AuditRecords {
  import opened Wrappers
  import opened Text

  datatype Record = Record(rtype: string, serial: int, timestamp: real, kv: map<string, string>)

  datatype Decoders = Decoders(
    toInt: string -> Option<int>, sockaddr: string -> Option<(string, int)>, flags: Option<string> -> int,
    username: int -> string)

  /** The record context assembled so far. */
  datatype Ctx = Ctx(
    serial: int, timestamp: real, pid: int, ppid: int, uid: int, ses: Option<string>, exe: Option<string>,
    syscall: int, success: Option<string>, argv: seq<string>, path: Option<string>, saddr: Option<string>,
    a0: Option<string>, a1: Option<string>, a2: Option<string>, key: Option<string>, comm: Option<string>)

  datatype Kind = ProcessCreated | Exec | NetworkConnect | FileWrite | FileRead | PrivilegeEscalation

  datatype Details =
    | ExecDetails(syscall: int, auditKey: Option<string>, comm: Option<string>)
    | ConnectDetails(remoteIp: string, remotePort: int, syscall: int)
    | FileDetails(path: string, syscall: int, flags: int)
    | PrivilegeDetails(fromUid: int, toUid: int, syscall: int)

  /** `timestamp` is `None` when the record says 0 and the clock is read instead. */
  datatype Event = Event(
    kind: Kind, pid: int, ppid: int, exe: string, cmdline: seq<string>, uid: int, username: string,
    details: Details, timestamp: Option<real>, sessionLeader: Option<string>)

  const EXEC_SYSCALLS: set<int> := {59, 322}
  const CONNECT_SYSCALLS: set<int> := {42}
  const OPEN_SYSCALLS: set<int> := {2, 85, 257}
  const PRIV_SYSCALLS: set<int> := {105, 106, 113, 114, 117, 119}
  const SUSPICIOUS_DIRS: seq<string> := ["/tmp", "/dev/shm", "/var/tmp", "/run/user"]

  function Get(r: Record, key: string): (v: Option<string>) {
    if key in r.kv then Some(r.kv[key]) else None
  }

  /** `int(value)`, or 0 when the value is missing or not a number. */
  function ToInt(d: Decoders, v: Option<string>): (n: int) {
    if v.None? then 0
    else
      var n := d.toInt(v.value);
      if n.Some? then n.value else 0
  }

  function Truthy(v: Option<string>): (b: bool) {
    v.Some? && v.value != ""
  }

  function Upper(s: string): (r: string)
    ensures |r| == |s|
  {
    seq(|s|, i requires 0 <= i < |s| => if 'a' <= s[i] <= 'z' then (s[i] as int - 32) as char else s[i])
  }

  /** The arguments `a0`, ..., `a(n-1)` that are present and neither empty nor "(null)". */
  function ExecveArgs(r: Record, n: int): (argv: seq<string>) {
    if n <= 0 then []
    else
      var arg := Get(r, "a" + Digits(n - 1));
      ExecveArgs(r, n - 1) + if arg in {None, Some(""), Some("(null)")} then [] else [arg.value]
  }

  function PathName(r: Record): (v: Option<string>) {
    var name := Get(r, "name");
    if name in {None, Some(""), Some("(null)")} then None
    else
      var nametype := Get(r, "nametype");
      if Truthy(nametype) && Upper(nametype.value) !in {"NORMAL", "CREATE", "DELETE", "PARENT"} then None
      else name
  }

  function EmptyCtx(r: Record): (c: Ctx) {
    Ctx(r.serial, r.timestamp, 0, 0, 0, None, None, 0, None, [], None, None, None, None, None, None, None)
  }

  function Merge(d: Decoders, ctx: Option<Ctx>, r: Record): (c: Ctx) {
    var c := if ctx.Some? then ctx.value else EmptyCtx(r);
    if r.rtype == "SYSCALL" then
      c.(serial := r.serial, timestamp := r.timestamp,
         pid := ToInt(d, Get(r, "pid")), ppid := ToInt(d, Get(r, "ppid")), uid := ToInt(d, Get(r, "uid")),
         ses := Get(r, "ses"), exe := if Get(r, "exe") == Some("(null)") then None else Get(r, "exe"),
         syscall := ToInt(d, Get(r, "syscall")), success := Get(r, "success"),
         a0 := Get(r, "a0"), a1 := Get(r, "a1"), a2 := Get(r, "a2"),
         key := Get(r, "key"), comm := Get(r, "comm"))
    else if r.rtype == "EXECVE" then c.(argv := ExecveArgs(r, ToInt(d, Get(r, "argc"))))
    else if r.rtype == "PATH" then c.(path := PathName(r))
    else if r.rtype == "SOCKADDR" then c.(saddr := Get(r, "saddr"))
    else if r.rtype == "CONNECT" then c.(success := Get(r, "success"))
    else c
  }

  predicate SuspiciousPath(path: string) {
    exists i :: 0 <= i < |SUSPICIOUS_DIRS| && SUSPICIOUS_DIRS[i] <= path
  }

  /** O_CREAT (64), or one of the write bits O_WRONLY (1) and O_RDWR (2). */
  predicate WriteFlags(flags: int) {
    (flags / 64) % 2 == 1 || flags % 4 != 0
  }

  function OpenFlags(d: Decoders, c: Ctx): (flags: int) {
    if c.syscall == 2 then d.flags(c.a1) else if c.syscall == 257 then d.flags(c.a2) else 0
  }

  function MakeEvent(d: Decoders, c: Ctx, kind: Kind, exe: string, cmdline: seq<string>, details: Details): (e: Event) {
    Event(kind, c.pid, c.ppid, exe, cmdline, c.uid, d.username(c.uid), details,
          if c.timestamp == 0.0 then None else Some(c.timestamp), c.ses)
  }

  /** `exe or comm or "unknown"`. */
  function ExeName(exe: Option<string>, comm: Option<string>): (s: string) {
    if Truthy(exe) then exe.value else if Truthy(comm) then comm.value else "unknown"
  }

  function ExecEvents(d: Decoders, c: Ctx): (r: seq<Event>) {
    var exe := ExeName(if !Truthy(c.exe) && Truthy(c.path) then c.path else c.exe, c.comm);
    var details := ExecDetails(c.syscall, c.key, c.comm);
    [MakeEvent(d, c, ProcessCreated, exe, c.argv, details), MakeEvent(d, c, Exec, exe, c.argv, details)]
  }

  function Emit(d: Decoders, c: Ctx): (r: seq<Event>) {
    if c.syscall in EXEC_SYSCALLS then
      if c.success == Some("no") then [] else ExecEvents(d, c)
    else if c.syscall in CONNECT_SYSCALLS then
      if c.success == Some("no") then []
      else
        var peer := if Truthy(c.saddr) then d.sockaddr(c.saddr.value) else None;
        if peer.None? then []
        else [MakeEvent(d, c, NetworkConnect, ExeName(c.exe, c.comm), [],
                        ConnectDetails(peer.value.0, peer.value.1, c.syscall))]
    else if c.syscall in OPEN_SYSCALLS then
      if c.success == Some("no") || !Truthy(c.path) then []
      else
        var flags := OpenFlags(d, c);
        var write := c.syscall == 85 || SuspiciousPath(c.path.value) || WriteFlags(flags);
        [MakeEvent(d, c, if write then FileWrite else FileRead, ExeName(c.exe, c.comm), [],
                   FileDetails(c.path.value, c.syscall, flags))]
    else if c.syscall in PRIV_SYSCALLS then
      if c.success == Some("no") then []
      else [MakeEvent(d, c, PrivilegeEscalation, ExeName(c.exe, c.comm), [],
                      PrivilegeDetails(c.uid, ToInt(d, c.a0), c.syscall))]
    else []
  }

  /** One line: the new context and the events it completes. */
  function FeedStep(d: Decoders, ctx: Option<Ctx>, line: Option<Record>): (r: (Option<Ctx>, seq<Event>)) {
    if line.None? then (ctx, [])
    else
      var rec := line.value;
      var changed := ctx.Some? && ctx.value.serial != rec.serial;
      var out := if changed then Emit(d, ctx.value) else [];
      var c := Merge(d, if changed then None else ctx, rec);
      if rec.rtype == "EOE" then (None, out + Emit(d, c)) else (Some(c), out)
  }

  function FlushStep(d: Decoders, ctx: Option<Ctx>): (out: seq<Event>) {
    if ctx.None? then [] else Emit(d, ctx.value)
  }

  class AuditRecordParser {
    const d: Decoders
    var ctx: Option<Ctx>

    constructor (d: Decoders)
      ensures this.d == d && ctx == None
    {
      this.d := d;
      ctx := None;
    }

    method Feed(line: Option<Record>) returns (out: seq<Event>)
      modifies this
      ensures (ctx, out) == FeedStep(d, old(ctx), line)
    {
      if line.None? {
        return [];
      }
      var rec := line.value;
      out := [];
      if ctx.Some? && ctx.value.serial != rec.serial {
        out := Emit(d, ctx.value);
        ctx := None;
      }
      var merged := MergeRecord(rec);
      if rec.rtype == "EOE" {
        out := out + Emit(d, merged);
        ctx := None;
      } else {
        ctx := Some(merged);
      }
    }

    method Flush() returns (out: seq<Event>)
      modifies this
      ensures out == FlushStep(d, old(ctx)) && ctx == None
    {
      if ctx.None? {
        return [];
      }
      out := Emit(d, ctx.value);
      ctx := None;
    }

    method MergeRecord(r: Record) returns (c: Ctx)
      ensures c == Merge(d, ctx, r)
    {
      c := if ctx.Some? then ctx.value else EmptyCtx(r);
      if r.rtype == "SYSCALL" {
        var exe := Get(r, "exe");
        if exe == Some("(null)") {
          exe := None;
        }
        c := Ctx(r.serial, r.timestamp, ToInt(d, Get(r, "pid")), ToInt(d, Get(r, "ppid")), ToInt(d, Get(r, "uid")),
                 Get(r, "ses"), exe, ToInt(d, Get(r, "syscall")), Get(r, "success"), c.argv, c.path, c.saddr,
                 Get(r, "a0"), Get(r, "a1"), Get(r, "a2"), Get(r, "key"), Get(r, "comm"));
      } else if r.rtype == "EXECVE" {
        var argv := CollectArgs(r);
        c := c.(argv := argv);
      } else if r.rtype == "PATH" {
        c := c.(path := PathName(r));
      } else if r.rtype == "SOCKADDR" {
        c := c.(saddr := Get(r, "saddr"));
      } else if r.rtype == "CONNECT" {
        c := c.(success := Get(r, "success"));
      }
    }

    method CollectArgs(r: Record) returns (argv: seq<string>)
      ensures argv == ExecveArgs(r, ToInt(d, Get(r, "argc")))
    {
      var argc := ToInt(d, Get(r, "argc"));
      argv := [];
      var i := 0;
      while i < argc
        invariant 0 <= i && (i <= argc || i == 0)
        invariant argv == ExecveArgs(r, i)
      {
        var arg := Get(r, "a" + Digits(i));
        if arg !in {None, Some(""), Some("(null)")} {
          argv := argv + [arg.value];
        }
        i := i + 1;
      }
    }
  }

  /* ------------------------------------------------------------ streaming and batches */

  /** Feeding lines one by one from a context. */
  function Stream(d: Decoders, ctx: Option<Ctx>, lines: seq<Option<Record>>): (r: (Option<Ctx>, seq<Event>)) {
    if lines == [] then (ctx, [])
    else
      var (c, out) := Stream(d, ctx, lines[..|lines| - 1]);
      var (c1, out1) := FeedStep(d, c, lines[|lines| - 1]);
      (c1, out + out1)
  }

  /** Feeding lines to a fresh parser and flushing: one collect batch. */
  function StreamAll(d: Decoders, lines: seq<Option<Record>>): (r: seq<Event>) {
    var (c, out) := Stream(d, None, lines);
    out + FlushStep(d, c)
  }

  function Parsed(lines: seq<Option<Record>>): (r: seq<Record>) {
    if lines == [] then []
    else
      var last := lines[|lines| - 1];
      Parsed(lines[..|lines| - 1]) + if last.Some? then [last.value] else []
  }

  /** The context of a run: its records merged in order. */
  function MergeAll(d: Decoders, run: seq<Record>): (c: Option<Ctx>) {
    if run == [] then None else Some(Merge(d, MergeAll(d, run[..|run| - 1]), run[|run| - 1]))
  }

  function EmitRun(d: Decoders, run: seq<Record>): (r: seq<Event>) {
    FlushStep(d, MergeAll(d, run))
  }

  function Flatten(runs: seq<seq<Record>>): (r: seq<Record>) {
    if runs == [] then [] else Flatten(runs[..|runs| - 1]) + runs[|runs| - 1]
  }

  function EmitRuns(d: Decoders, runs: seq<seq<Record>>): (r: seq<Event>) {
    if runs == [] then [] else EmitRuns(d, runs[..|runs| - 1]) + EmitRun(d, runs[|runs| - 1])
  }

  predicate EndsEvent(run: seq<Record>) {
    run != [] && run[|run| - 1].rtype == "EOE"
  }

  /** Records of one serial, with an EOE at most at the end. */
  ghost predicate IsRun(run: seq<Record>) {
    && run != []
    && (forall i :: 0 <= i < |run| ==> run[i].serial == run[0].serial)
    && (forall i :: 0 <= i < |run| - 1 ==> run[i].rtype != "EOE")
  }

  /** A record `r` after the run `a` starts a new run: another serial, or `a` ended its event. */
  predicate Boundary(a: seq<Record>, r: Record) {
    a == [] || a[|a| - 1].serial != r.serial || EndsEvent(a)
  }

  predicate SeparatedAt(runs: seq<seq<Record>>, i: nat)
    requires i + 1 < |runs|
  {
    runs[i + 1] != [] && Boundary(runs[i], runs[i + 1][0])
  }

  /** `runs` is a division into maximal same-serial runs, cut after each EOE. */
  ghost predicate MaximalRuns(runs: seq<seq<Record>>) {
    && (forall i :: 0 <= i < |runs| ==> IsRun(runs[i]))
    && (forall i {:trigger SeparatedAt(runs, i)} :: 0 <= i < |runs| - 1 ==> SeparatedAt(runs, i))
  }

  /** The division of `rs`, extended record by record. */
  function RunsOf(rs: seq<Record>): (runs: seq<seq<Record>>) {
    if rs == [] then [] else AddRecord(RunsOf(rs[..|rs| - 1]), rs[|rs| - 1])
  }

  function AddRecord(runs: seq<seq<Record>>, r: Record): (runs1: seq<seq<Record>>) {
    var n := |runs|;
    if n == 0 || Boundary(runs[n - 1], r) then runs + [[r]]
    else runs[..n - 1] + [runs[n - 1] + [r]]
  }

  lemma FlattenSnoc(runs: seq<seq<Record>>, run: seq<Record>)
    ensures Flatten(runs + [run]) == Flatten(runs) + run
  {
    assert (runs + [run])[..|runs|] == runs;
  }

  lemma NewRunKeepsRuns(runs: seq<seq<Record>>, r: Record)
    requires MaximalRuns(runs) && (runs != [] ==> Boundary(runs[|runs| - 1], r))
    ensures MaximalRuns(runs + [[r]])
  {
    forall i | 0 <= i < |runs + [[r]]| - 1 ensures SeparatedAt(runs + [[r]], i) {
      assert i < |runs| - 1 ==> SeparatedAt(runs, i);
    }
  }

  lemma GrownRunKeepsRuns(init: seq<seq<Record>>, last: seq<Record>, r: Record)
    requires MaximalRuns(init + [last]) && !Boundary(last, r)
    ensures MaximalRuns(init + [last + [r]])
  {
    var runs, runs1 := init + [last], init + [last + [r]];
    assert runs[|init|] == last;
    GrownRun(last, r);
    forall i | 0 <= i < |runs1| ensures IsRun(runs1[i]) {
      assert i < |init| ==> runs1[i] == runs[i];
    }
    forall i | 0 <= i < |runs1| - 1 ensures SeparatedAt(runs1, i) {
      assert SeparatedAt(runs, i);
    }
  }

  lemma GrownRun(run: seq<Record>, r: Record)
    requires IsRun(run) && !Boundary(run, r)
    ensures IsRun(run + [r])
  {
  }

  lemma AddRecordKeepsRuns(runs: seq<seq<Record>>, r: Record)
    requires MaximalRuns(runs)
    ensures MaximalRuns(AddRecord(runs, r))
    ensures Flatten(AddRecord(runs, r)) == Flatten(runs) + [r]
  {
    var n := |runs|;
    if n == 0 || Boundary(runs[n - 1], r) {
      NewRunKeepsRuns(runs, r);
      FlattenSnoc(runs, [r]);
    } else {
      var init, last := runs[..n - 1], runs[n - 1];
      assert runs == init + [last];
      GrownRunKeepsRuns(init, last, r);
      FlattenSnoc(init, last);
      FlattenSnoc(init, last + [r]);
    }
  }

  lemma RunsOfSnoc(init: seq<Record>, r: Record)
    ensures RunsOf(init + [r]) == AddRecord(RunsOf(init), r)
  {
    assert (init + [r])[..|init|] == init;
  }

  ghost predicate Divides(runs: seq<seq<Record>>, rs: seq<Record>) {
    MaximalRuns(runs) && Flatten(runs) == rs
  }

  lemma AddRecordDivides(runs: seq<seq<Record>>, init: seq<Record>, r: Record)
    requires Divides(runs, init)
    ensures Divides(AddRecord(runs, r), init + [r])
  {
    AddRecordKeepsRuns(runs, r);
  }

  /** Every record sequence has a division into maximal runs ... */
  lemma {:induction false} RunsExist(rs: seq<Record>)
    ensures Divides(RunsOf(rs), rs)
  {
    if rs != [] {
      var init, last := rs[..|rs| - 1], rs[|rs| - 1];
      RunsExist(init);
      assert rs == init + [last];
      OneMoreRecord(rs, init, last);
    }
  }

  lemma OneMoreRecord(rs: seq<Record>, init: seq<Record>, last: Record)
    requires rs == init + [last] && Divides(RunsOf(init), init)
    ensures Divides(RunsOf(rs), rs)
  {
    AddRecordDivides(RunsOf(init), init, last);
    RunsOfSnoc(init, last);
  }

  /** ... and only one. */
  lemma {:induction false} RunsAreUnique(runs: seq<seq<Record>>)
    requires MaximalRuns(runs)
    ensures RunsOf(Flatten(runs)) == runs
    decreases |Flatten(runs)|
  {
    if runs != [] {
      var n := |runs| - 1;
      var init, last := runs[..n], runs[n];
      var k := |last| - 1;
      assert runs == init + [last] && last == last[..k] + [last[k]];
      FlattenSnoc(init, last);
      var before := if k == 0 then init else init + [last[..k]];
      FlattenSnoc(init, last[..k]);
      assert Flatten(runs) == Flatten(before) + [last[k]];
      assert n > 0 ==> SeparatedAt(runs, n - 1);
      if k == 0 {
        InitKeepsRuns(runs);
      } else {
        ShortenKeepsRuns(init, last);
      }
      RunsAreUnique(before);
      RunsOfSnoc(Flatten(before), last[k]);
      AddBack(init, last);
    }
  }

  /** Adding the last record back to the division it was taken from. */
  lemma AddBack(init: seq<seq<Record>>, last: seq<Record>)
    requires IsRun(last) && (init != [] ==> Boundary(init[|init| - 1], last[0]))
    ensures var k := |last| - 1;
      AddRecord(if k == 0 then init else init + [last[..k]], last[k]) == init + [last]
  {
    var k := |last| - 1;
    if k > 0 {
      assert last == last[..k] + [last[k]];
      assert (init + [last[..k]])[..|init|] == init;
    } else {
      assert last == [last[0]];
    }
  }

  lemma InitKeepsRuns(runs: seq<seq<Record>>)
    requires runs != [] && MaximalRuns(runs)
    ensures MaximalRuns(runs[..|runs| - 1])
  {
    var init := runs[..|runs| - 1];
    forall i | 0 <= i < |init| - 1 ensures SeparatedAt(init, i) {
      assert SeparatedAt(runs, i);
    }
  }

  lemma ShortenKeepsRuns(init: seq<seq<Record>>, last: seq<Record>)
    requires MaximalRuns(init + [last]) && |last| > 1
    ensures MaximalRuns(init + [last[..|last| - 1]])
  {
    var runs, shorter := init + [last], init + [last[..|last| - 1]];
    assert runs[|init|] == last;
    forall i | 0 <= i < |shorter| ensures IsRun(shorter[i]) {
      assert IsRun(runs[i]);
    }
    forall i | 0 <= i < |shorter| - 1 ensures SeparatedAt(shorter, i) {
      assert SeparatedAt(runs, i);
    }
  }

  lemma {:induction false} MergedSerial(d: Decoders, run: seq<Record>)
    requires IsRun(run)
    ensures MergeAll(d, run).value.serial == run[0].serial
  {
    if |run| > 1 {
      MergedSerial(d, run[..|run| - 1]);
    }
    MergeSerial(d, MergeAll(d, run[..|run| - 1]), run[|run| - 1]);
  }

  lemma MergeSerial(d: Decoders, ctx: Option<Ctx>, r: Record)
    requires ctx.Some? ==> ctx.value.serial == r.serial
    ensures Merge(d, ctx, r).serial == r.serial
  {
  }

  /** Where the stream stands after `runs`: the last run is open unless an EOE closed it. */
  ghost predicate StreamedRuns(d: Decoders, runs: seq<seq<Record>>, ctx: Option<Ctx>, out: seq<Event>) {
    if runs == [] || EndsEvent(runs[|runs| - 1]) then ctx == None && out == EmitRuns(d, runs)
    else ctx == MergeAll(d, runs[|runs| - 1]) && out == EmitRuns(d, runs[..|runs| - 1])
  }

  lemma EmitRunsSnoc(d: Decoders, runs: seq<seq<Record>>, run: seq<Record>)
    ensures EmitRuns(d, runs + [run]) == EmitRuns(d, runs) + EmitRun(d, run)
  {
    assert (runs + [run])[..|runs|] == runs;
  }

  lemma EmitRunsIs(d: Decoders, init: seq<seq<Record>>, run: seq<Record>, runs: seq<seq<Record>>)
    requires runs == init + [run]
    ensures EmitRuns(d, runs) == EmitRuns(d, init) + EmitRun(d, run)
  {
    EmitRunsSnoc(d, init, run);
  }

  lemma MergeAllSnoc(d: Decoders, run: seq<Record>, r: Record)
    ensures MergeAll(d, run + [r]) == Some(Merge(d, MergeAll(d, run), r))
  {
    assert (run + [r])[..|run|] == run;
  }

  lemma MergeAllIs(d: Decoders, init: seq<Record>, r: Record, run: seq<Record>)
    requires run == init + [r]
    ensures MergeAll(d, run) == Some(Merge(d, MergeAll(d, init), r))
  {
    MergeAllSnoc(d, init, r);
  }

  /** A record of another serial, or the first one: what was open is emitted, a new run begins. */
  lemma FeedStepNew(d: Decoders, ctx: Option<Ctx>, r: Record)
    requires ctx.Some? ==> ctx.value.serial != r.serial
    ensures var (c1, out1) := FeedStep(d, ctx, Some(r));
      && c1 == (if r.rtype == "EOE" then None else MergeAll(d, [r]))
      && out1 == FlushStep(d, ctx) + if r.rtype == "EOE" then EmitRun(d, [r]) else []
  {
    MergeAllSnoc(d, [], r);
    assert [] + [r] == [r];
  }

  lemma OpenNewRun(
      d: Decoders, runs: seq<seq<Record>>, r: Record, out: seq<Event>, flushed: seq<Event>, c1: Option<Ctx>,
      out1: seq<Event>)
    requires out + flushed == EmitRuns(d, runs)
    requires c1 == if r.rtype == "EOE" then None else MergeAll(d, [r])
    requires out1 == flushed + if r.rtype == "EOE" then EmitRun(d, [r]) else []
    ensures StreamedRuns(d, runs + [[r]], c1, out + out1)
  {
    assert (runs + [[r]])[..|runs|] == runs;
    if r.rtype == "EOE" {
      EmitRunsSnoc(d, runs, [r]);
      assert out + (flushed + EmitRun(d, [r])) == out + flushed + EmitRun(d, [r]);
    } else {
      assert flushed + [] == flushed;
    }
  }

  /** What is out already, plus what a flush would give, is the batch of the runs so far. */
  lemma StreamedThenFlushed(d: Decoders, runs: seq<seq<Record>>, ctx: Option<Ctx>, out: seq<Event>)
    requires StreamedRuns(d, runs, ctx, out)
    ensures out + FlushStep(d, ctx) == EmitRuns(d, runs)
  {
    if runs != [] && !EndsEvent(runs[|runs| - 1]) {
      var n := |runs| - 1;
      EmitRunsIs(d, runs[..n], runs[n], runs);
    }
  }

  /** Feeding a record that opens a new run: a context of the run before is emitted first. */
  lemma FeedNewRun(d: Decoders, runs: seq<seq<Record>>, r: Record, ctx: Option<Ctx>, out: seq<Event>)
    requires MaximalRuns(runs) && StreamedRuns(d, runs, ctx, out)
    requires runs != [] ==> Boundary(runs[|runs| - 1], r)
    ensures var (c1, out1) := FeedStep(d, ctx, Some(r));
      StreamedRuns(d, runs + [[r]], c1, out + out1)
  {
    StreamedThenFlushed(d, runs, ctx, out);
    if ctx.Some? {
      MergedSerial(d, runs[|runs| - 1]);
    }
    FeedStepNew(d, ctx, r);
    var (c1, out1) := FeedStep(d, ctx, Some(r));
    OpenNewRun(d, runs, r, out, FlushStep(d, ctx), c1, out1);
  }

  lemma FeedStepSame(d: Decoders, run: seq<Record>, r: Record)
    requires IsRun(run) && run[0].serial == r.serial
    ensures var (c1, out1) := FeedStep(d, MergeAll(d, run), Some(r));
      && c1 == (if r.rtype == "EOE" then None else MergeAll(d, run + [r]))
      && out1 == if r.rtype == "EOE" then EmitRun(d, run + [r]) else []
  {
    MergedSerial(d, run);
    MergeAllSnoc(d, run, r);
  }

  /** Feeding a record of the open run: it is merged into the context. */
  lemma FeedSameRun(
      d: Decoders, init: seq<seq<Record>>, last: seq<Record>, r: Record, ctx: Option<Ctx>, out: seq<Event>)
    requires IsRun(last) && StreamedRuns(d, init + [last], ctx, out) && !Boundary(last, r)
    ensures var (c1, out1) := FeedStep(d, ctx, Some(r));
      StreamedRuns(d, init + [last + [r]], c1, out + out1)
  {
    FeedStepSame(d, last, r);
    EmitRunsSnoc(d, init, last + [r]);
    assert (init + [last])[..|init|] == init && (init + [last + [r]])[..|init|] == init;
  }

  lemma {:induction false} StreamFollowsRuns(d: Decoders, lines: seq<Option<Record>>)
    ensures var (c, out) := Stream(d, None, lines);
      StreamedRuns(d, RunsOf(Parsed(lines)), c, out)
  {
    if lines != [] {
      var init, last := lines[..|lines| - 1], lines[|lines| - 1];
      StreamFollowsRuns(d, init);
      var (c, out) := Stream(d, None, init);
      if last.Some? {
        var rs := Parsed(init);
        assert (rs + [last.value])[..|rs|] == rs;
        FeedRecord(d, RunsOf(rs), last.value, c, out) by {
          RunsExist(rs);
        }
      } else {
        assert Parsed(init) + [] == Parsed(init) && out + [] == out;
      }
    }
  }

  lemma FeedRecord(d: Decoders, runs: seq<seq<Record>>, r: Record, ctx: Option<Ctx>, out: seq<Event>)
    requires MaximalRuns(runs) && StreamedRuns(d, runs, ctx, out)
    ensures var (c1, out1) := FeedStep(d, ctx, Some(r));
      StreamedRuns(d, AddRecord(runs, r), c1, out + out1)
  {
    var n := |runs|;
    if n == 0 || Boundary(runs[n - 1], r) {
      FeedNewRun(d, runs, r, ctx, out);
    } else {
      assert runs == runs[..n - 1] + [runs[n - 1]];
      FeedSameRun(d, runs[..n - 1], runs[n - 1], r, ctx, out);
    }
  }

  /**
   * Streaming equals batch: feeding any lines and flushing gives the events of each
   * maximal run of same-serial records, merged as a whole, in order.
   */
  lemma StreamingEqualsBatch(d: Decoders, lines: seq<Option<Record>>, runs: seq<seq<Record>>)
    requires MaximalRuns(runs) && Flatten(runs) == Parsed(lines)
    ensures StreamAll(d, lines) == EmitRuns(d, runs)
  {
    RunsAreUnique(runs);
    StreamFollowsRuns(d, lines);
    var (c, out) := Stream(d, None, lines);
    StreamedThenFlushed(d, runs, c, out);
  }

  /** Lines that are not audit records change nothing, wherever they are inserted. */
  lemma UnparseableLinesDoNotMatter(d: Decoders, a: seq<Option<Record>>, b: seq<Option<Record>>)
    requires Parsed(a) == Parsed(b)
    ensures StreamAll(d, a) == StreamAll(d, b)
  {
    RunsExist(Parsed(a));
    StreamingEqualsBatch(d, a, RunsOf(Parsed(a)));
    StreamingEqualsBatch(d, b, RunsOf(Parsed(a)));
  }

  lemma {:induction false} ParsedAppend(a: seq<Option<Record>>, b: seq<Option<Record>>)
    ensures Parsed(a + b) == Parsed(a) + Parsed(b)
  {
    if b == [] {
      assert a + b == a;
    } else {
      var n := |b| - 1;
      assert (a + b)[..|a| + n] == a + b[..n];
      ParsedAppend(a, b[..n]);
    }
  }

  lemma {:induction false} FlattenAppend(a: seq<seq<Record>>, b: seq<seq<Record>>)
    ensures Flatten(a + b) == Flatten(a) + Flatten(b)
  {
    if b == [] {
      assert a + b == a;
    } else {
      var n := |b| - 1;
      assert (a + b)[..|a| + n] == a + b[..n];
      FlattenAppend(a, b[..n]);
    }
  }

  lemma AppendLast(a: seq<seq<Record>>, init: seq<seq<Record>>, run: seq<Record>)
    ensures a + (init + [run]) == a + init + [run]
  {
  }

  lemma Associates(x: seq<Event>, y: seq<Event>, z: seq<Event>)
    ensures x + (y + z) == x + y + z
  {
  }

  lemma {:induction false} EmitRunsAppend(d: Decoders, a: seq<seq<Record>>, b: seq<seq<Record>>)
    ensures EmitRuns(d, a + b) == EmitRuns(d, a) + EmitRuns(d, b)
  {
    if b == [] {
      assert a + b == a;
    } else {
      var init, run := b[..|b| - 1], b[|b| - 1];
      assert b == init + [run];
      EmitRunsAppend(d, a, init);
      AppendLast(a, init, run);
      EmitRunsSnoc(d, a + init, run);
      Associates(EmitRuns(d, a), EmitRuns(d, init), EmitRun(d, run));
    }
  }

  lemma {:induction false} FlattenEnds(runs: seq<seq<Record>>)
    requires MaximalRuns(runs) && runs != []
    ensures Flatten(runs) != []
    ensures Flatten(runs)[0] == runs[0][0]
    ensures var last := runs[|runs| - 1]; Flatten(runs)[|Flatten(runs)| - 1] == last[|last| - 1]
  {
    var n := |runs| - 1;
    if n > 0 {
      InitKeepsRuns(runs);
      FlattenEnds(runs[..n]);
    } else {
      assert Flatten(runs) == [] + runs[0];
    }
  }

  /** Between two batches of records a run ends: the serial changes or an EOE closed the event. */
  predicate RunEnds(a: seq<Record>, b: seq<Record>) {
    a == [] || b == [] || a[|a| - 1].serial != b[0].serial || EndsEvent(a)
  }

  /** Flushing between two batches changes nothing when a run ends there. */
  lemma FlushAtRunBoundary(d: Decoders, a: seq<Option<Record>>, b: seq<Option<Record>>)
    requires RunEnds(Parsed(a), Parsed(b))
    ensures StreamAll(d, a + b) == StreamAll(d, a) + StreamAll(d, b)
  {
    var ra, rb := RunsOf(Parsed(a)), RunsOf(Parsed(b));
    RunsExist(Parsed(a));
    RunsExist(Parsed(b));
    JoinRuns(ra, rb);
    FlattenAppend(ra, rb);
    ParsedAppend(a, b);
    StreamingEqualsBatch(d, a, ra);
    StreamingEqualsBatch(d, b, rb);
    StreamingEqualsBatch(d, a + b, ra + rb);
    EmitRunsAppend(d, ra, rb);
  }

  lemma JoinRuns(a: seq<seq<Record>>, b: seq<seq<Record>>)
    requires MaximalRuns(a) && MaximalRuns(b) && RunEnds(Flatten(a), Flatten(b))
    ensures MaximalRuns(a + b)
  {
    if a != [] && b != [] {
      FlattenEnds(a);
      FlattenEnds(b);
    }
    forall i | 0 <= i < |a + b| - 1 ensures SeparatedAt(a + b, i) {
      if i < |a| - 1 {
        assert SeparatedAt(a, i);
      } else if i >= |a| {
        assert SeparatedAt(b, i - |a|);
      }
    }
  }

  lemma SingleRun(d: Decoders, lines: seq<Option<Record>>, run: seq<Record>)
    requires IsRun(run) && Parsed(lines) == run
    ensures StreamAll(d, lines) == EmitRun(d, run)
  {
    FlattenSnoc([], run);
    EmitRunsSnoc(d, [], run);
    assert [] + [run] == [run] && [] + run == run;
    StreamingEqualsBatch(d, lines, [run]);
  }

  /* ------------------------------------------------------- the last record of each type */

  /** The last record of a type, the one whose fields survive merging. */
  function LastOf(run: seq<Record>, rtype: string): (r: Option<Record>) {
    if run == [] then None
    else if run[|run| - 1].rtype == rtype then Some(run[|run| - 1])
    else LastOf(run[..|run| - 1], rtype)
  }

  /** The outcome comes from the last SYSCALL or CONNECT record, whichever is later. */
  function LastOutcome(run: seq<Record>): (v: Option<string>) {
    if run == [] then None
    else if run[|run| - 1].rtype in {"SYSCALL", "CONNECT"} then Get(run[|run| - 1], "success")
    else LastOutcome(run[..|run| - 1])
  }

  /** The context a run must end with, read off its last records. */
  function CtxFrom(
    d: Decoders, first: Record, sys: Option<Record>, execve: Option<Record>, path: Option<Record>,
    saddr: Option<Record>, outcome: Option<string>): (c: Ctx)
  {
    var c := (if sys.Some? then Merge(d, Some(EmptyCtx(first)), sys.value) else EmptyCtx(first));
    c.(success := outcome,
       argv := if execve.Some? then ExecveArgs(execve.value, ToInt(d, Get(execve.value, "argc"))) else [],
       path := if path.Some? then PathName(path.value) else None,
       saddr := if saddr.Some? then Get(saddr.value, "saddr") else None)
  }

  function CtxOf(d: Decoders, run: seq<Record>): (c: Ctx)
    requires run != []
  {
    CtxFrom(d, run[0], LastOf(run, "SYSCALL"), LastOf(run, "EXECVE"), LastOf(run, "PATH"),
            LastOf(run, "SOCKADDR"), LastOutcome(run))
  }

  predicate SysOnly(sys: Option<Record>) {
    sys.Some? ==> sys.value.rtype == "SYSCALL"
  }

  /** Merging one more record replaces what records of its type had contributed. */
  lemma MergeReplaces(
      d: Decoders, first: Record, sys: Option<Record>, execve: Option<Record>, path: Option<Record>,
      saddr: Option<Record>, outcome: Option<string>, r: Record)
    requires SysOnly(sys)
    ensures Merge(d, Some(CtxFrom(d, first, sys, execve, path, saddr, outcome)), r) ==
      CtxFrom(d, first,
              if r.rtype == "SYSCALL" then Some(r) else sys, if r.rtype == "EXECVE" then Some(r) else execve,
              if r.rtype == "PATH" then Some(r) else path, if r.rtype == "SOCKADDR" then Some(r) else saddr,
              if r.rtype == "SYSCALL" || r.rtype == "CONNECT" then Get(r, "success") else outcome)
  {
  }

  lemma {:induction false} LastOfType(run: seq<Record>, rtype: string)
    ensures LastOf(run, rtype).Some? ==> LastOf(run, rtype).value.rtype == rtype && LastOf(run, rtype).value in run
    ensures LastOf(run, rtype).None? ==> forall r :: r in run ==> r.rtype != rtype
  {
    if run != [] {
      LastOfType(run[..|run| - 1], rtype);
    }
  }

  lemma {:induction false} MergedIsCtxOf(d: Decoders, run: seq<Record>)
    requires run != []
    ensures MergeAll(d, run) == Some(CtxOf(d, run))
  {
    var init, r := run[..|run| - 1], run[|run| - 1];
    if init == [] {
      var first := CtxFrom(d, r, None, None, None, None, None);
      assert first == EmptyCtx(r);
      MergeReplaces(d, r, None, None, None, None, None, r);
      assert MergeAll(d, run) == Some(Merge(d, None, r)) && Merge(d, None, r) == Merge(d, Some(first), r);
      assert LastOf(init, "SYSCALL") == LastOf(init, "EXECVE") == LastOf(init, "PATH") == LastOf(init, "SOCKADDR") == None;
      assert LastOutcome(init) == None;
    } else {
      MergedIsCtxOf(d, init);
      LastOfType(init, "SYSCALL");
      MergeReplaces(d, run[0], LastOf(init, "SYSCALL"), LastOf(init, "EXECVE"), LastOf(init, "PATH"),
                    LastOf(init, "SOCKADDR"), LastOutcome(init), r);
    }
  }

  /* --------------------------------------------- what of the late records an event reads */

  /** The name an exec event is given. */
  function ExecName(c: Ctx): (s: string) {
    ExeName(if !Truthy(c.exe) && Truthy(c.path) then c.path else c.exe, c.comm)
  }

  /** The peer a connect event is given; without one there is no event. */
  function Peer(d: Decoders, c: Ctx): (p: Option<(string, int)>) {
    if Truthy(c.saddr) then d.sockaddr(c.saddr.value) else None
  }

  /** The file a file event is given; without one there is no event. */
  function FileName(c: Ctx): (p: Option<string>) {
    if Truthy(c.path) then c.path else None
  }

  /** The arguments, path and address of two contexts of one system call read the same. */
  predicate ReadsSame(d: Decoders, c: Ctx, c1: Ctx) {
    || c.success == Some("no")
    || (c.syscall in EXEC_SYSCALLS && c.argv == c1.argv && ExecName(c) == ExecName(c1))
    || (c.syscall in CONNECT_SYSCALLS && Peer(d, c) == Peer(d, c1))
    || (c.syscall in OPEN_SYSCALLS && FileName(c) == FileName(c1))
    || c.syscall !in EXEC_SYSCALLS + CONNECT_SYSCALLS + OPEN_SYSCALLS
  }

  lemma EmitsSameIff(d: Decoders, c: Ctx, c1: Ctx)
    requires c1 == c.(argv := c1.argv, path := c1.path, saddr := c1.saddr)
    ensures Emit(d, c) == Emit(d, c1) <==> ReadsSame(d, c, c1)
  {
    if c.success != Some("no") {
      if c.syscall in EXEC_SYSCALLS {
        assert Emit(d, c)[0].cmdline == c.argv && Emit(d, c)[0].exe == ExecName(c);
        assert Emit(d, c1)[0].cmdline == c1.argv && Emit(d, c1)[0].exe == ExecName(c1);
      } else if c.syscall in CONNECT_SYSCALLS {
        assert Emit(d, c) == [] <==> Peer(d, c).None?;
        assert Emit(d, c1) == [] <==> Peer(d, c1).None?;
        if Peer(d, c).Some? && Peer(d, c1).Some? {
          assert Emit(d, c)[0].details == ConnectDetails(Peer(d, c).value.0, Peer(d, c).value.1, c.syscall);
          assert Emit(d, c1)[0].details == ConnectDetails(Peer(d, c1).value.0, Peer(d, c1).value.1, c.syscall);
        }
      } else if c.syscall in OPEN_SYSCALLS {
        assert Emit(d, c) == [] <==> FileName(c).None?;
        assert Emit(d, c1) == [] <==> FileName(c1).None?;
        if FileName(c).Some? && FileName(c1).Some? {
          assert Emit(d, c)[0].details.path == FileName(c).value;
          assert Emit(d, c1)[0].details.path == FileName(c1).value;
        }
      }
    }
  }

  /** A context after records that carry no outcome: their last of each type counts. */
  function Later(d: Decoders, c: Ctx, late: seq<Record>): (c1: Ctx) {
    var execve, path, saddr := LastOf(late, "EXECVE"), LastOf(late, "PATH"), LastOf(late, "SOCKADDR");
    c.(argv := if execve.Some? then ExecveArgs(execve.value, ToInt(d, Get(execve.value, "argc"))) else c.argv,
       path := if path.Some? then PathName(path.value) else c.path,
       saddr := if saddr.Some? then Get(saddr.value, "saddr") else c.saddr)
  }

  /** No record of `rs` says which system call was made nor how it ended. */
  predicate NoOutcome(rs: seq<Record>) {
    forall r :: r in rs ==> r.rtype !in {"SYSCALL", "CONNECT"}
  }

  lemma {:induction false} MergeLater(d: Decoders, early: seq<Record>, late: seq<Record>)
    requires early != [] && NoOutcome(late)
    ensures MergeAll(d, early + late) == Some(Later(d, MergeAll(d, early).value, late))
  {
    if late == [] {
      assert early + late == early;
    } else {
      var init, last := late[..|late| - 1], late[|late| - 1];
      assert last in late && forall r :: r in init ==> r in late;
      MergeLater(d, early, init);
      MergeLast(d, MergeAll(d, early).value, late);
      MergeAllIs(d, early + init, last, early + late);
    }
  }

  lemma MergeLast(d: Decoders, c: Ctx, late: seq<Record>)
    requires late != [] && late[|late| - 1].rtype !in {"SYSCALL", "CONNECT"}
    ensures Merge(d, Some(Later(d, c, late[..|late| - 1])), late[|late| - 1]) == Later(d, c, late)
  {
  }

  /** Without a SYSCALL record nothing is emitted. */
  lemma NoSyscallNoEvent(d: Decoders, run: seq<Record>)
    requires forall r :: r in run ==> r.rtype != "SYSCALL"
    ensures EmitRun(d, run) == []
  {
    if run != [] {
      MergedIsCtxOf(d, run);
      LastOfType(run, "SYSCALL");
      assert CtxOf(d, run).syscall == 0;
    }
  }

  lemma PartsAreRuns(a: seq<Record>, b: seq<Record>)
    requires a != [] && b != [] && IsRun(a + b)
    ensures IsRun(a) && IsRun(b)
  {
    var all := a + b;
    assert forall i :: 0 <= i < |a| ==> a[i] == all[i];
    assert forall i :: 0 <= i < |b| ==> b[i] == all[|a| + i];
  }

  /**
   * Flushing inside an event, before records that carry no outcome, changes nothing exactly
   * when the event reads the same without them: it failed, or their arguments, path and
   * address leave what it is given as it was.
   */
  lemma FlushInsideRunIff(d: Decoders, a: seq<Option<Record>>, b: seq<Option<Record>>)
    requires Parsed(a) != [] && Parsed(b) != [] && IsRun(Parsed(a) + Parsed(b)) && NoOutcome(Parsed(b))
    ensures StreamAll(d, a + b) == StreamAll(d, a) + StreamAll(d, b) <==>
      var c := CtxOf(d, Parsed(a)); ReadsSame(d, c, Later(d, c, Parsed(b)))
  {
    var early, late := Parsed(a), Parsed(b);
    ParsedAppend(a, b);
    PartsAreRuns(early, late);
    SingleRun(d, a + b, early + late);
    SingleRun(d, a, early);
    SingleRun(d, b, late);
    NoSyscallNoEvent(d, late);
    MergedIsCtxOf(d, early);
    MergeLater(d, early, late);
    EmitsSameIff(d, CtxOf(d, early), Later(d, CtxOf(d, early), late));
  }

  /**
   * The usual order, an exec flushed between its SYSCALL and its EXECVE record: the
   * arguments are lost exactly when there were any.
   */
  lemma {:induction false} FlushInsideRunLosesArguments(d: Decoders, sys: Record, execve: Record)
    requires sys.rtype == "SYSCALL" && execve.rtype == "EXECVE" && sys.serial == execve.serial
    requires ToInt(d, Get(sys, "syscall")) in EXEC_SYSCALLS && Get(sys, "success") != Some("no")
    ensures StreamAll(d, [Some(sys), Some(execve)]) == StreamAll(d, [Some(sys)]) + StreamAll(d, [Some(execve)])
      <==> ExecveArgs(execve, ToInt(d, Get(execve, "argc"))) == []
  {
    ParsedOne(sys);
    ParsedOne(execve);
    FlushInsideRunIff(d, [Some(sys)], [Some(execve)]);
    assert [Some(sys)] + [Some(execve)] == [Some(sys), Some(execve)];
    CtxOfSyscall(d, sys);
    assert [execve][..0] == [];
  }

  lemma ParsedOne(r: Record)
    ensures Parsed([Some(r)]) == [r]
  {
    assert [Some(r)][..0] == [];
  }

  lemma CtxOfSyscall(d: Decoders, sys: Record)
    requires sys.rtype == "SYSCALL"
    ensures CtxOf(d, [sys]) == Merge(d, Some(EmptyCtx(sys)), sys)
  {
    MergedIsCtxOf(d, [sys]);
    MergeAllSnoc(d, [], sys);
    assert [] + [sys] == [sys];
  }

  /* ------------------------------------------------------------- order independence */

  /** The fields a record contributes, seen on a context where nothing is set yet. */
  function Contribution(d: Decoders, r: Record): (c: Ctx) {
    Merge(d, Some(EmptyCtx(Record("", 0, 0.0, map[]))), r)
  }

  /** Records of one type contribute the same fields. */
  predicate Alike(d: Decoders, run: seq<Record>, rtype: string) {
    forall x, y :: x in run && y in run && x.rtype == rtype && y.rtype == rtype ==>
      Contribution(d, x) == Contribution(d, y)
  }

  /** The records that say how the system call ended say the same. */
  predicate OneOutcome(run: seq<Record>) {
    forall x, y :: x in run && y in run && x.rtype in {"SYSCALL", "CONNECT"} && y.rtype in {"SYSCALL", "CONNECT"} ==>
      Get(x, "success") == Get(y, "success")
  }

  ghost predicate SameRecords(a: seq<Record>, b: seq<Record>) {
    forall r :: r in a <==> r in b
  }

  lemma {:induction false} LastOutcomeOf(run: seq<Record>)
    ensures NoOutcome(run) ==> LastOutcome(run) == None
    ensures !NoOutcome(run) ==>
      exists r :: r in run && r.rtype in {"SYSCALL", "CONNECT"} && LastOutcome(run) == Get(r, "success")
  {
    if run != [] {
      var n := |run| - 1;
      assert run[n] in run && forall r :: r in run[..n] ==> r in run;
      LastOutcomeOf(run[..n]);
    }
  }

  lemma SameOutcome(a: seq<Record>, b: seq<Record>)
    requires SameRecords(a, b) && OneOutcome(a)
    ensures LastOutcome(a) == LastOutcome(b)
  {
    LastOutcomeOf(a);
    LastOutcomeOf(b);
  }

  /** The last records of one type, in two arrangements, contribute the same or are both missing. */
  predicate SameLast(d: Decoders, a: seq<Record>, b: seq<Record>, rtype: string) {
    var x, y := LastOf(a, rtype), LastOf(b, rtype);
    (x.Some? <==> y.Some?) && (x.Some? ==> Contribution(d, x.value) == Contribution(d, y.value))
  }

  lemma AlikeLasts(d: Decoders, a: seq<Record>, b: seq<Record>, rtype: string)
    requires SameRecords(a, b) && Alike(d, a, rtype)
    ensures SameLast(d, a, b, rtype)
  {
    LastOfType(a, rtype);
    LastOfType(b, rtype);
  }

  /** The events depend only on what the last record of each type contributes, and the outcome. */
  lemma LastRecordsDecide(d: Decoders, a: seq<Record>, b: seq<Record>)
    requires a != [] && b != [] && LastOutcome(a) == LastOutcome(b)
    requires SameLast(d, a, b, "SYSCALL") && SameLast(d, a, b, "EXECVE")
    requires SameLast(d, a, b, "PATH") && SameLast(d, a, b, "SOCKADDR")
    ensures EmitRun(d, a) == EmitRun(d, b)
  {
    LastOfType(a, "SYSCALL");
    LastOfType(b, "SYSCALL");
    if LastOf(a, "SYSCALL").None? {
      NoSyscallNoEvent(d, a);
      NoSyscallNoEvent(d, b);
    } else {
      MergedIsCtxOf(d, a);
      MergedIsCtxOf(d, b);
      LastOfType(a, "EXECVE");
      LastOfType(b, "EXECVE");
      LastOfType(a, "PATH");
      LastOfType(b, "PATH");
      LastOfType(a, "SOCKADDR");
      LastOfType(b, "SOCKADDR");
      assert CtxOf(d, a) == CtxOf(d, b);
    }
  }

  /**
   * Order independence: two arrangements of the records of one event, repetitions
   * allowed, stream to the same events when the records of each type contribute the same
   * fields and agree on the outcome, and any EOE comes last.
   */
  lemma OrderDoesNotMatter(d: Decoders, a: seq<Record>, b: seq<Record>, la: seq<Option<Record>>,
        lb: seq<Option<Record>>)
    requires IsRun(a) && IsRun(b) && SameRecords(a, b) && OneOutcome(a)
    requires Alike(d, a, "SYSCALL") && Alike(d, a, "EXECVE") && Alike(d, a, "PATH") && Alike(d, a, "SOCKADDR")
    requires Parsed(la) == a && Parsed(lb) == b
    ensures StreamAll(d, la) == StreamAll(d, lb)
  {
    SameOutcome(a, b);
    AlikeLasts(d, a, b, "SYSCALL");
    AlikeLasts(d, a, b, "EXECVE");
    AlikeLasts(d, a, b, "PATH");
    AlikeLasts(d, a, b, "SOCKADDR");
    LastRecordsDecide(d, a, b);
    SingleRun(d, la, a);
    SingleRun(d, lb, b);
  }

  /** Two PATH records in one order and in the other: the same events exactly when both read the same. */
  lemma PathOrderIff(d: Decoders, c: Ctx, p: Record, q: Record)
    requires p.rtype == "PATH" && q.rtype == "PATH"
    ensures Emit(d, Merge(d, Some(Merge(d, Some(c), p)), q)) == Emit(d, Merge(d, Some(Merge(d, Some(c), q)), p)) <==>
      ReadsSame(d, c.(path := PathName(p)), c.(path := PathName(q)))
  {
    EmitsSameIff(d, c.(path := PathName(p)), c.(path := PathName(q)));
  }

  /** With two PATH records order does matter: a later one without a usable name hides the file. */
  lemma LaterPathHidesFile(d: Decoders, c: Ctx, p: Record, q: Record)
    requires c.syscall in OPEN_SYSCALLS && c.success != Some("no")
    requires p.rtype == "PATH" && q.rtype == "PATH" && Truthy(PathName(p)) && PathName(q) == None
    ensures Emit(d, Merge(d, Some(Merge(d, Some(c), p)), q)) == []
    ensures |Emit(d, Merge(d, Some(Merge(d, Some(c), q)), p))| == 1
  {
    var pq := Merge(d, Some(Merge(d, Some(c), p)), q);
    var qp := Merge(d, Some(Merge(d, Some(c), q)), p);
    assert pq == c.(path := None) && qp == c.(path := PathName(p));
  }

  const LATE: set<string> := {"EXECVE", "PATH", "SOCKADDR"}

  /** Records that say which system call was made, and how it ended, say the same. */
  predicate OneSyscall(d: Decoders, run: seq<Record>) {
    Alike(d, run, "SYSCALL") && OneOutcome(run)
  }

  /** Two records of one late type read the same as the last of their type. */
  predicate ReadAlike(d: Decoders, c: Ctx, x: Record, y: Record) {
    x.rtype == y.rtype && x.rtype in LATE ==> ReadsSame(d, Merge(d, Some(c), x), Merge(d, Some(c), y))
  }

  predicate Interchangeable(d: Decoders, c: Ctx, run: seq<Record>) {
    forall x, y :: x in run && y in run ==> ReadAlike(d, c, x, y)
  }

  ghost predicate Rearranged(a: seq<Record>, b: seq<Record>) {
    IsRun(b) && multiset(a) == multiset(b)
  }

  lemma SameElements(a: seq<Record>, b: seq<Record>)
    requires multiset(a) == multiset(b)
    ensures SameRecords(a, b)
  {
    forall r ensures r in a <==> r in b {
      assert r in a <==> r in multiset(a);
      assert r in b <==> r in multiset(b);
    }
  }

  /** Rearranging can change the event only through its arguments, path and address. */
  lemma RearrangedEmitsIff(d: Decoders, a: seq<Record>, b: seq<Record>)
    requires a != [] && b != [] && SameRecords(a, b) && OneSyscall(d, a)
    ensures var c, c1 := CtxOf(d, a), CtxOf(d, b);
      && c.syscall == c1.syscall && c.success == c1.success
      && (LastOf(a, "SYSCALL").Some? ==> c1 == c.(argv := c1.argv, path := c1.path, saddr := c1.saddr))
      && (EmitRun(d, a) == EmitRun(d, b) <==> ReadsSame(d, c, c1))
  {
    SameOutcome(a, b);
    AlikeLasts(d, a, b, "SYSCALL");
    LastOfType(a, "SYSCALL");
    LastOfType(b, "SYSCALL");
    MergedIsCtxOf(d, a);
    MergedIsCtxOf(d, b);
    if LastOf(a, "SYSCALL").Some? {
      EmitsSameIff(d, CtxOf(d, a), CtxOf(d, b));
    } else {
      NoSyscallNoEvent(d, a);
      NoSyscallNoEvent(d, b);
    }
  }

  /** The last record of a late type is in the context already. */
  lemma LastIsMerged(d: Decoders, run: seq<Record>, rtype: string)
    requires run != [] && rtype in LATE && LastOf(run, rtype).Some?
    ensures LastOf(run, rtype).value.rtype == rtype && LastOf(run, rtype).value in run
    ensures Merge(d, Some(CtxOf(d, run)), LastOf(run, rtype).value) == CtxOf(d, run)
  {
    LastOfType(run, rtype);
  }

  /** Where the last record of a late type is read the same in both, the type reads the same. */
  lemma LateReadsSame(d: Decoders, a: seq<Record>, b: seq<Record>, rtype: string)
    requires a != [] && b != [] && SameRecords(a, b) && Interchangeable(d, CtxOf(d, a), a)
    requires rtype in LATE && LastOf(a, rtype).Some?
    ensures LastOf(b, rtype).Some? && LastOf(b, rtype).value.rtype == rtype
    ensures ReadsSame(d, CtxOf(d, a), Merge(d, Some(CtxOf(d, a)), LastOf(b, rtype).value))
  {
    LastIsMerged(d, a, rtype);
    LastOfType(b, rtype);
    assert ReadAlike(d, CtxOf(d, a), LastOf(a, rtype).value, LastOf(b, rtype).value);
  }

  lemma NoneInBoth(a: seq<Record>, b: seq<Record>, rtype: string)
    requires SameRecords(a, b) && LastOf(a, rtype).None?
    ensures LastOf(b, rtype).None?
  {
    LastOfType(a, rtype);
    LastOfType(b, rtype);
  }

  lemma ReadsSameAfter(d: Decoders, a: seq<Record>, b: seq<Record>)
    requires a != [] && b != [] && SameRecords(a, b) && OneSyscall(d, a) && Interchangeable(d, CtxOf(d, a), a)
    ensures ReadsSame(d, CtxOf(d, a), CtxOf(d, b))
  {
    RearrangedEmitsIff(d, a, b);
    var c, c1 := CtxOf(d, a), CtxOf(d, b);
    if LastOf(a, "SYSCALL").None? {
      LastOfType(a, "SYSCALL");
      assert c.syscall == 0;
    } else {
      LateArgs(d, a, b);
      LatePath(d, a, b);
      LateAddress(d, a, b);
    }
  }

  lemma LateArgs(d: Decoders, a: seq<Record>, b: seq<Record>)
    requires a != [] && b != [] && SameRecords(a, b) && Interchangeable(d, CtxOf(d, a), a)
    ensures ReadsSame(d, CtxOf(d, a), CtxOf(d, a).(argv := CtxOf(d, b).argv))
  {
    if LastOf(a, "EXECVE").Some? {
      LateReadsSame(d, a, b, "EXECVE");
    } else {
      NoneInBoth(a, b, "EXECVE");
    }
  }

  lemma LatePath(d: Decoders, a: seq<Record>, b: seq<Record>)
    requires a != [] && b != [] && SameRecords(a, b) && Interchangeable(d, CtxOf(d, a), a)
    ensures ReadsSame(d, CtxOf(d, a), CtxOf(d, a).(path := CtxOf(d, b).path))
  {
    if LastOf(a, "PATH").Some? {
      LateReadsSame(d, a, b, "PATH");
    } else {
      NoneInBoth(a, b, "PATH");
    }
  }

  lemma LateAddress(d: Decoders, a: seq<Record>, b: seq<Record>)
    requires a != [] && b != [] && SameRecords(a, b) && Interchangeable(d, CtxOf(d, a), a)
    ensures ReadsSame(d, CtxOf(d, a), CtxOf(d, a).(saddr := CtxOf(d, b).saddr))
  {
    if LastOf(a, "SOCKADDR").Some? {
      LateReadsSame(d, a, b, "SOCKADDR");
    } else {
      NoneInBoth(a, b, "SOCKADDR");
    }
  }

  lemma {:induction false} LastOfAt(run: seq<Record>, rtype: string, k: nat)
    requires k < |run| && run[k].rtype == rtype && forall i :: k < i < |run| ==> run[i].rtype != rtype
    ensures LastOf(run, rtype) == Some(run[k])
    decreases |run|
  {
    if k < |run| - 1 {
      LastOfAt(run[..|run| - 1], rtype, k);
    }
  }

  lemma {:induction false} LastIndex(run: seq<Record>, rtype: string) returns (k: nat)
    requires LastOf(run, rtype).Some?
    ensures k < |run| && run[k].rtype == rtype && LastOf(run, rtype) == Some(run[k])
    ensures forall i :: k < i < |run| ==> run[i].rtype != rtype
  {
    k := |run| - 1;
    if run[k].rtype != rtype {
      k := LastIndex(run[..|run| - 1], rtype);
    }
  }

  /** Two runs of the same types, and of the same records outside `rtype`. */
  ghost predicate SameElsewhere(a: seq<Record>, b: seq<Record>, rtype: string) {
    |a| == |b| && forall j :: 0 <= j < |a| ==> a[j].rtype == b[j].rtype && (a[j].rtype != rtype ==> a[j] == b[j])
  }

  lemma {:induction false} ElsewhereLasts(a: seq<Record>, b: seq<Record>, rtype: string, other: string)
    requires SameElsewhere(a, b, rtype) && other != rtype
    ensures LastOf(a, other) == LastOf(b, other)
  {
    if a != [] {
      ElsewhereLasts(a[..|a| - 1], b[..|b| - 1], rtype, other);
    }
  }

  lemma {:induction false} ElsewhereOutcome(a: seq<Record>, b: seq<Record>, rtype: string)
    requires SameElsewhere(a, b, rtype) && rtype in LATE
    ensures LastOutcome(a) == LastOutcome(b)
  {
    if a != [] {
      ElsewhereOutcome(a[..|a| - 1], b[..|b| - 1], rtype);
    }
  }

  /** Exchanging a record with the last of its type. */
  lemma Exchange(a: seq<Record>, i: nat, k: nat, b: seq<Record>, rtype: string)
    requires IsRun(a) && i < |a| && k < |a| && a[i].rtype == rtype && a[k].rtype == rtype && rtype in LATE
    requires forall j :: k < j < |a| ==> a[j].rtype != rtype
    requires b == a[i := a[k]][k := a[i]]
    ensures Rearranged(a, b) && SameElsewhere(a, b, rtype) && LastOf(b, rtype) == Some(a[i])
  {
    LastOfAt(b, rtype, k);
    Exchanged(a, i, k, b);
    ExchangedRun(a, i, k, b);
  }

  lemma Exchanged<T>(a: seq<T>, i: nat, k: nat, b: seq<T>)
    requires i < |a| && k < |a| && b == a[i := a[k]][k := a[i]]
    ensures multiset(a) == multiset(b)
  {
  }

  lemma ExchangedRun(a: seq<Record>, i: nat, k: nat, b: seq<Record>)
    requires IsRun(a) && i < |a| && k < |a| && a[i].rtype == a[k].rtype != "EOE"
    requires b == a[i := a[k]][k := a[i]]
    ensures IsRun(b)
  {
  }

  lemma ExchangedCtx(d: Decoders, a: seq<Record>, b: seq<Record>, r: Record)
    requires a != [] && SameElsewhere(a, b, r.rtype) && r.rtype in LATE && LastOf(b, r.rtype) == Some(r)
    requires LastOf(a, "SYSCALL").Some?
    ensures CtxOf(d, b) == Merge(d, Some(CtxOf(d, a)), r)
  {
    forall other | other in {"SYSCALL", "EXECVE", "PATH", "SOCKADDR"} && other != r.rtype
      ensures LastOf(a, other) == LastOf(b, other)
    {
      ElsewhereLasts(a, b, r.rtype, other);
    }
    ElsewhereOutcome(a, b, r.rtype);
    LastOfType(a, "SYSCALL");
    assert LastOf(a, "SYSCALL") == LastOf(b, "SYSCALL");
    assert r.rtype != "EXECVE" ==> LastOf(a, "EXECVE") == LastOf(b, "EXECVE");
    assert r.rtype != "PATH" ==> LastOf(a, "PATH") == LastOf(b, "PATH");
    assert r.rtype != "SOCKADDR" ==> LastOf(a, "SOCKADDR") == LastOf(b, "SOCKADDR");
  }

  /** Of two records that read differently, one reads differently from what is merged already. */
  lemma OneDiffers(d: Decoders, c: Ctx, x: Record, y: Record) returns (z: Record)
    requires !ReadAlike(d, c, x, y)
    ensures z in {x, y} && !ReadsSame(d, c, Merge(d, Some(c), z))
  {
    z := if ReadsSame(d, c, Merge(d, Some(c), x)) then y else x;
  }

  /** A record that reads differently can be made the last of its type. */
  lemma MadeLast(d: Decoders, a: seq<Record>, z: Record) returns (b: seq<Record>)
    requires IsRun(a) && LastOf(a, "SYSCALL").Some? && z in a && z.rtype in LATE
    ensures Rearranged(a, b) && CtxOf(d, b) == Merge(d, Some(CtxOf(d, a)), z)
  {
    LastOfType(a, z.rtype);
    var k := LastIndex(a, z.rtype);
    var i :| 0 <= i < |a| && a[i] == z;
    b := a[i := a[k]][k := a[i]];
    Exchange(a, i, k, b, z.rtype);
    ExchangedCtx(d, a, b, z);
  }

  lemma OtherArrangement(d: Decoders, a: seq<Record>, x: Record, y: Record) returns (b: seq<Record>)
    requires IsRun(a) && OneSyscall(d, a) && x in a && y in a && !ReadAlike(d, CtxOf(d, a), x, y)
    ensures Rearranged(a, b) && EmitRun(d, b) != EmitRun(d, a)
  {
    SomeSyscall(d, a, x);
    var z := OneDiffers(d, CtxOf(d, a), x, y);
    b := MadeLast(d, a, z);
    SameElements(a, b);
    RearrangedEmitsIff(d, a, b);
  }

  lemma SomeSyscall(d: Decoders, a: seq<Record>, x: Record)
    requires a != [] && x.rtype in LATE && Merge(d, Some(CtxOf(d, a)), x).syscall != 0
    ensures LastOf(a, "SYSCALL").Some?
  {
  }

  lemma AnyArrangement(d: Decoders, a: seq<Record>, b: seq<Record>)
    requires IsRun(a) && OneSyscall(d, a) && Interchangeable(d, CtxOf(d, a), a) && Rearranged(a, b)
    ensures EmitRun(d, b) == EmitRun(d, a)
  {
    SameElements(a, b);
    RearrangedEmitsIff(d, a, b);
    ReadsSameAfter(d, a, b);
  }

  /**
   * Exactly when the order of an event's records does not matter, given that they agree on
   * the system call and its outcome: every arrangement emits the same if and only if any
   * two records of one type read the same as the last of their type.
   */
  lemma OrderIff(d: Decoders, a: seq<Record>)
    requires IsRun(a) && OneSyscall(d, a)
    ensures (forall b :: Rearranged(a, b) ==> EmitRun(d, b) == EmitRun(d, a)) <==> Interchangeable(d, CtxOf(d, a), a)
  {
    if Interchangeable(d, CtxOf(d, a), a) {
      forall b | Rearranged(a, b) ensures EmitRun(d, b) == EmitRun(d, a) {
        AnyArrangement(d, a, b);
      }
    } else {
      var x, y :| x in a && y in a && !ReadAlike(d, CtxOf(d, a), x, y);
      var b := OtherArrangement(d, a, x, y);
    }
  }

  lemma PathsReadAlike(d: Decoders, c: Ctx, x: Record, y: Record)
    requires c.syscall in OPEN_SYSCALLS && c.success != Some("no")
    ensures ReadAlike(d, c, x, y) <==> (x.rtype == "PATH" && y.rtype == "PATH" ==> PathName(x) == PathName(y))
  {
  }

  /** All PATH records name the same file, or none of them does. */
  predicate NamesOneFile(run: seq<Record>) {
    forall x, y :: x in run && y in run && x.rtype == "PATH" && y.rtype == "PATH" ==> PathName(x) == PathName(y)
  }

  /** For an event that opens a file: exactly when all its PATH records name the same file. */
  lemma FileOrderIff(d: Decoders, a: seq<Record>)
    requires IsRun(a) && OneSyscall(d, a)
    requires CtxOf(d, a).syscall in OPEN_SYSCALLS && CtxOf(d, a).success != Some("no")
    ensures (forall b :: Rearranged(a, b) ==> EmitRun(d, b) == EmitRun(d, a)) <==> NamesOneFile(a)
  {
    OrderIff(d, a);
    FilesReadAlike(d, CtxOf(d, a), a);
  }

  lemma FilesReadAlike(d: Decoders, c: Ctx, run: seq<Record>)
    requires c.syscall in OPEN_SYSCALLS && c.success != Some("no")
    ensures Interchangeable(d, c, run) <==> NamesOneFile(run)
  {
    forall x, y ensures ReadAlike(d, c, x, y) <==>
      (x.rtype == "PATH" && y.rtype == "PATH" ==> PathName(x) == PathName(y))
    {
      PathsReadAlike(d, c, x, y);
    }
  }

  /* ------------------------------------------------------------- what a run emits */

  /** Whether the last records of a run make an event. */
  predicate MakesEvent(d: Decoders, run: seq<Record>) {
    var sys, saddr, path := LastOf(run, "SYSCALL"), LastOf(run, "SOCKADDR"), LastOf(run, "PATH");
    && sys.Some? && LastOutcome(run) != Some("no")
    && var n := ToInt(d, Get(sys.value, "syscall"));
       || n in EXEC_SYSCALLS
       || (n in CONNECT_SYSCALLS && saddr.Some? && Truthy(Get(saddr.value, "saddr")) &&
           d.sockaddr(Get(saddr.value, "saddr").value).Some?)
       || (n in OPEN_SYSCALLS && path.Some? && PathName(path.value).Some?)
       || n in PRIV_SYSCALLS
  }

  /** Exactly which runs emit, how much, and that every event names the process of its SYSCALL record. */
  lemma RunEmitsExactly(d: Decoders, run: seq<Record>)
    ensures EmitRun(d, run) != [] <==> MakesEvent(d, run)
    ensures |EmitRun(d, run)| <= 2
    ensures |EmitRun(d, run)| == 2 <==>
      MakesEvent(d, run) && ToInt(d, Get(LastOf(run, "SYSCALL").value, "syscall")) in EXEC_SYSCALLS
    ensures forall e :: e in EmitRun(d, run) ==>
      var sys := LastOf(run, "SYSCALL").value;
      && e.pid == ToInt(d, Get(sys, "pid")) && e.ppid == ToInt(d, Get(sys, "ppid"))
      && e.uid == ToInt(d, Get(sys, "uid")) && e.details.syscall == ToInt(d, Get(sys, "syscall"))
  {
    LastOfType(run, "SYSCALL");
    if LastOf(run, "SYSCALL").None? {
      NoSyscallNoEvent(d, run);
    } else {
      MergedIsCtxOf(d, run);
      CtxEmits(d, CtxOf(d, run));
    }
  }

  lemma CtxEmits(d: Decoders, c: Ctx)
    ensures Emit(d, c) != [] <==>
      && c.success != Some("no")
      && (|| c.syscall in EXEC_SYSCALLS
          || (c.syscall in CONNECT_SYSCALLS && Truthy(c.saddr) && d.sockaddr(c.saddr.value).Some?)
          || (c.syscall in OPEN_SYSCALLS && Truthy(c.path))
          || c.syscall in PRIV_SYSCALLS)
    ensures forall e :: e in Emit(d, c) ==>
      e.pid == c.pid && e.ppid == c.ppid && e.uid == c.uid && e.details.syscall == c.syscall
    ensures |Emit(d, c)| <= 2
    ensures |Emit(d, c)| == 2 <==> c.syscall in EXEC_SYSCALLS && c.success != Some("no")
  {
  }
}
