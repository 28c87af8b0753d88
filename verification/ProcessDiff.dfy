/**
 * The polling process monitor: successive snapshots of the process table turned into a
 * stream of created and exited events, and new connections into connect events.
 *
 * The operating system is a parameter: what each snapshot shows, what a later look at a
 * process gives, and which owners of connections are still there. A process that is gone
 * when it is looked at raises, before or after the monitor has taken over the new table.
 */
module ProcessDiff {
  import opened Wrappers
  import opened Sequences

  /** One row of the process table; pid and creation time can be unreadable, reading the name can raise. */
  datatype Row = Row(pid: Option<int>, name: Option<string>, created: Option<real>)

  datatype Proc = Proc(name: string, created: real)

  /** A dictionary from pids, with its insertion order. */
  datatype Snapshot = Snapshot(order: seq<int>, procs: map<int, Proc>)

  ghost predicate Consistent(s: Snapshot) {
    Once(s.order) && forall pid :: pid in s.order <==> pid in s.procs
  }

  predicate Listed(row: Row) {
    row.pid.Some? && row.created.Some?
  }

  /** The name is only read of a process that is listed. */
  predicate Unnamed(row: Row) {
    Listed(row) && row.name.None?
  }

  function Add(s: Snapshot, row: Row): (r: Snapshot)
    requires !Unnamed(row)
  {
    if !Listed(row) then s
    else Snapshot(if row.pid.value in s.procs then s.order else s.order + [row.pid.value],
                  s.procs[row.pid.value := Proc(row.name.value, row.created.value)])
  }

  /** `None` when reading a name raises. */
  function SnapshotOf(rows: seq<Row>): (s: Option<Snapshot>)
    ensures s.Some? ==> Consistent(s.value)
  {
    if rows == [] then Some(Snapshot([], map[]))
    else
      var s, row := SnapshotOf(rows[..|rows| - 1]), rows[|rows| - 1];
      if s.None? || Unnamed(row) then None
      else
        AddConsistent(s.value, row);
        Some(Add(s.value, row))
  }

  lemma AddConsistent(s: Snapshot, row: Row)
    requires Consistent(s) && !Unnamed(row)
    ensures Consistent(Add(s, row))
  {
    if Listed(row) && row.pid.value !in s.procs {
      var order := Add(s, row).order;
      assert order[..|order| - 1] == s.order && order[|order| - 1] == row.pid.value;
    }
  }

  datatype ProcEvent = Created(pid: int, name: string, at: real) | Exited(pid: int, name: string, reused: bool)

  /** A creation time of 0 is taken for missing and replaced by what a later look gives. */
  function Stamp(created: real, later: real): (r: real) {
    if created != 0.0 then created else later
  }

  predicate Changed(was: map<int, Proc>, now: map<int, Proc>, pid: int)
    requires pid in now
  {
    pid !in was || was[pid].created != now[pid].created
  }

  /** The events for one process of the new snapshot. */
  function ArrivalOf(was: map<int, Proc>, now: map<int, Proc>, later: int -> real, pid: int): (r: seq<ProcEvent>)
    requires pid in now
  {
    var created := Created(pid, now[pid].name, Stamp(now[pid].created, later(pid)));
    if pid !in was then [created]
    else if was[pid].created != now[pid].created then [Exited(pid, was[pid].name, true), created]
    else []
  }

  function Arrivals(was: map<int, Proc>, now: map<int, Proc>, later: int -> real, order: seq<int>): (r: seq<ProcEvent>)
    requires forall pid :: pid in order ==> pid in now
  {
    if order == [] then []
    else Arrivals(was, now, later, order[..|order| - 1]) + ArrivalOf(was, now, later, order[|order| - 1])
  }

  function DepartureOf(was: map<int, Proc>, now: map<int, Proc>, pid: int): (r: seq<ProcEvent>)
    requires pid in was
  {
    if pid in now then [] else [Exited(pid, was[pid].name, false)]
  }

  function Departures(was: map<int, Proc>, now: map<int, Proc>, order: seq<int>): (r: seq<ProcEvent>)
    requires forall pid :: pid in order ==> pid in was
  {
    if order == [] then []
    else Departures(was, now, order[..|order| - 1]) + DepartureOf(was, now, order[|order| - 1])
  }

  function Diff(was: Snapshot, now: Snapshot, later: int -> real): (r: seq<ProcEvent>)
    requires Consistent(was) && Consistent(now)
  {
    Arrivals(was.procs, now.procs, later, now.order) + Departures(was.procs, now.procs, was.order)
  }

  lemma ArrivalsNext(was: map<int, Proc>, now: map<int, Proc>, later: int -> real, order: seq<int>, i: nat)
    requires i < |order| && forall pid :: pid in order ==> pid in now
    ensures Arrivals(was, now, later, order[..i + 1])
            == Arrivals(was, now, later, order[..i]) + ArrivalOf(was, now, later, order[i])
  {
    assert order[..i + 1][..i] == order[..i];
  }

  lemma DeparturesNext(was: map<int, Proc>, now: map<int, Proc>, order: seq<int>, i: nat)
    requires i < |order| && forall pid :: pid in order ==> pid in was
    ensures Departures(was, now, order[..i + 1]) == Departures(was, now, order[..i]) + DepartureOf(was, now, order[i])
  {
    assert order[..i + 1][..i] == order[..i];
  }

  /* ------------------------------------------------------------------- one collect */

  /** What the operating system shows to one collect: `look` is `None` for a process that is gone. */
  datatype Seen = Seen(rows: seq<Row>, look: int -> Option<real>, conns: set<Conn>, alive: int -> bool)

  datatype Conn = Conn(
    pid: Option<int>, fd: int, family: int, socket: int, local: (string, int), remote: (string, int), status: string)

  const AF_INET: int := 2

  /** A connection that makes an event when it is new. */
  predicate Reportable(c: Conn) {
    c.status in {"ESTABLISHED", "SYN_SENT"} && c.remote.0 != "" && c.family == AF_INET
  }

  /** A connection whose owner is gone by the time its binary is looked up. */
  predicate Orphan(c: Conn, alive: int -> bool) {
    c.pid.Some? && !alive(c.pid.value)
  }

  function NewConns(known: set<Conn>, now: set<Conn>): (r: set<Conn>) {
    set c | c in now && c !in known && Reportable(c)
  }

  function TimeAt(look: int -> Option<real>): (later: int -> real) {
    (pid: int) => if look(pid).Some? then look(pid).value else 0.0
  }

  /** A process has to be looked at, for its created event, and is gone. */
  predicate Vanished(was: map<int, Proc>, now: Snapshot, look: int -> Option<real>) {
    exists pid :: pid in now.order && pid in now.procs && Changed(was, now.procs, pid) && look(pid).None?
  }

  /**
   * What a collect comes to. `Untaken`: it raised with the old table still in place.
   * `Lost`: it raised after the new table was taken over, and the events of the diff are gone.
   */
  datatype Outcome =
    | Untaken
    | Lost(now: Snapshot, events: seq<ProcEvent>)
    | Collected(now: Snapshot, events: seq<ProcEvent>, found: set<Conn>)

  function OutcomeOf(network: bool, known: Snapshot, conns: set<Conn>, seen: Seen): (r: Outcome)
    requires Consistent(known)
    ensures !r.Untaken? ==> Consistent(r.now)
  {
    var now := SnapshotOf(seen.rows);
    if now.None? || Vanished(known.procs, now.value, seen.look) then Untaken
    else
      var events := Diff(known, now.value, TimeAt(seen.look));
      var found := NewConns(conns, seen.conns);
      if !network then Collected(now.value, events, {})
      else if exists c :: c in found && Orphan(c, seen.alive) then Lost(now.value, events)
      else Collected(now.value, events, found)
  }

  datatype Error = NotStarted | Faulted

  class ProcessMonitor {
    const network: bool
    var known: Snapshot
    var conns: set<Conn>
    var started: bool
    var delivered: nat

    ghost predicate Valid()
      reads this
    {
      Consistent(known)
    }

    constructor (network: bool)
      ensures Valid() && this.network == network && !started && delivered == 0
      ensures known == Snapshot([], map[]) && conns == {}
    {
      this.network := network;
      known, conns, started, delivered := Snapshot([], map[]), {}, false, 0;
    }

    /** `None` stands for the error of a process that ends before its name is read. */
    static method TakeSnapshot(rows: seq<Row>) returns (s: Option<Snapshot>)
      ensures s == SnapshotOf(rows)
    {
      var snap := Snapshot([], map[]);
      var i := 0;
      while i < |rows|
        invariant 0 <= i <= |rows|
        invariant SnapshotOf(rows[..i]) == Some(snap)
      {
        var row := rows[i];
        SnapshotNext(rows, i, row, snap);
        if row.pid.Some? && row.created.Some? {
          if row.name.None? {
            RaisesForGood(rows, i + 1);
            return None;
          }
          var pid := row.pid.value;
          snap := Snapshot(if pid in snap.procs then snap.order else snap.order + [pid],
                           snap.procs[pid := Proc(row.name.value, row.created.value)]);
        }
        i := i + 1;
      }
      assert rows[..i] == rows;
      s := Some(snap);
    }

    /** A start that raises has set the flag and the counter and kept the tables. */
    method Start(rows: seq<Row>, now: set<Conn>) returns (ok: bool)
      requires Valid()
      modifies this
      ensures Valid() && started && delivered == 0 && ok == SnapshotOf(rows).Some?
      ensures ok ==> known == SnapshotOf(rows).value && conns == now
      ensures !ok ==> known == old(known) && conns == old(conns)
    {
      started, delivered := true, 0;
      var snap := TakeSnapshot(rows);
      if snap.None? {
        return false;
      }
      known, conns := snap.value, now;
      ok := true;
    }

    method Stop()
      modifies this
      ensures Valid() && !started && delivered == old(delivered) && known == Snapshot([], map[]) && conns == {}
    {
      started := false;
      known, conns := Snapshot([], map[]), {};
    }

    method DiffProcesses(rows: seq<Row>, look: int -> Option<real>) returns (r: Option<seq<ProcEvent>>)
      requires Valid()
      modifies this`known
      ensures Valid()
      ensures r.None? <==> SnapshotOf(rows).None? || Vanished(old(known).procs, SnapshotOf(rows).value, look)
      ensures r.None? ==> known == old(known)
      ensures r.Some? ==> known == SnapshotOf(rows).value && r.value == Diff(old(known), known, TimeAt(look))
    {
      var snap := TakeSnapshot(rows);
      if snap.None? {
        return None;
      }
      var was, now := known, snap.value;
      var arrivals := ArrivalEvents(was, now, look);
      if arrivals.None? {
        return None;
      }
      var departures := DepartureEvents(was, now);
      known := now;
      r := Some(arrivals.value + departures);
    }

    /** The loop over the new snapshot; it raises at the first process that is gone. */
    static method ArrivalEvents(was: Snapshot, now: Snapshot, look: int -> Option<real>)
        returns (r: Option<seq<ProcEvent>>)
      requires Consistent(was) && Consistent(now)
      ensures r.None? <==> Vanished(was.procs, now, look)
      ensures r.Some? ==> r.value == Arrivals(was.procs, now.procs, TimeAt(look), now.order)
    {
      var events: seq<ProcEvent> := [];
      var i := 0;
      while i < |now.order|
        invariant 0 <= i <= |now.order|
        invariant events == Arrivals(was.procs, now.procs, TimeAt(look), now.order[..i])
        invariant forall k :: 0 <= k < i && Changed(was.procs, now.procs, now.order[k]) ==> look(now.order[k]).Some?
      {
        var pid := now.order[i];
        ArrivalsNext(was.procs, now.procs, TimeAt(look), now.order, i);
        var p := now.procs[pid];
        if pid !in was.procs || was.procs[pid].created != p.created {
          if look(pid).None? {
            return None;
          }
          if pid in was.procs {
            events := events + [Exited(pid, was.procs[pid].name, true)];
          }
          events := events + [Created(pid, p.name, Stamp(p.created, look(pid).value))];
        }
        i := i + 1;
      }
      assert now.order[..i] == now.order;
      r := Some(events);
    }

    static method DepartureEvents(was: Snapshot, now: Snapshot) returns (events: seq<ProcEvent>)
      requires Consistent(was)
      ensures events == Departures(was.procs, now.procs, was.order)
    {
      events := [];
      var i := 0;
      while i < |was.order|
        invariant 0 <= i <= |was.order|
        invariant events == Departures(was.procs, now.procs, was.order[..i])
      {
        var pid := was.order[i];
        DeparturesNext(was.procs, now.procs, was.order, i);
        if pid !in now.procs {
          events := events + [Exited(pid, was.procs[pid].name, false)];
        }
        i := i + 1;
      }
      assert was.order[..i] == was.order;
    }

    /** The new connections in some order; it raises at one whose owner is gone. */
    method DiffNetwork(now: set<Conn>, alive: int -> bool) returns (r: Option<seq<Conn>>)
      modifies this`conns
      ensures r.None? <==> exists c :: c in NewConns(old(conns), now) && Orphan(c, alive)
      ensures r.None? ==> conns == old(conns)
      ensures r.Some? ==> conns == now && Once(r.value) && Members(r.value) == NewConns(old(conns), now)
    {
      var events: seq<Conn> := [];
      var left := now - conns;
      while left != {}
        invariant left <= now - conns && conns == old(conns)
        invariant Once(events) && Members(events) == NewConns(conns, now - left)
        invariant forall c :: c in Members(events) ==> !Orphan(c, alive)
        decreases |left|
      {
        var c :| c in left;
        TakenNext(conns, now, left, c);
        if c.status in {"ESTABLISHED", "SYN_SENT"} && c.remote.0 != "" && c.family == AF_INET {
          if c.pid.Some? && !alive(c.pid.value) {
            assert c in NewConns(conns, now) && Orphan(c, alive);
            return None;
          }
          MembersSnoc(events, c);
          events := events + [c];
        }
        left := left - {c};
      }
      assert now - left == now;
      conns := now;
      r := Some(events);
    }

    /** The process events of the diff, then the new connections. */
    method Collect(seen: Seen) returns (r: Result<(seq<ProcEvent>, seq<Conn>), Error>)
      requires Valid()
      modifies this
      ensures Valid() && started == old(started)
      ensures !started ==>
        r == Err(NotStarted) && known == old(known) && conns == old(conns) && delivered == old(delivered)
      ensures started ==>
        match OutcomeOf(network, old(known), old(conns), seen)
        case Untaken =>
          r == Err(Faulted) && known == old(known) && conns == old(conns) && delivered == old(delivered)
        case Lost(now, _) =>
          r == Err(Faulted) && known == now && conns == old(conns) && delivered == old(delivered)
        case Collected(now, events, found) =>
          && r.Ok? && r.value.0 == events && Once(r.value.1) && Members(r.value.1) == found
          && known == now && conns == (if network then seen.conns else old(conns))
          && delivered == old(delivered) + |r.value.0| + |r.value.1|
    {
      if !started {
        return Err(NotStarted);
      }
      var events := DiffProcesses(seen.rows, seen.look);
      if events.None? {
        return Err(Faulted);
      }
      var found: seq<Conn> := [];
      if network {
        var connects := DiffNetwork(seen.conns, seen.alive);
        if connects.None? {
          return Err(Faulted);
        }
        found := connects.value;
      }
      delivered := delivered + |events.value| + |found|;
      r := Ok((events.value, found));
    }
  }

  lemma SnapshotNext(rows: seq<Row>, i: nat, row: Row, s: Snapshot)
    requires i < |rows| && rows[i] == row && SnapshotOf(rows[..i]) == Some(s)
    ensures SnapshotOf(rows[..i + 1]) == if Unnamed(row) then None else Some(Add(s, row))
  {
    assert rows[..i + 1][..i] == rows[..i];
  }

  lemma {:induction false} RaisesForGood(rows: seq<Row>, i: nat)
    requires i <= |rows| && SnapshotOf(rows[..i]).None?
    ensures SnapshotOf(rows).None?
    decreases |rows|
  {
    if i == |rows| {
      assert rows[..i] == rows;
    } else {
      assert rows[..|rows| - 1][..i] == rows[..i];
      RaisesForGood(rows[..|rows| - 1], i);
    }
  }

  lemma TakenNext(known: set<Conn>, now: set<Conn>, left: set<Conn>, c: Conn)
    requires left <= now - known && c in left
    ensures c !in NewConns(known, now - left)
    ensures NewConns(known, now - (left - {c})) == NewConns(known, now - left) + if Reportable(c) then {c} else {}
    ensures Reportable(c) ==> c in NewConns(known, now)
  {
  }

  function Members(cs: seq<Conn>): (r: set<Conn>) {
    set c | c in cs
  }

  lemma MembersSnoc(cs: seq<Conn>, c: Conn)
    requires Once(cs) && c !in Members(cs)
    ensures Once(cs + [c]) && Members(cs + [c]) == Members(cs) + {c}
  {
    assert (cs + [c])[..|cs|] == cs;
  }

  /* --------------------------------------------------------------- replaying a stream */

  /** A consumer's table of live processes and their creation times, after one event. */
  function Apply(live: map<int, real>, e: ProcEvent): (r: map<int, real>) {
    match e
    case Created(pid, _, at) => live[pid := at]
    case Exited(pid, _, _) => live - {pid}
  }

  function Replay(live: map<int, real>, events: seq<ProcEvent>): (r: map<int, real>) {
    if events == [] then live else Apply(Replay(live, events[..|events| - 1]), events[|events| - 1])
  }

  /** Created only what is not live, exited only what is. */
  predicate Fits(live: map<int, real>, e: ProcEvent) {
    e.Exited? <==> e.pid in live
  }

  predicate AllFit(live: map<int, real>, events: seq<ProcEvent>) {
    events == [] ||
    (AllFit(live, events[..|events| - 1]) && Fits(Replay(live, events[..|events| - 1]), events[|events| - 1]))
  }

  lemma ReplaySnoc(live: map<int, real>, events: seq<ProcEvent>, e: ProcEvent)
    ensures Replay(live, events + [e]) == Apply(Replay(live, events), e)
    ensures AllFit(live, events + [e]) <==> AllFit(live, events) && Fits(Replay(live, events), e)
  {
    assert (events + [e])[..|events|] == events;
  }

  lemma {:induction false} ReplayAppend(live: map<int, real>, a: seq<ProcEvent>, b: seq<ProcEvent>)
    ensures Replay(live, a + b) == Replay(Replay(live, a), b)
    ensures AllFit(live, a + b) <==> AllFit(live, a) && AllFit(Replay(live, a), b)
    decreases |b|
  {
    if b == [] {
      assert a + b == a;
    } else {
      var init, last := b[..|b| - 1], b[|b| - 1];
      ReplayAppend(live, a, init);
      assert a + b == a + init + [last];
      ReplaySnoc(live, a + init, last);
    }
  }

  function TimesOf(procs: map<int, Proc>): (r: map<int, real>) {
    map pid | pid in procs :: procs[pid].created
  }

  lemma ReplayOne(m: map<int, real>, e: ProcEvent)
    ensures Replay(m, [e]) == Apply(m, e) && (AllFit(m, [e]) <==> Fits(m, e))
  {
    assert [e][..0] == [];
  }

  /** An exit and a creation of one pid, as for a reused one. */
  lemma ReplayReuse(m: map<int, real>, exited: ProcEvent, created: ProcEvent)
    requires exited.Exited? && created.Created? && exited.pid == created.pid
    ensures Replay(m, [exited, created]) == m[created.pid := created.at]
    ensures AllFit(m, [exited, created]) <==> created.pid in m
  {
    ReplayOne(m, exited);
    assert [exited, created] == [exited] + [created];
    ReplaySnoc(m, [exited], created);
    Overwritten(m, created.pid, created.at);
  }

  lemma Overwritten(m: map<int, real>, pid: int, at: real)
    ensures (m - {pid})[pid := at] == m[pid := at]
  {
  }

  lemma ArrivalReplays(was: map<int, Proc>, now: map<int, Proc>, later: int -> real, pid: int, m: map<int, real>)
    requires pid in now
    ensures (pid in m <==> pid in was) ==> AllFit(m, ArrivalOf(was, now, later, pid))
    ensures Replay(m, ArrivalOf(was, now, later, pid))
            == if Changed(was, now, pid) then m[pid := Stamp(now[pid].created, later(pid))] else m
  {
    var created := Created(pid, now[pid].name, Stamp(now[pid].created, later(pid)));
    if pid !in was {
      ReplayOne(m, created);
    } else if was[pid].created != now[pid].created {
      ReplayReuse(m, Exited(pid, was[pid].name, true), created);
    }
  }

  /** The two tables agree on whether `q` is live and since when. */
  predicate SameAt(a: map<int, real>, b: map<int, real>, q: int) {
    (q in a <==> q in b) && (q in a ==> a[q] == b[q])
  }

  /** `r` has the changed processes of `order` restamped and the others as in `live`. */
  predicate RestampedAt(r: map<int, real>, live: map<int, real>, was: map<int, Proc>, now: map<int, Proc>,
                        later: int -> real, order: seq<int>, q: int)
  {
    if q in order && q in now && Changed(was, now, q) then q in r && r[q] == Stamp(now[q].created, later(q))
    else SameAt(r, live, q)
  }

  lemma RestampedSnoc(m: map<int, real>, r: map<int, real>, live: map<int, real>, was: map<int, Proc>,
                      now: map<int, Proc>, later: int -> real, init: seq<int>, pid: int, order: seq<int>, q: int)
    requires pid in now && order == init + [pid] && RestampedAt(m, live, was, now, later, init, q)
    requires r == if Changed(was, now, pid) then m[pid := Stamp(now[pid].created, later(pid))] else m
    ensures RestampedAt(r, live, was, now, later, order, q)
  {
    if q == pid {
      assert q in order;
    } else {
      assert q in order <==> q in init;
    }
  }

  lemma ArrivalsSnoc(live: map<int, real>, was: map<int, Proc>, now: map<int, Proc>, later: int -> real,
                     init: seq<int>, pid: int, order: seq<int>)
    requires (forall p :: p in order ==> p in now) && order == init + [pid]
    requires (forall p :: p in init ==> p in now) && pid in now
    ensures var m := Replay(live, Arrivals(was, now, later, init));
      && Replay(live, Arrivals(was, now, later, order))
         == (if Changed(was, now, pid) then m[pid := Stamp(now[pid].created, later(pid))] else m)
      && ((pid in m <==> pid in was) && AllFit(live, Arrivals(was, now, later, init)) ==>
            AllFit(live, Arrivals(was, now, later, order)))
  {
    assert order[..|order| - 1] == init;
    ArrivalReplays(was, now, later, pid, Replay(live, Arrivals(was, now, later, init)));
    ReplayAppend(live, Arrivals(was, now, later, init), ArrivalOf(was, now, later, pid));
  }

  /** The arrivals restamp the changed processes and leave the others as they were. */
  lemma {:induction false} ArrivalsAt(live: map<int, real>, was: map<int, Proc>, now: map<int, Proc>,
                                      later: int -> real, order: seq<int>, q: int)
    requires forall pid :: pid in order ==> pid in now
    ensures RestampedAt(Replay(live, Arrivals(was, now, later, order)), live, was, now, later, order, q)
  {
    if order != [] {
      var init, pid := order[..|order| - 1], order[|order| - 1];
      ArrivalsAt(live, was, now, later, init, q);
      assert order == init + [pid];
      ArrivalsSnoc(live, was, now, later, init, pid, order);
      RestampedSnoc(Replay(live, Arrivals(was, now, later, init)), Replay(live, Arrivals(was, now, later, order)),
                    live, was, now, later, init, pid, order, q);
    }
  }

  lemma {:induction false} ArrivalsFit(live: map<int, real>, was: map<int, Proc>, now: map<int, Proc>,
                                       later: int -> real, order: seq<int>)
    requires live.Keys == was.Keys && Once(order) && forall pid :: pid in order ==> pid in now
    ensures AllFit(live, Arrivals(was, now, later, order))
  {
    if order != [] {
      var init, pid := order[..|order| - 1], order[|order| - 1];
      ArrivalsFit(live, was, now, later, init);
      ArrivalsAt(live, was, now, later, init, pid);
      assert pid in live <==> pid in was;
      assert order == init + [pid];
      ArrivalsSnoc(live, was, now, later, init, pid, order);
    }
  }

  /** `r` lacks what `order` names and the new snapshot does not have, and is otherwise `m`. */
  predicate ClearedAt(r: map<int, real>, m: map<int, real>, now: map<int, Proc>, order: seq<int>, q: int) {
    if q in order && q !in now then q !in r else SameAt(r, m, q)
  }

  lemma ClearedSnoc(m1: map<int, real>, r: map<int, real>, m: map<int, real>, now: map<int, Proc>,
                    init: seq<int>, pid: int, order: seq<int>, q: int)
    requires order == init + [pid] && ClearedAt(m1, m, now, init, q)
    requires r == if pid in now then m1 else m1 - {pid}
    ensures ClearedAt(r, m, now, order, q)
  {
    if q == pid {
      assert q in order;
    } else {
      assert q in order <==> q in init;
    }
  }

  lemma DeparturesSnoc(m: map<int, real>, was: map<int, Proc>, now: map<int, Proc>,
                       init: seq<int>, pid: int, order: seq<int>)
    requires (forall p :: p in order ==> p in was) && order == init + [pid]
    requires (forall p :: p in init ==> p in was) && pid in was
    ensures var m1 := Replay(m, Departures(was, now, init));
      && Replay(m, Departures(was, now, order)) == (if pid in now then m1 else m1 - {pid})
      && (pid in m1 && AllFit(m, Departures(was, now, init)) ==> AllFit(m, Departures(was, now, order)))
  {
    assert order[..|order| - 1] == init;
    if pid in now {
      assert Departures(was, now, order) == Departures(was, now, init);
    } else {
      ReplaySnoc(m, Departures(was, now, init), Exited(pid, was[pid].name, false));
    }
  }

  /** The departures take out what the new snapshot no longer has. */
  lemma {:induction false} DeparturesAt(m: map<int, real>, was: map<int, Proc>, now: map<int, Proc>,
                                        order: seq<int>, q: int)
    requires forall pid :: pid in order ==> pid in was
    ensures ClearedAt(Replay(m, Departures(was, now, order)), m, now, order, q)
  {
    if order != [] {
      var init, pid := order[..|order| - 1], order[|order| - 1];
      DeparturesAt(m, was, now, init, q);
      assert order == init + [pid];
      DeparturesSnoc(m, was, now, init, pid, order);
      ClearedSnoc(Replay(m, Departures(was, now, init)), Replay(m, Departures(was, now, order)),
                  m, now, init, pid, order, q);
    }
  }

  lemma {:induction false} DeparturesFit(m: map<int, real>, was: map<int, Proc>, now: map<int, Proc>, order: seq<int>)
    requires Once(order) && forall pid :: pid in order ==> pid in was && pid in m
    ensures AllFit(m, Departures(was, now, order))
  {
    if order != [] {
      var init, pid := order[..|order| - 1], order[|order| - 1];
      DeparturesFit(m, was, now, init);
      DeparturesAt(m, was, now, init, pid);
      assert order == init + [pid];
      assert pid in order && pid !in init;
      DeparturesSnoc(m, was, now, init, pid, order);
    }
  }

  /** What a diff leaves for one pid. */
  lemma DiffAt(live: map<int, real>, was: Snapshot, now: Snapshot, later: int -> real, q: int)
    requires Consistent(was) && Consistent(now) && live.Keys == was.procs.Keys
    ensures var events := Diff(was, now, later); var r := Replay(live, events);
      && AllFit(live, events)
      && (q in r <==> q in now.procs)
      && (q in r && Changed(was.procs, now.procs, q) ==> r[q] == Stamp(now.procs[q].created, later(q)))
      && (q in r && !Changed(was.procs, now.procs, q) ==> r[q] == live[q])
  {
    var arrivals := Arrivals(was.procs, now.procs, later, now.order);
    var m := Replay(live, arrivals);
    forall pid | pid in was.order ensures pid in m {
      ArrivalsAt(live, was.procs, now.procs, later, now.order, pid);
    }
    ArrivalsAt(live, was.procs, now.procs, later, now.order, q);
    ArrivalsFit(live, was.procs, now.procs, later, now.order);
    DeparturesAt(m, was.procs, now.procs, was.order, q);
    DeparturesFit(m, was.procs, now.procs, was.order);
    ReplayAppend(live, arrivals, Departures(was.procs, now.procs, was.order));
    assert q in was.order <==> q in live;
  }

  /** One diff, replayed exactly: which creation times it leaves for which pids. */
  lemma DiffReplay(live: map<int, real>, was: Snapshot, now: Snapshot, later: int -> real)
    requires Consistent(was) && Consistent(now) && live.Keys == was.procs.Keys
    ensures var events := Diff(was, now, later); var r := Replay(live, events);
      && AllFit(live, events)
      && r.Keys == now.procs.Keys
      && forall pid | pid in now.procs :: r[pid] ==
           if Changed(was.procs, now.procs, pid) then Stamp(now.procs[pid].created, later(pid)) else live[pid]
  {
    DiffAt(live, was, now, later, 0);
    forall pid ensures pid in Replay(live, Diff(was, now, later)) <==> pid in now.procs {
      DiffAt(live, was, now, later, pid);
    }
    forall pid | pid in now.procs
      ensures Replay(live, Diff(was, now, later))[pid] ==
        if Changed(was.procs, now.procs, pid) then Stamp(now.procs[pid].created, later(pid)) else live[pid]
    {
      DiffAt(live, was, now, later, pid);
    }
  }

  /**
   * Replaying a diff over the old table gives the new one - exactly when no process that
   * appeared has creation time 0 with a later look that says otherwise.
   */
  lemma DiffReplaysSnapshot(was: Snapshot, now: Snapshot, later: int -> real)
    requires Consistent(was) && Consistent(now)
    ensures Replay(TimesOf(was.procs), Diff(was, now, later)) == TimesOf(now.procs) <==>
      forall pid | pid in now.procs && Changed(was.procs, now.procs, pid) ::
        now.procs[pid].created == 0.0 ==> later(pid) == 0.0
  {
    var live := TimesOf(was.procs);
    DiffReplay(live, was, now, later);
    SameTimes(was.procs, now.procs, later, Replay(live, Diff(was, now, later)));
  }

  lemma SameTimes(was: map<int, Proc>, now: map<int, Proc>, later: int -> real, r: map<int, real>)
    requires r.Keys == now.Keys
    requires forall pid | pid in now ::
      r[pid] == if Changed(was, now, pid) then Stamp(now[pid].created, later(pid)) else was[pid].created
    ensures r == TimesOf(now) <==>
      forall pid | pid in now && Changed(was, now, pid) :: now[pid].created == 0.0 ==> later(pid) == 0.0
  {
    if r == TimesOf(now) {
      forall pid | pid in now && Changed(was, now, pid) ensures now[pid].created == 0.0 ==> later(pid) == 0.0 {
        assert r[pid] == TimesOf(now)[pid];
      }
    } else if forall pid | pid in now && Changed(was, now, pid) :: now[pid].created == 0.0 ==> later(pid) == 0.0 {
      forall pid | pid in now ensures r[pid] == TimesOf(now)[pid] {
      }
      assert false;
    }
  }

  /** A diff is silent exactly when the two tables show the same processes. */
  lemma SilentIffSame(was: Snapshot, now: Snapshot, later: int -> real)
    requires Consistent(was) && Consistent(now)
    ensures Diff(was, now, later) == [] <==> TimesOf(was.procs) == TimesOf(now.procs)
  {
    if Diff(was, now, later) == [] {
      DiffReplay(TimesOf(was.procs), was, now, later);
      forall pid | pid in now.procs ensures !Changed(was.procs, now.procs, pid) {
        SilentArrivals(was.procs, now.procs, later, now.order, pid);
      }
      UnchangedTimes(was.procs, now.procs);
    } else if TimesOf(was.procs) == TimesOf(now.procs) {
      UnchangedIsSilent(was.procs, now.procs, later, now.order);
      NoneGoneIsSilent(was.procs, now.procs, was.order);
    }
  }

  lemma UnchangedTimes(was: map<int, Proc>, now: map<int, Proc>)
    requires was.Keys == now.Keys && forall pid :: pid in now ==> !Changed(was, now, pid)
    ensures TimesOf(was) == TimesOf(now)
  {
    forall pid | pid in TimesOf(now) ensures TimesOf(was)[pid] == TimesOf(now)[pid] {
      assert pid in now;
    }
  }

  lemma {:induction false} SilentArrivals(was: map<int, Proc>, now: map<int, Proc>, later: int -> real,
                                          order: seq<int>, pid: int)
    requires pid in order && forall q :: q in order ==> q in now
    requires Arrivals(was, now, later, order) == []
    ensures !Changed(was, now, pid)
  {
    if pid != order[|order| - 1] {
      SilentArrivals(was, now, later, order[..|order| - 1], pid);
    }
  }

  lemma {:induction false} UnchangedIsSilent(was: map<int, Proc>, now: map<int, Proc>, later: int -> real,
        order: seq<int>)
    requires forall q :: q in order ==> q in now
    requires TimesOf(was) == TimesOf(now)
    ensures Arrivals(was, now, later, order) == []
  {
    if order != [] {
      var pid := order[|order| - 1];
      UnchangedIsSilent(was, now, later, order[..|order| - 1]);
      assert pid in TimesOf(now) && TimesOf(was)[pid] == TimesOf(now)[pid];
    }
  }

  lemma {:induction false} NoneGoneIsSilent(was: map<int, Proc>, now: map<int, Proc>, order: seq<int>)
    requires forall q :: q in order ==> q in was
    requires TimesOf(was) == TimesOf(now)
    ensures Departures(was, now, order) == []
  {
    if order != [] {
      var pid := order[|order| - 1];
      NoneGoneIsSilent(was, now, order[..|order| - 1]);
      assert pid in was && pid in TimesOf(was) && pid in TimesOf(now);
    }
  }

  /* --------------------------------------------------------------------- whole runs */

  datatype Op = Start(rows: seq<Row>, conns: set<Conn>) | Stop | Collect(seen: Seen)

  /** `base` is the table at the last start, `stream` all process events handed out since. */
  datatype State = State(
    known: Snapshot, conns: set<Conn>, started: bool, base: Snapshot, stream: seq<ProcEvent>)

  function Step(network: bool, s: State, op: Op): (r: State)
    requires Consistent(s.known)
    ensures Consistent(r.known)
  {
    match op
    case Start(rows, conns) =>
      var now := SnapshotOf(rows);
      if now.None? then s.(started := true, base := s.known, stream := [])
      else State(now.value, conns, true, now.value, [])
    case Stop => s.(known := Snapshot([], map[]), conns := {}, started := false)
    case Collect(seen) =>
      if !s.started then s
      else
        match OutcomeOf(network, s.known, s.conns, seen)
        case Untaken => s
        case Lost(now, _) => s.(known := now)
        case Collected(now, events, _) =>
          s.(known := now, conns := if network then seen.conns else s.conns, stream := s.stream + events)
  }

  function Run(network: bool, ops: seq<Op>): (s: State)
    ensures Consistent(s.known)
  {
    if ops == [] then State(Snapshot([], map[]), {}, false, Snapshot([], map[]), [])
    else Step(network, Run(network, ops[..|ops| - 1]), ops[|ops| - 1])
  }

  /** The process events that the operation takes out of every later diff without handing them out. */
  function LostBy(network: bool, s: State, op: Op): (r: seq<ProcEvent>)
    requires Consistent(s.known)
  {
    if !op.Collect? || !s.started then []
    else
      var r := OutcomeOf(network, s.known, s.conns, op.seen);
      if r.Lost? then r.events else []
  }

  /** Collects that raised with the new table taken over had nothing to report. */
  predicate LostNothing(network: bool, ops: seq<Op>) {
    forall k :: 0 <= k < |ops| ==> LostBy(network, Run(network, ops[..k]), ops[k]) == []
  }

  /** The same live pids, and the same creation time wherever the table has one. */
  ghost predicate Tracks(live: map<int, real>, procs: map<int, Proc>) {
    && live.Keys == procs.Keys
    && forall pid | pid in procs :: procs[pid].created != 0.0 ==> live[pid] == procs[pid].created
  }

  lemma DiffTracks(live: map<int, real>, was: Snapshot, now: Snapshot, later: int -> real)
    requires Consistent(was) && Consistent(now) && Tracks(live, was.procs)
    ensures AllFit(live, Diff(was, now, later))
    ensures Tracks(Replay(live, Diff(was, now, later)), now.procs)
  {
    DiffReplay(live, was, now, later);
  }

  /** The stream since the start, replayed over the table at the start, gives the current table. */
  ghost predicate InStep(s: State) {
    var live := TimesOf(s.base.procs);
    && AllFit(live, s.stream)
    && (s.started ==> Tracks(Replay(live, s.stream), s.known.procs))
  }

  lemma StepKeepsInStep(network: bool, s: State, op: Op)
    requires Consistent(s.known) && InStep(s) && LostBy(network, s, op) == []
    ensures InStep(Step(network, s, op))
  {
    if op.Collect? && s.started {
      match OutcomeOf(network, s.known, s.conns, op.seen)
      case Untaken =>
      case Lost(now, events) =>
        var live := Replay(TimesOf(s.base.procs), s.stream);
        DiffTracks(live, s.known, now, TimeAt(op.seen.look));
        assert Replay(live, events) == live;
      case Collected(now, events, _) =>
        var live := TimesOf(s.base.procs);
        DiffTracks(Replay(live, s.stream), s.known, now, TimeAt(op.seen.look));
        ReplayAppend(live, s.stream, events);
    }
  }

  /**
   * In every run whose raising collects lost nothing, the stream collected since the start,
   * replayed over the table at the start, gives the current table: no event is out of
   * place, the live pids agree, and so do all creation times the operating system reports.
   */
  lemma {:induction false} StreamReplays(network: bool, ops: seq<Op>)
    requires LostNothing(network, ops)
    ensures InStep(Run(network, ops))
  {
    if ops != [] {
      var n := |ops| - 1;
      PrefixLostNothing(network, ops, n);
      StreamReplays(network, ops[..n]);
      assert LostBy(network, Run(network, ops[..n]), ops[n]) == [];
      StepKeepsInStep(network, Run(network, ops[..n]), ops[n]);
    }
  }

  lemma PrefixLostNothing(network: bool, ops: seq<Op>, n: nat)
    requires n <= |ops| && LostNothing(network, ops)
    ensures LostNothing(network, ops[..n])
  {
    forall k | 0 <= k < n ensures LostBy(network, Run(network, ops[..n][..k]), ops[..n][k]) == [] {
      assert ops[..n][..k] == ops[..k];
    }
  }

  predicate Timed(procs: map<int, Proc>) {
    forall pid :: pid in procs ==> procs[pid].created > 0.0
  }

  /** Creation times are positive wherever they are shown. */
  predicate TimedRows(rows: seq<Row>) {
    forall row :: row in rows && row.created.Some? ==> row.created.value > 0.0
  }

  predicate TimedOp(op: Op) {
    match op
    case Start(rows, _) => TimedRows(rows)
    case Stop => true
    case Collect(seen) => TimedRows(seen.rows)
  }

  lemma {:induction false} SnapshotTimed(rows: seq<Row>)
    requires TimedRows(rows) && SnapshotOf(rows).Some?
    ensures Timed(SnapshotOf(rows).value.procs)
  {
    if rows != [] {
      var init, row := rows[..|rows| - 1], rows[|rows| - 1];
      assert row in rows && forall x :: x in init ==> x in rows;
      SnapshotTimed(init);
    }
  }

  lemma {:induction false} RunTimed(network: bool, ops: seq<Op>)
    requires forall op :: op in ops ==> TimedOp(op)
    ensures Timed(Run(network, ops).known.procs)
  {
    if ops != [] {
      var n := |ops| - 1;
      assert ops[n] in ops && forall op :: op in ops[..n] ==> op in ops;
      RunTimed(network, ops[..n]);
      match ops[n]
      case Start(rows, _) => if SnapshotOf(rows).Some? { SnapshotTimed(rows); }
      case Stop =>
      case Collect(seen) => if SnapshotOf(seen.rows).Some? { SnapshotTimed(seen.rows); }
    }
  }

  /** A consumer in step with the old table is in step with the new one exactly when the diff is silent. */
  lemma LossShowsIff(live: map<int, real>, was: Snapshot, now: Snapshot, later: int -> real)
    requires Consistent(was) && Consistent(now) && Tracks(live, was.procs) && Timed(was.procs) && Timed(now.procs)
    ensures Tracks(live, now.procs) <==> Diff(was, now, later) == []
  {
    SilentIffSame(was, now, later);
    TrackedTimes(live, was.procs);
    if Tracks(live, now.procs) {
      TrackedTimes(live, now.procs);
    }
  }

  lemma LossFallsBehind(network: bool, s: State, op: Op)
    requires Consistent(s.known) && InStep(s) && Timed(s.known.procs) && TimedOp(op)
    requires LostBy(network, s, op) != []
    ensures !InStep(Step(network, s, op))
  {
    SnapshotTimed(op.seen.rows);
    var r := OutcomeOf(network, s.known, s.conns, op.seen);
    LossShowsIff(Replay(TimesOf(s.base.procs), s.stream), s.known, r.now, TimeAt(op.seen.look));
  }

  /**
   * The exact condition, with positive creation times: the stream keeps giving the current
   * table, after every operation of the run, if and only if no collect that raised after
   * the new table was taken over had anything to report.
   */
  lemma InStepIff(network: bool, ops: seq<Op>)
    requires forall op :: op in ops ==> TimedOp(op)
    ensures (forall k :: 0 <= k <= |ops| ==> InStep(Run(network, ops[..k]))) <==> LostNothing(network, ops)
  {
    if LostNothing(network, ops) {
      forall k | 0 <= k <= |ops| ensures InStep(Run(network, ops[..k])) {
        PrefixLostNothing(network, ops, k);
        StreamReplays(network, ops[..k]);
      }
    } else {
      var k :| 0 <= k < |ops| && LostBy(network, Run(network, ops[..k]), ops[k]) != [];
      FallsBehindAt(network, ops, k);
    }
  }

  lemma FallsBehindAt(network: bool, ops: seq<Op>, k: nat)
    requires k < |ops| && forall op :: op in ops ==> TimedOp(op)
    requires LostBy(network, Run(network, ops[..k]), ops[k]) != []
    ensures !InStep(Run(network, ops[..k])) || !InStep(Run(network, ops[..k + 1]))
  {
    assert ops[..k + 1][..k] == ops[..k];
    assert ops[k] in ops && forall op :: op in ops[..k] ==> op in ops;
    RunTimed(network, ops[..k]);
    if InStep(Run(network, ops[..k])) {
      LossFallsBehind(network, Run(network, ops[..k]), ops[k]);
    }
  }

  /** With positive creation times the replayed table is the current one. */
  lemma StreamReplaysExactly(network: bool, ops: seq<Op>)
    requires LostNothing(network, ops) && Run(network, ops).started && Timed(Run(network, ops).known.procs)
    ensures Replay(TimesOf(Run(network, ops).base.procs), Run(network, ops).stream)
            == TimesOf(Run(network, ops).known.procs)
  {
    StreamReplays(network, ops);
    TrackedTimes(Replay(TimesOf(Run(network, ops).base.procs), Run(network, ops).stream),
                 Run(network, ops).known.procs);
  }

  lemma TrackedTimes(live: map<int, real>, procs: map<int, Proc>)
    requires Tracks(live, procs) && Timed(procs)
    ensures live == TimesOf(procs)
  {
    forall pid | pid in procs ensures live[pid] == TimesOf(procs)[pid] {
    }
  }

  function OfPid(pid: int): (p: ProcEvent -> bool) {
    (e: ProcEvent) => e.pid == pid
  }

  /** Events of one process that take turns, the first an exit exactly when it starts out live. */
  predicate Alternate(live: bool, events: seq<ProcEvent>)
    decreases |events|
  {
    events == [] || (events[0].Exited? == live && Alternate(!live, events[1..]))
  }

  lemma {:induction false} AlternateSnoc(live: bool, events: seq<ProcEvent>, e: ProcEvent)
    requires Alternate(live, events)
    requires e.Exited? == (if events == [] then live else events[|events| - 1].Created?)
    ensures Alternate(live, events + [e])
    decreases |events|
  {
    if events != [] {
      assert (events + [e])[1..] == events[1..] + [e];
      AlternateSnoc(!live, events[1..], e);
    }
  }

  /** The events of `pid` so far, and whether they leave it live. */
  predicate TakeTurns(before: bool, mine: seq<ProcEvent>, after: bool) {
    && Alternate(before, mine)
    && (after <==> if mine == [] then before else mine[|mine| - 1].Created?)
  }

  lemma TakeTurnsSnoc(live: map<int, real>, m: map<int, real>, mine: seq<ProcEvent>, e: ProcEvent)
    requires TakeTurns(e.pid in live, mine, e.pid in m) && Fits(m, e)
    ensures TakeTurns(e.pid in live, mine + [e], e.pid in Apply(m, e))
  {
    AlternateSnoc(e.pid in live, mine, e);
  }

  lemma OfPidSnoc(init: seq<ProcEvent>, e: ProcEvent, pid: int)
    ensures Filter(init + [e], OfPid(pid))
            == if e.pid == pid then Filter(init, OfPid(pid)) + [e] else Filter(init, OfPid(pid))
  {
    FilterAppend(init, [e], OfPid(pid));
    assert Filter([e], OfPid(pid)) == if e.pid == pid then [e] else [];
  }

  lemma {:induction false} FittingAlternate(live: map<int, real>, events: seq<ProcEvent>, pid: int)
    requires AllFit(live, events)
    ensures TakeTurns(pid in live, Filter(events, OfPid(pid)), pid in Replay(live, events))
  {
    if events != [] {
      var init, e := events[..|events| - 1], events[|events| - 1];
      FittingAlternate(live, init, pid);
      assert events == init + [e];
      OfPidSnoc(init, e, pid);
      if e.pid == pid {
        TakeTurnsSnoc(live, Replay(live, init), Filter(init, OfPid(pid)), e);
      }
    }
  }

  /**
   * In every run whose raising collects lost nothing, each process's events take turns, and
   * its last one tells whether it is alive.
   */
  lemma EventsAlternate(network: bool, ops: seq<Op>, pid: int)
    requires LostNothing(network, ops)
    ensures var s := Run(network, ops); var mine := Filter(s.stream, OfPid(pid));
      && Alternate(pid in s.base.procs, mine)
      && (s.started ==> (pid in s.known.procs <==>
            if mine == [] then pid in s.base.procs else mine[|mine| - 1].Created?))
  {
    StreamReplays(network, ops);
    FittingAlternate(TimesOf(Run(network, ops).base.procs), Run(network, ops).stream, pid);
  }

  lemma RunThree(network: bool, ops: seq<Op>)
    requires |ops| == 3
    ensures var s0 := State(Snapshot([], map[]), {}, false, Snapshot([], map[]), []);
      Run(network, ops) == Step(network, Step(network, Step(network, s0, ops[0]), ops[1]), ops[2])
  {
    assert ops[..2][..1] == ops[..1] && ops[..1][..0] == [];
    assert Run(network, ops[..1]) == Step(network, Run(network, []), ops[0]);
    assert Run(network, ops[..2]) == Step(network, Run(network, ops[..1]), ops[1]);
  }

  /** The table of one process. */
  function Only(pid: int, name: string, at: real): (s: Snapshot) {
    Snapshot([pid], map[pid := Proc(name, at)])
  }

  lemma OnlyRow(pid: int, name: string, at: real)
    ensures SnapshotOf([Row(Some(pid), Some(name), Some(at))]) == Some(Only(pid, name, at))
    ensures Consistent(Only(pid, name, at))
  {
    var rows := [Row(Some(pid), Some(name), Some(at))];
    assert rows[..0] == [];
    SnapshotNext(rows, 0, rows[0], Snapshot([], map[]));
    assert rows[..1] == rows;
  }

  /** A process appears together with a connection whose owner is gone. */
  function Appearing(pid: int, name: string, at: real, look: int -> Option<real>, c: Conn): (seen: Seen) {
    Seen([Row(Some(pid), Some(name), Some(at))], look, {c}, (p: int) => c.pid != Some(p))
  }

  lemma AppearingIsLost(pid: int, name: string, at: real, look: int -> Option<real>, c: Conn)
    requires look(pid).Some? && Reportable(c) && c.pid.Some?
    ensures OutcomeOf(true, Snapshot([], map[]), {}, Appearing(pid, name, at, look, c))
            == Lost(Only(pid, name, at), Diff(Snapshot([], map[]), Only(pid, name, at), TimeAt(look)))
  {
    OnlyRow(pid, name, at);
    assert c in NewConns({}, {c}) && Orphan(c, Appearing(pid, name, at, look, c).alive);
  }

  lemma OnlyExit(pid: int, name: string, at: real, conns: set<Conn>, look: int -> Option<real>, alive: int -> bool)
    requires Consistent(Only(pid, name, at))
    ensures OutcomeOf(true, Only(pid, name, at), conns, Seen([], look, {}, alive))
            == Collected(Snapshot([], map[]), [Exited(pid, name, false)], {})
  {
    var was, now := Only(pid, name, at), Snapshot([], map[]);
    assert SnapshotOf([]) == Some(now);
    assert NewConns(conns, {}) == {};
    assert was.order[..0] == [];
    assert Departures(was.procs, now.procs, was.order) == [Exited(pid, name, false)];
    assert Diff(was, now, TimeAt(look)) == [] + [Exited(pid, name, false)];
  }

  /**
   * A run that does lose: a process appears together with a connection whose owner is gone,
   * and then exits. Its exit is handed out although its creation never was.
   */
  lemma LostCreation(pid: int, name: string, at: real, look: int -> Option<real>, c: Conn,
        alive: int -> bool)
    requires look(pid).Some? && Reportable(c) && c.pid.Some?
    ensures
      var s := Run(true, [Start([], {}), Collect(Appearing(pid, name, at, look, c)), Collect(Seen([], look, {}, alive))]);
      s.stream == [Exited(pid, name, false)] && s.base.procs == map[] && !AllFit(map[], s.stream)
  {
    RunThree(true, [Start([], {}), Collect(Appearing(pid, name, at, look, c)), Collect(Seen([], look, {}, alive))]);
    AppearingIsLost(pid, name, at, look, c);
    OnlyRow(pid, name, at);
    OnlyExit(pid, name, at, {}, look, alive);
    ReplayOne(map[], Exited(pid, name, false));
  }
}
