/**
 * The change log and the WebSocket cursor loops that read it.
 *
 * Writers and any number of clients take turns in atomic steps, each under the log's lock.
 */
module ChangeStream {
  import opened Wrappers
  import opened Sequences

  datatype Change = Change(seqNo: nat, kind: string, data: string)

  function NewerThan(after: nat): (p: Change -> bool)
    ensures forall c :: p(c) <==> c.seqNo > after
  {
    (c: Change) => c.seqNo > after
  }

  function SinceOf(log: seq<Change>, after: nat): (r: seq<Change>) {
    Filter(log, NewerThan(after))
  }

  /** The log holds the last `maxlen` changes, numbered up to `lastSeq`. */
  class ChangeLog {
    const maxlen: nat
    var entries: seq<Change>
    var lastSeq: nat

    constructor (maxlen: nat)
      ensures this.maxlen == maxlen && entries == [] && lastSeq == 0
    {
      this.maxlen := maxlen;
      entries, lastSeq := [], 0;
    }

    method Record(kind: string, data: string) returns (seqNo: nat)
      modifies this
      ensures seqNo == lastSeq == old(lastSeq) + 1
      ensures entries == LastN(old(entries) + [Change(seqNo, kind, data)], maxlen)
    {
      lastSeq := lastSeq + 1;
      entries := LastN(entries + [Change(lastSeq, kind, data)], maxlen);
      seqNo := lastSeq;
    }

    method Since(after: nat) returns (r: seq<Change>)
      ensures r == SinceOf(entries, after)
    {
      r := [];
      var i := 0;
      while i < |entries|
        invariant 0 <= i <= |entries|
        invariant r == SinceOf(entries[..i], after)
      {
        assert entries[..i + 1] == entries[..i] + [entries[i]];
        FilterAppend(entries[..i], [entries[i]], NewerThan(after));
        if entries[i].seqNo > after {
          r := r + [entries[i]];
        }
        i := i + 1;
      }
      assert entries[..i] == entries;
    }
  }

  /** A connected client: its cursor and everything it was sent. */
  datatype Client = Client(last: nat, received: seq<Change>)

  function Polled(c: Client, log: seq<Change>): (r: Client) {
    var items := SinceOf(log, c.last);
    if items == [] then c else Client(items[|items| - 1].seqNo, c.received + items)
  }

  class Stream {
    const log: ChangeLog
    var client: Client

    constructor (log: ChangeLog)
      ensures this.log == log && client == Client(0, [])
    {
      this.log := log;
      client := Client(0, []);
    }

    /** One turn of the loop; nothing is sent when there is nothing new. */
    method Poll() returns (sent: Option<seq<Change>>)
      modifies this
      ensures client == Polled(old(client), log.entries)
      ensures client.received == old(client).received + if sent.Some? then sent.value else []
    {
      var items := log.Since(client.last);
      if items == [] {
        return None;
      }
      client := Client(items[|items| - 1].seqNo, client.received + items);
      sent := Some(items);
    }
  }

  /* ----------------------------------------------------------- all interleavings */

  datatype Step = Write(kind: string, data: string) | Poll(client: nat)

  /** `history` is every change ever recorded; `log` what the log still holds. */
  datatype Sys = Sys(history: seq<Change>, log: seq<Change>, clients: map<nat, Client>)

  function ClientOf(s: Sys, id: nat): (c: Client) {
    if id in s.clients then s.clients[id] else Client(0, [])
  }

  function Next(maxlen: nat, s: Sys, step: Step): (r: Sys) {
    match step
    case Write(kind, data) =>
      var c := Change(|s.history| + 1, kind, data);
      s.(history := s.history + [c], log := LastN(s.log + [c], maxlen))
    case Poll(id) => s.(clients := s.clients[id := Polled(ClientOf(s, id), s.log)])
  }

  function Run(maxlen: nat, steps: seq<Step>): (s: Sys) {
    if steps == [] then Sys([], [], map[])
    else Next(maxlen, Run(maxlen, steps[..|steps| - 1]), steps[|steps| - 1])
  }

  /** How many changes had been recorded at each poll of a client. */
  function PollPoints(steps: seq<Step>, id: nat): (r: seq<nat>) {
    if steps == [] then []
    else
      var init := steps[..|steps| - 1];
      PollPoints(init, id) + if steps[|steps| - 1] == Poll(id) then [Writes(init)] else []
  }

  function Writes(steps: seq<Step>): (n: nat) {
    if steps == [] then 0 else Writes(steps[..|steps| - 1]) + if steps[|steps| - 1].Write? then 1 else 0
  }

  ghost predicate Numbered(history: seq<Change>) {
    forall i :: 0 <= i < |history| ==> history[i].seqNo == i + 1
  }

  /** The log is the end of a history of `n` changes: the last `maxlen` of them, or all. */
  ghost predicate RecentHistory(maxlen: nat, s: Sys, n: nat) {
    Numbered(s.history) && |s.history| == n && s.log == LastN(s.history, maxlen)
  }

  lemma NextKeepsRecent(maxlen: nat, s: Sys, n: nat, step: Step)
    requires RecentHistory(maxlen, s, n)
    ensures RecentHistory(maxlen, Next(maxlen, s, step), n + if step.Write? then 1 else 0)
  {
    if step.Write? {
      LastNTwice(s.history, Change(|s.history| + 1, step.kind, step.data), maxlen);
    }
  }

  lemma {:induction false} LogIsRecentHistory(maxlen: nat, steps: seq<Step>)
    ensures RecentHistory(maxlen, Run(maxlen, steps), Writes(steps))
  {
    if steps != [] {
      var init, last := steps[..|steps| - 1], steps[|steps| - 1];
      LogIsRecentHistory(maxlen, init);
      NextKeepsRecent(maxlen, Run(maxlen, init), Writes(init), last);
    }
  }

  /** The changes numbered `from + 1` to `to`. */
  function Slice(history: seq<Change>, from: nat, to: nat): (r: seq<Change>) {
    if from <= to <= |history| then history[from..to] else []
  }

  function Max(a: nat, b: nat): (r: nat) {
    if a >= b then a else b
  }

  /** The number of the last change evicted when `n` have been recorded. */
  function Evicted(maxlen: nat, n: nat): (r: nat) {
    if n <= maxlen then 0 else n - maxlen
  }

  lemma {:induction false} NewerSuffix(s: seq<Change>, base: nat, after: nat)
    requires forall i :: 0 <= i < |s| ==> s[i].seqNo == base + i + 1
    ensures SinceOf(s, after) == if after <= base then s else if after - base <= |s| then s[after - base..] else []
  {
    if s != [] {
      NewerSuffix(s[1..], base + 1, after);
    }
  }

  lemma NewerInLog(history: seq<Change>, base: nat, last: nat)
    requires Numbered(history) && base <= |history|
    ensures SinceOf(history[base..], last) == Slice(history, Max(last, base), |history|)
  {
    NewerSuffix(history[base..], base, last);
    if base < last <= |history| {
      assert history[base..][last - base..] == history[last..];
    }
  }

  /** What one poll at `n` changes sends to a client whose cursor is `last`. */
  lemma PollSends(maxlen: nat, history: seq<Change>, last: nat)
    requires Numbered(history)
    ensures SinceOf(LastN(history, maxlen), last) == Slice(history, Max(last, Evicted(maxlen, |history|)), |history|)
  {
    NewerInLog(history, Evicted(maxlen, |history|), last);
    assert LastN(history, maxlen) == history[Evicted(maxlen, |history|)..];
  }

  function LastPoint(points: seq<nat>): (p: nat) {
    if points == [] then 0 else points[|points| - 1]
  }

  /** Received after polls at `points`: from each poll what was new and not yet evicted. */
  function Deliveries(maxlen: nat, history: seq<Change>, points: seq<nat>): (r: seq<Change>) {
    if points == [] then []
    else
      var before, p := points[..|points| - 1], points[|points| - 1];
      Deliveries(maxlen, history, before) + Slice(history, Max(LastPoint(before), Evicted(maxlen, p)), p)
  }

  /** Poll points never decrease and never exceed `n`. */
  ghost predicate Ascending(points: seq<nat>, n: nat) {
    points == [] || (points[|points| - 1] <= n && Ascending(points[..|points| - 1], points[|points| - 1]))
  }

  lemma AscendingFurther(points: seq<nat>, m: nat, n: nat)
    requires Ascending(points, m) && m <= n
    ensures Ascending(points, n) && LastPoint(points) <= m
  {
  }

  lemma SnocPoints(maxlen: nat, history: seq<Change>, points: seq<nat>, p: nat)
    ensures Deliveries(maxlen, history, points + [p])
         == Deliveries(maxlen, history, points) + Slice(history, Max(LastPoint(points), Evicted(maxlen, p)), p)
    ensures Ascending(points, p) ==> Ascending(points + [p], p)
    ensures LastPoint(points + [p]) == p
  {
    assert (points + [p])[..|points|] == points;
  }

  lemma {:induction false} DeliveriesPrefix(maxlen: nat, history: seq<Change>, c: Change, points: seq<nat>)
    requires Ascending(points, |history|)
    ensures Deliveries(maxlen, history + [c], points) == Deliveries(maxlen, history, points)
  {
    if points != [] {
      var before, p := points[..|points| - 1], points[|points| - 1];
      AscendingFurther(before, p, |history|);
      DeliveriesPrefix(maxlen, history, c, before);
      var from := Max(LastPoint(before), Evicted(maxlen, p));
      assert Slice(history + [c], from, p) == Slice(history, from, p);
    }
  }

  /**
   * A client after polls at `points`: it holds their deliveries, and its cursor is where
   * the last one stood, unless the log can hold nothing.
   */
  ghost predicate ClientOk(maxlen: nat, history: seq<Change>, c: Client, points: seq<nat>) {
    && Ascending(points, |history|)
    && c.last == (if maxlen == 0 then 0 else LastPoint(points))
    && c.received == Deliveries(maxlen, history, points)
  }

  lemma WriteKeepsClient(maxlen: nat, history: seq<Change>, c: Client, points: seq<nat>, x: Change)
    requires ClientOk(maxlen, history, c, points)
    ensures ClientOk(maxlen, history + [x], c, points)
  {
    AscendingFurther(points, |history|, |history| + 1);
    DeliveriesPrefix(maxlen, history, x, points);
  }

  lemma PollKeepsClient(maxlen: nat, history: seq<Change>, c: Client, points: seq<nat>)
    requires Numbered(history) && ClientOk(maxlen, history, c, points)
    ensures ClientOk(maxlen, history, Polled(c, LastN(history, maxlen)), points + [|history|])
  {
    var n := |history|;
    AscendingFurther(points, n, n);
    PollSends(maxlen, history, c.last);
    SnocPoints(maxlen, history, points, n);
    SliceCases(maxlen, history, c.last, LastPoint(points));
  }

  lemma SliceCases(maxlen: nat, history: seq<Change>, last: nat, point: nat)
    requires Numbered(history) && last == (if maxlen == 0 then 0 else point) && point <= |history|
    ensures var n := |history|;
      var items := Slice(history, Max(point, Evicted(maxlen, n)), n);
      && Slice(history, Max(last, Evicted(maxlen, n)), n) == items
      && (items == [] ==> maxlen == 0 || point == n)
      && (items != [] ==> maxlen != 0 && items[|items| - 1].seqNo == n)
  {
  }

  /**
   * In every interleaving a client has received, poll by poll, exactly the changes that
   * were new to it and still in the log.
   */
  lemma {:induction false} ClientReceives(maxlen: nat, steps: seq<Step>, id: nat)
    ensures var s := Run(maxlen, steps);
      ClientOk(maxlen, s.history, ClientOf(s, id), PollPoints(steps, id))
  {
    if steps != [] {
      var init, last := steps[..|steps| - 1], steps[|steps| - 1];
      ClientReceives(maxlen, init, id);
      LogIsRecentHistory(maxlen, init);
      var s := Run(maxlen, init);
      if last.Write? {
        var c := Change(|s.history| + 1, last.kind, last.data);
        WriteKeepsClient(maxlen, s.history, ClientOf(s, id), PollPoints(init, id), c);
        assert PollPoints(steps, id) == PollPoints(init, id);
      } else if last == Poll(id) {
        PollKeepsClient(maxlen, s.history, ClientOf(s, id), PollPoints(init, id));
      } else {
        assert PollPoints(steps, id) == PollPoints(init, id);
      }
    }
  }

  /* ------------------------------------------------------------- what this means */

  ghost predicate Increasing(r: seq<Change>, upTo: nat) {
    && (forall i :: 0 <= i < |r| - 1 ==> r[i].seqNo < r[i + 1].seqNo)
    && (r != [] ==> r[|r| - 1].seqNo <= upTo)
  }

  /** A change reaches a client at the first poll since it was recorded, if it is still in the log. */
  predicate ReachedBy(maxlen: nat, points: seq<nat>, q: nat) {
    points != [] &&
    var before, p := points[..|points| - 1], points[|points| - 1];
    ReachedBy(maxlen, before, q) || (LastPoint(before) < q <= p && Evicted(maxlen, p) < q)
  }

  lemma SliceMembers(history: seq<Change>, from: nat, to: nat, q: nat)
    requires Numbered(history) && to <= |history| && 1 <= q <= |history|
    ensures history[q - 1] in Slice(history, from, to) <==> from < q <= to
  {
    if from < q <= to {
      assert Slice(history, from, to)[q - 1 - from] == history[q - 1];
    }
  }

  lemma {:induction false} DeliveredIff(maxlen: nat, history: seq<Change>, points: seq<nat>, q: nat)
    requires Numbered(history) && Ascending(points, |history|) && 1 <= q <= |history|
    ensures history[q - 1] in Deliveries(maxlen, history, points) <==> ReachedBy(maxlen, points, q)
  {
    if points != [] {
      var before, p := points[..|points| - 1], points[|points| - 1];
      AscendingFurther(before, p, |history|);
      DeliveredIff(maxlen, history, before, q);
      SliceMembers(history, Max(LastPoint(before), Evicted(maxlen, p)), p, q);
    }
  }

  lemma {:induction false} DeliveriesIncrease(maxlen: nat, history: seq<Change>, points: seq<nat>)
    requires Numbered(history) && Ascending(points, |history|)
    ensures Increasing(Deliveries(maxlen, history, points), LastPoint(points))
  {
    if points != [] {
      var before, p := points[..|points| - 1], points[|points| - 1];
      AscendingFurther(before, p, |history|);
      DeliveriesIncrease(maxlen, history, before);
      var from := Max(LastPoint(before), Evicted(maxlen, p));
      JoinIncreasing(Deliveries(maxlen, history, before), history, from, p);
    }
  }

  lemma JoinIncreasing(a: seq<Change>, history: seq<Change>, from: nat, to: nat)
    requires Numbered(history) && to <= |history| && (a != [] ==> a[|a| - 1].seqNo <= from)
    requires from <= to || Slice(history, from, to) == []
    requires Increasing(a, from) && (from > to ==> Increasing(a, to))
    ensures Increasing(a + Slice(history, from, to), to)
  {
    var b := Slice(history, from, to);
    forall i | 0 <= i < |a + b| - 1 ensures (a + b)[i].seqNo < (a + b)[i + 1].seqNo {
    }
  }

  /**
   * The stream protocol: each client receives changes in strictly increasing order, none
   * twice, and change number `q` arrives if and only if the first poll since it was
   * recorded came before it was evicted.
   */
  lemma StreamProtocol(maxlen: nat, steps: seq<Step>, id: nat, q: nat)
    requires 1 <= q <= Writes(steps)
    ensures var s := Run(maxlen, steps);
      var received := ClientOf(s, id).received;
      && Increasing(received, |s.history|)
      && |s.history| == Writes(steps)
      && (s.history[q - 1] in received <==> ReachedBy(maxlen, PollPoints(steps, id), q))
  {
    LogIsRecentHistory(maxlen, steps);
    ClientReceives(maxlen, steps, id);
    var s, points := Run(maxlen, steps), PollPoints(steps, id);
    DeliveredIff(maxlen, s.history, points, q);
    DeliveriesIncrease(maxlen, s.history, points);
    AscendingFurther(points, |s.history|, |s.history|);
  }

  /** No two polls, counting from the beginning, are more than `maxlen` changes apart. */
  predicate Prompt(maxlen: nat, points: seq<nat>) {
    points == [] ||
    (var before, p := points[..|points| - 1], points[|points| - 1];
     Prompt(maxlen, before) && p <= LastPoint(before) + maxlen)
  }

  lemma {:induction false} PromptDeliveries(maxlen: nat, history: seq<Change>, points: seq<nat>)
    requires Ascending(points, |history|) && Prompt(maxlen, points)
    ensures Deliveries(maxlen, history, points) == Slice(history, 0, LastPoint(points))
  {
    if points != [] {
      var before, p := points[..|points| - 1], points[|points| - 1];
      AscendingFurther(before, p, |history|);
      PromptDeliveries(maxlen, history, before);
      var prev := LastPoint(before);
      assert history[..prev] + history[prev..p] == history[..p];
    }
  }

  /** A prompt client has received the whole history up to its last poll. */
  lemma PromptClientMissesNothing(maxlen: nat, steps: seq<Step>, id: nat)
    requires Prompt(maxlen, PollPoints(steps, id))
    ensures var s := Run(maxlen, steps);
      var n := LastPoint(PollPoints(steps, id));
      n <= |s.history| && ClientOf(s, id).received == s.history[..n]
  {
    ClientReceives(maxlen, steps, id);
    var s, points := Run(maxlen, steps), PollPoints(steps, id);
    AscendingFurther(points, |s.history|, |s.history|);
    PromptDeliveries(maxlen, s.history, points);
  }
}
