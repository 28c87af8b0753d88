/**
 * The auditd provider: a log source, a record parser and bounded delivery in one collect.
 *
 * A collect reads every new line but feeds the parser only as many as its budget allows.
 * The lines it leaves out are behind the cursor by then: no later collect sees them, and no
 * counter counts them.
 */
module AuditdProvider {
  import opened Wrappers
  import opened AuditRecords
  import LogTail
  import Ring
  import TokenBucket

  /** Splitting a line into a record; `None` when it is not one. */
  type Tokenizer = string -> Option<Record>

  function Tokens(tokenize: Tokenizer, lines: seq<string>): (r: seq<Option<Record>>)
    ensures |r| == |lines|
  {
    seq(|lines|, i requires 0 <= i < |lines| => tokenize(lines[i]))
  }

  /** How many events feeding the lines completes, before the flush. */
  function Completed(d: Decoders, lines: seq<Option<Record>>): (n: nat) {
    |Stream(d, None, lines).1|
  }

  /** The loop stops after `k` lines: none are left, or one of the two uses of the budget is met. */
  predicate StopsAt(d: Decoders, budget: nat, lines: seq<Option<Record>>, k: nat)
    requires k <= |lines|
  {
    k == |lines| || k >= budget || (k > 0 && Completed(d, lines[..k]) >= budget)
  }

  function TakenFrom(d: Decoders, budget: nat, lines: seq<Option<Record>>, k: nat): (n: nat)
    requires k <= |lines|
    ensures k <= n <= |lines|
    decreases |lines| - k
  {
    if StopsAt(d, budget, lines, k) then k else TakenFrom(d, budget, lines, k + 1)
  }

  /** How many of the lines read are fed to the parser. */
  function Taken(d: Decoders, budget: nat, lines: seq<Option<Record>>): (n: nat)
    ensures n <= |lines|
  {
    TakenFrom(d, budget, lines, 0)
  }

  /** The events of one collect: those of the lines fed, and of the flush that follows. */
  function Batch(d: Decoders, budget: nat, lines: seq<Option<Record>>): (r: seq<Event>) {
    StreamAll(d, lines[..Taken(d, budget, lines)])
  }

  lemma FedOneMore(d: Decoders, lines: seq<Option<Record>>, i: nat)
    requires i < |lines|
    ensures var (c, out) := Stream(d, None, lines[..i]); var (c1, out1) := FeedStep(d, c, lines[i]);
      Stream(d, None, lines[..i + 1]) == (c1, out + out1)
  {
    assert lines[..i + 1][..i] == lines[..i];
  }

  class Provider {
    const d: Decoders
    const tokenize: Tokenizer
    const budget: nat
    const source: LogTail.AuditLogSource
    const parser: AuditRecordParser
    const delivery: Ring.BoundedProvider<Event>
    var started: bool

    /** Between calls the parser holds no open event: every collect ends with a flush. */
    ghost predicate Valid()
      reads this, source, parser, delivery, delivery.ring
    {
      && parser.d == d && parser.ctx == None && delivery.Valid()
      && (started ==> source.Started())
    }

    constructor (d: Decoders, tokenize: Tokenizer, budget: nat, source: LogTail.AuditLogSource,
                 delivery: Ring.BoundedProvider<Event>)
      requires delivery.Valid()
      ensures Valid() && !started && this.d == d && this.tokenize == tokenize && this.budget == budget
      ensures this.source == source && this.delivery == delivery && fresh(parser)
    {
      this.d, this.tokenize, this.budget := d, tokenize, budget;
      this.source, this.delivery := source, delivery;
      parser := new AuditRecordParser(d);
      started := false;
    }

    /** `false` stands for the error raised when there is no log; the platform check is not modelled. */
    method Start(now: real) returns (ok: bool)
      requires Valid() && LogTail.ValidDisk(source.fs.disk)
      modifies this, source, delivery, delivery.rateDrops
      ensures Valid() && (ok <==> source.fs.disk.path.Some?)
      ensures ok ==>
        var p := source.fs.disk.path.value;
        && started && source.fh == Some(LogTail.AtEnd(source.fs.disk, p)) && source.known == Some(p)
        && delivery.View() == Ring.StartStep(old(delivery.View()), now)
      ensures !ok ==> started == old(started) && delivery.View() == old(delivery.View())
    {
      ok := source.Start();
      if ok {
        started := true;
        delivery.MarkStarted(now);
      }
    }

    /** `None` stands for the error raised before the start. */
    method Collect(now: real) returns (r: Option<seq<Event>>)
      requires Valid() && LogTail.ValidDisk(source.fs.disk) && Ring.Ready(delivery.View(), now)
      modifies source, parser, delivery, delivery.Parts
      ensures Valid() && started == old(started)
      ensures !started ==> r == None && source.fh == old(source.fh) && delivery.View() == old(delivery.View())
      ensures started ==>
        var (s, lines) := LogTail.ReadStep(source.fs.disk, old(source.Abs()));
        var (p, out) := Ring.DeliverStep(old(delivery.View()), now, Batch(d, budget, Tokens(tokenize, lines)));
        source.Abs() == s && delivery.View() == p && r == Some(out)
    {
      if !started {
        return None;
      }
      var lines := source.ReadNewLines();
      var parsed := ParseBatch(lines.value);
      var out := delivery.Deliver(now, parsed);
      r := Some(out);
    }

    /** Feeding the lines while the budget lasts, then flushing. */
    method ParseBatch(lines: seq<string>) returns (parsed: seq<Event>)
      requires parser.d == d && parser.ctx == None
      modifies parser
      ensures parser.ctx == None && parsed == Batch(d, budget, Tokens(tokenize, lines))
    {
      ghost var tokens := Tokens(tokenize, lines);
      parsed := [];
      var i := 0;
      while i < |lines| && i < budget
        invariant 0 <= i <= |lines|
        invariant (parser.ctx, parsed) == Stream(d, None, tokens[..i])
        invariant Taken(d, budget, tokens) == TakenFrom(d, budget, tokens, i)
        invariant i > 0 ==> |parsed| < budget
      {
        FedOneMore(d, tokens, i);
        var events := parser.Feed(tokenize(lines[i]));
        parsed := parsed + events;
        i := i + 1;
        if |parsed| >= budget {
          break;
        }
      }
      assert StopsAt(d, budget, tokens, i);
      var rest := parser.Flush();
      parsed := parsed + rest;
    }
  }

  /* ------------------------------------------------------------------ the budget's cut */

  /** What a caller can check: no more lines than the budget, and no early stop. */
  predicate WithinBudget(d: Decoders, budget: nat, lines: seq<Option<Record>>) {
    |lines| <= budget && forall k :: 0 < k < |lines| ==> Completed(d, lines[..k]) < budget
  }

  lemma {:induction false} TakenFromIff(d: Decoders, budget: nat, lines: seq<Option<Record>>, k: nat)
    requires k <= |lines|
    ensures TakenFrom(d, budget, lines, k) == |lines| <==>
      forall j :: k <= j < |lines| ==> !StopsAt(d, budget, lines, j)
    decreases |lines| - k
  {
    if !StopsAt(d, budget, lines, k) {
      TakenFromIff(d, budget, lines, k + 1);
    }
  }

  /** Every line read is fed to the parser exactly when the batch is within the budget. */
  lemma AllFedIff(d: Decoders, budget: nat, lines: seq<Option<Record>>)
    ensures Taken(d, budget, lines) == |lines| <==> WithinBudget(d, budget, lines)
    ensures WithinBudget(d, budget, lines) ==> Batch(d, budget, lines) == StreamAll(d, lines)
  {
    TakenFromIff(d, budget, lines, 0);
    if |lines| > budget {
      assert StopsAt(d, budget, lines, budget);
    }
    if Taken(d, budget, lines) == |lines| {
      assert lines[..|lines|] == lines;
      forall k | 0 < k < |lines| ensures Completed(d, lines[..k]) < budget {
        assert !StopsAt(d, budget, lines, k);
      }
    }
  }

  /** Events of the lines read that the cut kept from the ring; negative when it made up some. */
  function Withheld(d: Decoders, budget: nat, lines: seq<Option<Record>>): (n: int) {
    |StreamAll(d, lines)| - |Batch(d, budget, lines)|
  }

  /** Where the cut falls between two events, what it withholds is all that the rest has. */
  lemma WithheldIsTheRest(d: Decoders, budget: nat, lines: seq<Option<Record>>)
    requires var n := Taken(d, budget, lines); RunEnds(Parsed(lines[..n]), Parsed(lines[n..]))
    ensures var rest := lines[Taken(d, budget, lines)..];
      && StreamAll(d, lines) == Batch(d, budget, lines) + StreamAll(d, rest)
      && Withheld(d, budget, lines) == |StreamAll(d, rest)|
  {
    var n := Taken(d, budget, lines);
    CutBetweenEvents(d, lines[..n], lines[n..], lines);
  }

  lemma CutBetweenEvents(d: Decoders, a: seq<Option<Record>>, b: seq<Option<Record>>, lines: seq<Option<Record>>)
    requires lines == a + b && RunEnds(Parsed(a), Parsed(b))
    ensures StreamAll(d, lines) == StreamAll(d, a) + StreamAll(d, b)
  {
    FlushAtRunBoundary(d, a, b);
  }

  /** A budget of one and the records of two events: the second event is gone. */
  lemma CutLosesEvent(d: Decoders, a: Record, b: Record)
    requires a.serial != b.serial
    ensures Batch(d, 1, [Some(a), Some(b)]) == EmitRun(d, [a])
    ensures StreamAll(d, [Some(a), Some(b)]) == EmitRun(d, [a]) + EmitRun(d, [b])
    ensures Withheld(d, 1, [Some(a), Some(b)]) == |EmitRun(d, [b])|
  {
    var lines := [Some(a), Some(b)];
    assert StopsAt(d, 1, lines, 1) && !StopsAt(d, 1, lines, 0);
    assert Taken(d, 1, lines) == TakenFrom(d, 1, lines, 1) == 1;
    assert lines[..1] == [Some(a)] && lines[1..] == [Some(b)];
    ParsedOne(a);
    ParsedOne(b);
    SingleRun(d, [Some(a)], [a]);
    SingleRun(d, [Some(b)], [b]);
    WithheldIsTheRest(d, 1, lines);
  }

  /* -------------------------------------------------------------------- whole runs */

  /** A writer's or rotator's step on the log, or one collect. */
  datatype Tick = Other(step: LogTail.Step) | Collect(now: real)

  function TurnOf(tick: Tick): (t: LogTail.Turn) {
    match tick
    case Other(step) => LogTail.Turn.Other(step)
    case Collect(_) => LogTail.Turn.Read
  }

  function Turns(ticks: seq<Tick>): (r: seq<LogTail.Turn>)
    ensures |r| == |ticks|
  {
    seq(|ticks|, i requires 0 <= i < |ticks| => TurnOf(ticks[i]))
  }

  /** What a run is of: the log as it was at the start, and the provider's parts. */
  datatype Setup = Setup(
    disk: LogTail.Disk, first: nat, d: Decoders, tokenize: Tokenizer, budget: nat,
    capacity: nat, limiter: Option<TokenBucket.Bucket>)

  ghost predicate Sensible(u: Setup) {
    LogTail.ValidDisk(u.disk) && u.disk.path == Some(u.first)
  }

  function LogAfter(u: Setup, ticks: seq<Tick>): (s: LogTail.Sys)
    requires Sensible(u)
    ensures LogTail.ValidDisk(s.disk)
  {
    LogTail.Run(u.disk, u.first, LogTail.Phases(Turns(ticks)))
  }

  /** The lines of each collect, split into records. */
  function Batches(u: Setup, ticks: seq<Tick>): (r: seq<seq<Option<Record>>>)
    requires Sensible(u)
  {
    if ticks == [] then []
    else
      var init, last := ticks[..|ticks| - 1], ticks[|ticks| - 1];
      var s := LogAfter(u, init);
      Batches(u, init) + if last.Collect? then [Tokens(u.tokenize, LogTail.ReadStep(s.disk, s.src).1)] else []
  }

  /** The deliveries that the collects make. */
  function Deliveries(u: Setup, ticks: seq<Tick>): (ops: seq<Ring.Op<Event>>)
    requires Sensible(u)
  {
    if ticks == [] then []
    else
      var init, last := ticks[..|ticks| - 1], ticks[|ticks| - 1];
      var s := LogAfter(u, init);
      Deliveries(u, init) +
      if last.Collect?
      then [Ring.Op.Deliver(last.now, Batch(u.d, u.budget, Tokens(u.tokenize, LogTail.ReadStep(s.disk, s.src).1)))]
      else []
  }

  ghost predicate Timely(u: Setup, ticks: seq<Tick>)
    requires Sensible(u)
  {
    Ring.Timely(u.capacity, u.limiter, Deliveries(u, ticks))
  }

  ghost function BooksAfter(u: Setup, ticks: seq<Tick>): (b: Ring.Books<Event>)
    requires Sensible(u) && Timely(u, ticks)
  {
    Ring.Run(u.capacity, u.limiter, Deliveries(u, ticks))
  }

  function Joined(bs: seq<seq<Option<Record>>>): (r: seq<Option<Record>>) {
    if bs == [] then [] else Joined(bs[..|bs| - 1]) + bs[|bs| - 1]
  }

  /** The lines that collects feed to the parser. */
  function Fed(d: Decoders, budget: nat, bs: seq<seq<Option<Record>>>): (r: seq<Option<Record>>) {
    if bs == [] then []
    else
      var last := bs[|bs| - 1];
      Fed(d, budget, bs[..|bs| - 1]) + last[..Taken(d, budget, last)]
  }

  /** The events that the lines of each collect are worth. */
  function Owed(d: Decoders, bs: seq<seq<Option<Record>>>): (n: nat) {
    if bs == [] then 0 else Owed(d, bs[..|bs| - 1]) + |StreamAll(d, bs[|bs| - 1])|
  }

  function AllWithheld(d: Decoders, budget: nat, bs: seq<seq<Option<Record>>>): (n: int) {
    if bs == [] then 0 else AllWithheld(d, budget, bs[..|bs| - 1]) + Withheld(d, budget, bs[|bs| - 1])
  }

  lemma {:induction false} FedShorter(d: Decoders, budget: nat, bs: seq<seq<Option<Record>>>)
    ensures |Fed(d, budget, bs)| <= |Joined(bs)|
  {
    if bs != [] {
      FedShorter(d, budget, bs[..|bs| - 1]);
    }
  }

  /** Over all collects: every line read was fed exactly when every batch was within the budget. */
  lemma {:induction false} EveryLineFedIff(d: Decoders, budget: nat, bs: seq<seq<Option<Record>>>)
    ensures Fed(d, budget, bs) == Joined(bs) <==> forall b :: b in bs ==> WithinBudget(d, budget, b)
  {
    if bs != [] {
      var init, last := bs[..|bs| - 1], bs[|bs| - 1];
      EveryLineFedIff(d, budget, init);
      AllFedIff(d, budget, last);
      FedShorter(d, budget, init);
      assert bs == init + [last];
      assert last[..|last|] == last;
      if Taken(d, budget, last) < |last| {
        assert |Fed(d, budget, bs)| < |Joined(bs)|;
      }
      if Fed(d, budget, bs) == Joined(bs) {
        assert Fed(d, budget, init) == Fed(d, budget, bs)[..|Fed(d, budget, init)|];
        assert |Fed(d, budget, init)| == |Joined(init)|;
        assert Joined(init) == Joined(bs)[..|Joined(init)|];
      }
    }
  }

  /** Everything the deliveries were offered. */
  function Offered(ops: seq<Ring.Op<Event>>): (r: seq<Event>) {
    if ops == [] then []
    else
      var last := ops[|ops| - 1];
      Offered(ops[..|ops| - 1]) + if last.Deliver? then last.raw else []
  }

  /** The books of deliveries alone: what they were offered, and when nothing was dropped, all of it. */
  lemma {:induction false} BooksOfDeliveries(
      capacity: nat, limiter: Option<TokenBucket.Bucket>, ops: seq<Ring.Op<Event>>)
    requires Ring.Timely(capacity, limiter, ops) && forall op :: op in ops ==> op.Deliver?
    ensures var b := Ring.Run(capacity, limiter, ops);
      && b.offered == |Offered(ops)|
      && (b.p.drops.total == 0 ==> b.out == Offered(ops))
  {
    if ops != [] {
      var init, last := ops[..|ops| - 1], ops[|ops| - 1];
      assert last in ops && forall op :: op in init ==> op in ops;
      BooksOfDeliveries(capacity, limiter, init);
      Ring.BooksBalance(capacity, limiter, init);
      OneDelivery(Ring.Run(capacity, limiter, init), last.now, last.raw);
    }
  }

  lemma OneDelivery(b: Ring.Books<Event>, now: real, raw: seq<Event>)
    requires Ring.Balanced(b) && Ring.CanDo(b, Ring.Op.Deliver(now, raw))
    ensures var b1 := Ring.Do(b, Ring.Op.Deliver(now, raw));
      && b1.offered == b.offered + |raw|
      && (b1.p.drops.total == 0 ==> b.p.drops.total == 0 && b1.out == b.out + raw)
  {
    Ring.DoBalances(b, Ring.Op.Deliver(now, raw));
    var kept := Ring.Kept(raw, b.p.ring.capacity);
    assert b.p.ring.events + raw == raw;
    Ring.LimitInRange(b.p.limiter, now, |kept|);
  }

  lemma {:induction false} DeliveriesOffer(u: Setup, ticks: seq<Tick>)
    requires Sensible(u)
    ensures forall op :: op in Deliveries(u, ticks) ==> op.Deliver?
    ensures |Offered(Deliveries(u, ticks))| == Owed(u.d, Batches(u, ticks)) - AllWithheld(u.d, u.budget, Batches(u, ticks))
  {
    if ticks != [] {
      var init, last := ticks[..|ticks| - 1], ticks[|ticks| - 1];
      DeliveriesOffer(u, init);
      if last.Collect? {
        assert Deliveries(u, ticks)[..|Deliveries(u, init)|] == Deliveries(u, init);
        assert Batches(u, ticks)[..|Batches(u, init)|] == Batches(u, init);
      } else {
        assert Deliveries(u, ticks) == Deliveries(u, init) && Batches(u, ticks) == Batches(u, init);
      }
    }
  }

  /**
   * The books of a whole run: of the events that the lines read are worth, each was handed
   * on, counted as dropped, or withheld by the cut of its collect, which nothing counts.
   */
  lemma EventsAccounted(u: Setup, ticks: seq<Tick>)
    requires Sensible(u) && Timely(u, ticks)
    ensures var b := BooksAfter(u, ticks); var bs := Batches(u, ticks);
      && Owed(u.d, bs) == |b.out| + b.p.drops.total + AllWithheld(u.d, u.budget, bs)
      && (Owed(u.d, bs) == |b.out| + b.p.drops.total <==> AllWithheld(u.d, u.budget, bs) == 0)
  {
    DeliveriesOffer(u, ticks);
    BooksOfDeliveries(u.capacity, u.limiter, Deliveries(u, ticks));
    Ring.NothingIsLostSilently(u.capacity, u.limiter, Deliveries(u, ticks));
  }

  /* ------------------------------------------------------------- from file to consumer */

  function LinesOf(ds: seq<LogTail.Delivery>): (r: seq<string>)
    ensures |r| == |ds|
  {
    seq(|ds|, i requires 0 <= i < |ds| => ds[i].line)
  }

  lemma TagLines(fh: LogTail.Handle, lines: seq<string>)
    ensures LinesOf(LogTail.Tag(fh, lines)) == lines
  {
  }

  /** The phases of a run with one more tick. */
  lemma PhasesNext(init: seq<Tick>, last: Tick)
    ensures LogTail.Phases(Turns(init + [last])) == LogTail.Phases(Turns(init)) +
      if last.Collect? then LogTail.READ else [last.step]
  {
    assert Turns(init + [last]) == Turns(init) + [TurnOf(last)];
    PhasesSnoc(Turns(init), TurnOf(last));
  }

  lemma PhasesSnoc(turns: seq<LogTail.Turn>, t: LogTail.Turn)
    ensures LogTail.Phases(turns + [t]) == LogTail.Phases(turns) + if t.Read? then LogTail.READ else [t.step]
  {
    assert (turns + [t])[..|turns|] == turns;
  }

  lemma ReadAdds(u: Setup, steps: seq<LogTail.Step>)
    requires Sensible(u)
    ensures var s, s1 := LogTail.Run(u.disk, u.first, steps), LogTail.Run(u.disk, u.first, steps + LogTail.READ);
      LinesOf(s1.delivered) == LinesOf(s.delivered) + LogTail.ReadStep(s.disk, s.src).1
  {
    var s := LogTail.Run(u.disk, u.first, steps);
    var lines := LogTail.ReadStep(s.disk, s.src).1;
    var read := LogTail.HandleTruncation(s.disk, LogTail.HandleRotation(s.disk, s.src)).fh;
    LogTail.PhasesMakeRead(u.disk, u.first, steps);
    TagLines(read, lines);
    LinesAppend(s.delivered, LogTail.Tag(read, lines));
  }

  lemma OtherAdds(u: Setup, steps: seq<LogTail.Step>, step: LogTail.Step)
    requires Sensible(u) && LogTail.ByOthers(step)
    ensures LogTail.Run(u.disk, u.first, steps + [step]).delivered == LogTail.Run(u.disk, u.first, steps).delivered
  {
    LogTail.RunSnoc(u.disk, u.first, steps, step);
  }

  /** What one more tick does to the log and its lines. */
  lemma LogNext(u: Setup, init: seq<Tick>, last: Tick)
    requires Sensible(u) && (last.Other? ==> LogTail.ByOthers(last.step))
    ensures var s, s1 := LogAfter(u, init), LogAfter(u, init + [last]);
      LinesOf(s1.delivered) == LinesOf(s.delivered) +
        if last.Collect? then LogTail.ReadStep(s.disk, s.src).1 else []
  {
    PhasesNext(init, last);
    match last
    case Collect(_) => ReadAdds(u, LogTail.Phases(Turns(init)));
    case Other(step) => OtherAdds(u, LogTail.Phases(Turns(init)), step);
  }

  lemma LinesAppend(a: seq<LogTail.Delivery>, b: seq<LogTail.Delivery>)
    ensures LinesOf(a + b) == LinesOf(a) + LinesOf(b)
  {
  }

  lemma TokensAppend(tokenize: Tokenizer, a: seq<string>, b: seq<string>)
    ensures Tokens(tokenize, a + b) == Tokens(tokenize, a) + Tokens(tokenize, b)
  {
  }

  ghost predicate Uninterrupted(ticks: seq<Tick>) {
    forall t :: t in ticks && t.Other? ==> LogTail.ByOthers(t.step)
  }

  /** The batches are the lines read from the log, in order, each in one batch. */
  lemma {:induction false} BatchesAreLines(u: Setup, ticks: seq<Tick>)
    requires Sensible(u) && Uninterrupted(ticks)
    ensures Joined(Batches(u, ticks)) == Tokens(u.tokenize, LinesOf(LogAfter(u, ticks).delivered))
  {
    if ticks != [] {
      var init, last := ticks[..|ticks| - 1], ticks[|ticks| - 1];
      assert ticks == init + [last] && last in ticks && forall t :: t in init ==> t in ticks;
      BatchesAreLines(u, init);
      LogNext(u, init, last);
      if last.Collect? {
        var s := LogAfter(u, init);
        TokensAppend(u.tokenize, LinesOf(s.delivered), LogTail.ReadStep(s.disk, s.src).1);
        assert Batches(u, ticks)[..|Batches(u, init)|] == Batches(u, init);
      } else {
        assert Batches(u, ticks) == Batches(u, init);
        assert LinesOf(LogAfter(u, ticks).delivered) == LinesOf(LogAfter(u, init).delivered);
      }
    }
  }

  /** Each collect ends where an event ends. */
  predicate Aligned(bs: seq<seq<Option<Record>>>) {
    bs == [] ||
    (Aligned(bs[..|bs| - 1]) && RunEnds(Parsed(Joined(bs[..|bs| - 1])), Parsed(bs[|bs| - 1])))
  }

  /** Collects that are within the budget and end where events end offer what one long stream would. */
  lemma {:induction false} AlignedOffer(u: Setup, ticks: seq<Tick>)
    requires Sensible(u) && Aligned(Batches(u, ticks))
    requires forall b :: b in Batches(u, ticks) ==> WithinBudget(u.d, u.budget, b)
    ensures Offered(Deliveries(u, ticks)) == StreamAll(u.d, Joined(Batches(u, ticks)))
  {
    if ticks != [] {
      var init, last := ticks[..|ticks| - 1], ticks[|ticks| - 1];
      if last.Collect? {
        var b := Batches(u, ticks)[|Batches(u, init)|];
        assert b in Batches(u, ticks);
        assert Batches(u, ticks)[..|Batches(u, init)|] == Batches(u, init);
        assert Deliveries(u, ticks)[..|Deliveries(u, init)|] == Deliveries(u, init);
        AlignedOffer(u, init);
        AllFedIff(u.d, u.budget, b);
        FlushAtRunBoundary(u.d, Joined(Batches(u, init)), b);
      } else {
        assert Deliveries(u, ticks) == Deliveries(u, init) && Batches(u, ticks) == Batches(u, init);
        AlignedOffer(u, init);
      }
    }
  }

  /**
   * From file to consumer. With whole reads every line of every file from its starting
   * point to its last read is in one batch. When the batches are within the budget and end
   * where events end, the events of that log, streamed as one, are all handed on or counted
   * as dropped; and with no drop counted they are exactly what was handed on, in order.
   */
  lemma EndToEnd(u: Setup, ticks: seq<Tick>, inode: nat)
    requires Sensible(u) && Timely(u, ticks) && Uninterrupted(ticks) && Aligned(Batches(u, ticks))
    requires forall b :: b in Batches(u, ticks) ==> WithinBudget(u.d, u.budget, b)
    ensures LogTail.SpanDelivered(u.disk, u.first, LogTail.Phases(Turns(ticks)), inode)
    ensures var b := BooksAfter(u, ticks);
      var events := StreamAll(u.d, Tokens(u.tokenize, LinesOf(LogAfter(u, ticks).delivered)));
      && |events| == |b.out| + b.p.drops.total
      && (b.p.drops.total == 0 ==> b.out == events)
  {
    assert LogTail.Uninterrupted(Turns(ticks)) by {
      forall i | 0 <= i < |ticks| && Turns(ticks)[i].Other? ensures LogTail.ByOthers(Turns(ticks)[i].step) {
        assert ticks[i] in ticks;
      }
    }
    LogTail.WholeReadsDeliverExactly(u.disk, u.first, Turns(ticks), inode);
    BatchesAreLines(u, ticks);
    AlignedOffer(u, ticks);
    DeliveriesOffer(u, ticks);
    BooksOfDeliveries(u.capacity, u.limiter, Deliveries(u, ticks));
    Ring.NothingIsLostSilently(u.capacity, u.limiter, Deliveries(u, ticks));
  }
}
