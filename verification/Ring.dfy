/**
 * Bounded telemetry delivery: the ring, the drop counters and the collect-time delivery path.
 *
 * Every event offered is either handed on or counted as dropped, by the ring or by the rate
 * limiter, and `status` tells the two kinds of drop apart.
 */
module Ring {
  import opened Wrappers
  import opened TokenBucket

  datatype RingState<E> = RingState(capacity: nat, events: seq<E>, dropped: nat)

  datatype Counter = Counter(total: nat, recent: nat)

  /** A count of 0 or less is not recorded. */
  function Counted(c: Counter, n: int): (r: Counter) {
    if n <= 0 then c else Counter(c.total + n, c.recent + n)
  }

  function Taken(c: Counter): (r: Counter) {
    c.(recent := 0)
  }

  /** What a ring of this capacity keeps of the events that reach it: the oldest ones. */
  function Kept<E>(events: seq<E>, capacity: nat): (r: seq<E>) {
    if |events| <= capacity then events else events[..capacity]
  }

  class BoundedRing<E> {
    const capacity: nat
    var events: seq<E>
    var dropped: nat

    constructor (capacity: nat)
      requires capacity >= 1
      ensures this.capacity == capacity && events == [] && dropped == 0
    {
      this.capacity := capacity;
      events, dropped := [], 0;
    }

    method Push(event: E) returns (ok: bool)
      modifies this
      ensures ok == (|old(events)| < capacity)
      ensures events == if ok then old(events) + [event] else old(events)
      ensures dropped == old(dropped) + if ok then 0 else 1
    {
      if |events| >= capacity {
        dropped := dropped + 1;
        return false;
      }
      events := events + [event];
      return true;
    }

    /** The newest events are the ones that do not fit. */
    method PushMany(arriving: seq<E>) returns (refused: nat)
      requires |events| <= capacity
      modifies this
      ensures events == Kept(old(events) + arriving, capacity)
      ensures refused == |old(events) + arriving| - |events|
      ensures dropped == old(dropped) + refused
    {
      ghost var before := events;
      refused := 0;
      var i := 0;
      while i < |arriving|
        invariant 0 <= i <= |arriving|
        invariant events == Kept(before + arriving[..i], capacity)
        invariant refused == |before| + i - |events|
        invariant dropped == old(dropped) + refused
      {
        assert before + arriving[..i + 1] == before + arriving[..i] + [arriving[i]];
        var ok := Push(arriving[i]);
        if !ok {
          refused := refused + 1;
        }
        i := i + 1;
      }
      assert arriving[..i] == arriving;
    }

    method Drain() returns (out: seq<E>)
      modifies this
      ensures out == old(events) && events == [] && dropped == old(dropped)
    {
      out := events;
      events := [];
    }
  }

  /** `None` stands for the ValueError of a capacity below 1. */
  method OpenRing<E>(capacity: int) returns (ring: Option<BoundedRing<E>>)
    ensures ring.None? <==> capacity < 1
    ensures ring.Some? ==>
      && fresh(ring.value)
      && ring.value.capacity == capacity && ring.value.events == [] && ring.value.dropped == 0
  {
    if capacity < 1 {
      return None;
    }
    var made := new BoundedRing<E>(capacity);
    ring := Some(made);
  }

  class DropCounter {
    var c: Counter

    constructor ()
      ensures c == Counter(0, 0)
    {
      c := Counter(0, 0);
    }

    method Record(n: int)
      modifies this
      ensures c == Counted(old(c), n)
    {
      if n <= 0 {
        return;
      }
      c := Counter(c.total + n, c.recent + n);
    }

    method TakeRecent() returns (recent: int)
      modifies this
      ensures recent == old(c).recent && c == Taken(old(c))
    {
      recent := c.recent;
      c := c.(recent := 0);
    }
  }

  /** `drops` counts both kinds of drop, `rate` those of the limiter alone. */
  datatype Provider<E> = Provider(
    ring: RingState<E>, drops: Counter, rate: Counter, limiter: Option<Bucket>,
    delivered: nat, startedAt: Option<real>, collectedAt: Option<real>)

  datatype Health = Health(
    running: bool, startedAt: Option<real>, collectedAt: Option<real>,
    delivered: nat, dropsTotal: int, dropsRecent: int, rateLimited: nat)

  /** The limiter is in order and its clock does not run backwards. */
  ghost predicate Ready<E>(p: Provider<E>, now: real) {
    p.limiter.None? || (Sound(p.limiter.value) && p.limiter.value.last <= now)
  }

  /** The limiter afterwards and how many of `n` it lets through; without one, all. */
  function Limit(limiter: Option<Bucket>, now: real, n: nat): (r: (Option<Bucket>, int))
  {
    match limiter
    case None => (None, n)
    case Some(b) => var (b1, allowed) := AllowStep(b, now, n); (Some(b1), allowed)
  }

  lemma LimitInRange(limiter: Option<Bucket>, now: real, n: nat)
    requires limiter.Some? ==> Sound(limiter.value) && limiter.value.last <= now
    ensures 0 <= Limit(limiter, now, n).1 <= n
    ensures limiter.Some? == Limit(limiter, now, n).0.Some?
    ensures limiter.Some? ==> Sound(Limit(limiter, now, n).0.value)
  {
    if limiter.Some? {
      StepPays(limiter.value, now, n);
    }
  }

  function DeliverStep<E>(p: Provider<E>, now: real, raw: seq<E>): (r: (Provider<E>, seq<E>))
    requires Ready(p, now)
  {
    var kept := Kept(p.ring.events + raw, p.ring.capacity);
    var ringDrops := |p.ring.events + raw| - |kept|;
    var (limiter, allowed) := Limit(p.limiter, now, |kept|);
    LimitInRange(p.limiter, now, |kept|);
    var out := kept[..allowed];
    (p.(ring := RingState(p.ring.capacity, [], p.ring.dropped + ringDrops),
        drops := Counted(Counted(p.drops, ringDrops), |kept| - allowed),
        rate := Counted(p.rate, |kept| - allowed),
        limiter := limiter, delivered := p.delivered + |out|, collectedAt := Some(now)),
     out)
  }

  function StartStep<E>(p: Provider<E>, now: real): (r: Provider<E>) {
    p.(startedAt := Some(now), collectedAt := None, delivered := 0, rate := Taken(p.rate))
  }

  function Max(a: int, b: int): (r: int) {
    if a >= b then a else b
  }

  function StatusStep<E>(p: Provider<E>): (r: (Provider<E>, Health)) {
    (p.(drops := Taken(p.drops), rate := Taken(p.rate)),
     Health(p.startedAt.Some?, p.startedAt, p.collectedAt, p.delivered,
            p.drops.total - p.rate.total, Max(0, p.drops.recent - p.rate.recent), p.rate.total))
  }

  class BoundedProvider<E> {
    const ring: BoundedRing<E>
    const drops: DropCounter
    const rateDrops: DropCounter
    const limiter: RateLimiter?
    var delivered: nat
    var startedAt: Option<real>
    var collectedAt: Option<real>

    ghost const Parts: set<object> := {ring, drops, rateDrops} + if limiter == null then {} else {limiter}

    ghost predicate Valid()
      reads this, ring
    {
      && drops != rateDrops
      && this !in Parts
      && |ring.events| <= ring.capacity
    }

    ghost function View(): (p: Provider<E>)
      reads this, Parts
    {
      Provider(RingState(ring.capacity, ring.events, ring.dropped), drops.c, rateDrops.c,
               if limiter == null then None else Some(limiter.b), delivered, startedAt, collectedAt)
    }

    constructor (ring: BoundedRing<E>, limiter: RateLimiter?)
      requires |ring.events| <= ring.capacity
      ensures Valid() && this.ring == ring && this.limiter == limiter && fresh(drops) && fresh(rateDrops)
      ensures View() == Provider(RingState(ring.capacity, ring.events, ring.dropped), Counter(0, 0), Counter(0, 0),
                                 if limiter == null then None else Some(limiter.b), 0, None, None)
    {
      this.ring, this.limiter := ring, limiter;
      drops := new DropCounter();
      rateDrops := new DropCounter();
      delivered, startedAt, collectedAt := 0, None, None;
    }

    /** A fresh start; the pending count of `drops` is not reset. */
    method MarkStarted(now: real)
      requires Valid()
      modifies this, rateDrops
      ensures Valid() && View() == StartStep(old(View()), now)
    {
      startedAt, collectedAt, delivered := Some(now), None, 0;
      var _ := rateDrops.TakeRecent();
    }

    method MarkStopped()
      requires Valid()
      modifies this
      ensures Valid() && View() == old(View()).(startedAt := None)
    {
      startedAt := None;
    }

    method Deliver(now: real, raw: seq<E>) returns (out: seq<E>)
      requires Valid() && Ready(View(), now)
      modifies this, Parts
      ensures Valid()
      ensures View() == DeliverStep(old(View()), now, raw).0
      ensures out == DeliverStep(old(View()), now, raw).1
    {
      var refused := ring.PushMany(raw);
      drops.Record(refused);
      out := ring.Drain();
      if limiter != null {
        LimitInRange(Some(limiter.b), now, |out|);
        var allowed := limiter.Allow(now, |out|);
        if allowed < |out| {
          rateDrops.Record(|out| - allowed);
          drops.Record(|out| - allowed);
          out := out[..allowed];
        }
      }
      delivered := delivered + |out|;
      collectedAt := Some(now);
    }

    method Status() returns (h: Health)
      requires Valid()
      modifies drops, rateDrops
      ensures Valid()
      ensures View() == StatusStep(old(View())).0 && h == StatusStep(old(View())).1
    {
      var recent := drops.TakeRecent();
      var rateRecent := rateDrops.TakeRecent();
      h := Health(startedAt.Some?, startedAt, collectedAt, delivered, drops.c.total - rateDrops.c.total,
                  Max(0, recent - rateRecent), rateDrops.c.total);
    }
  }

  /* -------------------------------------------------------------------- whole runs */

  datatype Op<E> = Deliver(now: real, raw: seq<E>) | Status | Start(now: real) | Stop

  /**
   * A run keeps books beside the provider: what was offered, what was handed on, the
   * recent drops that status calls reported, the limiter's pending drops that restarts
   * forgot, how much was offered, handed on and dropped, by the ring and by the limiter,
   * before the last start, and how much each of the two has dropped since.
   */
  datatype Books<E> = Books(
    p: Provider<E>, offered: nat, out: seq<E>, reported: int, forgotten: nat,
    offeredBefore: nat, outBefore: nat, dropsBefore: nat,
    ringBefore: nat, rateBefore: nat, ringSince: int, rateSince: int)

  ghost predicate CanDo<E>(b: Books<E>, op: Op<E>) {
    op.Deliver? ==> Ready(b.p, op.now)
  }

  function Do<E>(b: Books<E>, op: Op<E>): (r: Books<E>)
    requires CanDo(b, op)
  {
    match op
    case Deliver(now, raw) =>
      var (p, out) := DeliverStep(b.p, now, raw);
      var kept := Kept(raw, b.p.ring.capacity);
      b.(p := p, offered := b.offered + |raw|, out := b.out + out,
         ringSince := b.ringSince + |raw| - |kept|, rateSince := b.rateSince + |kept| - |out|)
    case Status =>
      var (p, h) := StatusStep(b.p);
      b.(p := p, reported := b.reported + h.dropsRecent)
    case Start(now) =>
      b.(p := StartStep(b.p, now), forgotten := b.forgotten + b.p.rate.recent,
         offeredBefore := b.offered, outBefore := |b.out|, dropsBefore := b.p.drops.total,
         ringBefore := b.p.ring.dropped, rateBefore := b.p.rate.total, ringSince := 0, rateSince := 0)
    case Stop => b.(p := b.p.(startedAt := None))
  }

  /** A provider as built, with nothing seen yet. */
  function Opened<E>(capacity: nat, limiter: Option<Bucket>): (b: Books<E>) {
    Books(Provider(RingState(capacity, [], 0), Counter(0, 0), Counter(0, 0), limiter, 0, None, None),
          0, [], 0, 0, 0, 0, 0, 0, 0, 0, 0)
  }

  /** The clock of the deliveries never runs backwards. */
  ghost predicate Timely<E>(capacity: nat, limiter: Option<Bucket>, ops: seq<Op<E>>)
    decreases |ops|, 0
  {
    ops == [] ||
    (Timely(capacity, limiter, ops[..|ops| - 1]) &&
     CanDo(Run(capacity, limiter, ops[..|ops| - 1]), ops[|ops| - 1]))
  }

  ghost function Run<E>(capacity: nat, limiter: Option<Bucket>, ops: seq<Op<E>>): (b: Books<E>)
    requires Timely(capacity, limiter, ops)
    decreases |ops|, 1
  {
    if ops == [] then Opened(capacity, limiter)
    else Do(Run(capacity, limiter, ops[..|ops| - 1]), ops[|ops| - 1])
  }

  /** How the books add up between calls. */
  ghost predicate Balanced<E>(b: Books<E>) {
    var p := b.p;
    && p.ring.events == []
    && |b.out| + p.drops.total == b.offered
    && p.drops.total == p.ring.dropped + p.rate.total
    && p.rate.recent <= p.drops.recent
    && b.reported + p.drops.recent - p.rate.recent == p.ring.dropped + b.forgotten
    && b.outBefore + p.delivered == |b.out|
    && b.outBefore + b.dropsBefore == b.offeredBefore
    && b.dropsBefore == b.ringBefore + b.rateBefore
    && b.ringBefore + b.ringSince == p.ring.dropped && b.rateBefore + b.rateSince == p.rate.total
  }

  lemma DoBalances<E>(b: Books<E>, op: Op<E>)
    requires Balanced(b) && CanDo(b, op)
    ensures Balanced(Do(b, op))
  {
    if op.Deliver? {
      var kept := Kept(op.raw, b.p.ring.capacity);
      assert b.p.ring.events + op.raw == op.raw;
      LimitInRange(b.p.limiter, op.now, |kept|);
    }
  }

  lemma {:induction false} BooksBalance<E>(capacity: nat, limiter: Option<Bucket>, ops: seq<Op<E>>)
    requires Timely(capacity, limiter, ops)
    ensures Balanced(Run(capacity, limiter, ops))
  {
    if ops != [] {
      BooksBalance(capacity, limiter, ops[..|ops| - 1]);
      DoBalances(Run(capacity, limiter, ops[..|ops| - 1]), ops[|ops| - 1]);
    }
  }

  /** Every event offered was handed on or counted as a drop, overall and since the last start. */
  lemma {:induction false} NothingIsLostSilently<E>(capacity: nat, limiter: Option<Bucket>, ops: seq<Op<E>>)
    requires Timely(capacity, limiter, ops)
    ensures var b := Run(capacity, limiter, ops);
      && b.p.ring.events == []
      && b.offered == |b.out| + b.p.drops.total
      && b.offered - b.offeredBefore == b.p.delivered + (b.p.drops.total - b.dropsBefore)
  {
    BooksBalance(capacity, limiter, ops);
  }

  /** `status` splits the drops exactly, and its `max(0, ...)` never cuts anything off. */
  lemma StatusSplitsDrops<E>(capacity: nat, limiter: Option<Bucket>, ops: seq<Op<E>>)
    requires Timely(capacity, limiter, ops)
    ensures var b := Run(capacity, limiter, ops); var h := StatusStep(b.p).1;
      && h.dropsTotal == b.p.ring.dropped
      && h.dropsRecent == b.p.drops.recent - b.p.rate.recent
      && h.dropsTotal + h.rateLimited + |b.out| == b.offered
  {
    BooksBalance(capacity, limiter, ops);
  }

  /**
   * The recent drops reported by all status calls, with those the next call would report,
   * are the ring's drops exactly when no restart forgot a pending rate drop; each one
   * forgotten is reported as a ring drop.
   */
  lemma RecentDropsAddUp<E>(capacity: nat, limiter: Option<Bucket>, ops: seq<Op<E>>)
    requires Timely(capacity, limiter, ops)
    ensures var b := Run(capacity, limiter, ops); var h := StatusStep(b.p).1;
      && b.reported + h.dropsRecent == h.dropsTotal + b.forgotten
      && (b.reported + h.dropsRecent == h.dropsTotal <==> b.forgotten == 0)
  {
    BooksBalance(capacity, limiter, ops);
  }

  /** At most the first operation is a start: every run of a provider that is not restarted. */
  ghost predicate StartedOnce<E>(ops: seq<Op<E>>) {
    forall k :: 0 < k < |ops| ==> !ops[k].Start?
  }

  /** Without a restart the counters alone account for everything ever offered. */
  lemma {:induction false} WithoutRestart<E>(capacity: nat, limiter: Option<Bucket>, ops: seq<Op<E>>)
    requires Timely(capacity, limiter, ops) && StartedOnce(ops)
    ensures var b := Run(capacity, limiter, ops); var h := StatusStep(b.p).1;
      && b.forgotten == 0 && b.offeredBefore == b.dropsBefore == 0
      && b.offered == h.delivered + b.p.drops.total
      && b.reported + h.dropsRecent == h.dropsTotal
  {
    BooksBalance(capacity, limiter, ops);
    if ops != [] {
      assert StartedOnce(ops[..|ops| - 1]);
      WithoutRestart(capacity, limiter, ops[..|ops| - 1]);
    }
  }

  /**
   * Of the counters in a status only the deliveries are since the last start. The two drop
   * totals are exactly when nothing of their kind had been dropped before it.
   */
  lemma CountersSinceStartIff<E>(capacity: nat, limiter: Option<Bucket>, ops: seq<Op<E>>)
    requires Timely(capacity, limiter, ops)
    ensures var b := Run(capacity, limiter, ops); var h := StatusStep(b.p).1;
      && b.offered - b.offeredBefore == h.delivered + b.ringSince + b.rateSince
      && (h.dropsTotal == b.ringSince <==> b.ringBefore == 0)
      && (h.rateLimited == b.rateSince <==> b.rateBefore == 0)
  {
    BooksBalance(capacity, limiter, ops);
  }

  lemma RunOne<E>(capacity: nat, limiter: Option<Bucket>, init: seq<Op<E>>, op: Op<E>, ops: seq<Op<E>>)
    requires ops == init + [op]
    requires Timely(capacity, limiter, init) && CanDo(Run(capacity, limiter, init), op)
    ensures Timely(capacity, limiter, ops)
    ensures Run(capacity, limiter, ops) == Do(Run(capacity, limiter, init), op)
  {
    assert ops[..|ops| - 1] == init;
  }

  lemma RunThree<E>(capacity: nat, limiter: Option<Bucket>, a: Op<E>, b: Op<E>, c: Op<E>)
    requires var b0 := Opened(capacity, limiter);
      CanDo(b0, a) && CanDo(Do(b0, a), b) && CanDo(Do(Do(b0, a), b), c)
    ensures Timely(capacity, limiter, [a, b, c])
    ensures Run(capacity, limiter, [a, b, c]) == Do(Do(Do(Opened(capacity, limiter), a), b), c)
  {
    RunOne(capacity, limiter, [], a, [a]);
    RunOne(capacity, limiter, [a], b, [a, b]);
    RunOne(capacity, limiter, [a, b], c, [a, b, c]);
  }

  /** A limiter that lets one of two events through at time `now`. */
  ghost predicate OneToken(limiter: Bucket, now: real) {
    Sound(limiter) && limiter.last <= now && AllowStep(limiter, now, 2).1 == 1
  }

  /** Three events reach a ring for two and that limiter, all at once. */
  lemma OneOfEach<E>(b: Books<E>, limiter: Bucket, now: real, raw: seq<E>)
    requires b.p.limiter == Some(limiter) && OneToken(limiter, now) && |raw| == 3
    requires b.p.ring == RingState(2, [], 0) && b.p.drops == b.p.rate == Counter(0, 0)
    ensures var b1 := Do(b, Deliver(now, raw));
      b1.p.ring.dropped == 1 && b1.p.rate == Counter(1, 1) && b1.p.drops == Counter(2, 2)
  {
    assert [] + raw == raw;
    assert Kept(raw, 2) == raw[..2];
  }

  /**
   * A restart after one drop of each kind: the totals still show them, and the next status
   * reports the pending rate drop as a second drop of the ring.
   */
  lemma RestartMisreports<E>(limiter: Bucket, start: real, now: real, raw: seq<E>, restart: real)
    requires OneToken(limiter, now) && |raw| == 3
    ensures var ops := [Start(start), Deliver(now, raw), Start(restart)];
      && Timely(2, Some(limiter), ops)
      && var b := Run(2, Some(limiter), ops); var h := StatusStep(b.p).1;
         && b.ringSince == b.rateSince == 0 && h.dropsTotal == h.rateLimited == 1
         && b.p.ring.dropped == 1 && h.dropsRecent == 2
  {
    OneOfEach(Do(Opened<E>(2, Some(limiter)), Start(start)), limiter, now, raw);
    RunThree(2, Some(limiter), Start(start), Deliver(now, raw), Start(restart));
  }

  /** One delivery hands on a prefix of what it is given: as much as fits and as may pass. */
  lemma DeliversPrefix<E>(capacity: nat, limiter: Option<Bucket>, ops: seq<Op<E>>, now: real,
        raw: seq<E>)
    requires Timely(capacity, limiter, ops) && Ready(Run(capacity, limiter, ops).p, now)
    ensures var p := Run(capacity, limiter, ops).p; var out := DeliverStep(p, now, raw).1;
      && out <= raw
      && |out| <= p.ring.capacity
      && (p.limiter.None? ==> out == Kept(raw, p.ring.capacity))
      && (|out| < |raw| && |out| < p.ring.capacity ==> DeliverStep(p, now, raw).0.limiter.value.tokens < 1.0)
  {
    BooksBalance(capacity, limiter, ops);
    var p := Run(capacity, limiter, ops).p;
    assert p.ring.events + raw == raw;
    if p.limiter.Some? {
      StepPays(p.limiter.value, now, |Kept(raw, p.ring.capacity)|);
    }
  }

  /* ------------------------------------------------------- the configured delivery rate */

  /** The calls a run makes to its limiter: one for every delivery, with what the ring kept. */
  function CallsOf<E>(capacity: nat, ops: seq<Op<E>>): (calls: seq<Call>) {
    if ops == [] then []
    else
      var last := ops[|ops| - 1];
      CallsOf(capacity, ops[..|ops| - 1]) +
      if last.Deliver? then [Call(last.now, |Kept(last.raw, capacity)|)] else []
  }

  lemma {:induction false} CallsOfPrefix<E>(capacity: nat, ops: seq<Op<E>>, k: nat)
    requires k <= |ops|
    ensures CallsOf(capacity, ops[..k]) <= CallsOf(capacity, ops)
    decreases |ops|
  {
    if k < |ops| {
      CallsOfPrefix(capacity, ops[..|ops| - 1], k);
      assert ops[..|ops| - 1][..k] == ops[..k];
    } else {
      assert ops[..k] == ops;
    }
  }

  lemma {:induction false} TimelyPrefix<E>(capacity: nat, limiter: Option<Bucket>, ops: seq<Op<E>>, k: nat)
    requires Timely(capacity, limiter, ops) && k <= |ops|
    ensures Timely(capacity, limiter, ops[..k])
    decreases |ops|
  {
    if k < |ops| {
      TimelyPrefix(capacity, limiter, ops[..|ops| - 1], k);
      assert ops[..|ops| - 1][..k] == ops[..k];
    } else {
      assert ops[..k] == ops;
    }
  }

  lemma OrderedSnoc(from: real, calls: seq<Call>, c: Call)
    requires Ordered(from, calls) && LastAt(from, calls) <= c.at
    ensures Ordered(from, calls + [c])
  {
    forall k | 0 <= k < |calls + [c]| ensures InOrder(from, calls + [c], k) {
      assert k < |calls| ==> InOrder(from, calls, k);
    }
  }

  /** What one operation does to the limiter and to the output. */
  lemma DoCallsLimiter<E>(b: Books<E>, op: Op<E>)
    requires Balanced(b) && CanDo(b, op) && b.p.limiter.Some?
    ensures var b1 := Do(b, op);
      && b1.p.limiter.Some? && b1.p.ring.capacity == b.p.ring.capacity
      && (op.Deliver? ==>
            var (l, g) := AllowStep(b.p.limiter.value, op.now, |Kept(op.raw, b.p.ring.capacity)|);
            l == b1.p.limiter.value && |b1.out| == |b.out| + g)
      && (!op.Deliver? ==> b1.p.limiter == b.p.limiter && b1.out == b.out)
  {
    if op.Deliver? {
      assert b.p.ring.events + op.raw == op.raw;
      LimitInRange(b.p.limiter, op.now, |Kept(op.raw, b.p.ring.capacity)|);
    }
  }

  /** A run's limiter is the token bucket after the run's calls, and the run's output what they granted. */
  lemma {:induction false} LimiterFollowsCalls<E>(l: Limiter<Bucket>, capacity: nat, b0: Bucket, ops: seq<Op<E>>)
    requires l == Allowing(b0.capacity, b0.rate) && Sound(b0) && Timely(capacity, Some(b0), ops)
    ensures var b := Run(capacity, Some(b0), ops); var calls := CallsOf(capacity, ops);
      && b.p.ring.capacity == capacity
      && Ordered(b0.last, calls) && b.p.limiter.Some?
      && RunCalls(l, b0, calls) == (b.p.limiter.value, |b.out|)
      && b.p.limiter.value.last == LastAt(b0.last, calls)
  {
    if ops != [] {
      var init, last := ops[..|ops| - 1], ops[|ops| - 1];
      LimiterFollowsCalls(l, capacity, b0, init);
      BooksBalance(capacity, Some(b0), init);
      DoCallsLimiter(Run(capacity, Some(b0), init), last);
      if last.Deliver? {
        var c := Call(last.now, |Kept(last.raw, capacity)|);
        OrderedSnoc(b0.last, CallsOf(capacity, init), c);
        CallSnoc(l, b0, CallsOf(capacity, init), c);
      } else {
        assert CallsOf(capacity, ops) == CallsOf(capacity, init);
      }
    }
  }

  lemma CallSnoc(l: Limiter<Bucket>, b0: Bucket, calls: seq<Call>, c: Call)
    ensures var (b1, total) := RunCalls(l, b0, calls); var (b2, g) := l.step(b1, c);
      RunCalls(l, b0, calls + [c]) == (b2, total + g)
  {
    assert (calls + [c])[..|calls|] == calls;
  }

  /** How much the first `k` operations of a run handed on. */
  ghost function HandedOn<E>(capacity: nat, limiter: Option<Bucket>, ops: seq<Op<E>>, k: nat): (n: nat)
    requires Timely(capacity, limiter, ops) && k <= |ops|
  {
    TimelyPrefix(capacity, limiter, ops, k);
    |Run(capacity, limiter, ops[..k]).out|
  }

  /** The call that operation `i` makes stands right after those of the operations before it. */
  lemma CallAt<E>(capacity: nat, ops: seq<Op<E>>, i: nat)
    requires i < |ops| && ops[i].Deliver?
    ensures var k := |CallsOf(capacity, ops[..i])|;
      && |CallsOf(capacity, ops[..i + 1])| == k + 1 <= |CallsOf(capacity, ops)|
      && CallsOf(capacity, ops)[k].at == ops[i].now
  {
    assert ops[..i + 1][..i] == ops[..i];
    CallsOfPrefix(capacity, ops, i + 1);
  }

  lemma HandedOnIsGranted<E>(l: Limiter<Bucket>, capacity: nat, b0: Bucket, ops: seq<Op<E>>, k: nat)
    requires l == Allowing(b0.capacity, b0.rate) && Sound(b0) && Timely(capacity, Some(b0), ops) && k <= |ops|
    ensures var n := |CallsOf(capacity, ops[..k])|;
      && n <= |CallsOf(capacity, ops)|
      && HandedOn(capacity, Some(b0), ops, k) == RunCalls(l, b0, CallsOf(capacity, ops)[..n]).1
  {
    TimelyPrefix(capacity, Some(b0), ops, k);
    LimiterFollowsCalls(l, capacity, b0, ops[..k]);
    CallsOfPrefix(capacity, ops, k);
    var calls := CallsOf(capacity, ops[..k]);
    assert CallsOf(capacity, ops)[..|calls|] == calls;
  }

  lemma CallsGrow<E>(capacity: nat, ops: seq<Op<E>>, i: nat, j: nat)
    requires i <= j <= |ops|
    ensures |CallsOf(capacity, ops[..i])| <= |CallsOf(capacity, ops[..j])|
  {
    assert ops[..j][..i] == ops[..i];
    CallsOfPrefix(capacity, ops[..j], i);
  }

  /**
   * The configured rate holds over every stretch of every run: from one delivery to a
   * later one, no more is handed on than the burst plus the rate times the time between.
   */
  lemma DeliveredBetween<E>(capacity: nat, b0: Bucket, ops: seq<Op<E>>, i: nat, j: nat)
    requires Sound(b0) && Timely(capacity, Some(b0), ops)
    requires i <= j < |ops| && ops[i].Deliver? && ops[j].Deliver?
    ensures WithinRate(HandedOn(capacity, Some(b0), ops, j + 1) - HandedOn(capacity, Some(b0), ops, i),
                       b0, ops[i].now, ops[j].now)
  {
    var l := Allowing(b0.capacity, b0.rate);
    AllowedStretch(l, capacity, b0, ops, i, j);
    RateBound(HandedOn(capacity, Some(b0), ops, j + 1) - HandedOn(capacity, Some(b0), ops, i),
                 l, b0, ops[i].now, ops[j].now);
  }

  lemma RateBound(n: int, l: Limiter<Bucket>, b: Bucket, x: real, y: real)
    requires l == Allowing(b.capacity, b.rate) && Sound(b)
    requires n as real <= l.capacity + l.inflow(x, y)
    ensures WithinRate(n, b, x, y)
  {
    AllowingIs(b, x, y);
  }

  lemma AllowedStretch<E>(l: Limiter<Bucket>, capacity: nat, b0: Bucket, ops: seq<Op<E>>, i: nat, j: nat)
    requires l == Allowing(b0.capacity, b0.rate) && Sound(b0) && Timely(capacity, Some(b0), ops)
    requires i <= j < |ops| && ops[i].Deliver? && ops[j].Deliver?
    ensures (HandedOn(capacity, Some(b0), ops, j + 1) - HandedOn(capacity, Some(b0), ops, i)) as real
            <= l.capacity + l.inflow(ops[i].now, ops[j].now)
  {
    StretchGranted(l, capacity, b0, ops, i, j);
    AllowingPays(b0.capacity, b0.rate);
    LimiterFollowsCalls(l, capacity, b0, ops);
    StretchBound(l, capacity, b0, ops, i, j);
  }

  /** What the operations `i` to `j` of a run have their limiter grant. */
  function GrantedTo<E>(l: Limiter<Bucket>, capacity: nat, b0: Bucket, ops: seq<Op<E>>, i: nat, j: nat): (n: int)
    requires i <= j < |ops| && ops[i].Deliver? && ops[j].Deliver?
  {
    CallAt(capacity, ops, i);
    CallAt(capacity, ops, j);
    CallsGrow(capacity, ops, i, j);
    GrantedFrom(l, b0, CallsOf(capacity, ops), |CallsOf(capacity, ops[..i])|, |CallsOf(capacity, ops[..j])|)
  }

  lemma StretchGranted<E>(l: Limiter<Bucket>, capacity: nat, b0: Bucket, ops: seq<Op<E>>, i: nat, j: nat)
    requires l == Allowing(b0.capacity, b0.rate) && Sound(b0) && Timely(capacity, Some(b0), ops)
    requires i <= j < |ops| && ops[i].Deliver? && ops[j].Deliver?
    ensures HandedOn(capacity, Some(b0), ops, j + 1) - HandedOn(capacity, Some(b0), ops, i)
            == GrantedTo(l, capacity, b0, ops, i, j)
  {
    CallAt(capacity, ops, j);
    HandedOnIsGranted(l, capacity, b0, ops, i);
    HandedOnIsGranted(l, capacity, b0, ops, j + 1);
  }

  /** The general limiter bound, for the calls of a run's operations `i` to `j`. */
  lemma StretchBound<E>(l: Limiter<Bucket>, capacity: nat, b0: Bucket, ops: seq<Op<E>>, i: nat, j: nat)
    requires Pays(l) && l.sound(b0) && Ordered(l.clock(b0), CallsOf(capacity, ops))
    requires i <= j < |ops| && ops[i].Deliver? && ops[j].Deliver?
    ensures GrantedTo(l, capacity, b0, ops, i, j) as real <= l.capacity + l.inflow(ops[i].now, ops[j].now)
  {
    CallAt(capacity, ops, i);
    CallAt(capacity, ops, j);
    CallsGrow(capacity, ops, i, j);
    LimiterBound(l, b0, CallsOf(capacity, ops), |CallsOf(capacity, ops[..i])|, |CallsOf(capacity, ops[..j])|);
  }
}
