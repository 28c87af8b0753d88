/**
 * The two token buckets: the telemetry rate limiter and the per-client API limiter.
 *
 * Times, tokens and rates are reals; the monotonic clock is an argument.
 */
module TokenBucket {
  import opened Wrappers
  import opened Sequences

  datatype Bucket = Bucket(capacity: real, rate: real, tokens: real, last: real)

  function Min(a: real, b: real): (r: real) {
    if a <= b then a else b
  }

  function Refill(b: Bucket, now: real): (r: Bucket) {
    b.(tokens := Min(b.capacity, b.tokens + (now - b.last) * b.rate), last := now)
  }

  /** Python's `int(x)`: towards zero. */
  function Trunc(x: real): (n: int) {
    if x >= 0.0 then x.Floor else -((-x).Floor)
  }

  /** `min(n, int(tokens))`: how many of `n` pass. */
  function Grant(n: nat, tokens: real): (r: int) {
    if n <= Trunc(tokens) then n else Trunc(tokens)
  }

  ghost predicate Sound(b: Bucket) {
    0.0 <= b.tokens <= b.capacity && b.rate >= 0.0
  }

  lemma RefillSound(b: Bucket, now: real)
    requires Sound(b) && now >= b.last
    ensures Sound(Refill(b, now)) && Refill(b, now).tokens <= b.tokens + (now - b.last) * b.rate
  {
    assert (now - b.last) * b.rate >= 0.0;
  }

  /** `RateLimiter.allow`: the bucket afterwards and the number granted. */
  function AllowStep(b: Bucket, now: real, n: nat): (r: (Bucket, int)) {
    var f := Refill(b, now);
    var granted := Grant(n, f.tokens);
    (f.(tokens := f.tokens - granted as real), granted)
  }

  datatype Verdict = Admitted | Retry(wait: real) | DivisionByZero

  /** `_TokenBucket.consume`: a refusal computes when one token will be there. */
  function ConsumeStep(b: Bucket, now: real): (r: (Bucket, Verdict)) {
    var f := Refill(b, now);
    if f.tokens >= 1.0 then (f.(tokens := f.tokens - 1.0), Admitted)
    else if f.rate == 0.0 then (f, DivisionByZero)
    else (f, Retry((1.0 - f.tokens) / f.rate))
  }

  class RateLimiter {
    var b: Bucket

    /** `burst` defaults to the whole part of the rate, at least 1. */
    constructor (perSecond: real, burst: Option<nat>, now: real)
      requires perSecond > 0.0
      ensures Sound(b) && b.rate == perSecond && b.tokens == b.capacity && b.last == now
      ensures b.capacity == match burst
        case Some(k) => k as real
        case None => if perSecond.Floor <= 1 then 1.0 else perSecond.Floor as real
    {
      var capacity := match burst
        case Some(k) => k as real
        case None => if perSecond.Floor <= 1 then 1.0 else perSecond.Floor as real;
      b := Bucket(capacity, perSecond, capacity, now);
    }

    method Allow(now: real, n: nat) returns (granted: int)
      modifies this
      ensures b == AllowStep(old(b), now, n).0 && granted == AllowStep(old(b), now, n).1
    {
      b := b.(tokens := Min(b.capacity, b.tokens + (now - b.last) * b.rate), last := now);
      granted := if n <= Trunc(b.tokens) then n else Trunc(b.tokens);
      b := b.(tokens := b.tokens - granted as real);
    }
  }

  /** `None` stands for the ValueError of a rate that is not positive. */
  method OpenLimiter(perSecond: real, burst: Option<nat>, now: real) returns (limiter: Option<RateLimiter>)
    ensures limiter.None? <==> perSecond <= 0.0
    ensures limiter.Some? ==>
      && fresh(limiter.value) && Sound(limiter.value.b)
      && limiter.value.b.rate == perSecond && limiter.value.b.tokens == limiter.value.b.capacity
  {
    if perSecond <= 0.0 {
      return None;
    }
    var made := new RateLimiter(perSecond, burst, now);
    limiter := Some(made);
  }

  class ClientBucket {
    var b: Bucket

    constructor (capacity: real, rate: real, now: real)
      ensures b == Bucket(capacity, rate, capacity, now)
    {
      b := Bucket(capacity, rate, capacity, now);
    }

    method Replenish(now: real)
      modifies this
      ensures b == Refill(old(b), now)
    {
      b := b.(tokens := Min(b.capacity, b.tokens + (now - b.last) * b.rate), last := now);
    }

    method Consume(now: real) returns (v: Verdict)
      modifies this
      ensures b == ConsumeStep(old(b), now).0 && v == ConsumeStep(old(b), now).1
    {
      Replenish(now);
      if b.tokens >= 1.0 {
        b := b.(tokens := b.tokens - 1.0);
        return Admitted;
      }
      if b.rate == 0.0 {
        return DivisionByZero;
      }
      v := Retry((1.0 - b.tokens) / b.rate);
    }
  }

  /* --------------------------------------------------------------- the token bound */

  /** `consume` is `allow(1)` on the same bucket. */
  lemma ConsumeIsAllowOne(b: Bucket, now: real)
    requires Sound(b) && now >= b.last
    ensures AllowStep(b, now, 1).0 == ConsumeStep(b, now).0
    ensures AllowStep(b, now, 1).1 == if ConsumeStep(b, now).1.Admitted? then 1 else 0
  {
    RefillSound(b, now);
  }

  datatype Call = Call(at: real, n: nat)

  /**
   * Any limiter with a level, a clock and an inflow that adds up over time. The bound is
   * proved for every such limiter and then read off for the buckets.
   */
  datatype Limiter<!S> = Limiter(
    step: (S, Call) -> (S, int), level: S -> real, clock: S -> real, inflow: (real, real) -> real,
    capacity: real, sound: S -> bool)

  /** A call pays for what it grants with the level it found and what flowed in since. */
  ghost predicate PaysFrom<S>(l: Limiter<S>, s: S, c: Call) {
    var (s1, g) := l.step(s, c);
    && g >= 0 && l.level(s1) >= 0.0 && l.sound(s1) && l.clock(s1) == c.at
    && g as real + l.level(s1) <= l.level(s) + l.inflow(l.clock(s), c.at)
    && g as real + l.level(s1) <= l.capacity
  }

  predicate AddsUp<S>(l: Limiter<S>, x: real, y: real, z: real) {
    l.inflow(x, y) + l.inflow(y, z) == l.inflow(x, z)
  }

  ghost predicate Pays<S(!new)>(l: Limiter<S>) {
    && (forall s, c: Call {:trigger l.step(s, c)} :: l.sound(s) && l.clock(s) <= c.at ==> PaysFrom(l, s, c))
    && (forall x, y, z {:trigger AddsUp(l, x, y, z)} :: AddsUp(l, x, y, z))
  }

  function LastAt(from: real, calls: seq<Call>): (t: real) {
    if calls == [] then from else calls[|calls| - 1].at
  }

  predicate InOrder(from: real, calls: seq<Call>, k: nat)
    requires k < |calls|
  {
    (if k == 0 then from else calls[k - 1].at) <= calls[k].at
  }

  /** Calls in clock order, none before `from`. */
  ghost predicate Ordered(from: real, calls: seq<Call>) {
    forall k {:trigger InOrder(from, calls, k)} :: 0 <= k < |calls| ==> InOrder(from, calls, k)
  }

  /** The state after all calls, and how much they were granted together. */
  function RunCalls<S>(l: Limiter<S>, s: S, calls: seq<Call>): (r: (S, int)) {
    if calls == [] then (s, 0)
    else
      var (s1, total) := RunCalls(l, s, calls[..|calls| - 1]);
      var (s2, g) := l.step(s1, calls[|calls| - 1]);
      (s2, total + g)
  }

  lemma OrderedPrefix(from: real, calls: seq<Call>, k: nat)
    requires Ordered(from, calls) && k <= |calls|
    ensures Ordered(from, calls[..k])
  {
    forall i | 0 <= i < k ensures InOrder(from, calls[..k], i) {
      assert InOrder(from, calls, i);
    }
  }

  lemma {:induction false} RunIsSound<S(!new)>(l: Limiter<S>, s: S, calls: seq<Call>)
    requires Pays(l) && l.sound(s) && Ordered(l.clock(s), calls)
    ensures l.sound(RunCalls(l, s, calls).0)
    ensures l.clock(RunCalls(l, s, calls).0) == LastAt(l.clock(s), calls)
  {
    if calls != [] {
      var init, last := calls[..|calls| - 1], calls[|calls| - 1];
      OrderedPrefix(l.clock(s), calls, |init|);
      RunIsSound(l, s, init);
      assert InOrder(l.clock(s), calls, |init|);
      assert PaysFrom(l, RunCalls(l, s, init).0, last);
    }
  }

  /** With what is left in the bucket, the grants since call `i` are within the bound. */
  lemma {:induction false} GrantedAndLeft<S(!new)>(l: Limiter<S>, s: S, calls: seq<Call>, i: nat)
    requires Pays(l) && l.sound(s) && Ordered(l.clock(s), calls) && i < |calls|
    ensures var (s2, total2) := RunCalls(l, s, calls);
      && l.level(s2) >= 0.0
      && total2 as real + l.level(s2)
         <= RunCalls(l, s, calls[..i]).1 as real + l.capacity + l.inflow(calls[i].at, calls[|calls| - 1].at)
    decreases |calls|
  {
    var init, last := calls[..|calls| - 1], calls[|calls| - 1];
    OrderedPrefix(l.clock(s), calls, |init|);
    RunIsSound(l, s, init);
    assert InOrder(l.clock(s), calls, |init|);
    assert PaysFrom(l, RunCalls(l, s, init).0, last);
    if i < |init| {
      GrantedAndLeft(l, s, init, i);
      assert init[..i] == calls[..i];
      assert AddsUp(l, calls[i].at, LastAt(l.clock(s), init), last.at);
    } else {
      assert AddsUp(l, last.at, last.at, last.at);
    }
  }

  /** What calls `i` to `j` of a run are granted together. */
  function GrantedFrom<S>(l: Limiter<S>, s: S, calls: seq<Call>, i: nat, j: nat): (r: int)
    requires i <= j < |calls|
  {
    RunCalls(l, s, calls[..j + 1]).1 - RunCalls(l, s, calls[..i]).1
  }

  lemma LimiterBound<S(!new)>(l: Limiter<S>, s: S, calls: seq<Call>, i: nat, j: nat)
    requires Pays(l) && l.sound(s) && Ordered(l.clock(s), calls) && i <= j < |calls|
    ensures GrantedFrom(l, s, calls, i, j) as real <= l.capacity + l.inflow(calls[i].at, calls[j].at)
  {
    OrderedPrefix(l.clock(s), calls, j + 1);
    GrantedAndLeft(l, s, calls[..j + 1], i);
    assert calls[..j + 1][..i] == calls[..i];
  }

  /** `RateLimiter.allow` on buckets of one capacity and rate. */
  function Allowing(capacity: real, rate: real): (l: Limiter<Bucket>) {
    Limiter((b: Bucket, c: Call) => AllowStep(b, c.at, c.n), (b: Bucket) => b.tokens, (b: Bucket) => b.last,
            (x: real, y: real) => (y - x) * rate, capacity,
            (b: Bucket) => b.capacity == capacity && b.rate == rate && 0.0 <= b.tokens <= capacity)
  }

  /** One call keeps the tokens in range, pays for its grant, and refuses only when out of tokens. */
  lemma StepPays(b: Bucket, now: real, n: nat)
    requires Sound(b) && now >= b.last
    ensures var (b1, g) := AllowStep(b, now, n);
      && Sound(b1) && b1.last == now && b1.rate == b.rate && b1.capacity == b.capacity && 0 <= g <= n
      && g as real + b1.tokens <= b.tokens + (now - b.last) * b.rate
      && g as real + b1.tokens <= b.capacity
      && (g == n || b1.tokens < 1.0)
  {
    RefillSound(b, now);
  }

  lemma Inflow(rate: real, x: real, y: real, z: real)
    ensures (y - x) * rate + (z - y) * rate == (z - x) * rate
  {
  }

  lemma AllowingPays(capacity: real, rate: real)
    requires rate >= 0.0
    ensures Pays(Allowing(capacity, rate))
  {
    var l := Allowing(capacity, rate);
    forall b: Bucket, c: Call | l.sound(b) && l.clock(b) <= c.at ensures PaysFrom(l, b, c) {
      StepPays(b, c.at, c.n);
    }
    forall x, y, z ensures AddsUp(l, x, y, z) {
      Inflow(rate, x, y, z);
    }
  }

  lemma AllowingBound(l: Limiter<Bucket>, b: Bucket, calls: seq<Call>, i: nat, j: nat)
    requires l == Allowing(b.capacity, b.rate) && Sound(b)
    requires Ordered(b.last, calls) && i <= j < |calls|
    ensures GrantedFrom(l, b, calls, i, j) as real <= l.capacity + l.inflow(calls[i].at, calls[j].at)
  {
    AllowingPays(b.capacity, b.rate);
    LimiterBound(l, b, calls, i, j);
  }

  /**
   * The token bound: in any run with a nondecreasing clock, the calls `i` to `j` are
   * granted at most the capacity plus what flows in between their two times.
   */
  lemma GrantedBetween(l: Limiter<Bucket>, b: Bucket, calls: seq<Call>, i: nat, j: nat)
    requires l == Allowing(b.capacity, b.rate) && Sound(b)
    requires Ordered(b.last, calls) && i <= j < |calls|
    ensures GrantedFrom(l, b, calls, i, j) as real <= b.capacity + (calls[j].at - calls[i].at) * b.rate
  {
    AllowingBound(l, b, calls, i, j);
    AllowingIs(b, calls[i].at, calls[j].at);
  }

  lemma AllowingIs(b: Bucket, x: real, y: real)
    requires Sound(b)
    ensures var l := Allowing(b.capacity, b.rate);
      l.sound(b) && l.clock(b) == b.last && l.capacity == b.capacity && l.inflow(x, y) == (y - x) * b.rate
  {
  }

  /** In any run the tokens stay between 0 and the capacity. */
  lemma TokensStayInRange(b: Bucket, calls: seq<Call>)
    requires Sound(b) && Ordered(b.last, calls)
    ensures 0.0 <= RunCalls(Allowing(b.capacity, b.rate), b, calls).0.tokens <= b.capacity
  {
    AllowingPays(b.capacity, b.rate);
    RunIsSound(Allowing(b.capacity, b.rate), b, calls);
  }

  /** The burst plus what the rate allows from time `x` to time `y`. */
  ghost predicate WithinRate(n: int, b: Bucket, x: real, y: real) {
    n as real <= b.capacity + (y - x) * b.rate
  }

  /** A client bucket after requests at these times, and how many it admitted. */
  function Admissions(b: Bucket, times: seq<real>): (r: (Bucket, int)) {
    if times == [] then (b, 0)
    else
      var (b1, n) := Admissions(b, times[..|times| - 1]);
      var (b2, verdict) := ConsumeStep(b1, times[|times| - 1]);
      (b2, n + if verdict.Admitted? then 1 else 0)
  }

  function Requests(times: seq<real>): (calls: seq<Call>) {
    seq(|times|, i requires 0 <= i < |times| => Call(times[i], 1))
  }

  lemma RequestsPrefix(times: seq<real>, k: nat)
    requires k <= |times|
    ensures Requests(times[..k]) == Requests(times)[..k]
  {
  }

  /** A run of a client bucket is a run of the limiter asked for one each time. */
  lemma {:induction false} AdmissionsAreGrants(l: Limiter<Bucket>, b: Bucket, times: seq<real>)
    requires l == Allowing(b.capacity, b.rate) && Sound(b) && Ordered(b.last, Requests(times))
    ensures RunCalls(l, b, Requests(times)) == Admissions(b, times)
  {
    if times != [] {
      var n := |times| - 1;
      RequestsPrefix(times, n);
      OrderedPrefix(b.last, Requests(times), n);
      AdmissionsAreGrants(l, b, times[..n]);
      StillSound(l, b, Requests(times[..n]));
      assert InOrder(b.last, Requests(times), n);
      ConsumeIsAllowOne(Admissions(b, times[..n]).0, times[n]);
    }
  }

  lemma StillSound(l: Limiter<Bucket>, b: Bucket, calls: seq<Call>)
    requires l == Allowing(b.capacity, b.rate) && Sound(b) && Ordered(b.last, calls)
    ensures Sound(RunCalls(l, b, calls).0) && RunCalls(l, b, calls).0.last == LastAt(b.last, calls)
  {
    AllowingPays(b.capacity, b.rate);
    RunIsSound(l, b, calls);
  }

  /** The same bound for the API: requests `i` to `j` of one client. */
  lemma AdmittedBetween(b: Bucket, times: seq<real>, i: nat, j: nat)
    requires Sound(b) && Ordered(b.last, Requests(times)) && i <= j < |times|
    ensures WithinRate(Admissions(b, times[..j + 1]).1 - Admissions(b, times[..i]).1, b, times[i], times[j])
  {
    var l := Allowing(b.capacity, b.rate);
    AdmittedIsGranted(l, b, times, i, j);
    BoundInRates(GrantedFrom(l, b, Requests(times), i, j), l, b, Requests(times), i, j);
  }

  lemma AdmittedIsGranted(l: Limiter<Bucket>, b: Bucket, times: seq<real>, i: nat, j: nat)
    requires l == Allowing(b.capacity, b.rate) && Sound(b)
    requires Ordered(b.last, Requests(times)) && i <= j < |times|
    ensures GrantedFrom(l, b, Requests(times), i, j)
            == Admissions(b, times[..j + 1]).1 - Admissions(b, times[..i]).1
  {
    RequestsPrefix(times, i);
    RequestsPrefix(times, j + 1);
    OrderedPrefix(b.last, Requests(times), i);
    OrderedPrefix(b.last, Requests(times), j + 1);
    AdmissionsAreGrants(l, b, times[..i]);
    AdmissionsAreGrants(l, b, times[..j + 1]);
  }

  lemma BoundInRates(n: int, l: Limiter<Bucket>, b: Bucket, calls: seq<Call>, i: nat, j: nat)
    requires l == Allowing(b.capacity, b.rate) && Sound(b) && Ordered(b.last, calls) && i <= j < |calls|
    requires n == GrantedFrom(l, b, calls, i, j)
    ensures WithinRate(n, b, calls[i].at, calls[j].at)
  {
    GrantedBetween(l, b, calls, i, j);
  }

  /* ------------------------------------------------------------------- Retry-After */

  /** Polls that are all refused, in clock order. */
  ghost predicate AllRefused(b: Bucket, polls: seq<real>)
    decreases |polls|
  {
    polls == [] ||
    (b.last <= polls[0] && Refill(b, polls[0]).tokens < 1.0 && AllRefused(Refill(b, polls[0]), polls[1..]))
  }

  /** The bucket after refused polls. */
  function AfterPolls(b: Bucket, polls: seq<real>): (r: Bucket)
    decreases |polls|
  {
    if polls == [] then b else AfterPolls(ConsumeStep(b, polls[0]).0, polls[1..])
  }

  lemma RefusalOnlyRefills(b: Bucket, t: real)
    requires Refill(b, t).tokens < 1.0
    ensures ConsumeStep(b, t).0 == Refill(b, t) && !ConsumeStep(b, t).1.Admitted?
  {
  }

  lemma MinOfMin(capacity: real, tokens: real, x: real, y: real)
    requires x >= 0.0 && y >= 0.0
    ensures Min(capacity, Min(capacity, tokens + x) + y) == Min(capacity, tokens + (x + y))
  {
  }

  lemma InflowSign(rate: real, d: real)
    requires rate >= 0.0 && d >= 0.0
    ensures d * rate >= 0.0
  {
  }

  /** Refilling in two stages is refilling once. */
  lemma RefillTwice(b: Bucket, t: real, u: real)
    requires b.rate >= 0.0 && b.last <= t <= u
    ensures Refill(Refill(b, t), u) == Refill(b, u)
  {
    Inflow(b.rate, b.last, t, u);
    InflowSign(b.rate, t - b.last);
    InflowSign(b.rate, u - t);
    MinOfMin(b.capacity, b.tokens, (t - b.last) * b.rate, (u - t) * b.rate);
  }

  /** However many refused polls come in between, the bucket fills as if there were none. */
  lemma {:induction false} RefusedPollsDoNotMatter(b: Bucket, polls: seq<real>, u: real)
    requires b.rate >= 0.0 && AllRefused(b, polls) && AfterPolls(b, polls).last <= u
    ensures Refill(AfterPolls(b, polls), u) == Refill(b, u) && b.last <= u
    decreases |polls|
  {
    if polls != [] {
      RefusalOnlyRefills(b, polls[0]);
      RefusedPollsDoNotMatter(Refill(b, polls[0]), polls[1..], u);
      RefillTwice(b, polls[0], u);
    }
  }

  lemma Distributes(x: real, y: real, rate: real)
    ensures (x - y) * rate == x * rate - y * rate
  {
  }

  lemma ScaledPositive(rate: real, x: real)
    requires rate > 0.0 && x > 0.0
    ensures x * rate > 0.0
  {
  }

  lemma ScaledOrder(rate: real, w: real, d: real)
    requires rate > 0.0
    ensures d * rate >= w * rate <==> d >= w
  {
    Distributes(d, w, rate);
    Distributes(w, d, rate);
    if d > w {
      ScaledPositive(rate, d - w);
    } else if w > d {
      ScaledPositive(rate, w - d);
    }
  }

  lemma DividedBack(x: real, rate: real)
    requires rate > 0.0
    ensures x / rate * rate == x
  {
  }

  lemma WaitIsExact(tokens: real, rate: real, d: real)
    requires rate > 0.0
    ensures tokens + d * rate >= 1.0 <==> d >= (1.0 - tokens) / rate
  {
    DividedBack(1.0 - tokens, rate);
    ScaledOrder(rate, (1.0 - tokens) / rate, d);
  }

  lemma FillsBy(b: Bucket, u: real)
    requires b.rate > 0.0
    ensures Refill(b, u).tokens >= 1.0 <==> u - b.last >= (1.0 - b.tokens) / b.rate && b.capacity >= 1.0
  {
    var d := u - b.last;
    WaitIsExact(b.tokens, b.rate, d);
    assert Refill(b, u).tokens == Min(b.capacity, b.tokens + d * b.rate);
  }

  /**
   * After a refusal with wait `w` - in the state `b` it leaves - and any further refused
   * polls, a request at time `u` is admitted exactly when at least `w` has passed since the
   * refusal, provided the bucket can hold a whole token at all: otherwise it never is.
   */
  lemma RetryAfterIsExact(b0: Bucket, b: Bucket, wait: real, polls: seq<real>, u: real)
    requires b0.rate > 0.0 && (b, Retry(wait)) == ConsumeStep(b0, b.last)
    requires AllRefused(b, polls) && AfterPolls(b, polls).last <= u
    ensures ConsumeStep(AfterPolls(b, polls), u).1.Admitted? <==> u - b.last >= wait && b.capacity >= 1.0
  {
    assert b.rate == b0.rate && b.tokens < 1.0 && wait == (1.0 - b.tokens) / b.rate;
    RefusedPollsDoNotMatter(b, polls, u);
    FillsBy(b, u);
  }

  /** The header value: the wait cut to whole seconds, plus one. */
  function RetryAfterHeader(wait: real): (seconds: int) {
    wait.Floor + 1
  }

  /** Waiting as long as the header says always suffices when nobody else consumes. */
  lemma {:induction false} HeaderSuffices(b0: Bucket, b: Bucket, wait: real, polls: seq<real>, u: real)
    requires b0.rate > 0.0 && b0.capacity >= 1.0 && (b, Retry(wait)) == ConsumeStep(b0, b.last)
    requires AllRefused(b, polls) && AfterPolls(b, polls).last <= u
    requires u - b.last >= RetryAfterHeader(wait) as real
    ensures ConsumeStep(AfterPolls(b, polls), u).1.Admitted?
    ensures 0.0 < wait < RetryAfterHeader(wait) as real <= wait + 1.0
  {
    RetryAfterIsExact(b0, b, wait, polls, u);
    WaitIsExact(b.tokens, b.rate, 0.0);
  }

  /* ------------------------------------------------------------- one bucket a client */

  datatype Request = Request(api: bool, ip: string, at: real)

  datatype Response = Passed | TooMany(retryAfter: int) | ServerError

  function NewBucket(rpm: nat, now: real): (b: Bucket) {
    Bucket(rpm as real, rpm as real / 60.0, rpm as real, now)
  }

  function ResponseFor(v: Verdict): (r: Response) {
    match v
    case Admitted => Passed
    case Retry(wait) => TooMany(RetryAfterHeader(wait))
    case DivisionByZero => ServerError
  }

  /** What one request does to the bucket of its client; only API requests are limited. */
  function Serve(rpm: nat, b: Option<Bucket>, r: Request): (x: (Option<Bucket>, Response)) {
    if !r.api then (b, Passed)
    else
      var (b1, v) := ConsumeStep(if b.Some? then b.value else NewBucket(rpm, r.at), r.at);
      (Some(b1), ResponseFor(v))
  }

  /** How a server handles one request given what it remembers of the client. */
  type Server = (Option<Bucket>, Request) -> (Option<Bucket>, Response)

  function Middleware(rpm: nat): (serve: Server) {
    (b: Option<Bucket>, r: Request) => Serve(rpm, b, r)
  }

  function Recall(buckets: map<string, Bucket>, ip: string): (b: Option<Bucket>) {
    if ip in buckets then Some(buckets[ip]) else None
  }

  function DispatchStep(serve: Server, buckets: map<string, Bucket>, r: Request): (x: (map<string, Bucket>, Response)) {
    var (b, response) := serve(Recall(buckets, r.ip), r);
    (if b.Some? then buckets[r.ip := b.value] else buckets, response)
  }

  class RateLimitMiddleware {
    const rpm: nat
    var buckets: map<string, Bucket>

    constructor (rpm: nat)
      ensures this.rpm == rpm && buckets == map[]
    {
      this.rpm := rpm;
      buckets := map[];
    }

    method Dispatch(r: Request) returns (response: Response)
      modifies this
      ensures (buckets, response) == DispatchStep(Middleware(rpm), old(buckets), r)
    {
      if !r.api {
        assert r.ip in buckets ==> buckets == buckets[r.ip := buckets[r.ip]];
        return Passed;
      }
      var bucket := if r.ip in buckets then buckets[r.ip] else NewBucket(rpm, r.at);
      var (b, v) := ConsumeStep(bucket, r.at);
      buckets := buckets[r.ip := b];
      response := ResponseFor(v);
    }
  }

  function Buckets(serve: Server, rs: seq<Request>): (m: map<string, Bucket>) {
    if rs == [] then map[] else DispatchStep(serve, Buckets(serve, rs[..|rs| - 1]), rs[|rs| - 1]).0
  }

  /** The responses a client sees. */
  function ResponsesTo(serve: Server, rs: seq<Request>, ip: string): (x: seq<Response>) {
    if rs == [] then []
    else
      var init, last := rs[..|rs| - 1], rs[|rs| - 1];
      ResponsesTo(serve, init, ip)
      + if last.ip == ip then [DispatchStep(serve, Buckets(serve, init), last).1] else []
  }

  function From(ip: string): (p: Request -> bool)
    ensures forall r :: p(r) <==> r.ip == ip
  {
    (r: Request) => r.ip == ip
  }

  lemma ServedAlike(serve: Server, a: map<string, Bucket>, b: map<string, Bucket>, r: Request)
    requires Recall(a, r.ip) == Recall(b, r.ip)
    ensures DispatchStep(serve, a, r).1 == DispatchStep(serve, b, r).1
    ensures Recall(DispatchStep(serve, a, r).0, r.ip) == Recall(DispatchStep(serve, b, r).0, r.ip)
  {
  }

  lemma OthersUntouched(serve: Server, a: map<string, Bucket>, r: Request, ip: string)
    requires r.ip != ip
    ensures Recall(DispatchStep(serve, a, r).0, ip) == Recall(a, ip)
  {
  }

  lemma HistorySnoc(serve: Server, init: seq<Request>, last: Request, ip: string)
    ensures Buckets(serve, init + [last]) == DispatchStep(serve, Buckets(serve, init), last).0
    ensures ResponsesTo(serve, init + [last], ip) == ResponsesTo(serve, init, ip)
      + if last.ip == ip then [DispatchStep(serve, Buckets(serve, init), last).1] else []
  {
    assert (init + [last])[..|init|] == init;
  }

  /** `alone` serves client `ip` just as `all` does. */
  ghost predicate SameFor(serve: Server, all: seq<Request>, alone: seq<Request>, ip: string) {
    && ResponsesTo(serve, all, ip) == ResponsesTo(serve, alone, ip)
    && Recall(Buckets(serve, all), ip) == Recall(Buckets(serve, alone), ip)
  }

  lemma SameAfterOwn(serve: Server, all: seq<Request>, alone: seq<Request>, last: Request)
    requires SameFor(serve, all, alone, last.ip)
    ensures SameFor(serve, all + [last], alone + [last], last.ip)
  {
    HistorySnoc(serve, all, last, last.ip);
    HistorySnoc(serve, alone, last, last.ip);
    ServedAlike(serve, Buckets(serve, all), Buckets(serve, alone), last);
  }

  lemma SameAfterOther(serve: Server, all: seq<Request>, alone: seq<Request>, last: Request, ip: string)
    requires SameFor(serve, all, alone, ip) && last.ip != ip
    ensures SameFor(serve, all + [last], alone, ip)
  {
    HistorySnoc(serve, all, last, ip);
    OthersUntouched(serve, Buckets(serve, all), last, ip);
  }

  lemma {:induction false} ServedAsIfAlone(serve: Server, rs: seq<Request>, ip: string)
    ensures SameFor(serve, rs, Filter(rs, From(ip)), ip)
  {
    if rs != [] {
      var init, last := rs[..|rs| - 1], rs[|rs| - 1];
      assert rs == init + [last];
      ServedAsIfAlone(serve, init, ip);
      FilterSnoc(init, last, From(ip));
      if last.ip == ip {
        SameAfterOwn(serve, init, Filter(init, From(ip)), last);
      } else {
        SameAfterOther(serve, init, Filter(init, From(ip)), last, ip);
      }
    }
  }

  /** One bucket serving one client's requests: what it ends as and what it answers. */
  function OneBucket(serve: Server, rs: seq<Request>): (x: (Option<Bucket>, seq<Response>)) {
    if rs == [] then (None, [])
    else
      var (b, answers) := OneBucket(serve, rs[..|rs| - 1]);
      var (b1, answer) := serve(b, rs[|rs| - 1]);
      (if b1.Some? then b1 else b, answers + [answer])
  }

  lemma {:induction false} AloneIsOneBucket(serve: Server, rs: seq<Request>, ip: string)
    requires forall r :: r in rs ==> r.ip == ip
    ensures OneBucket(serve, rs) == (Recall(Buckets(serve, rs), ip), ResponsesTo(serve, rs, ip))
  {
    if rs != [] {
      var init, last := rs[..|rs| - 1], rs[|rs| - 1];
      assert last in rs && forall r :: r in init ==> r in rs;
      AloneIsOneBucket(serve, init, ip);
    }
  }

  /**
   * Clients are isolated: in every run of the middleware a client has the bucket and gets
   * the answers of one bucket that sees its own requests and no others.
   */
  lemma {:induction false} ClientsAreIsolated(rpm: nat, rs: seq<Request>, ip: string)
    ensures (Recall(Buckets(Middleware(rpm), rs), ip), ResponsesTo(Middleware(rpm), rs, ip))
            == OneBucket(Middleware(rpm), Filter(rs, From(ip)))
  {
    ServedAsIfAlone(Middleware(rpm), rs, ip);
    AloneIsOneBucket(Middleware(rpm), Filter(rs, From(ip)), ip);
  }
}
