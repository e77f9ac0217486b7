/**
 The token bucket (limiter/ratelimit.go): tokens are added lazily, a taker may run the bucket
 into debt and is told how long to wait. Times are integers of one unit, and no clock reading
 is before the start time or before an earlier reading.
 */
module TokenBucket {

  datatype Settings = Settings(startTime: int, fillInterval: int, capacity: int, quantum: int) {
    predicate Valid() {
      fillInterval > 0 && capacity > 0 && quantum > 0
    }

    function Tick(now: int): (t: nat)
      requires Valid() && now >= startTime
      ensures startTime + t * fillInterval <= now < startTime + (t + 1) * fillInterval
    {
      (now - startTime) / fillInterval
    }

    function TimeOf(tick: int): int {
      startTime + tick * fillInterval
    }
  }

  datatype Tokens = Tokens(available: int, latestTick: int)

  function Min(a: int, b: int): int {
    if a < b then a else b
  }

  /** What adjusting to a tick makes of the bucket. */
  function Adjusted(c: Settings, s: Tokens, tick: int): Tokens {
    if s.available >= c.capacity then Tokens(s.available, tick)
    else Tokens(Min(c.capacity, s.available + (tick - s.latestTick) * c.quantum), tick)
  }

  // ----- Requests

  datatype Request =
    | Take(now: int, count: int, maxWait: int)
    | TakeAvailable(now: int, count: int)
    | Available(now: int)

  /** What a request got: the tokens, and the time at which the caller may use them. */
  datatype Grant = Grant(tokens: int, release: int)

  function TakeStep(c: Settings, s: Tokens, now: int, count: int, maxWait: int): (r: (Tokens, int, bool))
    requires c.Valid() && now >= c.startTime
  {
    if count <= 0 then (s, 0, true)
    else
      var tick := c.Tick(now);
      var adjusted := Adjusted(c, s, tick);
      var avail := adjusted.available - count;
      if avail >= 0 then (Tokens(avail, tick), 0, true)
      else
        var endTick := tick + (-avail + c.quantum - 1) / c.quantum;
        var waitTime := c.TimeOf(endTick) - now;
        if waitTime > maxWait then (adjusted, 0, false)
        else (Tokens(avail, tick), waitTime, true)
  }

  function TakeAvailableStep(c: Settings, s: Tokens, now: int, count: int): (r: (Tokens, int))
    requires c.Valid() && now >= c.startTime
  {
    if count <= 0 then (s, 0)
    else
      var adjusted := Adjusted(c, s, c.Tick(now));
      if adjusted.available <= 0 then (adjusted, 0)
      else
        var taken := Min(count, adjusted.available);
        (Tokens(adjusted.available - taken, adjusted.latestTick), taken)
  }

  function Step(c: Settings, s: Tokens, r: Request): (Tokens, Grant)
    requires c.Valid() && r.now >= c.startTime
  {
    match r
    case Take(now, count, maxWait) =>
      var (s', wait, ok) := TakeStep(c, s, now, count, maxWait);
      (s', Grant(if ok && count > 0 then count else 0, now + wait))
    case TakeAvailable(now, count) =>
      var (s', taken) := TakeAvailableStep(c, s, now, count);
      (s', Grant(taken, now))
    case Available(now) =>
      (Adjusted(c, s, c.Tick(now)), Grant(0, now))
  }

  /** Requests in clock order, the first of them at `from` or later. */
  predicate InOrder(c: Settings, from: int, rs: seq<Request>)
    decreases |rs|
  {
    && from >= c.startTime
    && (rs != [] ==> from <= rs[0].now && InOrder(c, rs[0].now, rs[1..]))
  }

  function Run(c: Settings, from: int, s: Tokens, rs: seq<Request>): (gs: seq<Grant>)
    requires c.Valid() && InOrder(c, from, rs)
    ensures |gs| == |rs|
    decreases |rs|
  {
    if rs == [] then []
    else
      var (s', g) := Step(c, s, rs[0]);
      [g] + Run(c, rs[0].now, s', rs[1..])
  }

  // ----- Lazy refill is refill on every tick

  /** The reference: quantum tokens are added on each tick, and what does not fit is lost. */
  ghost function TickByTick(c: Settings, available: int, ticks: nat): int {
    if ticks == 0 then available
    else Min(c.capacity, TickByTick(c, available, ticks - 1) + c.quantum)
  }

  lemma {:induction false} LazyRefillIsTickByTick(c: Settings, s: Tokens, tick: int)
    requires c.Valid() && s.available <= c.capacity && s.latestTick <= tick
    ensures Adjusted(c, s, tick) == Tokens(TickByTick(c, s.available, tick - s.latestTick), tick)
    decreases tick - s.latestTick
  {
    if s.latestTick < tick {
      LazyRefillIsTickByTick(c, s, tick - 1);
      var d := tick - s.latestTick;
      assert d * c.quantum == (d - 1) * c.quantum + c.quantum;
      assert (d - 1) * c.quantum >= 0;
    }
  }

  lemma {:induction false} AdjustmentsCompose(c: Settings, s: Tokens, mid: int, tick: int)
    requires c.Valid() && s.latestTick <= mid <= tick
    ensures Adjusted(c, Adjusted(c, s, mid), tick) == Adjusted(c, s, tick)
  {
    var a, b := mid - s.latestTick, tick - mid;
    assert (a + b) * c.quantum == a * c.quantum + b * c.quantum;
    assert a * c.quantum >= 0 && b * c.quantum >= 0;
  }

  // ----- The waiting time

  /** A multiplication that only the small lemmas see. */
  ghost function Filled(c: Settings, ticks: int): int {
    ticks * c.quantum
  }

  lemma {:induction false} RoundedUp(c: Settings, missing: int)
    requires c.Valid() && missing > 0
    ensures var n := (missing + c.quantum - 1) / c.quantum; n > 0 && Filled(c, n) >= missing > Filled(c, n - 1)
  {
    var n := (missing + c.quantum - 1) / c.quantum;
    assert n * c.quantum <= missing + c.quantum - 1 < n * c.quantum + c.quantum;
    assert (n - 1) * c.quantum == n * c.quantum - c.quantum;
  }

  lemma {:induction false} FilledMonotonic(c: Settings, a: int, b: int)
    requires c.Valid() && a <= b
    ensures Filled(c, a) <= Filled(c, b)
  {
    assert (b - a) * c.quantum >= 0;
  }

  /** The tick at which the debt of a bucket is paid. */
  ghost predicate PaidAt(c: Settings, s: Tokens, tick: int) {
    s.latestTick <= tick && s.available + Filled(c, tick - s.latestTick) >= 0
  }

  /** A granted wait ends at the first tick at which the tokens exist; a refused one would end past maxWait. */
  lemma {:induction false} WaitIsLeast(c: Settings, s: Tokens, now: int, count: int, maxWait: int)
    requires c.Valid() && now >= c.startTime && count > 0
    ensures var (s', wait, ok) := TakeStep(c, s, now, count, maxWait);
            var owed := Tokens(Adjusted(c, s, c.Tick(now)).available - count, c.Tick(now));
            && s' == (if ok then owed else Adjusted(c, s, c.Tick(now)))
            && (ok && wait == 0 ==> PaidAt(c, owed, c.Tick(now)))
            && (ok && wait > 0 ==> exists end :: now + wait == c.TimeOf(end) && PaidAt(c, owed, end)
                                              && forall t :: PaidAt(c, owed, t) ==> end <= t)
            && (!ok <==> owed.available < 0 && forall t :: PaidAt(c, owed, t) ==> c.TimeOf(t) - now > maxWait)
            && 0 <= wait
  {
    var tick := c.Tick(now);
    var owed := Tokens(Adjusted(c, s, tick).available - count, tick);
    if owed.available >= 0 {
      assert PaidAt(c, owed, tick);
      assert c.TimeOf(tick) - now <= 0;
    } else {
      var n := (-owed.available + c.quantum - 1) / c.quantum;
      RoundedUp(c, -owed.available);
      assert PaidAt(c, owed, tick + n);
      forall t | PaidAt(c, owed, t)
        ensures tick + n <= t && c.TimeOf(tick + n) <= c.TimeOf(t)
      {
        if t < tick + n {
          FilledMonotonic(c, t - tick, n - 1);
        }
        TimeMonotonic(c, tick + n, t);
      }
      assert (n - 1) * c.fillInterval >= 0;
      assert c.TimeOf(tick + n) == c.startTime + (tick + 1) * c.fillInterval + (n - 1) * c.fillInterval;
    }
  }

  /**
   A request for what there is gets all that a refill on every tick put there, up to what it asks for: it
   gets what it asks for, or leaves nothing. Nothing is lost on the way, and a debt is left as it is.
   */
  lemma {:induction false} AvailableIsTaken(c: Settings, s: Tokens, now: int, count: int)
    requires c.Valid() && now >= c.startTime && s.available <= c.capacity && s.latestTick <= c.Tick(now)
    ensures var (s', taken) := TakeAvailableStep(c, s, now, count);
            var there := TickByTick(c, s.available, c.Tick(now) - s.latestTick);
            if count <= 0 then taken == 0 && s' == s
            else
              && 0 <= taken <= count && s' == Tokens(there - taken, c.Tick(now))
              && (taken == count || s'.available <= 0) && (there <= 0 ==> taken == 0)
              && (taken > 0 ==> s'.available >= 0)
  {
    LazyRefillIsTickByTick(c, s, c.Tick(now));
  }

  /** A request that may wait takes its tokens from what a refill on every tick put there, or changes nothing else. */
  lemma {:induction false} TakesFromRefill(c: Settings, s: Tokens, now: int, count: int, maxWait: int)
    requires c.Valid() && now >= c.startTime && s.available <= c.capacity && s.latestTick <= c.Tick(now)
    ensures var (s', wait, ok) := TakeStep(c, s, now, count, maxWait);
            var there := TickByTick(c, s.available, c.Tick(now) - s.latestTick);
            if count <= 0 then ok && wait == 0 && s' == s
            else
              && s' == Tokens(there - (if ok then count else 0), c.Tick(now))
              && (count <= there ==> ok && wait == 0)
              && (ok && count > there ==> 0 < wait <= maxWait)
  {
    LazyRefillIsTickByTick(c, s, c.Tick(now));
    if count > 0 {
      WaitIsLeast(c, s, now, count, maxWait);
    }
  }

  // ----- The rate bound

  ghost function Taken(gs: seq<Grant>): int {
    if gs == [] then 0 else gs[0].tokens + Taken(gs[1..])
  }

  lemma {:induction false} FilledAdds(c: Settings, a: int, b: int)
    ensures Filled(c, a + b) == Filled(c, a) + Filled(c, b)
  {
  }

  /** One request neither makes tokens nor overfills the bucket, and is released when it is paid for. */
  lemma {:induction false} StepAccounts(c: Settings, s: Tokens, r: Request)
    requires c.Valid() && r.now >= c.startTime
    requires s.available <= c.capacity && s.latestTick <= c.Tick(r.now)
    ensures var (s', g) := Step(c, s, r);
            && s'.available <= c.capacity
            && s.latestTick <= s'.latestTick <= c.Tick(r.now)
            && s'.available + g.tokens <= s.available + Filled(c, s'.latestTick - s.latestTick)
            && g.tokens >= 0 && g.release >= r.now
            && (g.tokens > 0 ==> s'.latestTick == c.Tick(r.now) && PaidAt(c, s', c.Tick(g.release)))
  {
    var tick := c.Tick(r.now);
    FilledMonotonic(c, 0, tick - s.latestTick);
    if r.Take? && r.count > 0 {
      WaitIsLeast(c, s, r.now, r.count, r.maxWait);
      var (s', wait, ok) := TakeStep(c, s, r.now, r.count, r.maxWait);
      if ok && wait > 0 {
        var end :| r.now + wait == c.TimeOf(end) && PaidAt(c, s', end);
        TickOfTime(c, end, c.Tick(r.now + wait));
      }
    }
  }

  lemma {:induction false} TimeMonotonic(c: Settings, a: int, b: int)
    requires c.Valid() && a <= b
    ensures c.TimeOf(a) <= c.TimeOf(b)
  {
    assert (b - a) * c.fillInterval >= 0;
  }

  lemma {:induction false} TickOfTime(c: Settings, tick: int, t: int)
    requires c.Valid() && c.TimeOf(t) <= c.TimeOf(tick) < c.TimeOf(t + 1)
    ensures t == tick
  {
    if t < tick {
      TimeMonotonic(c, t + 1, tick);
    } else if tick < t {
      TimeMonotonic(c, tick + 1, t);
    }
  }

  /**
   The rate bound from any state of the bucket, so over any window of a run: when a taker is
   released, all that was taken since is covered by what was there and what the ticks added.
   */
  lemma {:induction false} RateBound(c: Settings, from: int, s: Tokens, rs: seq<Request>, i: nat)
    requires c.Valid() && InOrder(c, from, rs)
    requires s.available <= c.capacity && s.latestTick <= c.Tick(from)
    requires i < |rs| && Run(c, from, s, rs)[i].tokens > 0
    ensures var gs := Run(c, from, s, rs);
            && gs[i].release >= c.startTime
            && Taken(gs[..i + 1]) <= s.available + Filled(c, c.Tick(gs[i].release) - s.latestTick)
            && Taken(gs[..i + 1]) <= c.capacity + Filled(c, c.Tick(gs[i].release) - s.latestTick)
    decreases |rs|
  {
    hide Step, Filled;
    var (s', g) := Step(c, s, rs[0]);
    var gs := Run(c, from, s, rs);
    TickMonotonic(c, from, rs[0].now);
    StepAccounts(c, s, rs[0]);
    if i == 0 {
      assert gs[..1] == [g];
      FilledAdds(c, s'.latestTick - s.latestTick, c.Tick(g.release) - s'.latestTick);
    } else {
      RateBound(c, rs[0].now, s', rs[1..], i - 1);
      var rest := Run(c, rs[0].now, s', rs[1..]);
      assert gs[..i + 1][1..] == rest[..i];
      FilledAdds(c, s'.latestTick - s.latestTick, c.Tick(gs[i].release) - s'.latestTick);
    }
  }

  lemma {:induction false} TickMonotonic(c: Settings, a: int, b: int)
    requires c.Valid() && c.startTime <= a <= b
    ensures c.Tick(a) <= c.Tick(b)
  {
    if c.Tick(b) < c.Tick(a) {
      TimeMonotonic(c, c.Tick(b) + 1, c.Tick(a));
    }
  }

  // ----- Releases come in the order of the requests

  /** Nothing can be released before `bound`: the clock is past it, or the bucket is in debt until then. */
  ghost predicate Barrier(c: Settings, s: Tokens, now: int, bound: int) {
    bound <= now
    || forall t :: s.latestTick <= t && c.TimeOf(t) < bound ==> s.available + Filled(c, t - s.latestTick) < 0
  }

  lemma {:induction false} BarrierHolds(c: Settings, s: Tokens, from: int, bound: int, r: Request)
    requires c.Valid() && c.startTime <= from <= r.now
    requires s.available <= c.capacity && s.latestTick <= c.Tick(r.now)
    requires Barrier(c, s, from, bound)
    ensures var (s', g) := Step(c, s, r);
            && Barrier(c, s', r.now, bound)
            && (g.tokens > 0 ==> bound <= g.release)
  {
    var tick := c.Tick(r.now);
    var (s', g) := Step(c, s, r);
    StepAccounts(c, s, r);
    if bound > r.now {
      assert c.TimeOf(tick) < bound;
      assert s.available + Filled(c, tick - s.latestTick) < 0;
      forall t | s'.latestTick <= t && c.TimeOf(t) < bound
        ensures s'.available + Filled(c, t - s'.latestTick) < 0
      {
        FilledAdds(c, s'.latestTick - s.latestTick, t - s'.latestTick);
      }
      if g.tokens > 0 {
        var end := c.Tick(g.release);
        assert PaidAt(c, s', end);
        assert !(c.TimeOf(end) < bound);
      }
    }
  }

  /** A granted request sets a barrier at its own release. */
  lemma {:induction false} GrantSetsBarrier(c: Settings, s: Tokens, r: Request)
    requires c.Valid() && r.now >= c.startTime
    requires s.available <= c.capacity && s.latestTick <= c.Tick(r.now)
    ensures var (s', g) := Step(c, s, r);
            g.tokens > 0 ==> Barrier(c, s', r.now, g.release)
  {
    if r.Take? && r.count > 0 {
      WaitIsLeast(c, s, r.now, r.count, r.maxWait);
      var (s', wait, ok) := TakeStep(c, s, r.now, r.count, r.maxWait);
      if ok && wait > 0 {
        var end :| r.now + wait == c.TimeOf(end) && PaidAt(c, s', end) && forall t :: PaidAt(c, s', t) ==> end <= t;
        forall t | s'.latestTick <= t && c.TimeOf(t) < r.now + wait
          ensures s'.available + Filled(c, t - s'.latestTick) < 0
        {
          if PaidAt(c, s', t) {
            TimeMonotonic(c, end, t);
          }
        }
      }
    }
  }

  lemma {:induction false} LaterReleases(c: Settings, from: int, s: Tokens, rs: seq<Request>, bound: int, i: nat)
    requires c.Valid() && InOrder(c, from, rs)
    requires s.available <= c.capacity && s.latestTick <= c.Tick(from)
    requires Barrier(c, s, from, bound)
    requires i < |rs| && Run(c, from, s, rs)[i].tokens > 0
    ensures bound <= Run(c, from, s, rs)[i].release
    decreases |rs|
  {
    var (s', g) := Step(c, s, rs[0]);
    TickMonotonic(c, from, rs[0].now);
    StepAccounts(c, s, rs[0]);
    BarrierHolds(c, s, from, bound, rs[0]);
    if i > 0 {
      LaterReleases(c, rs[0].now, s', rs[1..], bound, i - 1);
    }
  }

  /** A later taker is never released before an earlier one. */
  lemma {:induction false} ReleasesInOrder(c: Settings, from: int, s: Tokens, rs: seq<Request>, i: nat, j: nat)
    requires c.Valid() && InOrder(c, from, rs)
    requires s.available <= c.capacity && s.latestTick <= c.Tick(from)
    requires i < j < |rs|
    requires Run(c, from, s, rs)[i].tokens > 0 && Run(c, from, s, rs)[j].tokens > 0
    ensures Run(c, from, s, rs)[i].release <= Run(c, from, s, rs)[j].release
    decreases |rs|
  {
    var (s', g) := Step(c, s, rs[0]);
    TickMonotonic(c, from, rs[0].now);
    StepAccounts(c, s, rs[0]);
    if i == 0 {
      GrantSetsBarrier(c, s, rs[0]);
      LaterReleases(c, rs[0].now, s', rs[1..], g.release, j - 1);
    } else {
      ReleasesInOrder(c, rs[0].now, s', rs[1..], i - 1, j - 1);
    }
  }

  // ----- A refused request leaves no trace

  lemma {:induction false} SameFuture(c: Settings, from: int, s: Tokens, s': Tokens, rs: seq<Request>)
    requires c.Valid() && InOrder(c, from, rs)
    requires forall t :: t >= c.Tick(from) ==> Adjusted(c, s, t) == Adjusted(c, s', t)
    ensures Run(c, from, s, rs) == Run(c, from, s', rs)
    decreases |rs|
  {
    if rs != [] {
      TickMonotonic(c, from, rs[0].now);
      assert Adjusted(c, s, c.Tick(rs[0].now)) == Adjusted(c, s', c.Tick(rs[0].now));
      SameFuture(c, rs[0].now, Step(c, s, rs[0]).0, Step(c, s', rs[0]).0, rs[1..]);
    }
  }

  /** Whatever follows, every grant is the one it would have been without the refused request. */
  lemma {:induction false} RefusedIsInvisible(c: Settings, s: Tokens, now: int, count: int, maxWait: int, rs: seq<Request>)
    requires c.Valid() && InOrder(c, now, rs) && s.latestTick <= c.Tick(now)
    requires !TakeStep(c, s, now, count, maxWait).2
    ensures Run(c, now, TakeStep(c, s, now, count, maxWait).0, rs) == Run(c, now, s, rs)
  {
    var s' := Adjusted(c, s, c.Tick(now));
    forall t | t >= c.Tick(now)
      ensures Adjusted(c, s, t) == Adjusted(c, s', t)
    {
      AdjustmentsCompose(c, s, c.Tick(now), t);
    }
    SameFuture(c, now, s, s', rs);
  }

  // ----- The bucket that is updated in place

  class Bucket {
    const settings: Settings
    var availableTokens: int
    var latestTick: int

    ghost predicate Valid()
      reads this
    {
      settings.Valid() && availableTokens <= settings.capacity
    }

    ghost function Contents(): Tokens
      reads this
    {
      Tokens(availableTokens, latestTick)
    }

    constructor (fillInterval: int, capacity: int, quantum: int, now: int)
      requires fillInterval > 0 && capacity > 0 && quantum > 0
      ensures Valid() && settings == Settings(now, fillInterval, capacity, quantum)
      ensures Contents() == Tokens(capacity, 0)
    {
      settings := Settings(now, fillInterval, capacity, quantum);
      availableTokens, latestTick := capacity, 0;
    }

    method AdjustAvailableTokens(tick: int)
      modifies this
      ensures Contents() == Adjusted(settings, old(Contents()), tick)
    {
      var lastTick := latestTick;
      latestTick := tick;
      if availableTokens >= settings.capacity {
        return;
      }
      availableTokens := availableTokens + (tick - lastTick) * settings.quantum;
      if availableTokens > settings.capacity {
        availableTokens := settings.capacity;
      }
    }

    method TakeMaxDuration(now: int, count: int, maxWait: int) returns (wait: int, ok: bool)
      requires Valid() && now >= settings.startTime && latestTick <= settings.Tick(now)
      modifies this
      ensures Valid() && latestTick <= settings.Tick(now)
      ensures (Contents(), wait, ok) == TakeStep(settings, old(Contents()), now, count, maxWait)
    {
      if count <= 0 {
        return 0, true;
      }
      var tick := settings.Tick(now);
      AdjustAvailableTokens(tick);
      var avail := availableTokens - count;
      if avail >= 0 {
        availableTokens := avail;
        return 0, true;
      }
      var endTick := tick + (-avail + settings.quantum - 1) / settings.quantum;
      var waitTime := settings.TimeOf(endTick) - now;
      if waitTime > maxWait {
        return 0, false;
      }
      availableTokens := avail;
      return waitTime, true;
    }

    /** What there is, which may be negative while takers wait. */
    method Available(now: int) returns (available: int)
      requires Valid() && now >= settings.startTime && latestTick <= settings.Tick(now)
      modifies this
      ensures Valid() && latestTick == settings.Tick(now) && available == availableTokens
      ensures available == TickByTick(settings, old(availableTokens), settings.Tick(now) - old(latestTick))
    {
      LazyRefillIsTickByTick(settings, Contents(), settings.Tick(now));
      AdjustAvailableTokens(settings.Tick(now));
      available := availableTokens;
    }

    method TakeAvailable(now: int, count: int) returns (taken: int)
      requires Valid() && now >= settings.startTime && latestTick <= settings.Tick(now)
      modifies this
      ensures Valid() && latestTick <= settings.Tick(now)
      ensures (Contents(), taken) == TakeAvailableStep(settings, old(Contents()), now, count)
    {
      if count <= 0 {
        return 0;
      }
      AdjustAvailableTokens(settings.Tick(now));
      if availableTokens <= 0 {
        return 0;
      }
      taken := count;
      if taken > availableTokens {
        taken := availableTokens;
      }
      availableTokens := availableTokens - taken;
    }
  }
}
