/** The real-valued rate limiter of src/automana/core/utils/rate_limits.py.

    `acquire` looks at the clock, refills, and either takes the tokens or sleeps and
    looks again. One look is a `Poll`; a run is a sequence of polls at non-decreasing
    clock readings, whoever made them. */
module TokenBucket {
  datatype Config = Config(rate: real, capacity: int)

  datatype Level = Level(tokens: real, updatedAt: real)

  datatype Poll = Poll(now: real, want: int)

  datatype Grant = Grant(at: real, tokens: int)

  // ---------------------------------------------------------------- one poll

  function Min(a: real, b: real): real {
    if a <= b then a else b
  }

  /** What the rate produces between two instants. */
  function Accrued(c: Config, from: real, to: real): real {
    (to - from) * c.rate
  }

  function Refill(c: Config, s: Level, now: real): Level {
    Level(Min(c.capacity as real, s.tokens + Accrued(c, s.updatedAt, now)), now)
  }

  predicate Enough(c: Config, s: Level, p: Poll) {
    Refill(c, s, p.now).tokens >= p.want as real
  }

  function Next(c: Config, s: Level, p: Poll): Level {
    var full := Refill(c, s, p.now);
    if Enough(c, s, p) then Level(full.tokens - p.want as real, p.now) else full
  }

  /** How long `acquire` sleeps after a denied poll that left the bucket at `s`. */
  function Wait(c: Config, s: Level, want: int): real
    requires c.rate != 0.0
  {
    (want as real - s.tokens) / c.rate
  }

  // ---------------------------------------------------------------- whole runs

  function After(c: Config, s: Level, ps: seq<Poll>): Level {
    if ps == [] then s else Next(c, After(c, s, ps[..|ps| - 1]), ps[|ps| - 1])
  }

  /** The grants of a run, oldest first. */
  function Grants(c: Config, s: Level, ps: seq<Poll>): seq<Grant> {
    if ps == [] then []
    else
      var last := ps[|ps| - 1];
      var before := ps[..|ps| - 1];
      Grants(c, s, before) +
      if Enough(c, After(c, s, before), last) then [Grant(last.now, last.want)] else []
  }

  function Total(gs: seq<Grant>): int {
    if gs == [] then 0 else Total(gs[..|gs| - 1]) + gs[|gs| - 1].tokens
  }

  ghost predicate Sane(c: Config, s: Level) {
    c.rate >= 0.0 && c.capacity >= 0 && s.tokens >= 0.0
  }

  /** The clock never runs backwards. */
  ghost predicate Monotone(start: real, ps: seq<Poll>) {
    && (forall i :: 0 <= i < |ps| ==> start <= ps[i].now)
    && (forall i, j :: 0 <= i <= j < |ps| ==> ps[i].now <= ps[j].now)
  }

  lemma AccruedAdds(c: Config, from: real, mid: real, to: real)
    requires c.rate >= 0.0 && mid <= to
    ensures Accrued(c, mid, to) >= 0.0
    ensures Accrued(c, from, to) == Accrued(c, from, mid) + Accrued(c, mid, to)
  {
    assert (to - mid) * c.rate >= 0.0;
  }

  lemma {:induction false} LevelNeverNegative(c: Config, s: Level, ps: seq<Poll>)
    requires Sane(c, s) && Monotone(s.updatedAt, ps)
    ensures After(c, s, ps).tokens >= 0.0
    ensures After(c, s, ps).updatedAt == if ps == [] then s.updatedAt else ps[|ps| - 1].now
  {
    if ps != [] {
      var before := After(c, s, ps[..|ps| - 1]);
      LevelNeverNegative(c, s, ps[..|ps| - 1]);
      AccruedAdds(c, before.updatedAt, before.updatedAt, ps[|ps| - 1].now);
    }
  }

  /** With no negative request the bucket also never overflows. */
  lemma {:induction false} LevelWithinCapacity(c: Config, s: Level, ps: seq<Poll>)
    requires Sane(c, s) && s.tokens <= c.capacity as real
    requires forall i :: 0 <= i < |ps| ==> ps[i].want >= 0
    ensures After(c, s, ps).tokens <= c.capacity as real
  {
    if ps != [] {
      LevelWithinCapacity(c, s, ps[..|ps| - 1]);
    }
  }

  /** A poll keeps every in-range level in range exactly when its request is not negative:
      a negative request refunds tokens past the capacity. */
  lemma InRangeIffRequestNotNegative(c: Config, want: int)
    requires c.rate >= 0.0 && c.capacity >= 0
    ensures want >= 0 <==>
      forall s: Level, now: real ::
        0.0 <= s.tokens <= c.capacity as real && s.updatedAt <= now ==>
          0.0 <= Next(c, s, Poll(now, want)).tokens <= c.capacity as real
  {
    if want >= 0 {
      forall s: Level, now: real | 0.0 <= s.tokens <= c.capacity as real && s.updatedAt <= now
        ensures 0.0 <= Next(c, s, Poll(now, want)).tokens <= c.capacity as real
      {
        AccruedAdds(c, s.updatedAt, s.updatedAt, now);
      }
    } else {
      var brim := Level(c.capacity as real, 0.0);
      assert Refill(c, brim, 0.0) == brim;
      assert Next(c, brim, Poll(0.0, want)).tokens > c.capacity as real;
    }
  }

  lemma TotalAppend(gs: seq<Grant>, g: Grant, i: nat)
    requires i <= |gs|
    ensures Total((gs + [g])[i..]) == Total(gs[i..]) + g.tokens
  {
    assert (gs + [g])[i..] == gs[i..] + [g];
    var tail := gs[i..] + [g];
    assert tail[..|tail| - 1] == gs[i..];
  }

  lemma GrantsOfPrefix(c: Config, s: Level, ps: seq<Poll>)
    requires ps != []
    ensures Grants(c, s, ps[..|ps| - 1]) <= Grants(c, s, ps)
  {
  }

  /** One poll hands out, and leaves behind, no more than it found plus what accrued. */
  lemma PollBudget(c: Config, s: Level, p: Poll)
    ensures
      var n, spent := Next(c, s, p), if Enough(c, s, p) then p.want else 0;
      && n.updatedAt == p.now
      && n.tokens + spent as real <= c.capacity as real
      && n.tokens + spent as real <= s.tokens + Accrued(c, s.updatedAt, p.now)
  {
  }

  ghost predicate WithinBudget(c: Config, gs: seq<Grant>, i: nat, s: Level)
    requires i < |gs|
  {
    Total(gs[i..]) as real + s.tokens <= c.capacity as real + Accrued(c, gs[i].at, s.updatedAt)
  }

  lemma BudgetStep(c: Config, gs: seq<Grant>, i: nat, s: Level, p: Poll)
    requires c.rate >= 0.0 && s.updatedAt <= p.now
    requires i < |gs| && WithinBudget(c, gs, i, s)
    ensures
      var gs' := gs + if Enough(c, s, p) then [Grant(p.now, p.want)] else [];
      WithinBudget(c, gs', i, Next(c, s, p))
  {
    PollBudget(c, s, p);
    AccruedAdds(c, gs[i].at, s.updatedAt, p.now);
    if Enough(c, s, p) {
      TotalAppend(gs, Grant(p.now, p.want), i);
    } else {
      assert gs + [] == gs;
    }
  }

  /** What was granted since grant i, plus what is still in the bucket, never exceeds one
      full bucket plus what the rate produced since grant i. */
  lemma {:induction false} SinceGrant(c: Config, s: Level, ps: seq<Poll>, i: nat)
    requires Sane(c, s) && Monotone(s.updatedAt, ps)
    requires i < |Grants(c, s, ps)|
    ensures WithinBudget(c, Grants(c, s, ps), i, After(c, s, ps))
  {
    var last, prefix := ps[|ps| - 1], ps[..|ps| - 1];
    var gs, mid := Grants(c, s, prefix), After(c, s, prefix);
    LevelNeverNegative(c, s, prefix);
    if i < |gs| {
      SinceGrant(c, s, prefix, i);
      BudgetStep(c, gs, i, mid, last);
    } else {
      PollBudget(c, mid, last);
      AccruedAdds(c, last.now, last.now, last.now);
      TotalAppend(gs, Grant(last.now, last.want), i);
      assert gs[i..] == [];
    }
  }

  /** The rate limit: in every run, from any grant i to any later grant j, the tokens
      handed out total at most one full bucket plus rate times the elapsed time. */
  lemma {:induction false} WindowBound(c: Config, s: Level, ps: seq<Poll>, i: nat, j: nat)
    requires Sane(c, s) && Monotone(s.updatedAt, ps)
    requires i <= j < |Grants(c, s, ps)|
    ensures
      var gs := Grants(c, s, ps);
      Total(gs[i..j + 1]) as real <= c.capacity as real + Accrued(c, gs[i].at, gs[j].at)
  {
    var gs, prefix := Grants(c, s, ps), ps[..|ps| - 1];
    GrantsOfPrefix(c, s, ps);
    if j < |Grants(c, s, prefix)| {
      WindowBound(c, s, prefix, i, j);
      assert Grants(c, s, prefix)[i..j + 1] == gs[i..j + 1];
    } else {
      SinceGrant(c, s, ps, i);
      LevelNeverNegative(c, s, ps);
      assert gs[i..j + 1] == gs[i..] && gs[j].at == After(c, s, ps).updatedAt;
    }
  }

  // ---------------------------------------------------------------- nothing is lost

  lemma AccruedIs(c: Config, from: real, to: real)
    ensures Accrued(c, from, to) == c.rate * (to - from)
  {
  }

  /** The bucket was filled to the brim and what the rate produced beyond that is gone. */
  predicate Overflows(c: Config, s: Level, now: real) {
    s.tokens + c.rate * (now - s.updatedAt) > c.capacity as real
  }

  ghost predicate NoOverflow(c: Config, s: Level, ps: seq<Poll>) {
    forall i :: 0 <= i < |ps| ==> !Overflows(c, After(c, s, ps[..i]), ps[i].now)
  }

  lemma SameOrderAsReals(a: int, b: int)
    ensures a <= b <==> a as real <= b as real
  {
  }

  lemma LeastIs(a: real, b: real, x: real)
    ensures Min(a, b) >= x <==> a >= x && b >= x
    ensures Min(a, b) == if b > a then a else b
  {
  }

  lemma RefillIs(c: Config, s: Level, now: real)
    ensures Refill(c, s, now) == Level(Min(c.capacity as real, s.tokens + c.rate * (now - s.updatedAt)), now)
  {
    AccruedIs(c, s.updatedAt, now);
  }

  /** A request is met iff it fits the bucket and is covered by what was there and what has
      accrued. */
  lemma MetIffCovered(c: Config, s: Level, p: Poll)
    ensures Enough(c, s, p) <==>
      p.want <= c.capacity && p.want as real <= s.tokens + c.rate * (p.now - s.updatedAt)
  {
    RefillIs(c, s, p.now);
    SameOrderAsReals(p.want, c.capacity);
    LeastIs(c.capacity as real, s.tokens + c.rate * (p.now - s.updatedAt), p.want as real);
  }

  /** It takes out exactly what it asked for, and a denied one takes nothing. */
  lemma PollTakesExactly(c: Config, s: Level, p: Poll)
    ensures
      var found := if Overflows(c, s, p.now) then c.capacity as real else s.tokens + c.rate * (p.now - s.updatedAt);
      Next(c, s, p) == Level(if Enough(c, s, p) then found - p.want as real else found, p.now)
  {
    RefillIs(c, s, p.now);
    LeastIs(c.capacity as real, s.tokens + c.rate * (p.now - s.updatedAt), p.want as real);
  }

  /** Requests that arrive together are one request. */
  lemma RequestsAdd(c: Config, s: Level, t: real, a: nat, b: nat)
    requires Enough(c, s, Poll(t, a + b))
    ensures Enough(c, s, Poll(t, a)) && Enough(c, Next(c, s, Poll(t, a)), Poll(t, b))
    ensures Next(c, Next(c, s, Poll(t, a)), Poll(t, b)) == Next(c, s, Poll(t, a + b))
  {
  }

  lemma OneMoreGrant(gs: seq<Grant>, g: Grant)
    ensures Total(gs + [g]) == Total(gs) + g.tokens
  {
    TotalAppend(gs, g, 0);
    assert (gs + [g])[0..] == gs + [g] && gs[0..] == gs;
  }

  ghost predicate Balanced(c: Config, s: Level, gs: seq<Grant>, now: Level) {
    now.tokens + Total(gs) as real == s.tokens + Accrued(c, s.updatedAt, now.updatedAt)
  }

  lemma AccruedSplits(c: Config, from: real, mid: real, to: real)
    ensures Accrued(c, from, to) == Accrued(c, from, mid) + Accrued(c, mid, to)
  {
  }

  lemma BalanceStep(c: Config, s: Level, gs: seq<Grant>, mid: Level, p: Poll)
    requires Balanced(c, s, gs, mid) && !Overflows(c, mid, p.now)
    ensures Balanced(c, s, gs + if Enough(c, mid, p) then [Grant(p.now, p.want)] else [], Next(c, mid, p))
  {
    AccruedIs(c, mid.updatedAt, p.now);
    AccruedSplits(c, s.updatedAt, mid.updatedAt, p.now);
    OneMoreGrant(gs, Grant(p.now, p.want));
    assert gs + [] == gs;
  }

  /** While no refill overflows, nothing is lost: what is left and what was granted are what
      was found and what the rate produced. */
  lemma {:induction false} GrantedAndLeft(c: Config, s: Level, ps: seq<Poll>)
    requires NoOverflow(c, s, ps)
    ensures Balanced(c, s, Grants(c, s, ps), After(c, s, ps))
  {
    if ps == [] {
      AccruedIs(c, s.updatedAt, s.updatedAt);
    } else {
      var n := |ps| - 1;
      assert forall i :: 0 <= i < n ==> ps[..n][..i] == ps[..i];
      GrantedAndLeft(c, s, ps[..n]);
      BalanceStep(c, s, Grants(c, s, ps[..n]), After(c, s, ps[..n]), ps[n]);
    }
  }

  // ------------------------------------------------- waiting and path independence

  /** Refilling in two steps is refilling once over the whole time. */
  lemma RefillTwice(c: Config, s: Level, t1: real, t2: real)
    requires c.rate >= 0.0 && s.updatedAt <= t1 <= t2
    ensures Refill(c, Refill(c, s, t1), t2) == Refill(c, s, t2)
  {
    AccruedAdds(c, s.updatedAt, t1, t2);
  }

  ghost predicate AllDenied(c: Config, s: Level, ps: seq<Poll>) {
    forall i :: 0 <= i < |ps| ==> !Enough(c, s, ps[i])
  }

  lemma SameVerdictAfterRefill(c: Config, s: Level, t: real, p: Poll)
    requires c.rate >= 0.0 && s.updatedAt <= t <= p.now
    ensures Enough(c, Refill(c, s, t), p) == Enough(c, s, p)
    ensures Refill(c, Refill(c, s, t), p.now) == Refill(c, s, p.now)
  {
    RefillTwice(c, s, t, p.now);
  }

  /** Denied polls leave no trace: however many there were, the level is one refill over
      the total time, and a run grants nothing iff that one refill never suffices. */
  lemma {:induction false} DeniedPollsLeaveNoTrace(c: Config, s: Level, ps: seq<Poll>)
    requires c.rate >= 0.0 && Monotone(s.updatedAt, ps)
    ensures AllDenied(c, s, ps) <==> Grants(c, s, ps) == []
    ensures AllDenied(c, s, ps) && ps != [] ==> After(c, s, ps) == Refill(c, s, ps[|ps| - 1].now)
  {
    if ps != [] {
      var prefix, last := ps[..|ps| - 1], ps[|ps| - 1];
      DeniedPollsLeaveNoTrace(c, s, prefix);
      if AllDenied(c, s, prefix) {
        if prefix != [] {
          SameVerdictAfterRefill(c, s, prefix[|prefix| - 1].now, last);
        }
        assert forall i :: 0 <= i < |prefix| ==> ps[i] == prefix[i];
      } else {
        var i :| 0 <= i < |prefix| && Enough(c, s, prefix[i]);
        assert Enough(c, s, ps[i]);
      }
    }
  }

  lemma QuotientTimes(x: real, r: real)
    requires r > 0.0
    ensures x / r * r == x
  {
  }

  lemma SameOrderTimes(r: real, x: real, y: real)
    requires r > 0.0
    ensures x >= y <==> x * r >= y * r
  {
    assert x * r - y * r == (x - y) * r;
  }

  lemma EarliestGiven(c: Config, full: Level, want: int, t: real, w: real)
    requires c.rate > 0.0 && full.updatedAt <= t && want <= c.capacity
    requires w * c.rate == want as real - full.tokens
    ensures Enough(c, full, Poll(t, want)) <==> t >= full.updatedAt + w
  {
    var gained := Accrued(c, full.updatedAt, t);
    assert Enough(c, full, Poll(t, want)) <==> full.tokens + gained >= want as real;
    assert gained == (t - full.updatedAt) * c.rate;
    SameOrderTimes(c.rate, t - full.updatedAt, w);
  }

  /** The computed sleep ends at the earliest instant the request can be met. */
  lemma WaitIsEarliest(c: Config, s: Level, want: int, now: real, t: real)
    requires c.rate > 0.0 && s.updatedAt <= now <= t && want <= c.capacity
    requires !Enough(c, s, Poll(now, want))
    ensures Enough(c, s, Poll(t, want)) <==> t >= now + Wait(c, Refill(c, s, now), want)
  {
    var full := Refill(c, s, now);
    SameVerdictAfterRefill(c, s, now, Poll(t, want));
    QuotientTimes(want as real - full.tokens, c.rate);
    EarliestGiven(c, full, want, t, Wait(c, full, want));
  }

  /** A request can ever be met iff it fits the bucket. */
  lemma GrantableIffFits(c: Config, s: Level, want: int)
    requires c.rate > 0.0
    ensures want <= c.capacity <==> exists t: real :: s.updatedAt <= t && Enough(c, s, Poll(t, want))
  {
    if want <= c.capacity {
      if Enough(c, s, Poll(s.updatedAt, want)) {
      } else {
        var full := Refill(c, s, s.updatedAt);
        var w := Wait(c, full, want);
        QuotientTimes(want as real - full.tokens, c.rate);
        SameOrderTimes(c.rate, 0.0, w);
        WaitIsEarliest(c, s, want, s.updatedAt, s.updatedAt + w);
        assert Enough(c, s, Poll(s.updatedAt + w, want));
      }
    }
  }

  // ---------------------------------------------------------------- the class

  datatype Outcome = Granted | StillWaiting | DivisionByZero

  /** One call's polls: the same request at each of the clock readings it consumed. */
  function PollsOf(readings: seq<real>, want: int): (ps: seq<Poll>)
    ensures |ps| == |readings|
    ensures forall i :: 0 <= i < |ps| ==> ps[i] == Poll(readings[i], want)
  {
    seq(|readings|, i requires 0 <= i < |readings| => Poll(readings[i], want))
  }

  /** One refill of `s` would not meet the request at any of these readings. */
  ghost predicate DeniedAt(c: Config, s: Level, want: int, readings: seq<real>) {
    forall i :: 0 <= i < |readings| ==> !Enough(c, s, Poll(readings[i], want))
  }

  ghost predicate Nondecreasing(start: real, readings: seq<real>) {
    && (forall i :: 0 <= i < |readings| ==> start <= readings[i])
    && (forall i, j :: 0 <= i <= j < |readings| ==> readings[i] <= readings[j])
  }

  lemma {:induction false} RunsCompose(c: Config, s: Level, ps: seq<Poll>, qs: seq<Poll>)
    ensures After(c, s, ps + qs) == After(c, After(c, s, ps), qs)
  {
    if qs == [] {
      assert ps + qs == ps;
    } else {
      assert (ps + qs)[..|ps + qs| - 1] == ps + qs[..|qs| - 1];
      RunsCompose(c, s, ps, qs[..|qs| - 1]);
    }
  }

  lemma CallKeepsClock(c: Config, s: Level, ps: seq<Poll>, want: int, readings: seq<real>)
    requires Sane(c, s) && Monotone(s.updatedAt, ps) && Nondecreasing(After(c, s, ps).updatedAt, readings)
    ensures Monotone(s.updatedAt, ps + PollsOf(readings, want))
  {
    LevelNeverNegative(c, s, ps);
  }

  /** A call whose earlier looks were all denied ends as if only its last look had happened. */
  lemma OnlyTheLastLookCounts(c: Config, s: Level, want: int, readings: seq<real>)
    requires c.rate >= 0.0 && readings != [] && Nondecreasing(s.updatedAt, readings)
    requires DeniedAt(c, s, want, readings[..|readings| - 1])
    ensures After(c, s, PollsOf(readings, want)) == Next(c, s, Poll(readings[|readings| - 1], want))
  {
    var n := |readings|;
    var ps := PollsOf(readings, want);
    assert ps[..n - 1] == PollsOf(readings[..n - 1], want);
    DeniedPollsLeaveNoTrace(c, s, ps[..n - 1]);
    if n > 1 {
      SameVerdictAfterRefill(c, s, readings[n - 2], ps[n - 1]);
    }
  }

  lemma DeniedOnceMore(c: Config, s: Level, want: int, readings: seq<real>, looks: nat)
    requires 0 < looks <= |readings| && DeniedAt(c, s, want, readings[..looks - 1])
    requires !Enough(c, s, Poll(readings[looks - 1], want))
    ensures DeniedAt(c, s, want, readings[..looks])
    ensures Next(c, s, Poll(readings[looks - 1], want)) == Refill(c, s, readings[looks - 1])
  {
    assert forall i :: 0 <= i < looks - 1 ==> readings[..looks][i] == readings[..looks - 1][i];
  }

  /** There is a second reading, and the sleep before it did not return early. */
  ghost predicate SleptEnough(c: Config, s: Level, want: int, readings: seq<real>)
    requires c.rate > 0.0
  {
    |readings| > 1 && readings[1] >= readings[0] + Wait(c, Refill(c, s, readings[0]), want)
  }

  /** If sleeping never returns early, a request that fits the bucket is denied at most
      once. */
  lemma DeniedAtMostOnce(c: Config, s: Level, want: int, readings: seq<real>, k: nat)
    requires c.rate > 0.0 && want <= c.capacity && Nondecreasing(s.updatedAt, readings)
    requires SleptEnough(c, s, want, readings)
    requires k <= |readings| && DeniedAt(c, s, want, readings[..k])
    ensures k <= 1
  {
    if k > 1 {
      assert readings[..k][0] == readings[0] && readings[..k][1] == readings[1];
      WaitIsEarliest(c, s, want, readings[0], readings[1]);
    }
  }

  class AsyncTokenBucket {
    const cfg: Config
    var tokens: real
    var updatedAt: real
    /** Every poll made so far, by any caller. */
    ghost var polls: seq<Poll>
    ghost const origin: Level

    ghost function State(): Level
      reads this
    {
      Level(tokens, updatedAt)
    }

    ghost predicate Valid()
      reads this
    {
      && cfg.rate >= 0.0 && cfg.capacity >= 0
      && origin.tokens == cfg.capacity as real
      && Monotone(origin.updatedAt, polls)
      && State() == After(cfg, origin, polls)
    }

    constructor (ratePerSec: real, capacity: int, now: real)
      ensures ratePerSec >= 0.0 && capacity >= 0 ==> Valid()
      ensures polls == [] && State() == origin == Level(capacity as real, now)
      ensures cfg == Config(ratePerSec, capacity)
    {
      cfg := Config(ratePerSec, capacity);
      tokens, updatedAt := capacity as real, now;
      origin := Level(capacity as real, now);
      polls := [];
    }

    /** One turn of the loop, up to the decision. */
    method Look(want: int, now: real) returns (granted: bool)
      modifies this`tokens, this`updatedAt
      ensures granted == Enough(cfg, old(State()), Poll(now, want))
      ensures State() == Next(cfg, old(State()), Poll(now, want))
    {
      tokens := Min(cfg.capacity as real, tokens + Accrued(cfg, updatedAt, now));
      updatedAt := now;
      granted := tokens >= want as real;
      if granted {
        tokens := tokens - want as real;
      }
    }

    /** The loop: `readings` are the clock values successive turns will see; it is still
        asleep when they run out. */
    method LookUntilGranted(want: int, readings: seq<real>) returns (r: Outcome, looks: nat)
      requires Valid() && Nondecreasing(updatedAt, readings)
      modifies this`tokens, this`updatedAt
      ensures looks <= |readings|
      ensures looks > 0 ==> DeniedAt(cfg, old(State()), want, readings[..looks - 1])
      ensures looks > 0 ==> State() == Next(cfg, old(State()), Poll(readings[looks - 1], want))
      ensures looks == 0 ==> State() == old(State())
      ensures r.Granted? <==> looks > 0 && Enough(cfg, old(State()), Poll(readings[looks - 1], want))
      ensures r.StillWaiting? ==> looks == |readings| && (looks > 0 ==> cfg.rate != 0.0)
      ensures r.DivisionByZero? <==> cfg.rate == 0.0 && !r.Granted? && looks > 0
    {
      ghost var start := State();
      looks := 0;
      r := StillWaiting;
      while looks < |readings| && r.StillWaiting?
        invariant looks <= |readings|
        invariant r.StillWaiting? ==> DeniedAt(cfg, start, want, readings[..looks])
        invariant r.StillWaiting? && looks > 0 ==> cfg.rate != 0.0 && State() == Refill(cfg, start, readings[looks - 1])
        invariant looks == 0 ==> State() == start && r.StillWaiting?
        invariant looks > 0 ==> DeniedAt(cfg, start, want, readings[..looks - 1])
        invariant looks > 0 ==> State() == Next(cfg, start, Poll(readings[looks - 1], want))
        invariant looks > 0 ==> (r.Granted? <==> Enough(cfg, start, Poll(readings[looks - 1], want)))
        invariant r.DivisionByZero? ==> cfg.rate == 0.0
      {
        var now := readings[looks];
        if looks > 0 {
          SameVerdictAfterRefill(cfg, start, readings[looks - 1], Poll(now, want));
        }
        var granted := Look(want, now);
        looks := looks + 1;
        if granted {
          r := Granted;
        } else if cfg.rate == 0.0 {
          r := DivisionByZero;
        }
      }
    }

    /** Adds a finished call's polls to the ghost log. */
    ghost method LogCall(want: int, seen: seq<real>, start: Level)
      requires cfg.rate >= 0.0 && cfg.capacity >= 0 && origin.tokens == cfg.capacity as real
      requires Monotone(origin.updatedAt, polls) && start == After(cfg, origin, polls)
      requires Nondecreasing(start.updatedAt, seen)
      requires seen == [] ==> State() == start
      requires seen != [] ==>
        && DeniedAt(cfg, start, want, seen[..|seen| - 1])
        && State() == Next(cfg, start, Poll(seen[|seen| - 1], want))
      modifies this`polls
      ensures Valid() && polls == old(polls) + PollsOf(seen, want)
    {
      CallKeepsClock(cfg, origin, polls, want, seen);
      RunsCompose(cfg, origin, polls, PollsOf(seen, want));
      if seen != [] {
        OnlyTheLastLookCounts(cfg, start, want, seen);
      }
      polls := polls + PollsOf(seen, want);
    }

    /** The first reading at which one refill of the level found on entry suffices is the one
        that grants; if sleeping never returns early that is the second at the latest. */
    method Acquire(want: int, readings: seq<real>) returns (r: Outcome, looks: nat)
      requires Valid() && Nondecreasing(updatedAt, readings)
      modifies this
      ensures Valid() && looks <= |readings|
      ensures polls == old(polls) + PollsOf(readings[..looks], want)
      ensures r.Granted? ==>
        && looks > 0
        && Enough(cfg, old(State()), Poll(readings[looks - 1], want))
        && DeniedAt(cfg, old(State()), want, readings[..looks - 1])
        && State() == Next(cfg, old(State()), Poll(readings[looks - 1], want))
      ensures !r.Granted? ==>
        && DeniedAt(cfg, old(State()), want, readings[..looks])
        && (if looks == 0 then State() == old(State()) else State() == Refill(cfg, old(State()), readings[looks - 1]))
      ensures r.StillWaiting? ==> looks == |readings| && (looks > 0 ==> cfg.rate != 0.0)
      ensures r.DivisionByZero? <==> cfg.rate == 0.0 && !r.Granted? && looks > 0
      ensures cfg.rate > 0.0 && want <= cfg.capacity && SleptEnough(cfg, old(State()), want, readings) ==>
        r.Granted? && looks <= 2
    {
      ghost var start := State();
      r, looks := LookUntilGranted(want, readings);
      if looks > 0 {
        assert readings[..looks][..looks - 1] == readings[..looks - 1];
        if !r.Granted? {
          DeniedOnceMore(cfg, start, want, readings, looks);
        }
      }
      if cfg.rate > 0.0 && want <= cfg.capacity && SleptEnough(cfg, start, want, readings) {
        DeniedAtMostOnce(cfg, start, want, readings, if r.Granted? then looks - 1 else looks);
      }
      LogCall(want, readings[..looks], start);
    }

    /** The rate limit, for whatever sequence of calls brought the bucket here. */
    lemma RateLimit(i: nat, j: nat)
      requires Valid()
      requires i <= j < |Grants(cfg, origin, polls)|
      ensures
        var gs := Grants(cfg, origin, polls);
        Total(gs[i..j + 1]) as real <= cfg.capacity as real + Accrued(cfg, gs[i].at, gs[j].at)
    {
      WindowBound(cfg, origin, polls, i, j);
    }
  }
}
