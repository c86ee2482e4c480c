/** The tiered refresh schedule of src/automana/worker/tasks/pipelines.py: a sorted
    work-list of (print id, market) pairs is cut into `window_days * slots_per_day`
    slices, and a modular index of the day and the slot says which slice is due.
    Days are counted from the schedule's epoch and may be negative. */
module TierSchedule {
  import opened Sorting

  datatype Tier = Tier1 | Tier2 | Tier3

  datatype Market = CardKingdom | CardMarket | StarCity | Tcg

  type Pair = (int, Market)

  function Name(m: Market): string {
    match m
    case CardKingdom => "cardkingdom"
    case CardMarket => "cardmarket"
    case StarCity => "starcity"
    case Tcg => "tcg"
  }

  /** The place of a market's name in string order. */
  function Rank(m: Market): nat {
    match m
    case CardKingdom => 0
    case CardMarket => 1
    case StarCity => 2
    case Tcg => 3
  }

  function Markets(t: Tier): seq<Market> {
    match t
    case Tier1 => [Tcg, CardMarket, CardKingdom, StarCity]
    case Tier2 => [Tcg, CardMarket]
    case Tier3 => [Tcg]
  }

  /** How a tier's work-list is spread: over so many days, in so many slots each. */
  datatype Window = Window(days: nat, slots: nat)

  function WindowOf(t: Tier): (w: Window)
    ensures w.days > 0 && w.slots > 0
  {
    match t
    case Tier1 => Window(7, 4)
    case Tier2 => Window(14, 1)
    case Tier3 => Window(30, 1)
  }

  function TotalSlots(w: Window): nat {
    w.days * w.slots
  }

  ghost predicate Proper(w: Window) {
    w.days > 0 && w.slots > 0 && TotalSlots(w) > 0
  }

  lemma TiersAreProper(t: Tier)
    ensures Proper(WindowOf(t))
  {
  }

  // ---------------------------------------------------------------- the work-list

  predicate StringLess(a: string, b: string) {
    if b == "" then false
    else if a == "" then true
    else a[0] < b[0] || (a[0] == b[0] && StringLess(a[1..], b[1..]))
  }

  lemma {:induction false} CommonPrefix(a: string, b: string, n: nat)
    requires n <= |a| && n <= |b| && a[..n] == b[..n]
    ensures StringLess(a, b) == StringLess(a[n..], b[n..])
  {
    if n > 0 {
      assert a[0] == a[..n][0] && b[0] == b[..n][0];
      assert a[1..][..n - 1] == a[..n][1..] && b[1..][..n - 1] == b[..n][1..];
      CommonPrefix(a[1..], b[1..], n - 1);
      assert a[1..][n - 1..] == a[n..] && b[1..][n - 1..] == b[n..];
    }
  }

  lemma DifferAt(a: string, b: string, n: nat)
    requires n < |a| && n < |b| && a[..n] == b[..n] && a[n] < b[n]
    ensures StringLess(a, b) && !StringLess(b, a)
  {
    CommonPrefix(a, b, n);
    CommonPrefix(b, a, n);
  }

  lemma CardNames()
    ensures StringLess("cardkingdom", "cardmarket") && !StringLess("cardmarket", "cardkingdom")
  {
    assert "cardkingdom"[..4] == "card" && "cardmarket"[..4] == "card";
    DifferAt("cardkingdom", "cardmarket", 4);
  }

  /** `Rank` is the order of the names themselves. */
  lemma RankIsNameOrder(a: Market, b: Market)
    ensures Rank(a) < Rank(b) <==> StringLess(Name(a), Name(b))
  {
    if a == b {
      CommonPrefix(Name(a), Name(a), |Name(a)|);
    } else if (a.CardKingdom? && b.CardMarket?) || (a.CardMarket? && b.CardKingdom?) {
      CardNames();
    } else {
      assert Name(a)[0] != Name(b)[0];
    }
  }

  /** A key whose order is the tuple order of (print id, market name). */
  function PairKey(p: Pair): int {
    p.0 * 4 + Rank(p.1)
  }

  lemma PairKeyIsTupleOrder(p: Pair, q: Pair)
    ensures PairKey(p) < PairKey(q) <==>
      p.0 < q.0 || (p.0 == q.0 && StringLess(Name(p.1), Name(q.1)))
    ensures PairKey(p) == PairKey(q) ==> p == q
  {
    RankIsNameOrder(p.1, q.1);
  }

  lemma PairKeyInjective()
    ensures Injective(PairKey)
  {
  }

  function WithMarkets(id: int, ms: seq<Market>): seq<Pair> {
    if ms == [] then [] else [(id, ms[0])] + WithMarkets(id, ms[1..])
  }

  function Cross(ids: seq<int>, ms: seq<Market>): seq<Pair> {
    if ids == [] then [] else WithMarkets(ids[0], ms) + Cross(ids[1..], ms)
  }

  function SortIds(ids: seq<int>): seq<int> {
    SortBy((x: int) => x, ids)
  }

  function WorkList(ids: seq<int>, t: Tier): seq<Pair> {
    SortBy(PairKey, Cross(SortIds(ids), Markets(t)))
  }

  lemma {:induction false} WithMarketsCount(id: int, ms: seq<Market>, p: Pair)
    ensures multiset(WithMarkets(id, ms))[p] == if p.0 == id then multiset(ms)[p.1] else 0
  {
    if ms != [] {
      WithMarketsCount(id, ms[1..], p);
      assert ms == [ms[0]] + ms[1..];
    }
  }

  lemma {:induction false} CrossCount(ids: seq<int>, ms: seq<Market>, p: Pair)
    requires multiset(ms)[p.1] == if p.1 in ms then 1 else 0
    ensures multiset(Cross(ids, ms))[p] == if p.1 in ms then multiset(ids)[p.0] else 0
  {
    if ids != [] {
      CrossCount(ids[1..], ms, p);
      WithMarketsCount(ids[0], ms, p);
      assert ids == [ids[0]] + ids[1..];
    }
  }

  lemma MarketsDistinct(t: Tier, m: Market)
    ensures multiset(Markets(t))[m] == if m in Markets(t) then 1 else 0
  {
  }

  /** The work-list holds every pair as often as its print id was listed. */
  lemma WorkListCount(ids: seq<int>, t: Tier, p: Pair)
    ensures multiset(WorkList(ids, t))[p] == if p.1 in Markets(t) then multiset(ids)[p.0] else 0
  {
    var sorted := SortIds(ids);
    assert multiset(sorted) == multiset(ids) by {
      SortByIsSort((x: int) => x, ids);
    }
    MarketsDistinct(t, p.1);
    CrossCount(sorted, Markets(t), p);
    SortByIsSort(PairKey, Cross(sorted, Markets(t)));
  }

  /** The same ids in any order give the same work-list, so separate days cut the same list. */
  lemma WorkListIgnoresOrder(ids: seq<int>, ids': seq<int>, t: Tier)
    requires multiset(ids) == multiset(ids')
    ensures WorkList(ids, t) == WorkList(ids', t)
  {
    SortIgnoresOrder((x: int) => x, ids, ids');
  }

  /** The list is the sorted pairs of the tier: sorting the ids first makes no difference. */
  lemma WorkListIsTheSortedPairs(pairs: seq<Pair>, ids: seq<int>, t: Tier)
    requires forall p :: multiset(pairs)[p] == if p.1 in Markets(t) then multiset(ids)[p.0] else 0
    ensures WorkList(ids, t) == SortBy(PairKey, pairs)
  {
    var crossed := Cross(SortIds(ids), Markets(t));
    forall p ensures multiset(crossed)[p] == multiset(pairs)[p] {
      WorkListCount(ids, t, p);
      SortByIsSort(PairKey, crossed);
    }
    assert multiset(crossed) == multiset(pairs);
    PairKeyInjective();
    SortIgnoresOrder(PairKey, crossed, pairs);
  }

  // ---------------------------------------------------------------- the slices

  /** Slots counted from the epoch. */
  function Tick(w: Window, day: int, slot: int): int {
    day * w.slots + slot
  }

  lemma Multiples(size: nat, rest: nat, k: nat)
    ensures 0 <= k * size
    ensures (k + 1) * size == k * size + size
    ensures (rest + k + 1) * size == rest * size + k * size + size
    ensures 0 <= rest * size
  {
  }

  lemma StartInRange(len: nat, n: nat, k: nat)
    requires 0 < n && k < n
    ensures 0 <= k * (len / n) <= (k + 1) * (len / n) <= len
  {
    Multiples(len / n, n - k - 1, k);
    assert len == n * (len / n) + len % n;
  }

  /** Where slice k of n starts in a list of `len`; slice n-1 runs to the end. */
  function Start(len: nat, n: nat, k: nat): (i: nat)
    requires n > 0 && k <= n
    ensures i <= len
  {
    if k == n then len
    else
      StartInRange(len, n, k);
      k * (len / n)
  }

  lemma StartIncreases(len: nat, n: nat, k: nat)
    requires 0 < n && k < n
    ensures Start(len, n, k) <= Start(len, n, k + 1)
  {
    StartInRange(len, n, k);
  }

  /** The slice of `pairs` that is due at a tick, of n slices in all. */
  function SliceAt(pairs: seq<Pair>, n: nat, tick: int): seq<Pair>
    requires n > 0
  {
    var k := tick % n;
    StartIncreases(|pairs|, n, k);
    pairs[Start(|pairs|, n, k)..Start(|pairs|, n, k + 1)]
  }

  function SlicePairs(ids: seq<int>, t: Tier, slot: int, day: int): seq<Pair> {
    var pairs, w := WorkList(ids, t), WindowOf(t);
    if pairs == [] then [] else SliceAt(pairs, TotalSlots(w), Tick(w, day, slot))
  }

  /** No slice is longer than the regular size by more than the number of slices less one. */
  lemma SliceAtSize(pairs: seq<Pair>, n: nat, tick: int)
    requires n > 0
    ensures |pairs| / n <= |SliceAt(pairs, n, tick)| <= |pairs| / n + n - 1
  {
    var k, size := tick % n, |pairs| / n;
    StartInRange(|pairs|, n, k);
    assert (k + 1) * size == k * size + size;
    assert k == n - 1 ==> k * size == n * size - size;
  }

  lemma SliceSize(ids: seq<int>, t: Tier, slot: int, day: int)
    ensures
      var n, size := TotalSlots(WindowOf(t)), |WorkList(ids, t)| / TotalSlots(WindowOf(t));
      size <= |SlicePairs(ids, t, slot, day)| <= size + n - 1
  {
    var w := WindowOf(t);
    SliceAtSize(WorkList(ids, t), TotalSlots(w), Tick(w, day, slot));
  }

  // ---------------------------------------------------------------- a whole window

  /** What each slot of each day computes: a function of slot and day. */
  function SlicesOf(ids: seq<int>, t: Tier): (int, int) -> seq<Pair> {
    (slot, day) => SlicePairs(ids, t, slot, day)
  }

  /** What the first `slots` slots of one day refresh. */
  function DayRefresh(slice: (int, int) -> seq<Pair>, day: int, slots: nat): seq<Pair> {
    if slots == 0 then [] else DayRefresh(slice, day, slots - 1) + slice(slots - 1, day)
  }

  /** What `days` consecutive days refresh, all slots of each. */
  function DaysRefresh(slice: (int, int) -> seq<Pair>, day: int, days: nat, slots: nat): seq<Pair> {
    if days == 0 then [] else DaysRefresh(slice, day, days - 1, slots) + DayRefresh(slice, day + days - 1, slots)
  }

  /** What the k consecutive ticks from g refresh, one after the other. */
  function Ticks(due: int -> seq<Pair>, g: int, k: nat): seq<Pair> {
    if k == 0 then [] else Ticks(due, g, k - 1) + due(g + k - 1)
  }

  lemma {:induction false} TicksCompose(due: int -> seq<Pair>, g: int, j: nat, k: nat)
    ensures Ticks(due, g, j + k) == Ticks(due, g, j) + Ticks(due, g + j, k)
  {
    if k > 0 {
      TicksCompose(due, g, j, k - 1);
    }
  }

  lemma {:induction false} DayIsTicks(
      slice: (int, int) -> seq<Pair>, day: int, slots: nat, due: int -> seq<Pair>, g: int)
    requires forall slot :: 0 <= slot < slots ==> slice(slot, day) == due(g + slot)
    ensures DayRefresh(slice, day, slots) == Ticks(due, g, slots)
  {
    if slots > 0 {
      DayIsTicks(slice, day, slots - 1, due, g);
      assert slice(slots - 1, day) == due(g + (slots - 1));
    }
  }

  /** How many slots `days` days have. */
  function Elapsed(days: nat, slots: nat): nat {
    if days == 0 then 0 else Elapsed(days - 1, slots) + slots
  }

  lemma {:induction false} ElapsedIsProduct(days: nat, slots: nat)
    ensures Elapsed(days, slots) == days * slots
  {
    if days > 0 {
      ElapsedIsProduct(days - 1, slots);
    }
  }

  ghost predicate OnTurn(
      slice: (int, int) -> seq<Pair>, day: int, slots: nat, due: int -> seq<Pair>, g: int, i: nat, slot: nat)
  {
    slice(slot, day + i) == due(g + Elapsed(i, slots) + slot)
  }

  /** Every day's slots are due one after the other, and the days follow each other. */
  ghost predicate InTurn(
      slice: (int, int) -> seq<Pair>, day: int, days: nat, slots: nat, due: int -> seq<Pair>, g: int)
  {
    forall i: nat, slot: nat :: i < days && slot < slots ==> OnTurn(slice, day, slots, due, g, i, slot)
  }

  lemma LastDayIsTicks(slice: (int, int) -> seq<Pair>, day: int, days: nat, slots: nat, due: int -> seq<Pair>, g: int)
    requires days > 0 && InTurn(slice, day, days, slots, due, g)
    ensures DayRefresh(slice, day + days - 1, slots) == Ticks(due, g + Elapsed(days - 1, slots), slots)
  {
    var i, last, start := days - 1, day + days - 1, g + Elapsed(days - 1, slots);
    forall slot | 0 <= slot < slots ensures slice(slot, last) == due(start + slot) {
      assert OnTurn(slice, day, slots, due, g, i, slot);
      assert day + i == last;
    }
    DayIsTicks(slice, last, slots, due, start);
  }

  lemma {:induction false} DaysAreTicks(
      slice: (int, int) -> seq<Pair>, day: int, days: nat, slots: nat, due: int -> seq<Pair>, g: int)
    requires InTurn(slice, day, days, slots, due, g)
    ensures DaysRefresh(slice, day, days, slots) == Ticks(due, g, Elapsed(days, slots))
  {
    if days > 0 {
      DaysAreTicks(slice, day, days - 1, slots, due, g);
      LastDayIsTicks(slice, day, days, slots, due, g);
      TicksCompose(due, g, Elapsed(days - 1, slots), slots);
    }
  }

  lemma {:induction false} StartsOrdered(len: nat, n: nat, j: nat, k: nat)
    requires n > 0 && j <= k <= n
    ensures Start(len, n, j) <= Start(len, n, k)
  {
    if j < k {
      StartsOrdered(len, n, j, k - 1);
      StartIncreases(len, n, k - 1);
    }
  }

  /** The pairs of `k` consecutive slices starting at slice a and wrapping past the end. */
  function Wrapped(pairs: seq<Pair>, n: nat, a: nat, k: nat): seq<Pair>
    requires a < n && k <= n
  {
    StartsOrdered(|pairs|, n, a, if a + k <= n then a + k else n);
    if a + k <= n then pairs[Start(|pairs|, n, a)..Start(|pairs|, n, a + k)]
    else pairs[Start(|pairs|, n, a)..] + pairs[..Start(|pairs|, n, a + k - n)]
  }

  lemma MultipleAtLeast(d: int, n: nat)
    requires d >= 1
    ensures d * n >= n
  {
    assert (d - 1) * n >= 0;
  }

  lemma ModUnique(x: int, q: int, r: int, n: nat)
    requires 0 <= r < n && x == q * n + r
    ensures x % n == r
  {
    var d := x / n - q;
    assert d * n == r - x % n;
    if d > 0 {
      MultipleAtLeast(d, n);
    } else if d < 0 {
      MultipleAtLeast(-d, n);
    }
  }

  lemma ModAdd(g: int, k: nat, n: nat)
    requires 0 < n && k < n
    ensures (g + k) % n == if g % n + k < n then g % n + k else g % n + k - n
  {
    var a, q := g % n, g / n;
    assert g == q * n + a;
    if a + k < n {
      ModUnique(g + k, q, a + k, n);
    } else {
      assert (q + 1) * n == q * n + n;
      ModUnique(g + k, q + 1, a + k - n, n);
    }
  }

  /** The slice due at each tick. */
  function Due(pairs: seq<Pair>, n: nat): int -> seq<Pair>
    requires n > 0
  {
    tick => SliceAt(pairs, n, tick)
  }

  lemma WrappedStep(pairs: seq<Pair>, n: nat, a: nat, k: nat, next: int)
    requires a < n && k < n && next % n == if a + k < n then a + k else a + k - n
    ensures Wrapped(pairs, n, a, k + 1) == Wrapped(pairs, n, a, k) + SliceAt(pairs, n, next)
  {
    StartIncreases(|pairs|, n, next % n);
    StartsOrdered(|pairs|, n, a, if a + k <= n then a + k else n);
  }

  lemma NothingWrapped(pairs: seq<Pair>, n: nat, a: nat)
    requires a < n
    ensures Wrapped(pairs, n, a, 0) == []
  {
  }

  lemma {:induction false} TicksAreWrapped(pairs: seq<Pair>, n: nat, g: int, k: nat)
    requires 0 < n && k <= n
    ensures Ticks(Due(pairs, n), g, k) == Wrapped(pairs, n, g % n, k)
  {
    if k == 0 {
      NothingWrapped(pairs, n, g % n);
    } else {
      TicksAreWrapped(pairs, n, g, k - 1);
      ModAdd(g, k - 1, n);
      WrappedStep(pairs, n, g % n, k - 1, g + k - 1);
    }
  }

  lemma NothingToSlice(n: nat, tick: int)
    requires n > 0
    ensures SliceAt([], n, tick) == []
  {
  }

  /** A slot computes the slice that is due at its tick. */
  lemma SliceOfTick(ids: seq<int>, t: Tier, slot: int, day: int, n: nat, g: int)
    requires n == TotalSlots(WindowOf(t)) > 0 && g == Tick(WindowOf(t), day, slot)
    ensures SlicePairs(ids, t, slot, day) == SliceAt(WorkList(ids, t), n, g)
  {
    if WorkList(ids, t) == [] {
      NothingToSlice(n, g);
    }
  }

  lemma FullWrap(pairs: seq<Pair>, n: nat, a: nat)
    requires a < n
    ensures Wrapped(pairs, n, a, n) == pairs[Start(|pairs|, n, a)..] + pairs[..Start(|pairs|, n, a)]
  {
  }

  lemma Turned<T>(s: seq<T>, cut: nat)
    requires cut <= |s|
    ensures multiset(s[cut..] + s[..cut]) == multiset(s)
  {
    assert s == s[..cut] + s[cut..];
  }

  /** A full round of ticks is the list itself, turned. */
  lemma FullRound(pairs: seq<Pair>, n: nat, g: int)
    requires n > 0
    ensures multiset(Ticks(Due(pairs, n), g, n)) == multiset(pairs)
  {
    TicksAreWrapped(pairs, n, g, n);
    FullWrap(pairs, n, g % n);
    Turned(pairs, Start(|pairs|, n, g % n));
  }

  lemma TickLater(w: Window, day: int, i: nat, slot: nat)
    ensures Tick(w, day + i, slot) == Tick(w, day, 0) + i * w.slots + slot
  {
  }

  lemma SlotOfWindow(
      ids: seq<int>, t: Tier, day: int, i: nat, slot: nat, w: Window, n: nat,
      slice: (int, int) -> seq<Pair>, due: int -> seq<Pair>)
    requires w == WindowOf(t) && n == TotalSlots(w) > 0
    requires slice == SlicesOf(ids, t) && due == Due(WorkList(ids, t), n)
    ensures OnTurn(slice, day, w.slots, due, Tick(w, day, 0), i, slot)
  {
    ElapsedIsProduct(i, w.slots);
    TickLater(w, day, i, slot);
    SliceOfTick(ids, t, slot, day + i, n, Tick(w, day + i, slot));
  }

  lemma WindowInTurn(
      ids: seq<int>, t: Tier, day: int, w: Window, n: nat, slice: (int, int) -> seq<Pair>, due: int -> seq<Pair>)
    requires w == WindowOf(t) && n == TotalSlots(w) > 0
    requires slice == SlicesOf(ids, t) && due == Due(WorkList(ids, t), n)
    ensures InTurn(slice, day, w.days, w.slots, due, Tick(w, day, 0))
  {
    forall i: nat, slot: nat ensures OnTurn(slice, day, w.slots, due, Tick(w, day, 0), i, slot) {
      SlotOfWindow(ids, t, day, i, slot, w, n, slice, due);
    }
  }

  /** The window's slots are total_slots consecutive ticks. */
  lemma WindowIsTicks(ids: seq<int>, t: Tier, day: int)
    ensures
      var w, n := WindowOf(t), TotalSlots(WindowOf(t));
      n > 0 && DaysRefresh(SlicesOf(ids, t), day, w.days, w.slots) ==
        Ticks(Due(WorkList(ids, t), n), Tick(w, day, 0), n)
  {
    TiersAreProper(t);
    var w, n := WindowOf(t), TotalSlots(WindowOf(t));
    var slice, due := SlicesOf(ids, t), Due(WorkList(ids, t), n);
    WindowInTurn(ids, t, day, w, n, slice, due);
    DaysAreTicks(slice, day, w.days, w.slots, due, Tick(w, day, 0));
    ElapsedIsProduct(w.days, w.slots);
  }

  /** Every slot of any `window_days` consecutive days, from any day before or after the
      epoch, refreshes each (print id, market) pair of the tier exactly as often as the
      print id is listed: once when the ids are distinct. */
  lemma ExactlyOncePerWindow(ids: seq<int>, t: Tier, day: int, p: Pair)
    ensures multiset(DaysRefresh(SlicesOf(ids, t), day, WindowOf(t).days, WindowOf(t).slots))[p] ==
            if p.1 in Markets(t) then multiset(ids)[p.0] else 0
  {
    TiersAreProper(t);
    var w, n := WindowOf(t), TotalSlots(WindowOf(t));
    WindowIsTicks(ids, t, day);
    FullRound(WorkList(ids, t), n, Tick(w, day, 0));
    WorkListCount(ids, t, p);
  }

  // ---------------------------------------------------------------- recurrence

  ghost predicate Distinct<T(!new)>(s: seq<T>) {
    forall x :: multiset(s)[x] <= 1
  }

  lemma TwoCopies<T>(s: seq<T>, i: nat, j: nat)
    requires i < j < |s| && s[i] == s[j]
    ensures multiset(s)[s[i]] >= 2
  {
    assert s == s[..j] + [s[j]] + s[j + 1..];
    assert s[..j][i] == s[j];
  }

  lemma WorkListDistinct(ids: seq<int>, t: Tier)
    requires Distinct(ids)
    ensures Distinct(WorkList(ids, t))
  {
    forall p ensures multiset(WorkList(ids, t))[p] <= 1 {
      WorkListCount(ids, t, p);
    }
  }

  lemma Regroup(q: int, w: int, r: int, s: int)
    ensures (q * w + r) * s == q * (w * s) + r * s
  {
    assert (q * w) * s == q * (w * s);
  }

  lemma Product3(d: nat, r: nat, s: nat)
    ensures d * s >= 0 && r * s >= 0
    ensures (d + 1 + r) * s == d * s + s + r * s
  {
  }

  lemma ScaleBounds(r: int, w: int, s: nat)
    requires 0 <= r < w
    ensures 0 <= r * s <= w * s - s
  {
    Product3(w - 1 - r, r, s);
  }

  lemma PhaseOfTick(day: int, slot: int, w: nat, s: nat)
    requires 0 <= slot < s && w > 0
    ensures 0 <= day % w * s + slot < w * s
    ensures (day * s + slot) % (w * s) == day % w * s + slot
  {
    var q, r := day / w, day % w;
    Regroup(q, w, r, s);
    ScaleBounds(r, w, s);
    ModUnique(day * s + slot, q, r * s + slot, w * s);
  }

  lemma SamePhaseMod(day: int, day': int, w: nat)
    requires w > 0
    ensures day % w == day' % w <==> (day' - day) % w == 0
  {
    if day % w == day' % w {
      assert day' - day == (day' / w - day / w) * w;
      ModUnique(day' - day, day' / w - day / w, 0, w);
    } else if (day' - day) % w == 0 {
      var q := (day' - day) / w;
      assert day' == (day / w + q) * w + day % w;
      ModUnique(day', day / w + q, day % w, w);
    }
  }

  lemma MixedRadix(r: int, slot: int, r': int, slot': int, s: nat)
    requires 0 <= slot < s && 0 <= slot' < s
    ensures r * s + slot == r' * s + slot' <==> r == r' && slot == slot'
  {
    var d := r - r';
    assert r * s - r' * s == d * s;
    if d > 0 {
      MultipleAtLeast(d, s);
    } else if d < 0 {
      MultipleAtLeast(-d, s);
    }
  }

  lemma SameSliceIffSamePhase(w: Window, day: int, slot: nat, day': int, slot': nat)
    requires Proper(w) && slot < w.slots && slot' < w.slots
    ensures Tick(w, day, slot) % TotalSlots(w) == Tick(w, day', slot') % TotalSlots(w) <==>
            slot == slot' && (day' - day) % w.days == 0
  {
    PhaseOfTick(day, slot, w.days, w.slots);
    PhaseOfTick(day', slot', w.days, w.slots);
    SamePhaseMod(day, day', w.days);
    MixedRadix(day % w.days, slot, day' % w.days, slot', w.slots);
  }

  /** Different slices of a duplicate-free list share no element. */
  lemma SlicesDisjoint(pairs: seq<Pair>, n: nat, x: int, y: int, p: Pair)
    requires n > 0 && Distinct(pairs) && x % n < y % n
    ensures !(p in SliceAt(pairs, n, x) && p in SliceAt(pairs, n, y))
  {
    var j, k := x % n, y % n;
    StartIncreases(|pairs|, n, j);
    StartIncreases(|pairs|, n, k);
    StartsOrdered(|pairs|, n, j + 1, k);
    var one, two := SliceAt(pairs, n, x), SliceAt(pairs, n, y);
    forall i, i' | 0 <= i < |one| && 0 <= i' < |two| ensures one[i] != two[i'] {
      if one[i] == two[i'] {
        TwoCopies(pairs, Start(|pairs|, n, j) + i, Start(|pairs|, n, k) + i');
      }
    }
  }

  lemma SameOrDisjoint(pairs: seq<Pair>, n: nat, x: int, y: int, p: Pair)
    requires n > 0 && Distinct(pairs) && p in SliceAt(pairs, n, x)
    ensures p in SliceAt(pairs, n, y) <==> x % n == y % n
  {
    if x % n < y % n {
      SlicesDisjoint(pairs, n, x, y, p);
    } else if y % n < x % n {
      SlicesDisjoint(pairs, n, y, x, p);
    }
  }

  /** With distinct ids, a refreshed pair comes round again in the same slot of every
      window-th day, and at no other time. */
  lemma ReturnsExactlyEachWindow(ids: seq<int>, t: Tier, p: Pair, day: int, slot: nat, day': int, slot': nat)
    requires Distinct(ids) && slot < WindowOf(t).slots && slot' < WindowOf(t).slots
    requires p in SlicePairs(ids, t, slot, day)
    ensures p in SlicePairs(ids, t, slot', day') <==>
            slot == slot' && (day' - day) % WindowOf(t).days == 0
  {
    TiersAreProper(t);
    var pairs, w, n := WorkList(ids, t), WindowOf(t), TotalSlots(WindowOf(t));
    var g, g' := Tick(w, day, slot), Tick(w, day', slot');
    SliceOfTick(ids, t, slot, day, n, g);
    SliceOfTick(ids, t, slot', day', n, g');
    SameSliceIffSamePhase(w, day, slot, day', slot');
    WorkListDistinct(ids, t);
    SameOrDisjoint(pairs, n, g, g', p);
  }

  // ---------------------------------------------------------------- which slot refreshes which pair

  lemma DivideBetween(i: nat, size: nat, k: nat)
    requires size > 0
    ensures i / size == k <==> k * size <= i < (k + 1) * size
  {
    var q := i / size;
    assert i == q * size + i % size && (k + 1) * size == k * size + size;
    if q < k {
      MultipleAtLeast(k - q, size);
      assert (k - q) * size == k * size - q * size;
    } else if q > k {
      MultipleAtLeast(q - k, size);
      assert (q - k) * size == q * size - k * size;
    }
  }

  lemma LastFrom(i: nat, size: nat, k: nat)
    requires size > 0
    ensures i / size >= k <==> k * size <= i
  {
    DivideBetween(i, size, i / size);
    var d := i / size - k;
    assert d * size == i / size * size - k * size;
    if d < 0 {
      MultipleAtLeast(-d, size);
    }
  }

  /** The slices have `size` pairs each, and the last one also has the rest. */
  lemma PositionInSlice(len: nat, n: nat, i: nat, k: nat)
    requires n > 0 && i < len && k < n
    ensures
      var size := len / n;
      Start(len, n, k) <= i < Start(len, n, k + 1) <==>
        k == if size == 0 || i / size >= n - 1 then n - 1 else i / size
  {
    var size := len / n;
    StartInRange(len, n, k);
    if size > 0 {
      DivideBetween(i, size, k);
      LastFrom(i, size, n - 1);
      LastFrom(i, size, k);
    } else {
      assert k * size == 0 && (k + 1) * size == 0;
    }
  }

  lemma AtPosition(pairs: seq<Pair>, n: nat, tick: int, i: nat)
    requires n > 0 && i < |pairs|
    requires Start(|pairs|, n, tick % n) <= i < Start(|pairs|, n, tick % n + 1)
    ensures pairs[i] in SliceAt(pairs, n, tick)
  {
    assert SliceAt(pairs, n, tick)[i - Start(|pairs|, n, tick % n)] == pairs[i];
  }

  lemma OnlyAtPosition(pairs: seq<Pair>, n: nat, tick: int, i: nat)
    requires n > 0 && i < |pairs| && Distinct(pairs) && pairs[i] in SliceAt(pairs, n, tick)
    ensures Start(|pairs|, n, tick % n) <= i < Start(|pairs|, n, tick % n + 1)
  {
    var slice, first := SliceAt(pairs, n, tick), Start(|pairs|, n, tick % n);
    var j :| 0 <= j < |slice| && slice[j] == pairs[i];
    if first + j < i {
      TwoCopies(pairs, first + j, i);
    } else if i < first + j {
      TwoCopies(pairs, i, first + j);
    }
  }

  lemma PairAtPosition(pairs: seq<Pair>, n: nat, tick: int, i: nat)
    requires n > 0 && i < |pairs|
    ensures
      var size := |pairs| / n;
      var due := tick % n == if size == 0 || i / size >= n - 1 then n - 1 else i / size;
      (due ==> pairs[i] in SliceAt(pairs, n, tick)) && (Distinct(pairs) && pairs[i] in SliceAt(pairs, n, tick) ==> due)
  {
    PositionInSlice(|pairs|, n, i, tick % n);
    if Start(|pairs|, n, tick % n) <= i < Start(|pairs|, n, tick % n + 1) {
      AtPosition(pairs, n, tick, i);
    } else if Distinct(pairs) && pairs[i] in SliceAt(pairs, n, tick) {
      OnlyAtPosition(pairs, n, tick, i);
    }
  }

  /** Which slot of which day refreshes the pair at position i of the work-list: the list is
      cut into 28 equal parts for tier 1, 14 for tier 2 and 30 for tier 3, the last of which
      also takes the remainder, and the parts are due one a slot, from the first part in the
      first slot of the epoch's day on. */
  lemma SlotOfPosition(ids: seq<int>, t: Tier, i: nat, slot: int, day: int)
    requires i < |WorkList(ids, t)|
    ensures
      var parts := if t == Tier1 then 28 else if t == Tier2 then 14 else 30;
      var size := |WorkList(ids, t)| / parts;
      var part := if size == 0 || i / size >= parts - 1 then parts - 1 else i / size;
      var due := (if t == Tier1 then day * 4 + slot else day + slot) % parts == part;
      && (due ==> WorkList(ids, t)[i] in SlicePairs(ids, t, slot, day))
      && (Distinct(ids) && WorkList(ids, t)[i] in SlicePairs(ids, t, slot, day) ==> due)
  {
    var w := WindowOf(t);
    var n, g := TotalSlots(w), Tick(w, day, slot);
    assert n == if t == Tier1 then 28 else if t == Tier2 then 14 else 30;
    assert g == if t == Tier1 then day * 4 + slot else day + slot;
    PairAtPosition(WorkList(ids, t), n, g, i);
    if Distinct(ids) {
      WorkListDistinct(ids, t);
    }
  }

  lemma TierHas(t: Tier, m: Market)
    ensures m in Markets(t) <==> t == Tier1 || m == Tcg || (t == Tier2 && m == CardMarket)
  {
    var all := Markets(Tier1);
    assert all[0] == Tcg && all[1] == CardMarket && all[2] == CardKingdom && all[3] == StarCity;
    assert Markets(Tier2)[0] == Tcg && Markets(Tier2)[1] == CardMarket && Markets(Tier3)[0] == Tcg;
  }

  /** Tier 1 covers all four markets, tier 2 two of them, tier 3 one. */
  lemma TierCovers(ids: seq<int>, t: Tier, p: Pair)
    ensures p in WorkList(ids, t) <==>
      p.0 in ids && (t == Tier1 || p.1 == Tcg || (t == Tier2 && p.1 == CardMarket))
  {
    WorkListCount(ids, t, p);
    assert p in WorkList(ids, t) <==> multiset(WorkList(ids, t))[p] > 0;
    assert p.0 in ids <==> multiset(ids)[p.0] > 0;
    TierHas(t, p.1);
  }
}
