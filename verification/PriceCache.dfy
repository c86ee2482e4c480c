/** The read-through price cache `_fetch_prices_for_cards`
    (src/automana/core/repositories/card_catalog/card_repository.py). A call asks Redis
    first, the price view for what Redis lacks, and writes what it found back for a day.
    Redis may fail to answer, hold bytes that do not decode, or lose any part of a write;
    the view may change, and the query on it may fail. */
module PriceCache {
  import opened Options

  const TTL: real := 86400.0

  type Id = string

  /** A row of the price view. */
  datatype Row = Row(price: Option<real>, day: Option<real>, week: Option<real>, month: Option<real>,
                     spark: Option<seq<real>>)

  datatype Price = Price(price: Option<real>, day: real, week: real, month: real, spark: seq<real>, finish: string)

  function OrZero(o: Option<real>): real {
    if o.Some? then o.value else 0.0
  }

  function Project(r: Row): Price {
    var spark := if r.spark.Some? then r.spark.value else [];
    Price(r.price, OrZero(r.day), OrZero(r.week), OrZero(r.month), spark, "non-foil")
  }

  /** What a card without a row gets. */
  function PriceDefaults(): Price {
    Price(None, 0.0, 0.0, 0.0, [], "non-foil")
  }

  /** Every column that is there is shown, and rows that differ in one are told apart; a
      missing price stays missing, missing changes read as zero and a missing spark as empty,
      so a row of nothing reads like no row. */
  lemma ProjectShowsColumns(price: Option<real>, d: real, w: real, m: real, spark: seq<real>, r: Row)
    ensures Project(Row(price, Some(d), Some(w), Some(m), Some(spark))) == Price(price, d, w, m, spark, "non-foil")
    ensures Project(Row(None, None, None, None, None)) == PriceDefaults()
    ensures Project(r) == Project(r.(day := if r.day.None? then Some(0.0) else r.day))
    ensures Project(r) == Project(r.(week := if r.week.None? then Some(0.0) else r.week))
    ensures Project(r) == Project(r.(month := if r.month.None? then Some(0.0) else r.month))
    ensures Project(r) == Project(r.(spark := if r.spark.None? then Some([]) else r.spark))
  {
  }

  /** A cached entry; `value` is None when its bytes do not decode. */
  datatype Cell = Cell(value: Option<Price>, expires: real)

  /** The view as it was from an instant on, until the next version. */
  datatype Version = Version(since: real, table: map<Id, Row>)

  datatype World = World(now: real, table: map<Id, Row>, redis: map<Id, Cell>, past: seq<Version>)

  // ---------------------------------------------------------------- one call

  predicate Cached(w: World, id: Id) {
    id in w.redis && w.now < w.redis[id].expires
  }

  /** What reading the cached values in order yields; it stops at the first that does not decode. */
  datatype Scan = Scan(hits: map<Id, Price>, missing: seq<Id>, decoded: bool)

  function ScanCache(w: World, ids: seq<Id>): Scan {
    if ids == [] then Scan(map[], [], true)
    else
      var before, id := ScanCache(w, ids[..|ids| - 1]), ids[|ids| - 1];
      if !before.decoded then before
      else if !Cached(w, id) then before.(missing := before.missing + [id])
      else if w.redis[id].value.None? then before.(decoded := false)
      else before.(hits := before.hits[id := w.redis[id].value.value])
  }

  /** What a call gets from the cache, and the ids it then asks the view for. */
  function Hits(w: World, ids: seq<Id>, readFails: bool): map<Id, Price> {
    if readFails then map[] else ScanCache(w, ids).hits
  }

  function Missing(w: World, ids: seq<Id>, readFails: bool): seq<Id> {
    if readFails || !ScanCache(w, ids).decoded then ids else ScanCache(w, ids).missing
  }

  function FromView(w: World, missing: seq<Id>): map<Id, Price> {
    map id | id in missing && id in w.table :: Project(w.table[id])
  }

  /** None when the query on the view was needed and failed: the call raises. */
  function FetchResult(w: World, ids: seq<Id>, readFails: bool, queryFails: bool): Option<map<Id, Price>> {
    var missing := Missing(w, ids, readFails);
    if missing == [] then Some(Hits(w, ids, readFails))
    else if queryFails then None
    else Some(Hits(w, ids, readFails) + FromView(w, missing))
  }

  function WriteBack(redis: map<Id, Cell>, now: real, loaded: map<Id, Price>, kept: set<Id>): map<Id, Cell> {
    redis + map id | id in loaded && id in kept :: Cell(Some(loaded[id]), now + TTL)
  }

  /** The cache afterwards; `kept` says which of the written entries actually got there. */
  function FetchRedis(w: World, ids: seq<Id>, readFails: bool, queryFails: bool, kept: set<Id>): map<Id, Cell> {
    if queryFails then w.redis
    else
      WriteBack(w.redis, w.now, FromView(w, Missing(w, ids, readFails)), kept)
  }

  lemma {:induction false} ScanIsSound(w: World, ids: seq<Id>, id: Id)
    ensures
      var s := ScanCache(w, ids);
      && (id in s.hits ==> id in ids && Cached(w, id) && w.redis[id].value == Some(s.hits[id]))
      && (id in s.missing ==> id in ids && !Cached(w, id))
      && (s.decoded && id in ids ==> id in s.hits || id in s.missing)
  {
    if ids != [] {
      ScanIsSound(w, ids[..|ids| - 1], id);
      assert ids == ids[..|ids| - 1] + [ids[|ids| - 1]];
    }
  }

  /** The call raises iff it needed the view and the query failed. */
  lemma RaisesIff(w: World, ids: seq<Id>, readFails: bool, queryFails: bool)
    ensures FetchResult(w, ids, readFails, queryFails).None? <==> queryFails && Missing(w, ids, readFails) != []
  {
  }

  /** An entry that is there, but whose bytes do not decode. */
  predicate Broken(w: World, id: Id) {
    Cached(w, id) && w.redis[id].value.None?
  }

  function NotCached(w: World, ids: seq<Id>): seq<Id> {
    if ids == [] then []
    else NotCached(w, ids[..|ids| - 1]) + if Cached(w, ids[|ids| - 1]) then [] else [ids[|ids| - 1]]
  }

  lemma {:induction false} ScanStaysStopped(w: World, ids: seq<Id>, n: nat)
    requires n <= |ids| && !ScanCache(w, ids[..n]).decoded
    ensures ScanCache(w, ids) == ScanCache(w, ids[..n])
  {
    if n == |ids| {
      assert ids[..n] == ids;
    } else {
      assert ids[..|ids| - 1][..n] == ids[..n];
      ScanStaysStopped(w, ids[..|ids| - 1], n);
    }
  }

  lemma {:induction false} ScanOfSound(w: World, ids: seq<Id>)
    requires forall id :: id in ids ==> !Broken(w, id)
    ensures
      var s := ScanCache(w, ids);
      s.decoded && s.missing == NotCached(w, ids) && s.hits.Keys == set id | id in ids && Cached(w, id)
  {
    if ids != [] {
      var front, last := ids[..|ids| - 1], ids[|ids| - 1];
      assert ids == front + [last];
      assert last in ids;
      ScanOfSound(w, front);
    }
  }

  /** What reading the cache yields, with n the place of the first broken entry: the cached
      prices before it, and all ids to ask the view for; without a broken entry the ids that
      are not cached, in order; without an answer from Redis nothing, and all ids. */
  lemma ReadingIsExact(w: World, ids: seq<Id>, n: nat)
    requires n <= |ids| && (forall i :: 0 <= i < n ==> !Broken(w, ids[i])) && (n < |ids| ==> Broken(w, ids[n]))
    ensures Hits(w, ids, false).Keys == set id | id in ids[..n] && Cached(w, id)
    ensures forall id :: id in Hits(w, ids, false) ==> w.redis[id].value == Some(Hits(w, ids, false)[id])
    ensures Missing(w, ids, false) == if n < |ids| then ids else NotCached(w, ids)
    ensures Hits(w, ids, true) == map[] && Missing(w, ids, true) == ids
  {
    ScanOfSound(w, ids[..n]);
    if n < |ids| {
      assert ids[..n + 1][..n] == ids[..n];
      ScanStaysStopped(w, ids, n + 1);
    } else {
      assert ids[..n] == ids;
    }
    forall id | id in Hits(w, ids, false) ensures w.redis[id].value == Some(Hits(w, ids, false)[id]) {
      ScanIsSound(w, ids, id);
    }
  }

  /** Exactly the asked-for ids that the view has, or that the cache supplied, are answered,
      with the view's price where the view was asked for it. */
  lemma AnsweredIds(w: World, ids: seq<Id>, readFails: bool, queryFails: bool, id: Id)
    requires FetchResult(w, ids, readFails, queryFails).Some?
    ensures
      var r := FetchResult(w, ids, readFails, queryFails).value;
      && (id in r <==>
           id in ids && (id in Hits(w, ids, readFails) || (id in w.table && id in Missing(w, ids, readFails))))
      && (!queryFails ==> (id in r <==> id in ids && (id in Hits(w, ids, readFails) || id in w.table)))
      && (id in r ==> Cached(w, id) || id in w.table)
      && (id in r ==>
           if id in w.table && id in Missing(w, ids, readFails) then r[id] == Project(w.table[id])
           else Cached(w, id) && w.redis[id].value == Some(r[id]))
  {
    ScanIsSound(w, ids, id);
  }

  lemma MissingAreAsked(w: World, ids: seq<Id>, readFails: bool, id: Id)
    ensures id in Missing(w, ids, readFails) ==> id in ids
  {
    ScanIsSound(w, ids, id);
  }

  /** What a call does to the cache, entry by entry: what it took from the view
      and got written is answered from the cache for exactly a day, with the value returned;
      every other entry is as it was. A call whose query failed writes nothing. */
  lemma WrittenForADay(
      w: World, ids: seq<Id>, readFails: bool, queryFails: bool, kept: set<Id>, id: Id, later: real)
    requires later >= w.now
    ensures
      var after := w.(redis := FetchRedis(w, ids, readFails, queryFails, kept), now := later);
      if !queryFails && id in kept && id in ids && id in w.table && id in Missing(w, ids, readFails) then
        && FetchResult(w, ids, readFails, queryFails).Some?
        && id in FetchResult(w, ids, readFails, queryFails).value
        && id in after.redis
        && after.redis[id].value == Some(FetchResult(w, ids, readFails, queryFails).value[id])
        && after.redis[id].value == Some(Project(w.table[id]))
        && (Cached(after, id) <==> later < w.now + 86400.0)
      else
        && (id in after.redis <==> id in w.redis)
        && (id in w.redis ==> after.redis[id] == w.redis[id])
  {
    MissingAreAsked(w, ids, readFails, id);
  }

  /** All of these are in the cache and decode. */
  ghost predicate AllCached(w: World, ids: seq<Id>) {
    forall id :: id in ids ==> Cached(w, id) && w.redis[id].value.Some?
  }

  lemma {:induction false} ScanOfCached(w: World, ids: seq<Id>)
    requires AllCached(w, ids)
    ensures ScanCache(w, ids).decoded && ScanCache(w, ids).missing == []
    ensures ScanCache(w, ids).hits.Keys == set id | id in ids
  {
    if ids != [] {
      assert ids == ids[..|ids| - 1] + [ids[|ids| - 1]];
      ScanOfCached(w, ids[..|ids| - 1]);
    }
  }

  lemma {:induction false} HitOrMiss(w: World, ids: seq<Id>, id: Id)
    requires id in ids && ScanCache(w, ids).decoded && Cached(w, id)
    ensures w.redis[id].value.Some?
  {
    var front, last := ids[..|ids| - 1], ids[|ids| - 1];
    assert ids == front + [last];
    if id in front {
      HitOrMiss(w, front, id);
    }
  }

  lemma CachedAfter(w: World, ids: seq<Id>, readFails: bool, kept: set<Id>, id: Id)
    requires id in ids && id in kept && id in w.table
    ensures
      var after := w.(redis := FetchRedis(w, ids, readFails, false, kept));
      && Cached(after, id) && after.redis[id].value.Some?
      && id in FetchResult(w, ids, readFails, false).value
      && after.redis[id].value == Some(FetchResult(w, ids, readFails, false).value[id])
  {
    WrittenForADay(w, ids, readFails, false, kept, id, w.now);
    ScanIsSound(w, ids, id);
    if id !in Missing(w, ids, readFails) {
      HitOrMiss(w, ids, id);
    }
  }

  /** A call for the same ids right after one that worked, all of them known to the view and
      written, needs no query and gets the same answer. */
  lemma RepeatAsksNothing(w: World, ids: seq<Id>, readFails: bool, kept: set<Id>, queryFails: bool)
    requires forall id :: id in ids ==> id in w.table && id in kept
    ensures
      var after := w.(redis := FetchRedis(w, ids, readFails, false, kept));
      && Missing(after, ids, false) == []
      && FetchResult(after, ids, false, queryFails) == FetchResult(w, ids, readFails, false)
  {
    var after := w.(redis := FetchRedis(w, ids, readFails, false, kept));
    var first := FetchResult(w, ids, readFails, false).value;
    forall id | id in ids ensures id in first && Cached(after, id) && after.redis[id].value == Some(first[id]) {
      CachedAfter(w, ids, readFails, kept, id);
    }
    ScanOfCached(after, ids);
    var again := FetchResult(after, ids, false, queryFails).value;
    forall id ensures (id in again <==> id in first) && (id in again ==> again[id] == first[id]) {
      ScanIsSound(after, ids, id);
      AnsweredIds(w, ids, readFails, false, id);
    }
    assert again.Keys == first.Keys;
    assert again == first;
  }

  // ---------------------------------------------------------------- freshness

  ghost predicate ShownBy(past: seq<Version>, i: int, id: Id, p: Price, t: real) {
    && 0 <= i < |past|
    && past[i].since <= t
    && (i + 1 < |past| ==> t <= past[i + 1].since)
    && id in past[i].table && Project(past[i].table[id]) == p
  }

  /** The view showed this price for the id at instant t. */
  ghost predicate Shown(past: seq<Version>, id: Id, p: Price, t: real) {
    exists i :: ShownBy(past, i, id, p, t)
  }

  ghost predicate Inv(w: World) {
    && w.past != [] && w.past[|w.past| - 1].table == w.table
    && (forall i :: 0 <= i < |w.past| ==> w.past[i].since <= w.now)
    && (forall i, j :: 0 <= i <= j < |w.past| ==> w.past[i].since <= w.past[j].since)
    && (forall id :: id in w.redis && w.redis[id].value.Some? ==>
         && w.redis[id].expires - TTL <= w.now
         && Shown(w.past, id, w.redis[id].value.value, w.redis[id].expires - TTL))
  }

  lemma ShownNow(w: World, id: Id)
    requires Inv(w) && id in w.table
    ensures Shown(w.past, id, Project(w.table[id]), w.now)
  {
    assert ShownBy(w.past, |w.past| - 1, id, Project(w.table[id]), w.now);
  }

  /** Every price a call returns was shown by the view at some instant of the last day. */
  lemma ReturnedPricesAreFresh(w: World, ids: seq<Id>, readFails: bool, queryFails: bool, id: Id)
    requires Inv(w) && FetchResult(w, ids, readFails, queryFails).Some?
    requires id in FetchResult(w, ids, readFails, queryFails).value
    ensures exists t ::
              w.now - 86400.0 < t <= w.now && Shown(w.past, id, FetchResult(w, ids, readFails, queryFails).value[id], t)
  {
    ScanIsSound(w, ids, id);
    if id in FromView(w, Missing(w, ids, readFails)) {
      ShownNow(w, id);
    } else {
      assert Shown(w.past, id, w.redis[id].value.value, w.redis[id].expires - TTL);
    }
  }

  lemma QuietViewIsExactFor(w: World, ids: seq<Id>, readFails: bool, id: Id)
    requires Inv(w) && w.past[|w.past| - 1].since <= w.now - TTL
    requires id in FetchResult(w, ids, readFails, false).value
    ensures id in w.table && FetchResult(w, ids, readFails, false).value[id] == Project(w.table[id])
  {
    var p := FetchResult(w, ids, readFails, false).value[id];
    ReturnedPricesAreFresh(w, ids, readFails, false, id);
    assert forall i :: 0 <= i < |w.past| ==> w.past[i].since <= w.past[|w.past| - 1].since;
    var t :| w.now - 86400.0 < t <= w.now && Shown(w.past, id, p, t);
    var i :| ShownBy(w.past, i, id, p, t);
    assert i == |w.past| - 1;
  }

  /** A view that has not changed for a day is answered exactly, failures of Redis or not. */
  lemma QuietViewIsAnsweredExactly(w: World, ids: seq<Id>, readFails: bool)
    requires Inv(w) && w.past[|w.past| - 1].since <= w.now - TTL
    ensures FetchResult(w, ids, readFails, false) == Some(map id | id in ids && id in w.table :: Project(w.table[id]))
  {
    var r := FetchResult(w, ids, readFails, false).value;
    var exact := map id | id in ids && id in w.table :: Project(w.table[id]);
    forall id ensures (id in r <==> id in exact) && (id in r ==> r[id] == exact[id]) {
      ScanIsSound(w, ids, id);
      AnsweredIds(w, ids, readFails, false, id);
      if id in r {
        QuietViewIsExactFor(w, ids, readFails, id);
      }
    }
    assert r.Keys == exact.Keys;
    assert r == exact;
  }

  // ---------------------------------------------------------------- whole runs

  datatype Event =
    | Fetch(ids: seq<Id>, readFails: bool, queryFails: bool, kept: set<Id>)
    | ViewChanges(table: map<Id, Row>)
    | TimePasses(dt: real)
    | Spoil(id: Id, until: real)   // bytes that do not decode appear under a key
    | Evict(id: Id)

  function Step(w: World, e: Event): World {
    match e
    case Fetch(ids, readFails, queryFails, kept) => w.(redis := FetchRedis(w, ids, readFails, queryFails, kept))
    case ViewChanges(table) => w.(table := table, past := w.past + [Version(w.now, table)])
    case TimePasses(dt) => if dt >= 0.0 then w.(now := w.now + dt) else w
    case Spoil(id, until) => w.(redis := w.redis[id := Cell(None, until)])
    case Evict(id) => w.(redis := w.redis - {id})
  }

  lemma WriteBackKeepsInv(w: World, loaded: map<Id, Price>, kept: set<Id>)
    requires Inv(w)
    requires forall id :: id in loaded ==> id in w.table && loaded[id] == Project(w.table[id])
    ensures Inv(w.(redis := WriteBack(w.redis, w.now, loaded, kept)))
  {
    var redis := WriteBack(w.redis, w.now, loaded, kept);
    forall id | id in redis && redis[id].value.Some?
      ensures redis[id].expires - TTL <= w.now
      ensures Shown(w.past, id, redis[id].value.value, redis[id].expires - TTL)
    {
      if id in loaded && id in kept {
        ShownNow(w, id);
      } else {
        assert redis[id] == w.redis[id];
      }
    }
  }

  lemma FetchKeepsInv(w: World, ids: seq<Id>, readFails: bool, queryFails: bool, kept: set<Id>)
    requires Inv(w)
    ensures Inv(w.(redis := FetchRedis(w, ids, readFails, queryFails, kept)))
  {
    if queryFails {
      assert w.(redis := w.redis) == w;
    } else {
      WriteBackKeepsInv(w, FromView(w, Missing(w, ids, readFails)), kept);
    }
  }

  lemma ViewChangeKeepsShown(past: seq<Version>, v: Version, id: Id, p: Price, t: real)
    requires Shown(past, id, p, t) && t <= v.since
    ensures Shown(past + [v], id, p, t)
  {
    var i :| ShownBy(past, i, id, p, t);
    assert ShownBy(past + [v], i, id, p, t);
  }

  lemma ViewChangeKeepsInv(w: World, table: map<Id, Row>)
    requires Inv(w)
    ensures Inv(w.(table := table, past := w.past + [Version(w.now, table)]))
  {
    var past := w.past + [Version(w.now, table)];
    forall id | id in w.redis && w.redis[id].value.Some?
      ensures Shown(past, id, w.redis[id].value.value, w.redis[id].expires - TTL)
    {
      ViewChangeKeepsShown(w.past, Version(w.now, table), id, w.redis[id].value.value, w.redis[id].expires - TTL);
    }
  }

  lemma StepKeepsInv(w: World, e: Event)
    requires Inv(w)
    ensures Inv(Step(w, e))
  {
    match e
    case Fetch(ids, readFails, queryFails, kept) => FetchKeepsInv(w, ids, readFails, queryFails, kept);
    case ViewChanges(table) => ViewChangeKeepsInv(w, table);
    case TimePasses(dt) =>
    case Spoil(id, until) =>
    case Evict(id) =>
  }

  function After(w: World, events: seq<Event>): World {
    if events == [] then w else Step(After(w, events[..|events| - 1]), events[|events| - 1])
  }

  function Opening(now: real, table: map<Id, Row>): World {
    World(now, table, map[], [Version(now, table)])
  }

  /** After any sequence of calls, view changes, waits and Redis mishaps, from an empty cache,
      every price the next call returns was shown by the view within the last day. */
  lemma {:induction false} EveryRunIsFresh(now: real, table: map<Id, Row>, events: seq<Event>)
    ensures
      var w := After(Opening(now, table), events);
      && Inv(w)
      && forall ids: seq<Id>, readFails, queryFails, id ::
           var r := FetchResult(w, ids, readFails, queryFails);
           r.Some? && id in r.value ==>
             exists t :: w.now - 86400.0 < t <= w.now && Shown(w.past, id, r.value[id], t)
  {
    var w := After(Opening(now, table), events);
    if events != [] {
      EveryRunIsFresh(now, table, events[..|events| - 1]);
      StepKeepsInv(After(Opening(now, table), events[..|events| - 1]), events[|events| - 1]);
    }
    forall ids: seq<Id>, readFails, queryFails, id
      | FetchResult(w, ids, readFails, queryFails).Some? && id in FetchResult(w, ids, readFails, queryFails).value
      ensures exists t ::
                && w.now - 86400.0 < t <= w.now
                && Shown(w.past, id, FetchResult(w, ids, readFails, queryFails).value[id], t)
    {
      ReturnedPricesAreFresh(w, ids, readFails, queryFails, id);
    }
  }

  // ---------------------------------------------------------------- the method

  lemma NothingToWrite(w: World, kept: set<Id>)
    ensures WriteBack(w.redis, w.now, FromView(w, []), kept) == w.redis
  {
  }

  class CardReferenceRepository {
    var redis: map<Id, Cell>
    var table: map<Id, Row>
    var now: real
    ghost var past: seq<Version>

    ghost function State(): World
      reads this
    {
      World(now, table, redis, past)
    }

    method ReadCached(ids: seq<Id>, readFails: bool) returns (found: map<Id, Price>, missing: seq<Id>)
      ensures found == Hits(State(), ids, readFails)
      ensures missing == Missing(State(), ids, readFails)
    {
      found, missing := map[], [];
      if readFails {
        return found, ids;
      }
      for i := 0 to |ids|
        invariant ScanCache(State(), ids[..i]) == Scan(found, missing, true)
      {
        assert ids[..i + 1][..i] == ids[..i];
        var id := ids[i];
        if id !in redis || now >= redis[id].expires {
          missing := missing + [id];
        } else if redis[id].value.None? {
          // the decode error ends the loop; what was found so far stays
          ScanStaysStopped(State(), ids, i + 1);
          return found, ids;
        } else {
          found := found[id := redis[id].value.value];
        }
      }
      assert ids[..|ids|] == ids;
    }

    method FetchPricesForCards(ids: seq<Id>, readFails: bool, queryFails: bool, kept: set<Id>)
      returns (result: Option<map<Id, Price>>)
      modifies this`redis
      ensures result == FetchResult(old(State()), ids, readFails, queryFails)
      ensures State() == Step(old(State()), Fetch(ids, readFails, queryFails, kept))
    {
      if ids == [] {
        NothingToWrite(State(), kept);
        return Some(map[]);
      }
      var found, missing := ReadCached(ids, readFails);
      if missing == [] {
        NothingToWrite(State(), kept);
        return Some(found);
      }
      if queryFails {
        return None;
      }
      var loaded: map<Id, Price> := map id | id in missing && id in table :: Project(table[id]);
      assert loaded == FromView(State(), missing);
      redis := WriteBack(redis, now, loaded, kept);
      return Some(found + loaded);
    }
  }
}
