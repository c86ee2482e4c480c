/** The start-up purge of stale beat messages (src/automana/worker/main.py). It reads the
    broker's list once, groups the messages by beat fingerprint, and for every message but
    the first of its group asks Redis to remove the first element equal to it (LREM 1).
    LREM goes by value, so with byte-identical copies it does not remove the copy meant. */
module BeatPurge {
  import opened Options

  // ---------------------------------------------------------------- fingerprints

  datatype Fingerprint = Task(name: string) | ServiceCall(path: string)

  /** A message as far as JSON decoding gets; `path` is the `path` keyword of its body. */
  datatype Decoded = Undecodable | Message(task: string, path: Option<string>)

  /** One line of the beat schedule. */
  datatype Entry = Entry(task: string, path: Option<string>)

  function TaskFingerprint(d: Decoded): Option<Fingerprint> {
    if d.Undecodable? || d.task == "" then None
    else if d.task == "run_service" then
      if d.path.Some? && d.path.value != "" then Some(ServiceCall(d.path.value)) else None
    else Some(Task(d.task))
  }

  function EntryFingerprint(e: Entry): Option<Fingerprint> {
    if e.task != "run_service" then Some(Task(e.task))
    else if e.path.Some? && e.path.value != "" then Some(ServiceCall(e.path.value))
    else None
  }

  ghost predicate Scheduled(schedule: seq<Entry>, f: Fingerprint) {
    exists i :: 0 <= i < |schedule| && EntryFingerprint(schedule[i]) == Some(f)
  }

  method BuildBeatFingerprints(schedule: seq<Entry>) returns (fps: set<Fingerprint>)
    ensures forall f :: f in fps <==> Scheduled(schedule, f)
  {
    fps := {};
    for i := 0 to |schedule|
      invariant forall f :: f in fps <==> exists j :: 0 <= j < i && EntryFingerprint(schedule[j]) == Some(f)
    {
      var fp := EntryFingerprint(schedule[i]);
      if fp.Some? {
        fps := fps + {fp.value};
      }
    }
  }

  /** Entries of the same task share a fingerprint, whatever else they pass. */
  lemma NamedTasksShareAFingerprint(e: Entry, e': Entry)
    ensures EntryFingerprint(e) == EntryFingerprint(e') && EntryFingerprint(e).Some? <==>
      && e.task == e'.task
      && (e.task == "run_service" ==>
           e.path.Some? && e.path.value != "" && e'.path.Some? && e.path.value == e'.path.value)
  {
  }

  // ---------------------------------------------------------------- lists of messages

  /** The fingerprint under which the purge groups a message, None if it leaves it alone. */
  function BeatFingerprint(fps: set<Fingerprint>, d: Decoded): Option<Fingerprint> {
    var f := TaskFingerprint(d);
    if f.Some? && f.value in fps then f else None
  }

  function Key<M>(fps: set<Fingerprint>, decode: M -> Decoded): M -> Option<Fingerprint> {
    m => BeatFingerprint(fps, decode(m))
  }

  // From here on a message is any value and `fp` its beat fingerprint; the start-up purge
  // runs with the `Key` of its schedule.

  function RemoveFirst<M(==)>(list: seq<M>, m: M): seq<M> {
    if list == [] then []
    else if list[0] == m then list[1..]
    else [list[0]] + RemoveFirst(list[1..], m)
  }

  /** The messages of one fingerprint, head first. */
  function Group<M, F(==)>(fp: M -> Option<F>, list: seq<M>, f: F): seq<M> {
    if list == [] then []
    else Group(fp, list[..|list| - 1], f) + if fp(list[|list| - 1]) == Some(f) then [list[|list| - 1]] else []
  }

  function Others<M, F>(fp: M -> Option<F>, list: seq<M>): seq<M> {
    if list == [] then []
    else (if fp(list[0]).None? then [list[0]] else []) + Others(fp, list[1..])
  }

  function Beats<M, F>(fp: M -> Option<F>, list: seq<M>): multiset<M> {
    if list == [] then multiset{}
    else (if fp(list[0]).Some? then multiset{list[0]} else multiset{}) + Beats(fp, list[1..])
  }

  /** The first message of each fingerprint. */
  function Heads<M, F(==)>(fp: M -> Option<F>, list: seq<M>): multiset<M> {
    if list == [] then multiset{}
    else
      var front, last := list[..|list| - 1], list[|list| - 1];
      Heads(fp, front) + if fp(last).Some? && Group(fp, front, fp(last).value) == [] then multiset{last} else multiset{}
  }

  /** Everything the purge asks Redis to remove: every group without its first message. */
  function Surplus<M, F(==)>(fp: M -> Option<F>, list: seq<M>): multiset<M> {
    Beats(fp, list) - Heads(fp, list)
  }

  /** The list without the first q[m] copies of each message m. */
  ghost function Drop<M>(list: seq<M>, q: multiset<M>): seq<M> {
    if list == [] then []
    else if list[0] in q then Drop(list[1..], q - multiset{list[0]})
    else [list[0]] + Drop(list[1..], q)
  }

  lemma {:induction false} RemoveIsDropOne<M>(list: seq<M>, q: multiset<M>, m: M)
    ensures RemoveFirst(Drop(list, q), m) == Drop(list, q + multiset{m})
  {
    if list != [] {
      var x := list[0];
      if x in q {
        RemoveIsDropOne(list[1..], q - multiset{x}, m);
        assert q + multiset{m} - multiset{x} == q - multiset{x} + multiset{m};
      } else if x == m {
        assert q + multiset{m} - multiset{x} == q;
      } else {
        RemoveIsDropOne(list[1..], q, m);
      }
    }
  }

  lemma {:induction false} DropNothing<M>(list: seq<M>)
    ensures Drop(list, multiset{}) == list
  {
    if list != [] {
      DropNothing(list[1..]);
    }
  }

  lemma SameCounts<M(!new)>(a: multiset<M>, b: multiset<M>)
    requires forall m :: a[m] == b[m]
    ensures a == b
  {
  }

  lemma FewerCounts<M(!new)>(a: multiset<M>, b: multiset<M>)
    requires forall m :: a[m] <= b[m]
    ensures a <= b
  {
  }

  lemma {:induction false} RemoveFirstAt<M>(list: seq<M>, m: M, i: nat)
    requires i <= |list| && m !in list[..i] && (i < |list| ==> list[i] == m)
    ensures RemoveFirst(list, m) == if i < |list| then list[..i] + list[i + 1..] else list
  {
    if i > 0 {
      assert list[0] == list[..i][0];
      assert list[1..][..i - 1] == list[..i][1..];
      RemoveFirstAt(list[1..], m, i - 1);
    }
  }

  lemma OneMoreAsked<M>(group: seq<M>, j: nat, asked: multiset<M>)
    requires 1 <= j < |group|
    ensures asked + multiset(group[1..j]) + multiset{group[j]} == asked + multiset(group[1..j + 1])
  {
    assert group[1..j + 1] == group[1..j] + [group[j]];
  }

  lemma NotBefore<F>(order: seq<F>, k: nat)
    requires k < |order| && forall i, j :: 0 <= i < j < |order| ==> order[i] != order[j]
    ensures order[k] !in order[..k] && order[..k + 1] == order[..k] + [order[k]]
  {
  }

  function Rest<M>(s: seq<M>): seq<M> {
    if s == [] then [] else s[1..]
  }

  /** How many copies of a message the purge asks for. */
  ghost function Quota<M, F>(fp: M -> Option<F>, items: seq<M>, m: M): nat {
    if fp(m).None? then 0 else multiset(Rest(Group(fp, items, fp(m).value)))[m]
  }

  predicate OneOf<F(==)>(fp: Option<F>, done: seq<F>) {
    fp.Some? && fp.value in done
  }

  /** What has been asked of Redis once the groups of `done` were handled. */
  ghost predicate AskedFor<M(!new), F>(fp: M -> Option<F>, items: seq<M>, done: seq<F>, asked: multiset<M>) {
    forall m :: asked[m] == if OneOf(fp(m), done) then Quota(fp, items, m) else 0
  }

  lemma {:induction false} GroupMembers<M, F>(fp: M -> Option<F>, list: seq<M>, f: F, m: M)
    ensures multiset(Group(fp, list, f))[m] == if fp(m) == Some(f) then multiset(list)[m] else 0
  {
    if list != [] {
      GroupMembers(fp, list[..|list| - 1], f, m);
      assert list == list[..|list| - 1] + [list[|list| - 1]];
    }
  }

  lemma HeadAndRest<M>(g: seq<M>, m: M)
    requires g != []
    ensures multiset(g)[m] == (if m == g[0] then 1 else 0) + multiset(Rest(g))[m]
  {
    assert g == [g[0]] + Rest(g);
  }

  lemma RestMembers<M, F>(fp: M -> Option<F>, items: seq<M>, f: F, m: M)
    ensures multiset(Rest(Group(fp, items, f)))[m] == if fp(m) == Some(f) then Quota(fp, items, m) else 0
  {
    var g := Group(fp, items, f);
    GroupMembers(fp, items, f, m);
    if g != [] {
      HeadAndRest(g, m);
    }
  }

  lemma AskedForNext<M(!new), F>(
      fp: M -> Option<F>, items: seq<M>, done: seq<F>, f: F, asked: multiset<M>, rest: multiset<M>)
    requires AskedFor(fp, items, done, asked) && f !in done
    requires rest == multiset(Rest(Group(fp, items, f)))
    ensures AskedFor(fp, items, done + [f], asked + rest)
  {
    forall m ensures (asked + rest)[m] == if OneOf(fp(m), done + [f]) then Quota(fp, items, m) else 0 {
      RestMembers(fp, items, f, m);
      assert OneOf(fp(m), done + [f]) <==> OneOf(fp(m), done) || fp(m) == Some(f);
    }
  }

  lemma {:induction false} BeatsCount<M, F>(fp: M -> Option<F>, list: seq<M>, m: M)
    ensures Beats(fp, list)[m] == if fp(m).Some? then multiset(list)[m] else 0
  {
    if list != [] {
      BeatsCount(fp, list[1..], m);
      assert list == [list[0]] + list[1..];
    }
  }

  lemma {:induction false} HeadsCount<M, F>(fp: M -> Option<F>, list: seq<M>, m: M)
    ensures Heads(fp, list)[m] ==
      if fp(m).Some? && Group(fp, list, fp(m).value) != [] && Group(fp, list, fp(m).value)[0] == m then 1 else 0
  {
    if list != [] {
      HeadsCount(fp, list[..|list| - 1], m);
    }
  }

  lemma SurplusCount<M, F>(fp: M -> Option<F>, list: seq<M>, m: M)
    ensures Surplus(fp, list)[m] == Quota(fp, list, m)
  {
    var b, h := Beats(fp, list), Heads(fp, list);
    BeatsCount(fp, list, m);
    HeadsCount(fp, list, m);
    assert (b - h)[m] == if b[m] < h[m] then 0 else b[m] - h[m];
    if fp(m).Some? {
      var g := Group(fp, list, fp(m).value);
      GroupMembers(fp, list, fp(m).value, m);
      if g != [] {
        HeadAndRest(g, m);
      }
    }
  }

  lemma AskedForAll<M(!new), F>(fp: M -> Option<F>, items: seq<M>, order: seq<F>, asked: multiset<M>)
    requires AskedFor(fp, items, order, asked)
    requires forall f :: f in order <==> Group(fp, items, f) != []
    ensures asked == Surplus(fp, items)
  {
    var surplus := Surplus(fp, items);
    forall m ensures asked[m] == surplus[m] {
      SurplusCount(fp, items, m);
      if fp(m).Some? {
        var f := fp(m).value;
        assert f in order <==> Group(fp, items, f) != [];
      }
    }
    SameCounts(asked, surplus);
  }

  lemma GroupNext<M, F(!new)>(fp: M -> Option<F>, items: seq<M>, i: nat)
    requires i < |items|
    ensures forall f ::
              Group(fp, items[..i + 1], f)
              == Group(fp, items[..i], f) + (if fp(items[i]) == Some(f) then [items[i]] else [])
  {
    assert items[..i + 1][..i] == items[..i];
  }

  lemma {:induction false} NotInGroup<M, F(!new)>(fp: M -> Option<F>, items: seq<M>, i: nat, f: F)
    requires i <= |items|
    ensures Group(fp, items[..i], f) == [] <==> forall b :: 0 <= b < i ==> fp(items[b]) != Some(f)
  {
    if i > 0 {
      NotInGroup(fp, items, i - 1, f);
      assert items[..i][..i - 1] == items[..i - 1];
      assert Group(fp, items[..i], f) == [] <==> Group(fp, items[..i - 1], f) == [] && fp(items[i - 1]) != Some(f);
    }
  }

  /** A message with the one fingerprint comes before any with the other. */
  ghost predicate ComesFirst<M, F>(fp: M -> Option<F>, items: seq<M>, f: F, other: F) {
    exists a ::
      && 0 <= a < |items| && fp(items[a]) == Some(f)
      && forall b :: 0 <= b <= a ==> fp(items[b]) != Some(other)
  }

  lemma SeenBefore<M, F(!new)>(fp: M -> Option<F>, items: seq<M>, i: nat, f: F, other: F)
    requires i <= |items| && Group(fp, items[..i], f) != [] && Group(fp, items[..i], other) == []
    ensures ComesFirst(fp, items, f, other)
  {
    NotInGroup(fp, items, i, f);
    NotInGroup(fp, items, i, other);
    var a :| 0 <= a < i && fp(items[a]) == Some(f);
    assert forall b :: 0 <= b <= a ==> fp(items[b]) != Some(other);
  }

  ghost predicate ByFirstOccurrence<M, F>(fp: M -> Option<F>, items: seq<M>, order: seq<F>) {
    forall i, j :: 0 <= i < j < |order| ==> ComesFirst(fp, items, order[i], order[j])
  }

  lemma NextFirstOccurrence<M, F(!new)>(fp: M -> Option<F>, items: seq<M>, i: nat, order: seq<F>, f: F)
    requires i <= |items| && ByFirstOccurrence(fp, items, order)
    requires forall g :: g in order <==> Group(fp, items[..i], g) != []
    requires f !in order
    ensures ByFirstOccurrence(fp, items, order + [f])
  {
    var longer := order + [f];
    forall j, k | 0 <= j < k < |longer| ensures ComesFirst(fp, items, longer[j], longer[k]) {
      if k == |order| {
        assert order[j] in order;
        SeenBefore(fp, items, i, order[j], f);
      } else {
        assert ComesFirst(fp, items, order[j], order[k]);
      }
    }
  }

  /** `groups` has the non-empty groups, and `order` their fingerprints, each once. */
  ghost predicate Grouped<M, F(!new)>(
      fp: M -> Option<F>, items: seq<M>, groups: map<F, seq<M>>, order: seq<F>)
  {
    && (forall f :: f in order <==> Group(fp, items, f) != [])
    && (forall f :: f in order <==> f in groups)
    && (forall f :: f in order ==> groups[f] == Group(fp, items, f))
    && (forall i, j :: 0 <= i < j < |order| ==> order[i] != order[j])
  }

  lemma GroupedOld<M, F(!new)>(
      fp: M -> Option<F>, items: seq<M>, longer: seq<M>, groups: map<F, seq<M>>, order: seq<F>, f: F, m: M)
    requires Grouped(fp, items, groups, order) && f in groups
    requires forall g :: Group(fp, longer, g) == Group(fp, items, g) + if g == f then [m] else []
    ensures Grouped(fp, longer, groups[f := groups[f] + [m]], order)
  {
    var after := groups[f := groups[f] + [m]];
    forall g
      ensures (g in order <==> Group(fp, longer, g) != []) && (g in order <==> g in after)
      ensures g in order ==> after[g] == Group(fp, longer, g)
    {
      assert g in order <==> Group(fp, items, g) != [];
    }
  }

  lemma GroupedNew<M, F(!new)>(
      fp: M -> Option<F>, items: seq<M>, longer: seq<M>, groups: map<F, seq<M>>, order: seq<F>, f: F, m: M)
    requires Grouped(fp, items, groups, order) && f !in groups
    requires forall g :: Group(fp, longer, g) == Group(fp, items, g) + if g == f then [m] else []
    ensures Grouped(fp, longer, groups[f := [m]], order + [f])
  {
    var after, order' := groups[f := [m]], order + [f];
    forall g
      ensures (g in order' <==> Group(fp, longer, g) != []) && (g in order' <==> g in after)
      ensures g in order' ==> after[g] == Group(fp, longer, g)
    {
      assert g in order <==> Group(fp, items, g) != [];
    }
  }

  lemma GroupedNext<M, F(!new)>(
      fp: M -> Option<F>, items: seq<M>, i: nat, groups: map<F, seq<M>>, order: seq<F>, f: F)
    requires i < |items| && fp(items[i]) == Some(f) && Grouped(fp, items[..i], groups, order)
    ensures f in groups ==> Grouped(fp, items[..i + 1], groups[f := groups[f] + [items[i]]], order)
    ensures f !in groups ==> Grouped(fp, items[..i + 1], groups[f := [items[i]]], order + [f])
  {
    GroupNext(fp, items, i);
    if f in groups {
      GroupedOld(fp, items[..i], items[..i + 1], groups, order, f, items[i]);
    } else {
      GroupedNew(fp, items[..i], items[..i + 1], groups, order, f, items[i]);
    }
  }

  lemma GroupedStays<M, F(!new)>(
      fp: M -> Option<F>, items: seq<M>, i: nat, groups: map<F, seq<M>>, order: seq<F>)
    requires i < |items| && fp(items[i]).None? && Grouped(fp, items[..i], groups, order)
    ensures Grouped(fp, items[..i + 1], groups, order)
  {
    GroupNext(fp, items, i);
  }

  /** The groups of the snapshot and the order in which their fingerprints first occur. */
  method GroupMessages<M(==), F(==, !new)>(fp: M -> Option<F>, items: seq<M>)
    returns (groups: map<F, seq<M>>, order: seq<F>)
    ensures forall f :: f in order <==> Group(fp, items, f) != []
    ensures forall f :: f in order ==> f in groups && groups[f] == Group(fp, items, f)
    ensures forall i, j :: 0 <= i < j < |order| ==> order[i] != order[j]
    ensures ByFirstOccurrence(fp, items, order)
  {
    groups, order := map[], [];
    for i := 0 to |items|
      invariant Grouped(fp, items[..i], groups, order)
      invariant ByFirstOccurrence(fp, items, order)
    {
      var f := fp(items[i]);
      if f.None? {
        GroupedStays(fp, items, i, groups, order);
      } else {
        GroupedNext(fp, items, i, groups, order, f.value);
        if f.value !in groups {
          NextFirstOccurrence(fp, items, i, order, f.value);
          order := order + [f.value];
          groups := groups[f.value := []];
        }
        groups := groups[f.value := groups[f.value] + [items[i]]];
      }
    }
    assert items[..|items|] == items;
  }

  /** What is left of the list after an undisturbed purge. */
  ghost function Left<M, F>(fp: M -> Option<F>, list: seq<M>): seq<M> {
    Drop(list, Surplus(fp, list))
  }

  // ---------------------------------------------------------------- what is left

  lemma {:induction false} DropMultiset<M>(list: seq<M>, q: multiset<M>)
    requires q <= multiset(list)
    ensures multiset(Drop(list, q)) == multiset(list) - q
  {
    if list != [] {
      var x := list[0];
      assert list == [x] + list[1..];
      assert multiset(list) == multiset{x} + multiset(list[1..]);
      if x in q {
        DropMultiset(list[1..], q - multiset{x});
      } else {
        DropMultiset(list[1..], q);
      }
    }
  }

  lemma SurplusWithin<M(!new), F>(fp: M -> Option<F>, list: seq<M>)
    ensures Surplus(fp, list) <= multiset(list)
    ensures forall m :: m in Surplus(fp, list) ==> fp(m).Some?
  {
    var surplus := Surplus(fp, list);
    forall m ensures surplus[m] <= multiset(list)[m] {
      BeatsCount(fp, list, m);
    }
    FewerCounts(surplus, multiset(list));
    forall m | m in surplus ensures fp(m).Some? {
      BeatsCount(fp, list, m);
    }
  }

  lemma OthersCons<M, F>(fp: M -> Option<F>, x: M, rest: seq<M>)
    ensures Others(fp, [x] + rest) == (if fp(x).None? then [x] else []) + Others(fp, rest)
  {
    assert ([x] + rest)[1..] == rest;
  }

  lemma {:induction false} DropKeepsOthers<M, F>(fp: M -> Option<F>, list: seq<M>, q: multiset<M>)
    requires forall m :: m in q ==> fp(m).Some?
    ensures Others(fp, Drop(list, q)) == Others(fp, list)
  {
    if list != [] {
      var x, rest := list[0], list[1..];
      if x in q {
        DropKeepsOthers(fp, rest, q - multiset{x});
        assert fp(x).Some? && Others(fp, list) == [] + Others(fp, rest);
      } else {
        DropKeepsOthers(fp, rest, q);
        OthersCons(fp, x, Drop(rest, q));
      }
    }
  }

  lemma LeftOfGroup<M, F>(fp: M -> Option<F>, list: seq<M>, left: seq<M>, f: F, m: M)
    requires multiset(left)[m] == multiset(list)[m] - Quota(fp, list, m)
    ensures
      var g := Group(fp, list, f);
      multiset(Group(fp, left, f))[m] == if g != [] && m == g[0] then 1 else 0
  {
    var g := Group(fp, list, f);
    GroupMembers(fp, left, f, m);
    GroupMembers(fp, list, f, m);
    if g != [] {
      HeadAndRest(g, m);
    }
  }

  lemma LeftCount<M>(list: seq<M>, left: seq<M>, surplus: multiset<M>, m: M)
    requires surplus <= multiset(list) && multiset(left) == multiset(list) - surplus
    ensures multiset(left)[m] == multiset(list)[m] - surplus[m]
  {
  }

  lemma OneOrNone<M(!new)>(s: seq<M>, g: seq<M>)
    requires forall m :: multiset(s)[m] == if g != [] && m == g[0] then 1 else 0
    ensures s == if g == [] then [] else [g[0]]
  {
    var expected := if g == [] then multiset{} else multiset{g[0]};
    SameCounts(multiset(s), expected);
    assert |s| == |expected|;
    if s != [] {
      assert s[0] in multiset(s);
    }
  }

  /** After an undisturbed purge: the list lost exactly the surplus; every message that is
      not from the beat schedule is still there, in the original order; and every beat
      fingerprint of the snapshot has exactly one message left, equal to its first one. */
  lemma PurgeLeavesOnePerFingerprint<M(!new), F>(fp: M -> Option<F>, list: seq<M>, f: F)
    ensures
      var left := Drop(list, Surplus(fp, list));
      && multiset(left) == multiset(list) - Surplus(fp, list)
      && Others(fp, left) == Others(fp, list)
      && Group(fp, left, f) == if Group(fp, list, f) == [] then [] else [Group(fp, list, f)[0]]
  {
    var left, g := Drop(list, Surplus(fp, list)), Group(fp, list, f);
    SurplusWithin(fp, list);
    DropMultiset(list, Surplus(fp, list));
    DropKeepsOthers(fp, list, Surplus(fp, list));
    forall m ensures multiset(Group(fp, left, f))[m] == if g != [] && m == g[0] then 1 else 0 {
      SurplusCount(fp, list, m);
      LeftCount(list, left, Surplus(fp, list), m);
      LeftOfGroup(fp, list, left, f, m);
    }
    OneOrNone(Group(fp, left, f), g);
  }

  /** Which copy survives: a position stays iff its message is not from the beat schedule,
      or equals the first of its fingerprint and is the last such copy in the list. */
  predicate Stays<M(==), F(==)>(fp: M -> Option<F>, list: seq<M>, i: nat)
    requires i < |list|
  {
    var m := list[i];
    fp(m).Some? ==> Group(fp, list, fp(m).value) != [] && m == Group(fp, list, fp(m).value)[0] && m !in list[i + 1..]
  }

  function Survivors<M(==), F(==)>(fp: M -> Option<F>, list: seq<M>, from: nat): seq<M>
    requires from <= |list|
    decreases |list| - from
  {
    if from == |list| then []
    else (if Stays(fp, list, from) then [list[from]] else []) + Survivors(fp, list, from + 1)
  }

  lemma QuotaOfNext<M>(x: M, b: multiset<M>, h: multiset<M>)
    ensures
      var q := multiset{x} + b - h;
      (if x in q then q - multiset{x} else q) == b - h
  {
  }

  lemma QuotaCount<M, F>(fp: M -> Option<F>, list: seq<M>, from: nat, x: M, tail: seq<M>)
    requires from < |list| && x == list[from] && tail == list[from + 1..] && fp(x).Some?
    ensures Group(fp, list, fp(x).value) != []
    ensures Beats(fp, list[from..])[x] == 1 + multiset(tail)[x]
    ensures Heads(fp, list)[x] == if Group(fp, list, fp(x).value)[0] == x then 1 else 0
  {
    assert list[from..] == [x] + tail;
    BeatsCount(fp, list[from..], x);
    var g := Group(fp, list, fp(x).value);
    assert g != [] by {
      GroupMembers(fp, list, fp(x).value, x);
      assert x in multiset(list);
      assert multiset(g)[x] > 0;
    }
    HeadsCount(fp, list, x);
  }

  lemma StaysIffNotInQuota<M, F>(fp: M -> Option<F>, list: seq<M>, from: nat)
    requires from < |list|
    ensures Stays(fp, list, from) <==> list[from] !in Beats(fp, list[from..]) - Heads(fp, list)
  {
    if fp(list[from]).Some? {
      var x, tail := list[from], list[from + 1..];
      QuotaCount(fp, list, from, x, tail);
      assert x in tail <==> multiset(tail)[x] > 0;
    } else {
      BeatsCount(fp, list[from..], list[from]);
    }
  }

  lemma {:induction false} DropIsSurvivors<M, F>(fp: M -> Option<F>, list: seq<M>, from: nat)
    requires from <= |list|
    ensures Drop(list[from..], Beats(fp, list[from..]) - Heads(fp, list)) == Survivors(fp, list, from)
    decreases |list| - from
  {
    if from < |list| {
      var x, rest, h := list[from], list[from + 1..], Heads(fp, list);
      var q := Beats(fp, list[from..]) - h;
      assert list[from..][0] == x && list[from..][1..] == rest;
      DropIsSurvivors(fp, list, from + 1);
      StaysIffNotInQuota(fp, list, from);
      QuotaOfNext(x, Beats(fp, rest), h);
      assert Drop(list[from..], q) == if x in q then Drop(rest, q - multiset{x}) else [x] + Drop(rest, q);
      if fp(x).None? {
        assert multiset{} + Beats(fp, rest) == Beats(fp, rest);
      }
    }
  }

  /** The purge by position. */
  lemma PurgeByPosition<M, F>(fp: M -> Option<F>, list: seq<M>)
    ensures Drop(list, Surplus(fp, list)) == Survivors(fp, list, 0)
  {
    assert list[0..] == list;
    DropIsSurvivors(fp, list, 0);
  }

  // ---------------------------------------------------------------- the schedule's purge

  /** Some entry of the schedule sends messages like this one. */
  ghost predicate Sent(schedule: seq<Entry>, d: Decoded) {
    TaskFingerprint(d).Some? && Scheduled(schedule, TaskFingerprint(d).value)
  }

  ghost predicate OneLeft<M, F>(fp: M -> Option<F>, list: seq<M>, f: F) {
    Group(fp, Left(fp, list), f) == if Group(fp, list, f) == [] then [] else [Group(fp, list, f)[0]]
  }

  lemma OffSchedule<M(!new), F>(fp: M -> Option<F>, list: seq<M>, m: M)
    requires fp(m).None?
    ensures multiset(Left(fp, list))[m] == multiset(list)[m]
  {
    SurplusWithin(fp, list);
    DropMultiset(list, Surplus(fp, list));
    LeftCount(list, Left(fp, list), Surplus(fp, list), m);
    SurplusCount(fp, list, m);
  }

  /** The purge of a schedule: messages that do not decode, or that no entry of the schedule
      sends, all survive, in their order; and of every entry's fingerprint exactly one
      message is left if any was queued, equal to the first. */
  lemma SchedulePurge<M(!new)>(schedule: seq<Entry>, fps: set<Fingerprint>, decode: M -> Decoded, list: seq<M>)
    requires forall f :: f in fps <==> Scheduled(schedule, f)
    ensures Others(Key(fps, decode), Left(Key(fps, decode), list)) == Others(Key(fps, decode), list)
    ensures forall m ::
              decode(m).Undecodable? || !Sent(schedule, decode(m)) ==>
                multiset(Left(Key(fps, decode), list))[m] == multiset(list)[m]
    ensures forall i :: 0 <= i < |schedule| && EntryFingerprint(schedule[i]).Some? ==>
              OneLeft(Key(fps, decode), list, EntryFingerprint(schedule[i]).value)
  {
    var fp := Key(fps, decode);
    forall m | decode(m).Undecodable? || !Sent(schedule, decode(m))
      ensures multiset(Left(fp, list))[m] == multiset(list)[m]
    {
      assert fp(m).None? by {
        if TaskFingerprint(decode(m)).Some? {
          assert !Scheduled(schedule, TaskFingerprint(decode(m)).value);
        }
      }
      OffSchedule(fp, list, m);
    }
    forall i | 0 <= i < |schedule| && EntryFingerprint(schedule[i]).Some?
      ensures OneLeft(fp, list, EntryFingerprint(schedule[i]).value)
    {
      PurgeLeavesOnePerFingerprint(fp, list, EntryFingerprint(schedule[i]).value);
    }
    SurplusWithin(fp, list);
    DropKeepsOthers(fp, list, Surplus(fp, list));
  }

  predicate Names(d: Decoded, task: string) {
    d.Message? && d.task == task
  }

  lemma NotBoth<M>(s: seq<M>, a: M, b: M)
    requires |s| <= 1 && a != b
    ensures !(multiset(s)[a] > 0 && multiset(s)[b] > 0)
  {
    assert s == [] || s == [s[0]];
  }

  lemma AtMostOneLeft<M(!new), F>(fp: M -> Option<F>, list: seq<M>, f: F, a: M, b: M)
    requires a != b && fp(a) == Some(f) && fp(b) == Some(f)
    ensures !(a in Left(fp, list) && b in Left(fp, list))
  {
    var left := Left(fp, list);
    PurgeLeavesOnePerFingerprint(fp, list, f);
    GroupMembers(fp, left, f, a);
    GroupMembers(fp, left, f, b);
    assert a in left <==> multiset(left)[a] > 0;
    assert b in left <==> multiset(left)[b] > 0;
    NotBoth(Group(fp, left, f), a, b);
  }

  /** Messages of one task that differ in their arguments share its fingerprint, so of two
      such messages at most one survives: of two queued slots of tier 1, one is lost. */
  lemma OneSlotIsLost<M(!new)>(
      schedule: seq<Entry>, fps: set<Fingerprint>, decode: M -> Decoded, list: seq<M>, i: nat, a: M, b: M)
    requires forall f :: f in fps <==> Scheduled(schedule, f)
    requires i < |schedule| && schedule[i].task !in {"run_service", ""}
    requires a != b && Names(decode(a), schedule[i].task) && Names(decode(b), schedule[i].task)
    ensures !(a in Left(Key(fps, decode), list) && b in Left(Key(fps, decode), list))
  {
    var fp, f := Key(fps, decode), Task(schedule[i].task);
    assert EntryFingerprint(schedule[i]) == Some(f);
    assert fp(a) == Some(f) && fp(b) == Some(f);
    AtMostOneLeft(fp, list, f, a, b);
  }

  // ---------------------------------------------------------------- entry by entry

  /** The beat sends messages like this one for the entry: the entry's task, and for
      run_service its path. An entry without them sends nothing the purge could tell. */
  predicate SentBy(e: Entry, d: Decoded) {
    && d.Message? && e.task != "" && d.task == e.task
    && (e.task == "run_service" ==> e.path.Some? && e.path.value != "" && d.path == e.path)
  }

  /** The messages of one entry, head first. */
  function SentOf<M>(e: Entry, decode: M -> Decoded, list: seq<M>): seq<M> {
    if list == [] then []
    else
      SentOf(e, decode, list[..|list| - 1]) + if SentBy(e, decode(list[|list| - 1])) then [list[|list| - 1]] else []
  }

  ghost predicate SentByNone(schedule: seq<Entry>, d: Decoded) {
    forall i :: 0 <= i < |schedule| ==> !SentBy(schedule[i], d)
  }

  /** The messages of no entry, head first. */
  ghost function NotSent<M>(schedule: seq<Entry>, decode: M -> Decoded, list: seq<M>): seq<M> {
    if list == [] then []
    else (if SentByNone(schedule, decode(list[0])) then [list[0]] else []) + NotSent(schedule, decode, list[1..])
  }

  lemma SentByIsFingerprint(e: Entry, d: Decoded)
    ensures SentBy(e, d) <==> TaskFingerprint(d).Some? && TaskFingerprint(d) == EntryFingerprint(e)
  {
  }

  lemma KeyOfEntry<M>(schedule: seq<Entry>, fps: set<Fingerprint>, decode: M -> Decoded, i: nat, m: M)
    requires i < |schedule| && forall f :: f in fps <==> Scheduled(schedule, f)
    ensures SentBy(schedule[i], decode(m)) <==>
      Key(fps, decode)(m).Some? && Key(fps, decode)(m) == EntryFingerprint(schedule[i])
  {
    SentByIsFingerprint(schedule[i], decode(m));
  }

  lemma KeyOfNone<M>(schedule: seq<Entry>, fps: set<Fingerprint>, decode: M -> Decoded, m: M)
    requires forall f :: f in fps <==> Scheduled(schedule, f)
    ensures SentByNone(schedule, decode(m)) <==> Key(fps, decode)(m).None?
  {
    forall i | 0 <= i < |schedule|
      ensures SentBy(schedule[i], decode(m)) <==>
        TaskFingerprint(decode(m)).Some? && TaskFingerprint(decode(m)) == EntryFingerprint(schedule[i])
    {
      SentByIsFingerprint(schedule[i], decode(m));
    }
  }

  lemma {:induction false} SentOfIsGroup<M>(
      schedule: seq<Entry>, fps: set<Fingerprint>, decode: M -> Decoded, i: nat, f: Fingerprint, list: seq<M>)
    requires i < |schedule| && EntryFingerprint(schedule[i]) == Some(f)
    requires forall f :: f in fps <==> Scheduled(schedule, f)
    ensures SentOf(schedule[i], decode, list) == Group(Key(fps, decode), list, f)
  {
    if list != [] {
      SentOfIsGroup(schedule, fps, decode, i, f, list[..|list| - 1]);
      KeyOfEntry(schedule, fps, decode, i, list[|list| - 1]);
    }
  }

  lemma {:induction false} NothingSent<M>(e: Entry, decode: M -> Decoded, list: seq<M>)
    requires EntryFingerprint(e).None?
    ensures SentOf(e, decode, list) == []
  {
    if list != [] {
      NothingSent(e, decode, list[..|list| - 1]);
      SentByIsFingerprint(e, decode(list[|list| - 1]));
    }
  }

  lemma {:induction false} NotSentIsOthers<M>(
      schedule: seq<Entry>, fps: set<Fingerprint>, decode: M -> Decoded, list: seq<M>)
    requires forall f :: f in fps <==> Scheduled(schedule, f)
    ensures NotSent(schedule, decode, list) == Others(Key(fps, decode), list)
  {
    if list != [] {
      NotSentIsOthers(schedule, fps, decode, list[1..]);
      KeyOfNone(schedule, fps, decode, list[0]);
    }
  }

  function FirstOnly<M>(s: seq<M>): seq<M> {
    if s == [] then [] else [s[0]]
  }

  /** What the purge of a schedule leaves: of the messages of each entry the first, if any
      was queued, and of the messages of no entry all, in their order. */
  lemma EveryEntryKeepsOne<M(!new)>(schedule: seq<Entry>, fps: set<Fingerprint>, decode: M -> Decoded, list: seq<M>)
    requires forall f :: f in fps <==> Scheduled(schedule, f)
    ensures
      var left := Left(Key(fps, decode), list);
      && NotSent(schedule, decode, left) == NotSent(schedule, decode, list)
      && forall i :: 0 <= i < |schedule| ==>
           SentOf(schedule[i], decode, left) == FirstOnly(SentOf(schedule[i], decode, list))
  {
    var fp := Key(fps, decode);
    var left := Left(fp, list);
    SchedulePurge(schedule, fps, decode, list);
    NotSentIsOthers(schedule, fps, decode, left);
    NotSentIsOthers(schedule, fps, decode, list);
    forall i | 0 <= i < |schedule|
      ensures SentOf(schedule[i], decode, left) == FirstOnly(SentOf(schedule[i], decode, list))
    {
      var f := EntryFingerprint(schedule[i]);
      if f.None? {
        NothingSent(schedule[i], decode, left);
        NothingSent(schedule[i], decode, list);
      } else {
        SentOfIsGroup(schedule, fps, decode, i, f.value, left);
        SentOfIsGroup(schedule, fps, decode, i, f.value, list);
        assert OneLeft(fp, list, f.value);
      }
    }
  }

  // ---------------------------------------------------------------- the method

  class Redis<M(==, !new)> {
    var list: seq<M>

    method Lrem(m: M)
      modifies this
      ensures list == RemoveFirst(old(list), m)
    {
      var i := 0;
      while i < |list| && list[i] != m
        invariant 0 <= i <= |list| && m !in list[..i]
      {
        i := i + 1;
      }
      RemoveFirstAt(list, m, i);
      if i < |list| {
        list := list[..i] + list[i + 1..];
      }
    }

    /** LREM for every message of a group but the first. */
    method RemoveDuplicates(group: seq<M>, ghost items: seq<M>, ghost asked: multiset<M>)
      requires list == Drop(items, asked)
      modifies this
      ensures list == Drop(items, asked + multiset(Rest(group)))
    {
      if group == [] {
        assert asked + multiset(Rest(group)) == asked;
        return;
      }
      assert asked + multiset(group[1..1]) == asked;
      for j := 1 to |group|
        invariant list == Drop(items, asked + multiset(group[1..j]))
      {
        RemoveIsDropOne(items, asked + multiset(group[1..j]), group[j]);
        OneMoreAsked(group, j, asked);
        Lrem(group[j]);
      }
      assert group[1..|group|] == group[1..];
    }

    /** No one else touches the list meanwhile. */
    method PurgeStaleBeatTasks<F(==, !new)>(fp: M -> Option<F>) returns (ghost asked: multiset<M>)
      modifies this
      ensures asked == Surplus(fp, old(list))
      ensures list == Drop(old(list), Surplus(fp, old(list)))
    {
      ghost var items := list;
      var groups, order := GroupMessages(fp, list);
      asked := multiset{};
      DropNothing(items);
      for k := 0 to |order|
        invariant list == Drop(items, asked)
        invariant AskedFor(fp, items, order[..k], asked)
      {
        var group := groups[order[k]];
        RemoveDuplicates(group, items, asked);
        ghost var rest := multiset(Rest(group));
        NotBefore(order, k);
        AskedForNext(fp, items, order[..k], order[k], asked, rest);
        asked := asked + rest;
      }
      assert order[..|order|] == order;
      AskedForAll(fp, items, order, asked);
    }

    /** The start-up handler: the fingerprints of the schedule, then the purge by them. */
    method OnWorkerReady(schedule: seq<Entry>, decode: M -> Decoded) returns (fps: set<Fingerprint>)
      modifies this
      ensures forall f :: f in fps <==> Scheduled(schedule, f)
      ensures list == Left(Key(fps, decode), old(list))
      ensures NotSent(schedule, decode, list) == NotSent(schedule, decode, old(list))
      ensures forall i :: 0 <= i < |schedule| ==>
                SentOf(schedule[i], decode, list) == FirstOnly(SentOf(schedule[i], decode, old(list)))
    {
      ghost var items := list;
      fps := BuildBeatFingerprints(schedule);
      ghost var asked := PurgeStaleBeatTasks(Key(fps, decode));
      EveryEntryKeepsOne(schedule, fps, decode, items);
    }
  }

  // ---------------------------------------------------------------- with other workers

  /** What may happen to the list while the purge is under way: its own LREM calls, and
      pushes and pops of other workers at either end. */
  datatype Act<M> = Lrem(m: M) | PushHead(m: M) | PushTail(m: M) | PopHead | PopTail

  datatype Ledger<M> = Ledger(list: seq<M>, pushed: multiset<M>, popped: multiset<M>, purged: multiset<M>)

  ghost function Pushed<M>(a: Act<M>): multiset<M> {
    if a.PushHead? || a.PushTail? then multiset{a.m} else multiset{}
  }

  ghost function Popped<M>(list: seq<M>, a: Act<M>): multiset<M> {
    if list == [] then multiset{}
    else if a.PopHead? then multiset{list[0]}
    else if a.PopTail? then multiset{list[|list| - 1]}
    else multiset{}
  }

  ghost function Purged<M>(list: seq<M>, a: Act<M>): multiset<M> {
    if a.Lrem? && a.m in list then multiset{a.m} else multiset{}
  }

  function NextList<M(==)>(list: seq<M>, a: Act<M>): seq<M> {
    match a
    case Lrem(m) => RemoveFirst(list, m)
    case PushHead(m) => [m] + list
    case PushTail(m) => list + [m]
    case PopHead => if list == [] then [] else list[1..]
    case PopTail => if list == [] then [] else list[..|list| - 1]
  }

  ghost function Apply<M>(l: Ledger<M>, a: Act<M>): Ledger<M> {
    Ledger(NextList(l.list, a), l.pushed + Pushed(a), l.popped + Popped(l.list, a), l.purged + Purged(l.list, a))
  }

  ghost function Run<M>(list: seq<M>, acts: seq<Act<M>>): Ledger<M> {
    if acts == [] then Ledger(list, multiset{}, multiset{}, multiset{})
    else Apply(Run(list, acts[..|acts| - 1]), acts[|acts| - 1])
  }

  /** The messages the LREM calls of a run name. */
  ghost function Named<M>(acts: seq<Act<M>>): multiset<M> {
    if acts == [] then multiset{}
    else Named(acts[..|acts| - 1]) + if acts[|acts| - 1].Lrem? then multiset{acts[|acts| - 1].m} else multiset{}
  }

  lemma {:induction false} RemoveFirstMultiset<M>(list: seq<M>, m: M)
    ensures multiset(list) == multiset(RemoveFirst(list, m)) + if m in list then multiset{m} else multiset{}
  {
    if list != [] {
      assert list == [list[0]] + list[1..];
      if list[0] != m {
        RemoveFirstMultiset(list[1..], m);
      }
    }
  }

  lemma Settle<M(!new)>(
      start: multiset<M>, pushed: multiset<M>, now: multiset<M>, out: multiset<M>,
      now': multiset<M>, push: multiset<M>, taken: multiset<M>)
    requires start + pushed == now + out && now + push == now' + taken
    ensures start + (pushed + push) == now' + (out + taken)
  {
    forall m ensures (start + (pushed + push))[m] == (now' + (out + taken))[m] {
      assert (start + pushed)[m] == (now + out)[m] && (now + push)[m] == (now' + taken)[m];
    }
    SameCounts(start + (pushed + push), now' + (out + taken));
  }

  lemma OneTaken<M(!new)>(
      all: multiset<M>, push: multiset<M>, left: multiset<M>, popped: multiset<M>, purged: multiset<M>)
    requires forall m :: all[m] + push[m] == left[m] + popped[m] + purged[m]
    ensures all + push == left + (popped + purged)
  {
    SameCounts(all + push, left + (popped + purged));
  }

  lemma Ends<M>(list: seq<M>)
    requires list != []
    ensures multiset(list) == multiset(list[1..]) + multiset{list[0]}
    ensures multiset(list) == multiset(list[..|list| - 1]) + multiset{list[|list| - 1]}
  {
    assert list == [list[0]] + list[1..];
    assert list == list[..|list| - 1] + [list[|list| - 1]];
  }

  lemma PopMoves<M(!new)>(list: seq<M>, a: Act<M>, n: M)
    requires a.PopHead? || a.PopTail?
    ensures multiset(list)[n] == multiset(NextList(list, a))[n] + Popped(list, a)[n]
  {
    if list != [] {
      Ends(list);
    }
  }

  lemma ActMoves<M(!new)>(list: seq<M>, a: Act<M>, n: M)
    ensures multiset(list)[n] + Pushed(a)[n] ==
      multiset(NextList(list, a))[n] + Popped(list, a)[n] + Purged(list, a)[n]
  {
    if a.Lrem? {
      RemoveFirstMultiset(list, a.m);
      assert Popped(list, a) == multiset{};
    } else if a.PopHead? || a.PopTail? {
      PopMoves(list, a, n);
    } else {
      assert multiset(NextList(list, a)) == multiset(list) + multiset{a.m};
      assert Popped(list, a) == multiset{};
    }
  }

  lemma ActBalances<M(!new)>(list: seq<M>, a: Act<M>)
    ensures multiset(list) + Pushed(a) == multiset(NextList(list, a)) + (Popped(list, a) + Purged(list, a))
  {
    var all, push, left, popped, purged :=
      multiset(list), Pushed(a), multiset(NextList(list, a)), Popped(list, a), Purged(list, a);
    forall n ensures all[n] + push[n] == left[n] + popped[n] + purged[n] {
      ActMoves(list, a, n);
    }
    OneTaken(all, push, left, popped, purged);
  }

  /** Nothing appears or vanishes, and LREM removes at most what it names. */
  lemma {:induction false} Balanced<M(!new)>(list: seq<M>, acts: seq<Act<M>>)
    ensures
      var l := Run(list, acts);
      && multiset(list) + l.pushed == multiset(l.list) + (l.popped + l.purged)
      && l.purged <= Named(acts)
  {
    if acts != [] {
      Balanced(list, acts[..|acts| - 1]);
      var l, a := Run(list, acts[..|acts| - 1]), acts[|acts| - 1];
      var popped, purged := Popped(l.list, a), Purged(l.list, a);
      ActBalances(l.list, a);
      Settle(multiset(list), l.pushed, multiset(l.list), l.popped + l.purged,
             multiset(NextList(l.list, a)), Pushed(a), popped + purged);
      assert l.popped + popped + (l.purged + purged) == l.popped + l.purged + (popped + purged);
    }
  }

  /** How many messages of a multiset have the fingerprint. */
  ghost function Count<M, F>(fp: M -> Option<F>, ms: multiset<M>, f: F): nat
    decreases |ms|
  {
    if ms == multiset{} then 0
    else
      var m :| m in ms;
      (if fp(m) == Some(f) then 1 else 0) + Count(fp, ms - multiset{m}, f)
  }

  lemma TakeTwo<M>(ms: multiset<M>, m: M, n: M)
    requires m in ms && n in ms && m != n
    ensures m in ms - multiset{n} && n in ms - multiset{m}
    ensures ms - multiset{n} - multiset{m} == ms - multiset{m} - multiset{n}
    ensures |ms - multiset{n}| == |ms - multiset{m}| == |ms| - 1
  {
  }

  lemma {:induction false} CountOne<M, F>(fp: M -> Option<F>, ms: multiset<M>, f: F, m: M)
    requires m in ms
    ensures Count(fp, ms, f) == (if fp(m) == Some(f) then 1 else 0) + Count(fp, ms - multiset{m}, f)
    decreases |ms|
  {
    var n :| n in ms && Count(fp, ms, f) == (if fp(n) == Some(f) then 1 else 0) + Count(fp, ms - multiset{n}, f);
    if n != m {
      TakeTwo(ms, m, n);
      CountOne(fp, ms - multiset{n}, f, m);
      CountOne(fp, ms - multiset{m}, f, n);
    }
  }

  lemma {:induction false} CountAdds<M, F>(fp: M -> Option<F>, a: multiset<M>, b: multiset<M>, f: F)
    ensures Count(fp, a + b, f) == Count(fp, a, f) + Count(fp, b, f)
    decreases |a|
  {
    if a == multiset{} {
      assert a + b == b;
    } else {
      var m :| m in a;
      CountOne(fp, a, f, m);
      CountOne(fp, a + b, f, m);
      CountAdds(fp, a - multiset{m}, b, f);
      assert a + b - multiset{m} == a - multiset{m} + b;
    }
  }

  lemma {:induction false} CountIsGroup<M, F>(fp: M -> Option<F>, list: seq<M>, f: F)
    ensures Count(fp, multiset(list), f) == |Group(fp, list, f)|
  {
    if list != [] {
      var front, last := list[..|list| - 1], list[|list| - 1];
      assert list == front + [last];
      CountIsGroup(fp, front, f);
      CountAdds(fp, multiset(front), multiset{last}, f);
      CountOne(fp, multiset{last}, f, last);
    }
  }

  lemma HeadsAreBeats<M(!new), F>(fp: M -> Option<F>, list: seq<M>)
    ensures Heads(fp, list) <= Beats(fp, list)
  {
    forall m ensures Heads(fp, list)[m] <= Beats(fp, list)[m] {
      HeadsCount(fp, list, m);
      BeatsCount(fp, list, m);
      if fp(m).Some? {
        GroupMembers(fp, list, fp(m).value, m);
      }
    }
    FewerCounts(Heads(fp, list), Beats(fp, list));
  }

  lemma {:induction false} HeadsCountOne<M, F>(fp: M -> Option<F>, list: seq<M>, f: F)
    ensures Count(fp, Heads(fp, list), f) == if Group(fp, list, f) == [] then 0 else 1
  {
    if list != [] {
      var front, last := list[..|list| - 1], list[|list| - 1];
      HeadsCountOne(fp, front, f);
      if fp(last).Some? && Group(fp, front, fp(last).value) == [] {
        CountAdds(fp, Heads(fp, front), multiset{last}, f);
        CountOne(fp, multiset{last}, f, last);
      } else {
        assert Heads(fp, front) + multiset{} == Heads(fp, front);
      }
    }
  }

  lemma {:induction false} BeatsCountAll<M, F>(fp: M -> Option<F>, list: seq<M>, f: F)
    ensures Count(fp, Beats(fp, list), f) == Count(fp, multiset(list), f)
  {
    if list != [] {
      var x, rest := list[0], list[1..];
      BeatsCountAll(fp, rest, f);
      assert list == [x] + rest;
      CountAdds(fp, multiset{x}, multiset(rest), f);
      CountOne(fp, multiset{x}, f, x);
      if fp(x).Some? {
        CountAdds(fp, multiset{x}, Beats(fp, rest), f);
      } else {
        assert multiset{} + Beats(fp, rest) == Beats(fp, rest);
      }
    }
  }

  lemma Rejoined<M>(all: multiset<M>, part: multiset<M>)
    requires part <= all
    ensures all == (all - part) + part && all == part + (all - part)
  {
  }

  lemma SurplusSize<M(!new), F>(fp: M -> Option<F>, snapshot: seq<M>, f: F)
    requires Group(fp, snapshot, f) != []
    ensures Count(fp, Surplus(fp, snapshot), f) == |Group(fp, snapshot, f)| - 1
  {
    var surplus, heads, beats := Surplus(fp, snapshot), Heads(fp, snapshot), Beats(fp, snapshot);
    HeadsAreBeats(fp, snapshot);
    Rejoined(beats, heads);
    CountAdds(fp, surplus, heads, f);
    HeadsCountOne(fp, snapshot, f);
    BeatsCountAll(fp, snapshot, f);
    CountIsGroup(fp, snapshot, f);
  }

  lemma FewPurged<M(!new), F>(fp: M -> Option<F>, snapshot: seq<M>, purged: multiset<M>, f: F)
    requires purged <= Surplus(fp, snapshot) && Group(fp, snapshot, f) != []
    ensures Count(fp, purged, f) <= |Group(fp, snapshot, f)| - 1
  {
    var surplus := Surplus(fp, snapshot);
    Rejoined(surplus, purged);
    CountAdds(fp, purged, surplus - purged, f);
    SurplusSize(fp, snapshot, f);
  }

  /** With other workers pushing and popping between the LREM calls: messages are conserved;
      only beat messages are purged, per fingerprint fewer than the snapshot had; so every
      fingerprint of the snapshot is still queued or was taken by a worker. */
  lemma ConcurrentPurgeIsSafe<M(!new), F>(fp: M -> Option<F>, snapshot: seq<M>, acts: seq<Act<M>>, f: F)
    requires Named(acts) <= Surplus(fp, snapshot)
    ensures
      var l := Run(snapshot, acts);
      && multiset(snapshot) + l.pushed == multiset(l.list) + (l.popped + l.purged)
      && (forall m :: m in l.purged ==> fp(m).Some?)
      && (Group(fp, snapshot, f) != [] ==>
           && Count(fp, l.purged, f) <= |Group(fp, snapshot, f)| - 1
           && Count(fp, multiset(l.list), f) + Count(fp, l.popped, f) > 0)
  {
    var l := Run(snapshot, acts);
    Balanced(snapshot, acts);
    SurplusWithin(fp, snapshot);
    forall m | m in l.purged ensures fp(m).Some? {
      assert m in Surplus(fp, snapshot);
    }
    if Group(fp, snapshot, f) != [] {
      FewPurged(fp, snapshot, l.purged, f);
      CountIsGroup(fp, snapshot, f);
      CountAdds(fp, multiset(snapshot), l.pushed, f);
      CountAdds(fp, multiset(l.list), l.popped + l.purged, f);
      CountAdds(fp, l.popped, l.purged, f);
    }
  }
}
