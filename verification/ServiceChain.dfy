/** The two executors of a chain of services: the Celery task `run_service`
    (src/automana/worker/main.py), which hands a growing context from link to link, and the
    command line's loop (src/automana/tools/run_service.py), which accumulates results.
    Paths, keyword names, values and the outside world are left abstract. */
module ServiceChain {
  import opened Options

  datatype Outcome<K, V> =
    | Dict(entries: map<K, V>)
    | Other        // a result that is not a dict
    | Raised

  datatype Step<P, K, V> = Step(path: P, kwargs: map<K, V>)

  /** `params` gives a service's parameter names, None for an unknown path. */
  datatype Services<!P, !K, !V, !S> = Services(
    params: P -> Option<set<K>>,
    run: (P, map<K, V>, S) -> (S, Outcome<K, V>))

  datatype Event<P, K, V> =
    | Called(path: P, args: map<K, V>, outcome: Outcome<K, V>)
    | NotFound(path: P)

  function Filter<K, V>(m: map<K, V>, allowed: set<K>): map<K, V> {
    map k | k in m && k in allowed :: m[k]
  }

  function Merge<K, V>(m: map<K, V>, o: Outcome<K, V>): map<K, V> {
    if o.Dict? then m + o.entries else m
  }

  // ---------------------------------------------------------------- Celery

  /** A chain of first deliveries: each link adds its own keyword arguments to the context
      it was handed, calls its service with what that service accepts, and adds the result. */
  function Celery<P, K, V, S>(svc: Services<P, K, V, S>, s: S, context: map<K, V>, steps: seq<Step<P, K, V>>)
    : (seq<Event<P, K, V>>, S)
    decreases |steps|
  {
    if steps == [] then ([], s)
    else
      var path, ctx := steps[0].path, context + steps[0].kwargs;
      match svc.params(path)
      case None => ([NotFound(path)], s)
      case Some(allowed) =>
        var args := Filter(ctx, allowed);
        var (s', o) := svc.run(path, args, s);
        if o.Raised? then ([Called(path, args, o)], s')
        else
          var (rest, s'') := Celery(svc, s', Merge(ctx, o), steps[1..]);
          ([Called(path, args, o)] + rest, s'')
  }

  // ---------------------------------------------------------------- the command line

  function Cli<P, K, V, S>(svc: Services<P, K, V, S>, s: S, accumulated: map<K, V>, steps: seq<Step<P, K, V>>)
    : (seq<Event<P, K, V>>, S)
    decreases |steps|
  {
    if steps == [] then ([], s)
    else
      var path := steps[0].path;
      match svc.params(path)
      case None => ([NotFound(path)], s)
      case Some(allowed) =>
        var args := Filter(accumulated + steps[0].kwargs, allowed);
        var (s', o) := svc.run(path, args, s);
        if o.Raised? then ([Called(path, args, o)], s')
        else
          var (rest, s'') := Cli(svc, s', Merge(accumulated, o), steps[1..]);
          ([Called(path, args, o)] + rest, s'')
  }

  /** The command line's loop. */
  method RunSteps<P, K(==), V, S>(svc: Services<P, K, V, S>, start: S, steps: seq<Step<P, K, V>>)
    returns (events: seq<Event<P, K, V>>, s: S)
    ensures events == Cli(svc, start, map[], steps).0 && s == Cli(svc, start, map[], steps).1
  {
    var accumulated: map<K, V> := map[];
    events, s := [], start;
    var i := 0;
    assert steps[0..] == steps;
    while i < |steps|
      invariant 0 <= i <= |steps|
      invariant
        var rest := Cli(svc, s, accumulated, steps[i..]);
        && Cli(svc, start, map[], steps).0 == events + rest.0
        && Cli(svc, start, map[], steps).1 == rest.1
    {
      var path, merged := steps[i].path, accumulated + steps[i].kwargs;
      assert steps[i..][1..] == steps[i + 1..];
      match svc.params(path) {
        case None =>
          events := events + [NotFound(path)];
          return;
        case Some(allowed) =>
          merged := Filter(merged, allowed);
          var r := svc.run(path, merged, s);
          ghost var before, rest := events, Cli(svc, s, accumulated, steps[i..]).0;
          events, s := events + [Called(path, merged, r.1)], r.0;
          if r.1.Raised? {
            return;
          }
          accumulated := Merge(accumulated, r.1);
          assert before + rest == events + rest[1..];
      }
      i := i + 1;
    }
    assert events + [] == events;
  }

  // ---------------------------------------------------------------- where arguments come from

  function Lookup<K, V>(m: map<K, V>, k: K): Option<V> {
    if k in m then Some(m[k]) else None
  }

  predicate Returned<P, K, V>(e: Event<P, K, V>, k: K) {
    e.Called? && e.outcome.Dict? && k in e.outcome.entries
  }

  /** What the first i steps of a chain make of a name: the latest of them that returned it
      or was given it decides, and its result counts more than what it was given. */
  function Known<P, K, V>(
      base: map<K, V>, given: seq<map<K, V>>, events: seq<Event<P, K, V>>, i: nat, k: K): Option<V>
    requires i <= |events| && i <= |given|
  {
    if i == 0 then Lookup(base, k)
    else if Returned(events[i - 1], k) then Some(events[i - 1].outcome.entries[k])
    else if k in given[i - 1] then Some(given[i - 1][k])
    else Known(base, given, events, i - 1, k)
  }

  lemma {:induction false} KnownLater<P, K, V>(
      base: map<K, V>, given: seq<map<K, V>>, e: Event<P, K, V>, rest: seq<Event<P, K, V>>, i: nat, k: K)
    requires i <= |rest| && i < |given| && e.Called?
    ensures Known(base, given, [e] + rest, i + 1, k) ==
      Known(Merge(base + given[0], e.outcome), given[1..], rest, i, k)
  {
    if i > 0 {
      KnownLater(base, given, e, rest, i - 1, k);
    }
  }

  /** Step i gets exactly the parameters it accepts: its own explicit ones, and otherwise
      what the steps before it make of the name. */
  ghost predicate WiredAt<P, K(!new), V, S>(
      svc: Services<P, K, V, S>, base: map<K, V>, given: seq<map<K, V>>, steps: seq<Step<P, K, V>>,
      events: seq<Event<P, K, V>>, i: nat)
    requires i < |events| <= |steps| == |given|
  {
    match svc.params(steps[i].path)
    case None => events[i] == NotFound(steps[i].path)
    case Some(allowed) =>
      && events[i].Called? && events[i].path == steps[i].path
      && forall k ::
           Lookup(events[i].args, k) ==
             if k !in allowed then None
             else if k in steps[i].kwargs then Some(steps[i].kwargs[k])
             else Known(base, given, events, i, k)
  }

  ghost predicate Wired<P, K(!new), V, S>(
      svc: Services<P, K, V, S>, base: map<K, V>, given: seq<map<K, V>>, steps: seq<Step<P, K, V>>,
      events: seq<Event<P, K, V>>)
  {
    |events| <= |steps| == |given| && forall i :: 0 <= i < |events| ==> WiredAt(svc, base, given, steps, events, i)
  }

  lemma WiredOn<P, K(!new), V, S>(
      svc: Services<P, K, V, S>, base: map<K, V>, given: seq<map<K, V>>, steps: seq<Step<P, K, V>>,
      e: Event<P, K, V>, rest: seq<Event<P, K, V>>)
    requires steps != [] && |given| == |steps| && e.Called?
    requires WiredAt(svc, base, given, steps, [e], 0)
    requires Wired(svc, Merge(base + given[0], e.outcome), given[1..], steps[1..], rest)
    ensures Wired(svc, base, given, steps, [e] + rest)
  {
    var all, base' := [e] + rest, Merge(base + given[0], e.outcome);
    forall i | 0 <= i < |all| ensures WiredAt(svc, base, given, steps, all, i) {
      if i > 0 {
        assert WiredAt(svc, base', given[1..], steps[1..], rest, i - 1);
        forall k ensures Known(base, given, all, i, k) == Known(base', given[1..], rest, i - 1, k) {
          KnownLater(base, given, e, rest, i - 1, k);
        }
      }
    }
  }

  /** The services were called one after the other, each on the world the one before left,
      up to the end or the first that is unknown or raises. */
  ghost predicate PlaysOut<P, K, V, S>(
      svc: Services<P, K, V, S>, s: S, steps: nat, events: seq<Event<P, K, V>>, end: S)
    decreases steps
  {
    if steps == 0 then events == [] && end == s
    else
      events != [] &&
      match events[0]
      case NotFound(_) => |events| == 1 && end == s
      case Called(path, args, o) =>
        && o == svc.run(path, args, s).1
        && if o.Raised? then |events| == 1 && end == svc.run(path, args, s).0
           else PlaysOut(svc, svc.run(path, args, s).0, steps - 1, events[1..], end)
  }

  function Explicit<P, K, V>(steps: seq<Step<P, K, V>>): (given: seq<map<K, V>>)
    ensures |given| == |steps|
  {
    seq(|steps|, i requires 0 <= i < |steps| => steps[i].kwargs)
  }

  function Nothing<K, V>(n: nat): (given: seq<map<K, V>>)
    ensures |given| == n && forall i :: 0 <= i < n ==> given[i] == map[]
  {
    seq(n, i => map[])
  }

  lemma FilteredLookup<K(!new), V>(m: map<K, V>, kwargs: map<K, V>, allowed: set<K>)
    ensures forall k ::
              Lookup(Filter(m + kwargs, allowed), k) ==
                if k !in allowed then None else if k in kwargs then Some(kwargs[k]) else Lookup(m, k)
  {
  }

  /** In a Celery chain a step's explicit arguments reach every later step, too. */
  lemma {:induction false} CeleryArguments<P, K(!new), V, S>(
      svc: Services<P, K, V, S>, s: S, context: map<K, V>, steps: seq<Step<P, K, V>>)
    ensures
      var (events, end) := Celery(svc, s, context, steps);
      Wired(svc, context, Explicit(steps), steps, events) && PlaysOut(svc, s, |steps|, events, end)
    decreases |steps|
  {
    if steps != [] && svc.params(steps[0].path).Some? {
      var path, kwargs, allowed := steps[0].path, steps[0].kwargs, svc.params(steps[0].path).value;
      var args := Filter(context + kwargs, allowed);
      var (s', o) := svc.run(path, args, s);
      var e := Called(path, args, o);
      FilteredLookup(context, kwargs, allowed);
      assert WiredAt(svc, context, Explicit(steps), steps, [e], 0);
      if !o.Raised? {
        CeleryArguments(svc, s', Merge(context + kwargs, o), steps[1..]);
        assert Explicit(steps)[1..] == Explicit(steps[1..]);
        var rest := Celery(svc, s', Merge(context + kwargs, o), steps[1..]).0;
        WiredOn(svc, context, Explicit(steps), steps, e, rest);
        assert ([e] + rest)[1..] == rest;
      }
    }
  }

  /** On the command line only results do. */
  lemma {:induction false} CliArguments<P, K(!new), V, S>(
      svc: Services<P, K, V, S>, s: S, accumulated: map<K, V>, steps: seq<Step<P, K, V>>)
    ensures
      var (events, end) := Cli(svc, s, accumulated, steps);
      Wired(svc, accumulated, Nothing(|steps|), steps, events) && PlaysOut(svc, s, |steps|, events, end)
    decreases |steps|
  {
    if steps != [] && svc.params(steps[0].path).Some? {
      var path, kwargs, allowed := steps[0].path, steps[0].kwargs, svc.params(steps[0].path).value;
      var args := Filter(accumulated + kwargs, allowed);
      var (s', o) := svc.run(path, args, s);
      var e := Called(path, args, o);
      var given: seq<map<K, V>> := Nothing(|steps|);
      FilteredLookup(accumulated, kwargs, allowed);
      assert WiredAt(svc, accumulated, given, steps, [e], 0);
      if !o.Raised? {
        assert accumulated + given[0] == accumulated;
        CliArguments(svc, s', Merge(accumulated, o), steps[1..]);
        assert given[1..] == Nothing(|steps[1..]|);
        var rest := Cli(svc, s', Merge(accumulated, o), steps[1..]).0;
        WiredOn(svc, accumulated, given, steps, e, rest);
        assert ([e] + rest)[1..] == rest;
      }
    }
  }

  // ---------------------------------------------------------------- when they agree

  /** Walking along the chain, no step has a parameter that an earlier step was given
      explicitly and that it is not given itself. Steps behind an unknown service never run. */
  ghost predicate Resupplied<P, K, V, S>(svc: Services<P, K, V, S>, seen: set<K>, steps: seq<Step<P, K, V>>)
    decreases |steps|
  {
    steps != [] && svc.params(steps[0].path).Some? ==>
      && seen * svc.params(steps[0].path).value <= steps[0].kwargs.Keys
      && Resupplied(svc, seen + steps[0].kwargs.Keys, steps[1..])
  }

  ghost predicate AgreeOutside<K, V>(m: map<K, V>, n: map<K, V>, seen: set<K>) {
    && m.Keys - seen == n.Keys - seen
    && forall k :: k in m.Keys - seen ==> m[k] == n[k]
  }

  lemma SameArguments<K, V>(m: map<K, V>, n: map<K, V>, seen: set<K>, kwargs: map<K, V>, allowed: set<K>)
    requires AgreeOutside(m, n, seen) && seen * allowed <= kwargs.Keys
    ensures Filter(m + kwargs, allowed) == Filter(n + kwargs, allowed)
  {
    var a, b := Filter(m + kwargs, allowed), Filter(n + kwargs, allowed);
    assert forall k :: k in m && k in allowed && k !in kwargs ==> k in m.Keys - seen;
    assert forall k :: k in n && k in allowed && k !in kwargs ==> k in n.Keys - seen;
    assert forall k :: k in n.Keys - seen ==> k in m.Keys - seen;
    assert a.Keys == b.Keys;
  }

  lemma AgreementKept<K, V>(m: map<K, V>, n: map<K, V>, seen: set<K>, kwargs: map<K, V>, o: Outcome<K, V>)
    requires AgreeOutside(m, n, seen)
    ensures AgreeOutside(Merge(m + kwargs, o), Merge(n, o), seen + kwargs.Keys)
  {
    var more := if o.Dict? then o.entries else map[];
    var m', n', seen' := m + kwargs + more, n + more, seen + kwargs.Keys;
    assert Merge(m + kwargs, o) == m' && Merge(n, o) == n';
    forall k ensures k in m'.Keys - seen' <==> k in n'.Keys - seen' {
      assert k in m.Keys - seen <==> k in n.Keys - seen;
    }
    forall k | k in m'.Keys - seen' ensures m'[k] == n'[k] {
      if k !in more {
        assert k in m.Keys - seen;
      }
    }
  }

  lemma {:induction false} AgreeFrom<P, K, V, S>(
      svc: Services<P, K, V, S>, s: S, context: map<K, V>, accumulated: map<K, V>, seen: set<K>,
      steps: seq<Step<P, K, V>>)
    requires AgreeOutside(context, accumulated, seen) && Resupplied(svc, seen, steps)
    ensures Celery(svc, s, context, steps) == Cli(svc, s, accumulated, steps)
    decreases |steps|
  {
    if steps != [] && svc.params(steps[0].path).Some? {
      var allowed := svc.params(steps[0].path).value;
      SameArguments(context, accumulated, seen, steps[0].kwargs, allowed);
      var (s', o) := svc.run(steps[0].path, Filter(context + steps[0].kwargs, allowed), s);
      AgreementKept(context, accumulated, seen, steps[0].kwargs, o);
      AgreeFrom(svc, s', Merge(context + steps[0].kwargs, o), Merge(accumulated, o),
                seen + steps[0].kwargs.Keys, steps[1..]);
    }
  }

  /** Under the condition both executors make the same calls with the same arguments, see
      the same results and leave the same world, whatever the services do. */
  lemma ExecutorsAgree<P, K, V, S>(svc: Services<P, K, V, S>, s: S, steps: seq<Step<P, K, V>>)
    requires Resupplied(svc, {}, steps)
    ensures Celery(svc, s, map[], steps) == Cli(svc, s, map[], steps)
  {
    AgreeFrom(svc, s, map[], map[], {}, steps);
  }

  /** The same services by name and parameters, each doing nothing. */
  ghost function Silent<P, K, V, S>(svc: Services<P, K, V, S>): Services<P, K, V, S> {
    svc.(run := (path, args, s) => (s, Other))
  }

  lemma {:induction false} DisagreeFrom<P, K, V, S>(
      svc: Services<P, K, V, S>, s: S, context: map<K, V>, steps: seq<Step<P, K, V>>)
    requires !Resupplied(svc, context.Keys, steps)
    ensures Celery(Silent(svc), s, context, steps).0 != Cli(Silent(svc), s, map[], steps).0
    decreases |steps|
  {
    var allowed, kwargs := svc.params(steps[0].path).value, steps[0].kwargs;
    var a, b := Filter(context + kwargs, allowed), Filter(map[] + kwargs, allowed);
    var celery, cli := Celery(Silent(svc), s, context, steps).0, Cli(Silent(svc), s, map[], steps).0;
    assert celery[0] == Called(steps[0].path, a, Other) && cli[0] == Called(steps[0].path, b, Other);
    if !(context.Keys * allowed <= kwargs.Keys) {
      var k :| k in context.Keys * allowed && k !in kwargs;
      assert k in a && k !in b;
    } else {
      assert (context + kwargs).Keys == context.Keys + kwargs.Keys;
      DisagreeFrom(svc, s, context + kwargs, steps[1..]);
      var rest, rest' := Celery(Silent(svc), s, context + kwargs, steps[1..]).0,
                         Cli(Silent(svc), s, map[], steps[1..]).0;
      assert celery[1..] == rest && cli[1..] == rest';
    }
  }

  lemma {:induction false} SameParams<P, K, V, S>(
      svc: Services<P, K, V, S>, other: Services<P, K, V, S>, seen: set<K>, steps: seq<Step<P, K, V>>)
    requires svc.params == other.params
    ensures Resupplied(svc, seen, steps) == Resupplied(other, seen, steps)
    decreases |steps|
  {
    if steps != [] && svc.params(steps[0].path).Some? {
      SameParams(svc, other, seen + steps[0].kwargs.Keys, steps[1..]);
    }
  }

  /** The condition is exact: the executors agree for every behaviour of the services iff
      it holds, because services that do nothing already tell them apart without it. */
  lemma AgreeIffResupplied<P, K, V, S(!new)>(svc: Services<P, K, V, S>, s: S, steps: seq<Step<P, K, V>>)
    ensures Resupplied(svc, {}, steps) <==>
      forall run: (P, map<K, V>, S) -> (S, Outcome<K, V>) ::
        Celery(svc.(run := run), s, map[], steps) == Cli(svc.(run := run), s, map[], steps)
  {
    if Resupplied(svc, {}, steps) {
      forall run: (P, map<K, V>, S) -> (S, Outcome<K, V>)
        ensures Celery(svc.(run := run), s, map[], steps) == Cli(svc.(run := run), s, map[], steps)
      {
        SameParams(svc, svc.(run := run), {}, steps);
        ExecutorsAgree(svc.(run := run), s, steps);
      }
    } else {
      var none: map<K, V> := map[];
      assert none.Keys == {};
      DisagreeFrom(svc, s, none, steps);
      assert svc.(run := Silent(svc).run) == Silent(svc);
    }
  }
}
