/** Single-flight token refresh in the browser's API client (src/frontend/src/lib/apiClient.ts).
    JavaScript runs one continuation at a time, from one `await` to the next; each event here
    is one such stretch, and the events of any number of callers interleave freely. */
module TokenRefresh {
  import opened Options

  /** What JavaScript calls truthy: null and the empty string are not. */
  predicate Truthy(t: Option<string>) {
    t.Some? && t.value != ""
  }

  datatype Pc = AwaitsFirst | AwaitsRefresh | AwaitsRetry | Done(status: Option<int>)

  /** One call of `apiClient`: whether its path contains '/auth/token', where it is, the
      refresh it joined, and the tokens its requests carried. */
  datatype Caller = Caller(authPath: bool, pc: Pc, joined: Option<nat>, sent: seq<Option<string>>)

  /** Refreshes are numbered in the order they start. `promise` is the module's variable,
      `outstanding` the requests on the wire, `results` what settled refreshes returned. */
  datatype State = State(
    store: Option<string>,
    callers: map<nat, Caller>,
    promise: Option<nat>,
    outstanding: set<nat>,
    results: map<nat, Option<string>>,
    started: nat,
    unauthorized: nat)           // how many 401 answers there were outside '/auth/token'

  /** A status of None is a request that failed without an answer. */
  datatype Event =
    | Call(id: nat, authPath: bool)
    | FirstAnswer(id: nat, status: Option<int>)
    | RefreshSettles(refresh: nat, result: Option<string>)
    | Resume(id: nat)
    | RetryAnswer(id: nat, status: Option<int>)
    | StoreChanges(token: Option<string>)   // other code logs in or out

  predicate Possible(s: State, e: Event) {
    match e
    case Call(id, _) => id !in s.callers
    case FirstAnswer(id, _) => id in s.callers && s.callers[id].pc.AwaitsFirst?
    case RefreshSettles(g, _) => g in s.outstanding
    case Resume(id) =>
      id in s.callers && s.callers[id].pc.AwaitsRefresh? &&
      s.callers[id].joined.Some? && s.callers[id].joined.value in s.results
    case RetryAnswer(id, _) => id in s.callers && s.callers[id].pc.AwaitsRetry?
    case StoreChanges(_) => true
  }

  function Next(s: State, e: Event): State
    requires Possible(s, e)
  {
    match e
    case Call(id, authPath) => s.(callers := s.callers[id := Caller(authPath, AwaitsFirst, None, [s.store])])
    case FirstAnswer(id, status) =>
      var c := s.callers[id];
      var n := s.unauthorized + 1;
      if status != Some(401) || c.authPath then
        s.(callers := s.callers[id := c.(pc := Done(status))])
      else if s.promise.Some? then
        s.(callers := s.callers[id := c.(pc := AwaitsRefresh, joined := s.promise)], unauthorized := n)
      else
        var g := s.started;
        s.(callers := s.callers[id := c.(pc := AwaitsRefresh, joined := Some(g))], unauthorized := n,
           promise := Some(g), outstanding := s.outstanding + {g}, started := g + 1)
    case RefreshSettles(g, result) =>
      s.(store := if Truthy(result) then result else s.store,
         promise := None, outstanding := s.outstanding - {g}, results := s.results[g := result])
    case Resume(id) =>
      var c := s.callers[id];
      var token := s.results[c.joined.value];
      if Truthy(token) then s.(callers := s.callers[id := c.(pc := AwaitsRetry, sent := c.sent + [token])])
      else s.(store := None, callers := s.callers[id := c.(pc := Done(Some(401)))])
    case RetryAnswer(id, status) => s.(callers := s.callers[id := s.callers[id].(pc := Done(status))])
    case StoreChanges(token) => s.(store := token)
  }

  // ---------------------------------------------------------------- the code

  function Start(token: Option<string>): State {
    State(token, map[], None, {}, map[], 0, 0)
  }

  /** The module's variable, the auth store and the callers, with one method for each stretch
      of code between two awaits. */
  class ApiClient {
    var store: Option<string>
    var callers: map<nat, Caller>
    var promise: Option<nat>
    var outstanding: set<nat>
    var results: map<nat, Option<string>>
    var started: nat
    var unauthorized: nat

    function Now(): State
      reads this
    {
      State(store, callers, promise, outstanding, results, started, unauthorized)
    }

    constructor (token: Option<string>)
      ensures Now() == Start(token)
    {
      store, callers, promise, outstanding, results, started, unauthorized := token, map[], None, {}, map[], 0, 0;
    }

    method Begin(id: nat, authPath: bool)
      requires Possible(Now(), Call(id, authPath))
      modifies this
      ensures Now() == Next(old(Now()), Call(id, authPath))
    {
      callers := callers[id := Caller(authPath, AwaitsFirst, None, [store])];
    }

    /** `attemptTokenRefresh` up to its await: joins the refresh under way or starts one. */
    method AttemptTokenRefresh() returns (refresh: nat)
      modifies this
      ensures old(promise).Some? ==> refresh == old(promise).value && Now() == old(Now())
      ensures old(promise).None? ==>
        && refresh == old(started)
        && Now() == old(Now()).(promise := Some(refresh), outstanding := old(outstanding) + {refresh},
                                started := refresh + 1)
    {
      if promise.Some? {
        return promise.value;
      }
      refresh := started;
      outstanding := outstanding + {refresh};
      started := started + 1;
      promise := Some(refresh);
    }

    method OnFirstAnswer(id: nat, status: Option<int>)
      requires Possible(Now(), FirstAnswer(id, status))
      modifies this
      ensures Now() == Next(old(Now()), FirstAnswer(id, status))
    {
      var c := callers[id];
      if status == Some(401) && !c.authPath {
        unauthorized := unauthorized + 1;
        var refresh := AttemptTokenRefresh();
        callers := callers[id := c.(pc := AwaitsRefresh, joined := Some(refresh))];
      } else {
        callers := callers[id := c.(pc := Done(status))];
      }
    }

    method OnRefreshSettles(refresh: nat, result: Option<string>)
      requires Possible(Now(), RefreshSettles(refresh, result))
      modifies this
      ensures Now() == Next(old(Now()), RefreshSettles(refresh, result))
    {
      outstanding := outstanding - {refresh};
      if Truthy(result) {
        store := result;
      }
      results := results[refresh := result];
      promise := None;   // finally
    }

    method OnResume(id: nat)
      requires Possible(Now(), Resume(id))
      modifies this
      ensures Now() == Next(old(Now()), Resume(id))
    {
      var c := callers[id];
      var newToken := results[c.joined.value];
      if Truthy(newToken) {
        callers := callers[id := c.(pc := AwaitsRetry, sent := c.sent + [newToken])];
      } else {
        store := None;
        callers := callers[id := c.(pc := Done(Some(401)))];
      }
    }

    method OnRetryAnswer(id: nat, status: Option<int>)
      requires Possible(Now(), RetryAnswer(id, status))
      modifies this
      ensures Now() == Next(old(Now()), RetryAnswer(id, status))
    {
      callers := callers[id := callers[id].(pc := Done(status))];
    }
  }

  // ---------------------------------------------------------------- invariant

  /** The variable names the one refresh on the wire, if any; every refresh started is either
      that one or settled. */
  ghost predicate SingleFlight(s: State) {
    && s.outstanding == (if s.promise.Some? then {s.promise.value} else {})
    && (forall g :: g in s.outstanding || g in s.results <==> 0 <= g < s.started)
    && s.outstanding !! s.results.Keys
    && s.started <= s.unauthorized
  }

  predicate CallerInv(s: State, c: Caller) {
    && (c.joined.Some? ==> c.joined.value < s.started && !c.authPath)
    && (c.pc.AwaitsFirst? ==> c.joined.None?)
    && (c.pc.AwaitsRefresh? ==> c.joined.Some? && |c.sent| == 1)
    && (c.pc.AwaitsRetry? ==> |c.sent| == 2)
    && 1 <= |c.sent| <= 2
    && (c.pc.Done? && c.joined.None? && !c.authPath ==> c.pc.status != Some(401))
    && (c.pc.Done? && c.joined.Some? ==>
         c.joined.value in s.results && (|c.sent| == 2 || !Truthy(s.results[c.joined.value])))
    && (|c.sent| == 2 ==>
         c.joined.Some? && c.joined.value in s.results && Truthy(c.sent[1]) && c.sent[1] == s.results[c.joined.value])
  }

  ghost predicate Inv(s: State) {
    SingleFlight(s) && forall id :: id in s.callers ==> CallerInv(s, s.callers[id])
  }

  lemma StepKeepsSingleFlight(s: State, e: Event)
    requires SingleFlight(s) && Possible(s, e)
    ensures SingleFlight(Next(s, e))
  {
    match e
    case Call(_, _) =>
    case FirstAnswer(id, status) =>
      if status == Some(401) && !s.callers[id].authPath && s.promise.None? {
        assert s.started !in s.results;
      }
    case RefreshSettles(g, _) => assert s.outstanding == {g};
    case Resume(_) =>
    case RetryAnswer(_, _) =>
    case StoreChanges(_) =>
  }

  lemma StepKeepsCaller(s: State, e: Event, c: Caller)
    requires SingleFlight(s) && Possible(s, e) && CallerInv(s, c)
    ensures CallerInv(Next(s, e), c)
  {
    if e.RefreshSettles? {
      assert e.refresh !in s.results;
    }
  }

  lemma ActingCaller(s: State, e: Event, id: nat)
    requires Inv(s) && Possible(s, e) && id in Next(s, e).callers
    requires id !in s.callers || Next(s, e).callers[id] != s.callers[id]
    ensures CallerInv(Next(s, e), Next(s, e).callers[id])
  {
    if id in s.callers {
      assert CallerInv(s, s.callers[id]);
    }
    if e.FirstAnswer? && s.promise.Some? {
      assert s.promise.value in s.outstanding;
    }
  }

  lemma StepKeepsInv(s: State, e: Event)
    requires Inv(s) && Possible(s, e)
    ensures Inv(Next(s, e))
  {
    var s' := Next(s, e);
    StepKeepsSingleFlight(s, e);
    forall id | id in s'.callers ensures CallerInv(s', s'.callers[id]) {
      if id in s.callers && s'.callers[id] == s.callers[id] {
        StepKeepsCaller(s, e, s.callers[id]);
      } else {
        ActingCaller(s, e, id);
      }
    }
  }

  // ---------------------------------------------------------------- runs

  predicate Run(s: State, events: seq<Event>)
    decreases |events|
  {
    events == [] || (Possible(s, events[0]) && Run(Next(s, events[0]), events[1..]))
  }

  function After(s: State, events: seq<Event>): State
    requires Run(s, events)
    decreases |events|
  {
    if events == [] then s else After(Next(s, events[0]), events[1..])
  }

  lemma {:induction false} RunsKeepInv(s: State, events: seq<Event>)
    requires Inv(s) && Run(s, events)
    ensures Inv(After(s, events))
    decreases |events|
  {
    if events != [] {
      StepKeepsInv(s, events[0]);
      RunsKeepInv(Next(s, events[0]), events[1..]);
    }
  }

  /** A 401 whose caller's path does not contain '/auth/token'. */
  predicate Refused(s: State, e: Event)
    requires Possible(s, e)
  {
    e.FirstAnswer? && e.status == Some(401) && !s.callers[e.id].authPath
  }

  /** How many such answers a run has. */
  function Refusals(s: State, events: seq<Event>): nat
    requires Run(s, events)
    decreases |events|
  {
    if events == [] then 0
    else (if Refused(s, events[0]) then 1 else 0) + Refusals(Next(s, events[0]), events[1..])
  }

  lemma {:induction false} RefusalsAreCounted(s: State, events: seq<Event>)
    requires Run(s, events)
    ensures After(s, events).unauthorized == s.unauthorized + Refusals(s, events)
    decreases |events|
  {
    if events != [] {
      RefusalsAreCounted(Next(s, events[0]), events[1..]);
    }
  }

  /** In every interleaving: at most one refresh is on the wire; there were never more
      refreshes than 401 answers outside '/auth/token' paths; a caller sent one request, or two,
      and then the second one with the token of the very refresh it had joined; and calls on
      '/auth/token' paths sent only one and joined none. No other call ends with a 401 without
      having waited for a refresh, and it was retried iff that refresh gave a token. */
  lemma EveryInterleaving(token: Option<string>, events: seq<Event>)
    requires Run(Start(token), events)
    ensures
      var s := After(Start(token), events);
      && |s.outstanding| <= 1
      && s.started <= Refusals(Start(token), events)
      && (forall id :: id in s.callers ==>
           var c := s.callers[id];
           && 1 <= |c.sent| <= 2
           && (c.authPath ==> c.joined.None? && |c.sent| == 1)
           && (|c.sent| == 2 ==>
                && c.joined.Some? && c.joined.value in s.results
                && c.sent[1] == s.results[c.joined.value] && c.sent[1].Some? && c.sent[1].value != "")
           && (c.pc.Done? && !c.authPath && c.pc.status == Some(401) ==> c.joined.Some?)
           && (c.pc.Done? && c.joined.Some? ==>
                && c.joined.value in s.results
                && (|c.sent| == 2 <==>
                     s.results[c.joined.value].Some? && s.results[c.joined.value].value != "")))
  {
    RunsKeepInv(Start(token), events);
    RefusalsAreCounted(Start(token), events);
    var s := After(Start(token), events);
    if s.promise.Some? {
      assert |{s.promise.value}| == 1;
    }
    forall id | id in s.callers ensures CallerInv(s, s.callers[id]) {
    }
  }

  /** An answer on an '/auth/token' path never starts or joins a refresh. */
  lemma AuthPathsStartNoRefresh(s: State, id: nat, status: Option<int>)
    requires Possible(s, FirstAnswer(id, status)) && s.callers[id].authPath
    ensures
      var s' := Next(s, FirstAnswer(id, status));
      && s'.started == s.started && s'.outstanding == s.outstanding && s'.promise == s.promise
      && s'.callers[id].pc == Done(status) && s'.callers[id].sent == s.callers[id].sent
  {
  }

  lemma {:induction false} PromiseStays(s: State, events: seq<Event>)
    requires Run(s, events) && s.promise.Some?
    requires forall i :: 0 <= i < |events| ==> !events[i].RefreshSettles?
    ensures After(s, events).promise == s.promise && After(s, events).started == s.started
    decreases |events|
  {
    if events != [] {
      assert !events[0].RefreshSettles?;
      PromiseStays(Next(s, events[0]), events[1..]);
    }
  }

  /** Two callers whose 401s arrive with no refresh settling in between share one refresh. */
  lemma {:induction false} SharedRefresh(s: State, a: nat, between: seq<Event>, b: nat)
    requires Inv(s) && Possible(s, FirstAnswer(a, Some(401))) && !s.callers[a].authPath
    requires Run(Next(s, FirstAnswer(a, Some(401))), between)
    requires forall i :: 0 <= i < |between| ==> !between[i].RefreshSettles?
    requires
      var s' := After(Next(s, FirstAnswer(a, Some(401))), between);
      Possible(s', FirstAnswer(b, Some(401))) && !s'.callers[b].authPath
    ensures
      var s1 := Next(s, FirstAnswer(a, Some(401)));
      var s2 := After(s1, between);
      var s3 := Next(s2, FirstAnswer(b, Some(401)));
      s3.callers[b].joined == s1.callers[a].joined && s3.started == s1.started
  {
    PromiseStays(Next(s, FirstAnswer(a, Some(401))), between);
  }

  /** Nobody waits for a refresh that is neither on the wire nor settled: every caller that is
      not done is waiting for an answer, or can resume, or its refresh can still settle. */
  lemma NobodyIsForgotten(s: State, id: nat)
    requires Inv(s) && id in s.callers && !s.callers[id].pc.Done?
    ensures
      || Possible(s, FirstAnswer(id, None))
      || Possible(s, RetryAnswer(id, None))
      || Possible(s, Resume(id))
      || (s.callers[id].joined.Some? && Possible(s, RefreshSettles(s.callers[id].joined.value, None)))
  {
    var c := s.callers[id];
    assert CallerInv(s, c);
    if c.pc.AwaitsRefresh? {
      var g := c.joined.value;
      assert g in s.outstanding || g in s.results;
    }
  }

  // ---------------------------------------------------------------- answers and the store

  predicate Answers(e: Event, id: nat) {
    (e.FirstAnswer? || e.RetryAnswer?) && e.id == id
  }

  /** The answer a caller got last, if any; `before` is what it had when the events began. */
  function LastAnswer(before: Option<Option<int>>, events: seq<Event>, id: nat): Option<Option<int>>
    decreases |events|
  {
    if events == [] then before
    else LastAnswer(if Answers(events[0], id) then Some(events[0].status) else before, events[1..], id)
  }

  predicate EndsAs(s: State, id: nat, last: Option<Option<int>>) {
    id in s.callers ==>
      match s.callers[id].pc
      case AwaitsFirst => true
      case AwaitsRefresh => last == Some(Some(401))
      case AwaitsRetry => last == Some(Some(401))
      case Done(status) => last == Some(status)
  }

  lemma {:induction false} RunEndsAs(s: State, events: seq<Event>, id: nat, before: Option<Option<int>>)
    requires Run(s, events) && EndsAs(s, id, before)
    ensures EndsAs(After(s, events), id, LastAnswer(before, events, id))
    decreases |events|
  {
    if events != [] {
      var e := events[0];
      RunEndsAs(Next(s, e), events[1..], id, if Answers(e, id) then Some(e.status) else before);
    }
  }

  /** A call that is done ends with the last answer it got: a failed refresh passes the 401
      on, and a retry's answer is final whatever it is. */
  lemma CallsEndWithTheirLastAnswer(token: Option<string>, events: seq<Event>, id: nat)
    requires Run(Start(token), events)
    ensures
      var s := After(Start(token), events);
      id in s.callers && s.callers[id].pc.Done? ==> LastAnswer(None, events, id) == Some(s.callers[id].pc.status)
  {
    RunEndsAs(Start(token), events, id, None);
  }

  predicate GaveToken(result: Option<string>) {
    result.Some? && result.value != ""
  }

  /** The caller finds that the refresh it joined gave no token. */
  predicate FindsNoToken(s: State, e: Event)
    requires Possible(s, e)
  {
    e.Resume? && !GaveToken(s.results[s.callers[e.id].joined.value])
  }

  predicate WritesStore(s: State, e: Event)
    requires Possible(s, e)
  {
    e.StoreChanges? || (e.RefreshSettles? && GaveToken(e.result)) || FindsNoToken(s, e)
  }

  predicate NoWrites(s: State, events: seq<Event>)
    requires Run(s, events)
    decreases |events|
  {
    events == [] || (!WritesStore(s, events[0]) && NoWrites(Next(s, events[0]), events[1..]))
  }

  lemma {:induction false} StoreStays(s: State, events: seq<Event>)
    requires Run(s, events) && NoWrites(s, events)
    ensures After(s, events).store == s.store
    decreases |events|
  {
    if events != [] {
      StoreStays(Next(s, events[0]), events[1..]);
    }
  }

  /** The token of a refresh is what every later call starts with, until other code changes
      the store, another refresh gives a token, or a caller finds that one gave none. */
  lemma NewTokenIsUsed(s: State, g: nat, result: Option<string>, events: seq<Event>, id: nat, authPath: bool)
    requires Possible(s, RefreshSettles(g, result)) && GaveToken(result)
    requires Run(Next(s, RefreshSettles(g, result)), events) && NoWrites(Next(s, RefreshSettles(g, result)), events)
    requires
      var s' := After(Next(s, RefreshSettles(g, result)), events);
      Possible(s', Call(id, authPath))
    ensures
      var s' := After(Next(s, RefreshSettles(g, result)), events);
      s'.store == result && Next(s', Call(id, authPath)).callers[id].sent == [result]
  {
    StoreStays(Next(s, RefreshSettles(g, result)), events);
  }

  /** Other code, or a caller that finds no token, empties the store. */
  predicate LogsOut(s: State, e: Event)
    requires Possible(s, e)
  {
    e == StoreChanges(None) || FindsNoToken(s, e)
  }

  predicate NoLogOut(s: State, events: seq<Event>)
    requires Run(s, events)
    decreases |events|
  {
    events == [] || (!LogsOut(s, events[0]) && NoLogOut(Next(s, events[0]), events[1..]))
  }

  /** Nothing else logs the user out: no answer to a call, and no refresh, even a failed one,
      before a caller acts on it. */
  lemma {:induction false} StaysLoggedIn(s: State, events: seq<Event>)
    requires s.store.Some? && Run(s, events) && NoLogOut(s, events)
    ensures After(s, events).store.Some?
    decreases |events|
  {
    if events != [] {
      StaysLoggedIn(Next(s, events[0]), events[1..]);
    }
  }

  /** A caller that finds no token logs the user out and ends with the 401 it had; one that
      finds a token sends that and leaves the store alone. */
  lemma ResumeActs(s: State, id: nat)
    requires Possible(s, Resume(id))
    ensures
      var s' := Next(s, Resume(id));
      if FindsNoToken(s, Resume(id)) then
        s'.store == None && s'.callers[id].pc == Done(Some(401)) && s'.callers[id].sent == s.callers[id].sent
      else
        s'.store == s.store && s'.callers[id].pc.AwaitsRetry?
        && s'.callers[id].sent == s.callers[id].sent + [s.results[s.callers[id].joined.value]]
  {
  }

  // ---------------------------------------------------------------- every run ends

  /** The continuations a caller still has to come, and one for a refresh it may start. */
  function Ahead(c: Caller): nat {
    match c.pc
    case AwaitsFirst => 4
    case AwaitsRefresh => 2
    case AwaitsRetry => 1
    case Done(_) => 0
  }

  lemma SomeCaller(callers: map<nat, Caller>)
    ensures callers == map[] || exists id :: id in callers
  {
    assert (forall id :: id !in callers) ==> callers == map[];
  }

  ghost function Work(callers: map<nat, Caller>): nat
    decreases |callers|
  {
    if callers == map[] then 0
    else
      SomeCaller(callers);
      var id :| id in callers;
      Ahead(callers[id]) + Work(callers - {id})
  }

  lemma {:induction false} WorkOf(callers: map<nat, Caller>, id: nat)
    requires id in callers
    ensures Work(callers) == Ahead(callers[id]) + Work(callers - {id})
    decreases |callers|
  {
    SomeCaller(callers);
    var first :| first in callers && Work(callers) == Ahead(callers[first]) + Work(callers - {first});
    if first != id {
      WorkOf(callers - {first}, id);
      WorkOf(callers - {id}, first);
      assert callers - {first} - {id} == callers - {id} - {first};
    }
  }

  lemma WorkUpdated(callers: map<nat, Caller>, id: nat, c: Caller)
    ensures Work(callers[id := c]) + (if id in callers then Ahead(callers[id]) else 0) == Work(callers) + Ahead(c)
  {
    WorkOf(callers[id := c], id);
    assert callers[id := c] - {id} == callers - {id};
    if id in callers {
      WorkOf(callers, id);
    } else {
      assert callers - {id} == callers;
    }
  }

  function Allowance(e: Event): nat {
    if e.Call? then 5 else if e.StoreChanges? then 1 else 0
  }

  ghost function Remaining(s: State): nat {
    Work(s.callers) + |s.outstanding|
  }

  lemma WireAfter(s: State, e: Event)
    requires Possible(s, e)
    ensures
      var n := |Next(s, e).outstanding|;
      if e.RefreshSettles? then n + 1 == |s.outstanding| else n <= |s.outstanding| + if e.FirstAnswer? then 1 else 0
  {
    var wire := Next(s, e).outstanding;
    if e.RefreshSettles? {
      assert s.outstanding == wire + {e.refresh};
    } else {
      assert wire == s.outstanding || wire == s.outstanding + {s.started};
    }
  }

  lemma WorkAfter(s: State, e: Event, id: nat)
    requires Possible(s, e) && !e.RefreshSettles? && !e.StoreChanges? && e.id == id
    ensures
      var c := Next(s, e).callers[id];
      Work(Next(s, e).callers) + (if id in s.callers then Ahead(s.callers[id]) else 0) == Work(s.callers) + Ahead(c)
  {
    var c := Next(s, e).callers[id];
    assert Next(s, e).callers == s.callers[id := c];
    WorkUpdated(s.callers, id, c);
  }

  lemma StepUsesUp(s: State, e: Event)
    requires Possible(s, e)
    ensures Remaining(Next(s, e)) + 1 <= Remaining(s) + Allowance(e)
  {
    WireAfter(s, e);
    if !e.RefreshSettles? && !e.StoreChanges? {
      WorkAfter(s, e, e.id);
    }
  }

  /** How many events an event accounts for. */
  function Allowances(events: seq<Event>): nat {
    if events == [] then 0 else Allowance(events[0]) + Allowances(events[1..])
  }

  lemma {:induction false} RunsAreShort(s: State, events: seq<Event>)
    requires Run(s, events)
    ensures |events| + Remaining(After(s, events)) <= Remaining(s) + Allowances(events)
    decreases |events|
  {
    if events != [] {
      StepUsesUp(s, events[0]);
      RunsAreShort(Next(s, events[0]), events[1..]);
    }
  }

  function Calls(events: seq<Event>): nat {
    if events == [] then 0 else (if events[0].Call? then 1 else 0) + Calls(events[1..])
  }

  function StoreChangesIn(events: seq<Event>): nat {
    if events == [] then 0 else (if events[0].StoreChanges? then 1 else 0) + StoreChangesIn(events[1..])
  }

  lemma {:induction false} AllowancesAre(events: seq<Event>)
    ensures Allowances(events) == 5 * Calls(events) + StoreChangesIn(events)
  {
    if events != [] {
      AllowancesAre(events[1..]);
    }
  }

  /** No interleaving goes round in circles: n calls make at most 5n events, refreshes
      included, besides what other code does to the store. */
  lemma EveryRunEnds(token: Option<string>, events: seq<Event>)
    requires Run(Start(token), events)
    ensures |events| <= 5 * Calls(events) + StoreChangesIn(events)
  {
    RunsAreShort(Start(token), events);
    AllowancesAre(events);
  }
}
