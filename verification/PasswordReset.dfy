/** Password-reset tokens (src/automana/api/services/auth/password_reset_service.py and the
    password-reset and session repositories). Both services run in a transaction: NOW() is
    the time at which it started, the application reads its own clock a little later, and a
    call that raises leaves nothing behind. A token stands for its SHA-256 hash, which the
    table keeps unique. */
module PasswordReset {
  import opened Options
  import Sorting

  const THIRTY_MINUTES := 1800

  datatype Row = Row(user: int, expiresAt: int, used: bool)

  /** A session and how many of its refresh tokens are neither revoked nor used. */
  datatype Session = Session(user: int, active: bool, expiresAt: int, liveTokens: nat)

  datatype State = State(
    users: map<string, int>,         // by e-mail address
    passwords: map<int, string>,
    tokens: map<string, Row>,        // by hash
    sessions: map<int, Session>)

  datatype Outcome = Ok | InvalidResetToken | Raised

  // ---------------------------------------------------------------- table operations

  /** The sessions in `v_active_sessions`. */
  predicate InView(s: Session, now: int) {
    s.active && s.liveTokens > 0 && s.expiresAt > now
  }

  predicate Pending(r: Row, user: int, now: int) {
    r.user == user && !r.used && r.expiresAt > now
  }

  function Invalidated(tokens: map<string, Row>, user: int, now: int): map<string, Row> {
    map t | t in tokens && !Pending(tokens[t], user, now) :: tokens[t]
  }

  function Inactivated(s: Session): Session {
    s.(active := false, liveTokens := 0)
  }

  function LoggedOut(sessions: map<int, Session>, user: int, now: int): map<int, Session> {
    map id | id in sessions ::
      if sessions[id].user == user && InView(sessions[id], now) then Inactivated(sessions[id]) else sessions[id]
  }

  /** What `reset_password` accepts. */
  predicate Usable(r: Row, now: int) {
    !r.used && !(r.expiresAt < now)
  }

  // ---------------------------------------------------------------- the services

  /** One call; a request brings the random token it will draw. */
  datatype Call =
    | RequestReset(email: string, token: string, mailFails: bool)
    | ResetPassword(token: string, password: string)
    | LogIn(id: int, session: Session)   // whatever else makes sessions

  /** A call starts at `dbNow` and reads the application's clock at `appNow`. */
  datatype Event = Event(call: Call, dbNow: int, appNow: int)

  function Do(s: State, e: Event): (State, Outcome) {
    match e.call
    case RequestReset(email, token, mailFails) =>
      if email !in s.users then (s, Ok)
      else
        var user := s.users[email];
        var rest := Invalidated(s.tokens, user, e.dbNow);
        if token in rest || mailFails then (s, Raised)
        else (s.(tokens := rest[token := Row(user, e.appNow + THIRTY_MINUTES, false)]), Ok)
    case ResetPassword(token, password) =>
      if token !in s.tokens || !Usable(s.tokens[token], e.appNow) then (s, InvalidResetToken)
      else
        var row := s.tokens[token];
        (s.(passwords := s.passwords[row.user := password],
            tokens := s.tokens[token := row.(used := true)],
            sessions := LoggedOut(s.sessions, row.user, e.dbNow)), Ok)
    case LogIn(id, session) =>
      (if id in s.sessions then s else s.(sessions := s.sessions[id := session]), Ok)
  }

  class Accounts {
    var users: map<string, int>
    var passwords: map<int, string>
    var tokens: map<string, Row>
    var sessions: map<int, Session>

    function Tables(): State
      reads this
    {
      State(users, passwords, tokens, sessions)
    }

    /** INSERT; false is the violation of the hash's uniqueness. */
    method Create(user: int, token: string, expiresAt: int) returns (ok: bool)
      modifies `tokens
      ensures ok <==> token !in old(tokens)
      ensures tokens == if ok then old(tokens)[token := Row(user, expiresAt, false)] else old(tokens)
    {
      ok := token !in tokens;
      if ok {
        tokens := tokens[token := Row(user, expiresAt, false)];
      }
    }

    method InvalidateForUser(user: int, now: int)
      modifies `tokens
      ensures tokens == Invalidated(old(tokens), user, now)
    {
      tokens := map t
        | t in tokens && !(tokens[t].user == user && !tokens[t].used && tokens[t].expiresAt > now)
        :: tokens[t];
    }

    method MarkUsed(token: string)
      requires token in tokens
      modifies `tokens
      ensures tokens == old(tokens)[token := old(tokens[token]).(used := true)]
    {
      tokens := tokens[token := tokens[token].(used := true)];
    }

    /** The user's rows of the view, in some order. */
    method GetByUserId(user: int, now: int) returns (rows: seq<int>)
      ensures forall id :: id in rows <==> id in sessions && sessions[id].user == user && InView(sessions[id], now)
    {
      rows := Sorting.Ascending(set id | id in sessions && sessions[id].user == user && InView(sessions[id], now));
    }

    method InvalidateSession(id: int)
      requires id in sessions
      modifies `sessions
      ensures sessions == old(sessions)[id := Inactivated(old(sessions[id]))]
    {
      sessions := sessions[id := Inactivated(sessions[id])];
    }

    method InvalidateAllForUser(user: int, now: int)
      modifies `sessions
      ensures sessions == LoggedOut(old(sessions), user, now)
    {
      var rows := GetByUserId(user, now);
      for i := 0 to |rows|
        invariant sessions.Keys == old(sessions).Keys
        invariant forall id :: id in sessions ==>
          sessions[id] == if id in rows[..i] then Inactivated(old(sessions)[id]) else old(sessions)[id]
      {
        InvalidateSession(rows[i]);
        assert rows[..i + 1] == rows[..i] + [rows[i]];
      }
      assert rows[..|rows|] == rows;
      assert forall id :: id in sessions ==> sessions[id] == LoggedOut(old(sessions), user, now)[id];
    }

    method RequestReset(email: string, token: string, mailFails: bool, dbNow: int, appNow: int) returns (o: Outcome)
      modifies this
      ensures (Tables(), o) == Do(old(Tables()), Event(Call.RequestReset(email, token, mailFails), dbNow, appNow))
    {
      if email !in users {
        return Ok;
      }
      var user, before := users[email], tokens;
      InvalidateForUser(user, dbNow);
      var created := Create(user, token, appNow + THIRTY_MINUTES);
      if !created || mailFails {
        tokens := before;   // rolled back
        return Raised;
      }
      return Ok;
    }

    method ResetPassword(token: string, password: string, dbNow: int, appNow: int) returns (o: Outcome)
      modifies this
      ensures (Tables(), o) == Do(old(Tables()), Event(Call.ResetPassword(token, password), dbNow, appNow))
    {
      if token !in tokens {
        return InvalidResetToken;
      }
      var row := tokens[token];
      if row.used {
        return InvalidResetToken;
      }
      if row.expiresAt < appNow {
        return InvalidResetToken;
      }
      passwords := passwords[row.user := password];
      MarkUsed(token);
      InvalidateAllForUser(row.user, dbNow);
      return Ok;
    }
  }

  // ---------------------------------------------------------------- runs

  /** Serial calls under a clock that never goes back; `start` is the time before the first. */
  predicate Monotone(start: int, events: seq<Event>)
    decreases |events|
  {
    events == [] ||
    (start <= events[0].dbNow <= events[0].appNow && Monotone(events[0].appNow, events[1..]))
  }

  function Clock(start: int, events: seq<Event>): int
    decreases |events|
  {
    if events == [] then start else Clock(events[0].appNow, events[1..])
  }

  function RunFrom(s: State, events: seq<Event>): State
    decreases |events|
  {
    if events == [] then s else RunFrom(Do(s, events[0]).0, events[1..])
  }

  predicate Rivals(r: Row, r': Row) {
    r.user == r'.user && !r.used && !r'.used
  }

  predicate Apart(a: int, b: int) {
    a <= b - THIRTY_MINUTES || b <= a - THIRTY_MINUTES
  }

  /** Unused tokens of one user expire at least thirty minutes apart, none of them later than
      thirty minutes from now. */
  ghost predicate Inv(s: State, now: int) {
    && (forall t :: t in s.tokens ==> s.tokens[t].expiresAt <= now + THIRTY_MINUTES)
    && (forall t, t' :: t in s.tokens && t' in s.tokens && t != t' && Rivals(s.tokens[t], s.tokens[t']) ==>
         Apart(s.tokens[t].expiresAt, s.tokens[t'].expiresAt))
  }

  lemma RequestKeepsInv(s: State, now: int, user: int, token: string, dbNow: int, appNow: int)
    requires Inv(s, now) && now <= dbNow <= appNow
    ensures
      var tokens := Invalidated(s.tokens, user, dbNow)[token := Row(user, appNow + THIRTY_MINUTES, false)];
      Inv(s.(tokens := tokens), appNow)
  {
    var rest := Invalidated(s.tokens, user, dbNow);
    assert forall t :: t in rest && Rivals(rest[t], Row(user, appNow + THIRTY_MINUTES, false)) ==>
      rest[t].expiresAt <= dbNow;
  }

  lemma ResetKeepsInv(s: State, now: int, token: string, appNow: int)
    requires Inv(s, now) && now <= appNow && token in s.tokens
    ensures Inv(s.(tokens := s.tokens[token := s.tokens[token].(used := true)]), appNow)
  {
  }

  lemma SameTokensKeepInv(s: State, s': State, now: int, later: int)
    requires Inv(s, now) && now <= later && s'.tokens == s.tokens
    ensures Inv(s', later)
  {
  }

  lemma RequestStep(s: State, now: int, e: Event)
    requires Inv(s, now) && now <= e.dbNow <= e.appNow && e.call.RequestReset?
    ensures Inv(Do(s, e).0, e.appNow)
  {
    if Do(s, e).0 == s {
      SameTokensKeepInv(s, s, now, e.appNow);
    } else {
      RequestKeepsInv(s, now, s.users[e.call.email], e.call.token, e.dbNow, e.appNow);
    }
  }

  lemma ResetStep(s: State, now: int, e: Event)
    requires Inv(s, now) && now <= e.appNow && e.call.ResetPassword?
    ensures Inv(Do(s, e).0, e.appNow)
  {
    if Do(s, e).0 == s {
      SameTokensKeepInv(s, s, now, e.appNow);
    } else {
      var spent := s.(tokens := s.tokens[e.call.token := s.tokens[e.call.token].(used := true)]);
      ResetKeepsInv(s, now, e.call.token, e.appNow);
      SameTokensKeepInv(spent, Do(s, e).0, e.appNow, e.appNow);
    }
  }

  lemma StepKeepsInv(s: State, now: int, e: Event)
    requires Inv(s, now) && now <= e.dbNow <= e.appNow
    ensures Inv(Do(s, e).0, e.appNow)
  {
    match e.call
    case RequestReset(_, _, _) => RequestStep(s, now, e);
    case ResetPassword(_, _) => ResetStep(s, now, e);
    case LogIn(_, _) => SameTokensKeepInv(s, Do(s, e).0, now, e.appNow);
  }

  lemma {:induction false} EveryRunKeepsInv(s: State, start: int, events: seq<Event>)
    requires Inv(s, start) && Monotone(start, events)
    ensures Inv(RunFrom(s, events), Clock(start, events)) && start <= Clock(start, events)
    decreases |events|
  {
    if events != [] {
      StepKeepsInv(s, start, events[0]);
      EveryRunKeepsInv(Do(s, events[0]).0, events[0].appNow, events[1..]);
    }
  }

  /** In every run, at any time from its end on, a user has at most one unused token that
      expires strictly later. */
  lemma AtMostOnePendingToken(s: State, start: int, events: seq<Event>, now: int, t: string, t': string)
    requires s.tokens == map[] && Monotone(start, events) && Clock(start, events) <= now
    requires
      var end := RunFrom(s, events);
      && t in end.tokens && t' in end.tokens && end.tokens[t].user == end.tokens[t'].user
      && Pending(end.tokens[t], end.tokens[t].user, now) && Pending(end.tokens[t'], end.tokens[t].user, now)
    ensures t == t'
  {
    EveryRunKeepsInv(s, start, events);
  }

  // ---------------------------------------------------------------- answers, and a token's life

  /** The answer does not tell whether the address is known, unless the token collides or the
      e-mail cannot be sent; and then nothing has changed. */
  lemma AnswerTellsNothing(s: State, e: Event)
    requires e.call.RequestReset?
    ensures e.call.email !in s.users ==> Do(s, e) == (s, Ok)
    ensures e.call.token !in s.tokens && !e.call.mailFails ==> Do(s, e).1 == Ok
    ensures Do(s, e).1 == Ok || (Do(s, e).1 == Raised && Do(s, e).0 == s)
  {
  }

  /** A reset is accepted iff its token is there, unused and not past its expiry; it then sets
      the password, spends the token, and ends exactly the user's sessions that are active,
      unexpired and have a live refresh token. */
  lemma ResetDoesExactly(s: State, e: Event)
    requires e.call.ResetPassword?
    ensures Do(s, e).1 == Ok <==>
      e.call.token in s.tokens && !s.tokens[e.call.token].used && e.appNow <= s.tokens[e.call.token].expiresAt
    ensures Do(s, e).1 == Ok ==>
      var s', user := Do(s, e).0, s.tokens[e.call.token].user;
      && s'.users == s.users && s'.passwords == s.passwords[user := e.call.password]
      && s'.tokens == s.tokens[e.call.token := Row(user, s.tokens[e.call.token].expiresAt, true)]
      && s'.sessions.Keys == s.sessions.Keys
      && forall id :: id in s.sessions ==>
           var x := s.sessions[id];
           s'.sessions[id] ==
             if x.user == user && x.active && x.liveTokens > 0 && x.expiresAt > e.dbNow
             then Session(user, false, x.expiresAt, 0) else x
    ensures Do(s, e).1 != Ok ==> Do(s, e) == (s, InvalidResetToken)
  {
  }

  /** The call uses the token up, or asks for another one for the same user. */
  predicate Ends(s: State, e: Event, token: string, user: int) {
    match e.call
    case RequestReset(email, _, _) => email in s.users && s.users[email] == user
    case ResetPassword(t, _) => t == token
    case LogIn(_, _) => false
  }

  lemma {:induction false} TokenStays(s: State, events: seq<Event>, token: string, row: Row)
    requires token in s.tokens && s.tokens[token] == row
    requires forall i :: 0 <= i < |events| ==> !Ends(RunFrom(s, events[..i]), events[i], token, row.user)
    ensures token in RunFrom(s, events).tokens && RunFrom(s, events).tokens[token] == row
    decreases |events|
  {
    if events != [] {
      var s', rest := Do(s, events[0]).0, events[1..];
      assert events[..0] == [];
      assert !Ends(RunFrom(s, []), events[0], token, row.user);
      forall i | 0 <= i < |rest| ensures !Ends(RunFrom(s', rest[..i]), rest[i], token, row.user) {
        assert events[..i + 1] == [events[0]] + rest[..i];
        assert events[..i + 1][1..] == rest[..i];
        assert !Ends(RunFrom(s, events[..i + 1]), events[i + 1], token, row.user);
      }
      TokenStays(s', rest, token, row);
    }
  }

  /** A token works for thirty minutes: through any run of calls that neither presents it nor
      asks for another one for its user, a reset with it is accepted up to the very instant of
      its expiry and refused after it, and sets that user's password. */
  lemma TokenWorksForThirtyMinutes(s: State, request: Event, events: seq<Event>, reset: Event)
    requires request.call.RequestReset? && request.call.email in s.users
    requires request.call.token !in s.tokens && !request.call.mailFails
    requires reset.call.ResetPassword? && reset.call.token == request.call.token
    requires
      var s' := Do(s, request).0;
      forall i :: 0 <= i < |events| ==>
        !Ends(RunFrom(s', events[..i]), events[i], request.call.token, s.users[request.call.email])
    ensures
      var user, end := s.users[request.call.email], RunFrom(Do(s, request).0, events);
      && (Do(end, reset).1 == Ok <==> reset.appNow <= request.appNow + 30 * 60)
      && (Do(end, reset).1 == Ok ==>
           user in Do(end, reset).0.passwords && Do(end, reset).0.passwords[user] == reset.call.password)
  {
    var user := s.users[request.call.email];
    TokenStays(Do(s, request).0, events, request.call.token, Row(user, request.appNow + THIRTY_MINUTES, false));
    ResetDoesExactly(RunFrom(Do(s, request).0, events), reset);
  }

  // ---------------------------------------------------------------- one change per token

  /** The event changed a password on the strength of the token. */
  predicate Changed(s: State, e: Event, token: string) {
    e.call.ResetPassword? && e.call.token == token && Do(s, e).1 == Ok
  }

  function Changes(s: State, events: seq<Event>, token: string): nat
    decreases |events|
  {
    if events == [] then 0
    else (if Changed(s, events[0], token) then 1 else 0) + Changes(Do(s, events[0]).0, events[1..], token)
  }

  predicate Spent(s: State, token: string) {
    token in s.tokens && s.tokens[token].used
  }

  /** A used row is never deleted or replaced, so its token never changes a password again,
      not even if the same token were drawn again. */
  lemma {:induction false} SpentForGood(s: State, events: seq<Event>, token: string)
    requires Spent(s, token)
    ensures Spent(RunFrom(s, events), token) && Changes(s, events, token) == 0
    decreases |events|
  {
    if events != [] {
      assert Spent(Do(s, events[0]).0, token);
      SpentForGood(Do(s, events[0]).0, events[1..], token);
    }
  }

  lemma {:induction false} OneChangePerToken(s: State, events: seq<Event>, token: string)
    ensures Changes(s, events, token) <= 1
    decreases |events|
  {
    if events != [] {
      var s' := Do(s, events[0]).0;
      if Changed(s, events[0], token) {
        assert Spent(s', token);
        SpentForGood(s', events[1..], token);
      } else {
        OneChangePerToken(s', events[1..], token);
      }
    }
  }

  predicate ChangesPasswordOf(s: State, e: Event, user: int) {
    && e.call.ResetPassword?
    && e.call.token in s.tokens && s.tokens[e.call.token].user == user
    && Usable(s.tokens[e.call.token], e.appNow)
  }

  /** A password changes only through a token of that user that was unused and had not
      expired. */
  lemma {:induction false} OnlyATokenChangesAPassword(s: State, events: seq<Event>, user: int)
    requires forall i :: 0 <= i < |events| ==> !ChangesPasswordOf(RunFrom(s, events[..i]), events[i], user)
    ensures (user in s.passwords <==> user in RunFrom(s, events).passwords)
    ensures user in s.passwords ==> RunFrom(s, events).passwords[user] == s.passwords[user]
    decreases |events|
  {
    if events != [] {
      var s', rest := Do(s, events[0]).0, events[1..];
      assert events[..0] == [];
      assert !ChangesPasswordOf(RunFrom(s, []), events[0], user);
      forall i | 0 <= i < |rest| ensures !ChangesPasswordOf(RunFrom(s', rest[..i]), rest[i], user) {
        assert events[..i + 1] == [events[0]] + rest[..i];
        assert events[..i + 1][1..] == rest[..i];
        assert !ChangesPasswordOf(RunFrom(s, events[..i + 1]), events[i + 1], user);
      }
      OnlyATokenChangesAPassword(s', rest, user);
    }
  }

  // ---------------------------------------------------------------- after a reset

  /** The user has no session in the view at the instant `since`, and so at none later. */
  ghost predicate LoggedOutSince(s: State, user: int, since: int) {
    forall id, now :: since <= now && id in s.sessions && s.sessions[id].user == user ==> !InView(s.sessions[id], now)
  }

  predicate LogsIn(e: Event, user: int) {
    e.call.LogIn? && e.call.session.user == user
  }

  lemma {:induction false} StaysLoggedOut(s: State, events: seq<Event>, user: int, since: int)
    requires LoggedOutSince(s, user, since)
    requires forall i :: 0 <= i < |events| ==> !LogsIn(events[i], user)
    ensures LoggedOutSince(RunFrom(s, events), user, since)
    decreases |events|
  {
    if events != [] {
      assert !LogsIn(events[0], user);
      StaysLoggedOut(Do(s, events[0]).0, events[1..], user, since);
    }
  }

  /** From a successful reset on, through any run of calls in which the user does not log
      in, the user has no active session. */
  lemma NoSessionSurvives(s: State, e: Event, events: seq<Event>)
    requires e.call.ResetPassword? && Do(s, e).1 == Ok
    requires forall i :: 0 <= i < |events| ==> !LogsIn(events[i], s.tokens[e.call.token].user)
    ensures LoggedOutSince(RunFrom(Do(s, e).0, events), s.tokens[e.call.token].user, e.dbNow)
  {
    StaysLoggedOut(Do(s, e).0, events, s.tokens[e.call.token].user, e.dbNow);
  }

  /** What a table holds for everybody but one user. */
  ghost predicate SameForOthers(s: State, s': State, user: int) {
    && (forall u :: u != user ==> (u in s.passwords <==> u in s'.passwords))
    && (forall u :: u != user && u in s.passwords ==> s.passwords[u] == s'.passwords[u])
    && (forall t :: t in s.tokens && s.tokens[t].user != user ==> t in s'.tokens && s'.tokens[t] == s.tokens[t])
    && (forall t :: t in s'.tokens && s'.tokens[t].user != user ==> t in s.tokens)
    && (forall i :: i in s.sessions && s.sessions[i].user != user ==>
         i in s'.sessions && s'.sessions[i] == s.sessions[i])
    && (forall i :: i in s'.sessions && s'.sessions[i].user != user ==> i in s.sessions)
  }

  /** A request or a reset touches one user only: the address's or the token's. */
  lemma OthersAreUntouched(s: State, e: Event, user: int)
    requires e.call.RequestReset? && e.call.email in s.users ==> s.users[e.call.email] == user
    requires e.call.ResetPassword? && e.call.token in s.tokens ==> s.tokens[e.call.token].user == user
    requires !e.call.LogIn?
    ensures SameForOthers(s, Do(s, e).0, user)
    ensures e.call.ResetPassword? && Do(s, e).1 == Ok ==> Do(s, e).0.passwords[user] == e.call.password
    ensures Do(s, e).1 != Ok ==> Do(s, e).0 == s
  {
  }

  /** A token of the same user, other than the one just used, that a reset would accept. */
  predicate OtherUsable(s: State, token: string, now: int, other: string)
    requires token in s.tokens
  {
    other != token && other in s.tokens && s.tokens[other].user == s.tokens[token].user && Usable(s.tokens[other], now)
  }

  /** After a reset at `now` another usable token can exist only if of the two one expires at
      this very instant and the other was issued at this very instant; and then only one. */
  lemma OtherUsableTokens(s: State, clock: int, e: Event, other: string)
    requires Inv(s, clock) && clock <= e.dbNow <= e.appNow
    requires e.call.ResetPassword? && Do(s, e).1 == Ok
    requires OtherUsable(Do(s, e).0, e.call.token, e.appNow, other)
    ensures clock == e.appNow
    ensures
      var (mine, its) := (s.tokens[e.call.token].expiresAt, s.tokens[other].expiresAt);
      (mine == e.appNow && its == e.appNow + THIRTY_MINUTES) || (its == e.appNow && mine == e.appNow + THIRTY_MINUTES)
    ensures forall another :: OtherUsable(Do(s, e).0, e.call.token, e.appNow, another) ==> another == other
  {
    assert Rivals(s.tokens[e.call.token], s.tokens[other]);
    forall another | OtherUsable(Do(s, e).0, e.call.token, e.appNow, another) ensures another == other {
      assert Rivals(s.tokens[e.call.token], s.tokens[another]);
      assert s.tokens[another].expiresAt == s.tokens[other].expiresAt;
      assert Rivals(s.tokens[other], s.tokens[another]);
    }
  }

  ghost predicate IssuedNow(s: State, token: string, now: int)
    requires token in s.tokens
  {
    exists other :: OtherUsable(s, token, now, other) && s.tokens[other].expiresAt == now + THIRTY_MINUTES
  }

  /** Every other usable token expires at this very instant, unless the token just used does
      so itself and another was issued at this instant. */
  lemma OthersExpireNowIff(s: State, clock: int, e: Event)
    requires Inv(s, clock) && clock <= e.dbNow <= e.appNow
    requires e.call.ResetPassword? && Do(s, e).1 == Ok
    ensures
      var s', now := Do(s, e).0, e.appNow;
      (forall other :: OtherUsable(s', e.call.token, now, other) ==> s'.tokens[other].expiresAt == now) <==>
      !(s.tokens[e.call.token].expiresAt == now && IssuedNow(s, e.call.token, now))
  {
    var s', now := Do(s, e).0, e.appNow;
    if other :| OtherUsable(s', e.call.token, now, other) && s'.tokens[other].expiresAt != now {
      OtherUsableTokens(s, clock, e, other);
      assert OtherUsable(s, e.call.token, now, other);
    }
    if IssuedNow(s, e.call.token, now) && s.tokens[e.call.token].expiresAt == now {
      var other :| OtherUsable(s, e.call.token, now, other) && s.tokens[other].expiresAt == now + THIRTY_MINUTES;
      assert OtherUsable(s', e.call.token, now, other);
    }
  }

  lemma ThreeSteps(s: State, start: int, a: Event, b: Event, c: Event, token: string)
    ensures
      var (s1, s2) := (Do(s, a).0, Do(Do(s, a).0, b).0);
      && RunFrom(s, [a, b, c]) == Do(s2, c).0
      && (Monotone(start, [a, b, c]) <==>
           start <= a.dbNow <= a.appNow <= b.dbNow <= b.appNow <= c.dbNow <= c.appNow)
      && (Changed(s2, c, token) ==> Changes(s, [a, b, c], token) >= 1)
  {
    var (s1, s2) := (Do(s, a).0, Do(Do(s, a).0, b).0);
    assert [a, b, c][1..] == [b, c] && [b, c][1..] == [c] && [c][1..] == [];
    assert RunFrom(s1, [b, c]) == RunFrom(s2, [c]) == Do(s2, c).0;
    assert Monotone(b.appNow, [c]) <==> b.appNow <= c.dbNow <= c.appNow;
    assert Monotone(a.appNow, [b, c]) <==> a.appNow <= b.dbNow <= b.appNow <= c.dbNow <= c.appNow;
    assert Changed(s2, c, token) ==> Changes(s2, [c], token) >= 1;
    assert Changes(s1, [b, c], token) >= Changes(s2, [c], token);
  }

  /** It does happen: a token is requested at time 0, another at the instant the first one
      expires, and the first is used at that same instant; the second still works. */
  lemma NewerTokenOutlivesTheReset()
    ensures
      var s := State(map["a@b" := 7], map[7 := "old"], map[], map[]);
      var events := [
        Event(Call.RequestReset("a@b", "first", false), 0, 0),
        Event(Call.RequestReset("a@b", "second", false), THIRTY_MINUTES, THIRTY_MINUTES),
        Event(Call.ResetPassword("first", "new"), THIRTY_MINUTES, THIRTY_MINUTES)];
      && Monotone(0, events)
      && Changes(s, events, "first") == 1
      && "second" in RunFrom(s, events).tokens
      && Pending(RunFrom(s, events).tokens["second"], 7, THIRTY_MINUTES)
  {
    var s := State(map["a@b" := 7], map[7 := "old"], map[], map[]);
    var e0 := Event(Call.RequestReset("a@b", "first", false), 0, 0);
    var e1 := Event(Call.RequestReset("a@b", "second", false), THIRTY_MINUTES, THIRTY_MINUTES);
    var e2 := Event(Call.ResetPassword("first", "new"), THIRTY_MINUTES, THIRTY_MINUTES);
    ThreeSteps(s, 0, e0, e1, e2, "first");
    OneChangePerToken(s, [e0, e1, e2], "first");
    assert Invalidated(map[], 7, 0) == map[];
    var s1 := Do(s, e0).0;
    assert s1.tokens == map["first" := Row(7, THIRTY_MINUTES, false)];
    assert Invalidated(s1.tokens, 7, THIRTY_MINUTES) == s1.tokens;
    var s2 := Do(s1, e1).0;
    assert s2.tokens == map["first" := Row(7, THIRTY_MINUTES, false), "second" := Row(7, 2 * THIRTY_MINUTES, false)];
    assert Changed(s2, e2, "first");
  }
}
