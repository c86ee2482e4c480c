/** One service call over a pooled connection (src/automana/core/framework/service_manager.py):
    acquiring, the optional transaction, the two timeouts, the body, and what every possible
    failure leaves behind. Exceptions are return flags; `finally` blocks are written out. */
module ServiceManager {
  import opened Options

  datatype ServiceConfig = ServiceConfig(runsInTransaction: bool, commandTimeout: Option<nat>)

  /** What the service's statements write, and whether it raises after them. */
  datatype Body<E> = Body(effects: seq<E>, raises: bool)

  /** Which steps fail in this call. */
  datatype Faults = Faults(
    acquire: bool, start: bool, set_: bool, repositories: bool, commit: bool, rollback: bool, reset: bool)

  datatype Call<E> = Call(config: ServiceConfig, body: Body<E>, faults: Faults)

  // ---------------------------------------------------------------- what a call amounts to

  /** The service's connection is in hand, in its transaction if it wants one. */
  predicate Reached<E>(call: Call<E>) {
    !call.faults.acquire && (call.config.runsInTransaction ==> !call.faults.start)
  }

  predicate SetFailed<E>(call: Call<E>) {
    Reached(call) && call.config.commandTimeout.Some? && call.faults.set_
  }

  predicate TimeoutApplied<E>(call: Call<E>) {
    Reached(call) && call.config.commandTimeout.Some? && !call.faults.set_
  }

  predicate BodyRan<E>(call: Call<E>) {
    Reached(call) && !SetFailed(call) && !call.faults.repositories
  }

  predicate Succeeds<E>(call: Call<E>) {
    BodyRan(call) && !call.body.raises && (call.config.runsInTransaction ==> !call.faults.commit)
  }

  /** What stays in the database: all or nothing in a transaction, otherwise whatever was
      written, even by a body that raised. */
  function Durable<E>(call: Call<E>): seq<E> {
    if call.config.runsInTransaction then if Succeeds(call) then call.body.effects else []
    else if BodyRan(call) then call.body.effects else []
  }

  /** A transaction that was begun, did not commit and could not be rolled back. */
  predicate Stuck<E>(call: Call<E>) {
    call.config.runsInTransaction && Reached(call) && !Succeeds(call) && call.faults.rollback
  }

  /** Such a transaction that also had set the server's timeout. */
  predicate TimeoutStuck<E>(call: Call<E>) {
    Stuck(call) && TimeoutApplied(call)
  }

  // ---------------------------------------------------------------- the connection

  class Connection<E> {
    var config: nat             // the client's command timeout, in `_config`
    var session: Option<nat>    // the server's statement timeout; None is the default
    var local: Option<nat>      // set for the transaction only
    var inTransaction: bool
    var pending: seq<E>
    // The state in which the connection was given back last, before the pool cleans it.
    ghost var atRelease: Option<(nat, Option<nat>)>
    // The timeouts in force when a service ran on it last: the client's and the server's.
    ghost var seen: Option<(nat, Option<nat>)>

    ghost predicate Idle()
      reads this
    {
      !inTransaction && pending == [] && local.None?
    }

    /** The timeout the server applies. */
    function ServerTimeout(): Option<nat>
      reads this
    {
      if local.Some? then local else session
    }

    method EndTransaction()
      modifies `inTransaction, `pending, `local
      ensures Idle()
    {
      inTransaction, pending, local := false, [], None;
    }
  }

  /** The service's own timeout on both sides, or what was there. */
  function InForce<E>(call: Call<E>, config: nat, session: Option<nat>): (nat, Option<nat>) {
    match call.config.commandTimeout
    case Some(t) => (t, Some(t))
    case None => (config, session)
  }

  function ConfigAfterCall<E>(config: nat, call: Call<E>): nat {
    if SetFailed(call) then call.config.commandTimeout.value else config
  }

  function SessionAfterCall<E>(session: Option<nat>, call: Call<E>): Option<nat> {
    if call.config.runsInTransaction || !TimeoutApplied(call) then session
    else if call.faults.reset then call.config.commandTimeout
    else None
  }

  function AllDurable<E>(jobs: seq<(Call<E>, Connection<E>)>): seq<E> {
    if jobs == [] then [] else AllDurable(jobs[..|jobs| - 1]) + Durable(jobs[|jobs| - 1].0)
  }

  function ConfigAfter<E>(config: nat, jobs: seq<(Call<E>, Connection<E>)>, c: Connection<E>): nat {
    if jobs == [] then config
    else
      var before, (call, used) := ConfigAfter(config, jobs[..|jobs| - 1], c), jobs[|jobs| - 1];
      if used == c then ConfigAfterCall(before, call) else before
  }

  function SessionAfter<E>(session: Option<nat>, jobs: seq<(Call<E>, Connection<E>)>, c: Connection<E>): Option<nat> {
    if jobs == [] then session
    else
      var before, (call, used) := SessionAfter(session, jobs[..|jobs| - 1], c), jobs[|jobs| - 1];
      if used == c then SessionAfterCall(before, call) else before
  }

  lemma NextJob<E>(jobs: seq<(Call<E>, Connection<E>)>, i: nat)
    requires i < |jobs|
    ensures AllDurable(jobs[..i + 1]) == AllDurable(jobs[..i]) + Durable(jobs[i].0)
    ensures forall config, c {:trigger ConfigAfter(config, jobs[..i + 1], c)} ::
              ConfigAfter(config, jobs[..i + 1], c) ==
              if jobs[i].1 == c then ConfigAfterCall(ConfigAfter(config, jobs[..i], c), jobs[i].0)
              else ConfigAfter(config, jobs[..i], c)
    ensures forall session, c {:trigger SessionAfter(session, jobs[..i + 1], c)} ::
              SessionAfter(session, jobs[..i + 1], c) ==
              if jobs[i].1 == c then SessionAfterCall(SessionAfter(session, jobs[..i], c), jobs[i].0)
              else SessionAfter(session, jobs[..i], c)
  {
    assert jobs[..i + 1][..i] == jobs[..i];
  }

  class ServiceManager<E> {
    var free: set<Connection<E>>
    var db: seq<E>

    ghost predicate Valid()
      reads this, free
    {
      forall c :: c in free ==> c.Idle()
    }

    /** Giving back: only a connection that is out can be given back. The pool ends a
        transaction that is still open; what else it resets is not modelled. */
    method Release(c: Connection<E>)
      requires c !in free
      modifies `free, c`inTransaction, c`pending, c`local, c`atRelease
      ensures free == old(free) + {c}
      ensures c.Idle() && c.atRelease == Some((c.config, old(c.ServerTimeout())))
    {
      c.atRelease := Some((c.config, c.ServerTimeout()));
      c.EndTransaction();
      free := free + {c};
    }

    /** What runs with the connection in hand: the timeout override, the repositories and the
        body, and the `finally` that restores the timeout. */
    method UseConnection(call: Call<E>, c: Connection<E>) returns (ok: bool)
      requires Reached(call) && c !in free && c.local.None? && c.pending == []
      requires c.inTransaction == call.config.runsInTransaction
      modifies `db, c`config, c`session, c`local, c`pending, c`seen
      ensures ok <==> BodyRan(call) && !call.body.raises
      ensures c.config == if SetFailed(call) then call.config.commandTimeout.value else old(c.config)
      ensures c.local == if TimeoutApplied(call) && c.inTransaction then call.config.commandTimeout else None
      ensures c.session ==
        if !TimeoutApplied(call) || c.inTransaction then old(c.session)
        else if call.faults.reset then call.config.commandTimeout
        else None
      ensures c.pending == if c.inTransaction && BodyRan(call) then call.body.effects else []
      ensures db == old(db) + if !c.inTransaction && BodyRan(call) then call.body.effects else []
      ensures BodyRan(call) ==> c.seen == Some(InForce(call, old(c.config), old(c.session)))
    {
      var original, timeoutApplied := None, false;
      if call.config.commandTimeout.Some? {
        original := Some(c.config);
        c.config := call.config.commandTimeout.value;
        if call.faults.set_ {
          return false;   // before the `try`
        }
        if call.config.runsInTransaction {
          c.local := call.config.commandTimeout;
        } else {
          c.session := call.config.commandTimeout;
        }
        timeoutApplied := true;
      }
      // try
      ok := false;
      if !call.faults.repositories {
        c.seen := Some((c.config, c.ServerTimeout()));
        if c.inTransaction {
          c.pending := c.pending + call.body.effects;
        } else {
          db := db + call.body.effects;
        }
        ok := !call.body.raises;
      }
      // finally
      if original.Some? {
        c.config := original.value;
      }
      if timeoutApplied && !call.config.runsInTransaction {
        if !call.faults.reset {
          c.session := None;
        }
      }
    }

    /** `transaction()` around the use of the connection. */
    method InTransaction(call: Call<E>, c: Connection<E>) returns (ok: bool)
      requires Valid() && c in free && call.config.runsInTransaction
      modifies `free, `db, c
      ensures Valid() && free == old(free)
      ensures ok <==> Succeeds(call)
      ensures db == old(db) + Durable(call)
      ensures c.config == ConfigAfterCall(old(c.config), call)
      ensures c.session == old(c.session)
      ensures BodyRan(call) ==> c.seen == Some(InForce(call, old(c.config), old(c.session)))
      ensures c.atRelease == if call.faults.acquire then old(c.atRelease)
                             else Some((c.config, if TimeoutStuck(call) then call.config.commandTimeout else c.session))
    {
      if call.faults.acquire {
        return false;
      }
      free := free - {c};
      // try
      if call.faults.start {
        ok := false;
      } else {
        c.inTransaction := true;
        // try
        ok := UseConnection(call, c);
        if ok && call.faults.commit {
          ok := false;
        } else if ok {
          db := db + c.pending;
          c.EndTransaction();
        }
        // except
        if !ok && !call.faults.rollback {
          c.EndTransaction();
        }
      }
      // finally
      Release(c);
    }

    /** `_get_connection()` around the use of the connection. */
    method OnConnection(call: Call<E>, c: Connection<E>) returns (ok: bool)
      requires Valid() && c in free && !call.config.runsInTransaction
      modifies `free, `db, c
      ensures Valid() && free == old(free)
      ensures ok <==> Succeeds(call)
      ensures db == old(db) + Durable(call)
      ensures c.config == ConfigAfterCall(old(c.config), call)
      ensures c.session == SessionAfterCall(old(c.session), call)
      ensures BodyRan(call) ==> c.seen == Some(InForce(call, old(c.config), old(c.session)))
      ensures c.atRelease == if call.faults.acquire then old(c.atRelease) else Some((c.config, c.session))
    {
      if call.faults.acquire {
        return false;
      }
      free := free - {c};
      ok := UseConnection(call, c);
      Release(c);
    }

    /** A whole call, on whichever free connection the pool picks. It is given back exactly
        once; a transaction takes effect only as a whole and only if body and commit both
        succeeded; the client's timeout is put back unless the SET failed; and the server's
        is the default again unless the RESET failed or a transaction could not be ended. */
    method ExecuteService(call: Call<E>, c: Connection<E>) returns (ok: bool)
      requires Valid() && c in free
      modifies `free, `db, c
      ensures Valid() && free == old(free)
      ensures ok <==> Succeeds(call)
      ensures db == old(db) + Durable(call)
      ensures c.config == ConfigAfterCall(old(c.config), call)
      ensures c.session == SessionAfterCall(old(c.session), call)
      ensures !call.faults.acquire && old(c.session).None? ==>
        var f, transactional, timeout := call.faults, call.config.runsInTransaction, call.config.commandTimeout;
        var asked := timeout.Some? && (transactional ==> !f.start);
        && c.atRelease.Some?
        && (c.atRelease.value.0 == old(c.config) <==> asked && f.set_ ==> timeout == Some(old(c.config)))
        && (c.atRelease.value.1.None? <==>
             asked && !f.set_ ==> if transactional then ok || !f.rollback else !f.reset)
      // what a caller can count on, step by step
      ensures
        var f, transactional, timeout := call.faults, call.config.runsInTransaction, call.config.commandTimeout;
        var started := !f.acquire && (transactional ==> !f.start) && (timeout.Some? ==> !f.set_) && !f.repositories;
        && (call.body.raises ==> !ok)
        && (!started ==> !ok && db == old(db))
        && (transactional && (call.body.raises || f.commit) ==> !ok && db == old(db))
        && (started && !call.body.raises && (transactional ==> !f.commit) ==>
             ok && db == old(db) + call.body.effects)
        && (started && !transactional && call.body.raises ==> db == old(db) + call.body.effects)
      ensures
        var f, transactional, timeout := call.faults, call.config.runsInTransaction, call.config.commandTimeout;
        && (timeout.None? || !f.set_ ==> c.config == old(c.config))
        && (f.acquire || (transactional && f.start) ==> c.config == old(c.config))
        && (!f.acquire && (transactional ==> !f.start) && timeout.Some? && f.set_ ==> c.config == timeout.value)
        && (transactional || timeout.None? || f.set_ || f.acquire ==> c.session == old(c.session))
        && (!transactional && timeout.Some? && !f.set_ && !f.acquire ==> c.session == if f.reset then timeout else None)
      ensures ok || (!call.config.runsInTransaction && db != old(db)) ==>
        c.seen == Some(match call.config.commandTimeout
                       case Some(t) => (t, Some(t))
                       case None => (old(c.config), old(c.session)))
    {
      if call.config.runsInTransaction {
        ok := InTransaction(call, c);
      } else {
        ok := OnConnection(call, c);
      }
    }

    /** Any sequence of calls, on any connections of the pool. */
    method Serve(jobs: seq<(Call<E>, Connection<E>)>)
      requires Valid() && forall i :: 0 <= i < |jobs| ==> jobs[i].1 in free
      modifies this, free
      ensures Valid() && free == old(free)
      ensures db == old(db) + AllDurable(jobs)
      ensures forall c :: c in free ==> c.config == ConfigAfter(old(c.config), jobs, c)
      ensures forall c :: c in free ==> c.session == SessionAfter(old(c.session), jobs, c)
    {
      for i := 0 to |jobs|
        invariant Valid() && free == old(free)
        invariant db == old(db) + AllDurable(jobs[..i])
        invariant forall c :: c in free ==> c.config == ConfigAfter(old(c.config), jobs[..i], c)
        invariant forall c :: c in free ==> c.session == SessionAfter(old(c.session), jobs[..i], c)
      {
        NextJob(jobs, i);
        var ok := ExecuteService(jobs[i].0, jobs[i].1);
      }
      assert jobs[..|jobs|] == jobs;
    }
  }

  // ---------------------------------------------------------------- runs

  /** The call left its own timeout in the client's configuration. */
  predicate Leaks<E>(jobs: seq<(Call<E>, Connection<E>)>, c: Connection<E>, i: nat)
    requires i < |jobs|
  {
    jobs[i].1 == c && SetFailed(jobs[i].0)
  }

  predicate LastLeak<E>(jobs: seq<(Call<E>, Connection<E>)>, c: Connection<E>, i: nat)
    requires i < |jobs|
  {
    Leaks(jobs, c, i) && forall j :: i < j < |jobs| ==> !Leaks(jobs, c, j)
  }

  function LastLeakOf<E>(jobs: seq<(Call<E>, Connection<E>)>, c: Connection<E>): Option<nat> {
    if jobs == [] then None
    else if Leaks(jobs, c, |jobs| - 1) then Some(|jobs| - 1)
    else LastLeakOf(jobs[..|jobs| - 1], c)
  }

  lemma {:induction false} LastLeakOfIsLast<E>(jobs: seq<(Call<E>, Connection<E>)>, c: Connection<E>)
    ensures LastLeakOf(jobs, c).None? ==> forall i :: 0 <= i < |jobs| ==> !Leaks(jobs, c, i)
    ensures LastLeakOf(jobs, c).Some? ==>
      LastLeakOf(jobs, c).value < |jobs| && LastLeak(jobs, c, LastLeakOf(jobs, c).value)
  {
    if jobs != [] && !Leaks(jobs, c, |jobs| - 1) {
      var front := jobs[..|jobs| - 1];
      LastLeakOfIsLast(front, c);
      assert forall i :: 0 <= i < |front| ==> (Leaks(jobs, c, i) <==> Leaks(front, c, i));
    }
  }

  lemma {:induction false} ConfigOfLastLeak<E>(config: nat, jobs: seq<(Call<E>, Connection<E>)>, c: Connection<E>)
    ensures LastLeakOf(jobs, c).None? ==> ConfigAfter(config, jobs, c) == config
    ensures LastLeakOf(jobs, c).Some? ==>
      var i := LastLeakOf(jobs, c).value;
      i < |jobs| && SetFailed(jobs[i].0) && ConfigAfter(config, jobs, c) == jobs[i].0.config.commandTimeout.value
  {
    if jobs != [] && !Leaks(jobs, c, |jobs| - 1) {
      ConfigOfLastLeak(config, jobs[..|jobs| - 1], c);
    }
  }

  lemma OneLastLeak<E>(jobs: seq<(Call<E>, Connection<E>)>, c: Connection<E>, i: nat, j: nat)
    requires i < |jobs| && j < |jobs| && LastLeak(jobs, c, i) && LastLeak(jobs, c, j)
    ensures i == j
  {
  }

  /** After any run a connection's client timeout is the one of the last call on it whose SET
      failed, and the original one if there was none. */
  lemma ConfigIsTheLastLeak<E>(config: nat, jobs: seq<(Call<E>, Connection<E>)>, c: Connection<E>)
    ensures forall i :: 0 <= i < |jobs| && LastLeak(jobs, c, i) ==>
      ConfigAfter(config, jobs, c) == jobs[i].0.config.commandTimeout.value
    ensures (forall i :: 0 <= i < |jobs| ==> !Leaks(jobs, c, i)) ==> ConfigAfter(config, jobs, c) == config
  {
    LastLeakOfIsLast(jobs, c);
    ConfigOfLastLeak(config, jobs, c);
    forall i | 0 <= i < |jobs| && LastLeak(jobs, c, i)
      ensures ConfigAfter(config, jobs, c) == jobs[i].0.config.commandTimeout.value
    {
      assert LastLeakOf(jobs, c).Some?;
      OneLastLeak(jobs, c, i, LastLeakOf(jobs, c).value);
    }
  }

  /** The client's timeout survives a run iff the last failed SET on the connection, if any,
      asked for that very timeout. */
  lemma ConfigSurvivesIff<E>(config: nat, jobs: seq<(Call<E>, Connection<E>)>, c: Connection<E>)
    ensures ConfigAfter(config, jobs, c) == config <==>
      forall i :: 0 <= i < |jobs| && LastLeak(jobs, c, i) ==> jobs[i].0.config.commandTimeout == Some(config)
  {
    ConfigIsTheLastLeak(config, jobs, c);
    LastLeakOfIsLast(jobs, c);
    ConfigOfLastLeak(config, jobs, c);
  }

  /** A session-wide SET that the call could not take back. */
  predicate Lingers<E>(jobs: seq<(Call<E>, Connection<E>)>, c: Connection<E>, i: nat)
    requires i < |jobs|
  {
    var call := jobs[i].0;
    jobs[i].1 == c && !call.config.runsInTransaction && TimeoutApplied(call) && call.faults.reset
  }

  predicate Clears<E>(jobs: seq<(Call<E>, Connection<E>)>, c: Connection<E>, i: nat)
    requires i < |jobs|
  {
    var call := jobs[i].0;
    jobs[i].1 == c && !call.config.runsInTransaction && TimeoutApplied(call) && !call.faults.reset
  }

  predicate ClearedLater<E>(jobs: seq<(Call<E>, Connection<E>)>, c: Connection<E>, i: nat) {
    exists j :: i < j < |jobs| && Clears(jobs, c, j)
  }

  /** A connection that starts with the server's default timeout has it after the run iff
      every session-wide SET on it that was not RESET was followed by one that was. This is
      the service manager's own doing: session settings that the pool itself resets when a
      connection comes back are not modelled. */
  lemma {:induction false} SessionSurvivesIff<E>(jobs: seq<(Call<E>, Connection<E>)>, c: Connection<E>)
    ensures SessionAfter(None, jobs, c).None? <==>
      forall i :: 0 <= i < |jobs| && Lingers(jobs, c, i) ==> ClearedLater(jobs, c, i)
  {
    if jobs != [] {
      var n := |jobs| - 1;
      var front := jobs[..n];
      SessionSurvivesIff(front, c);
      assert forall i :: 0 <= i < n ==> (Lingers(jobs, c, i) <==> Lingers(front, c, i));
      forall i | 0 <= i < n ensures ClearedLater(jobs, c, i) <==> ClearedLater(front, c, i) || Clears(jobs, c, n) {
        if j :| i < j < |front| && Clears(front, c, j) {
          assert Clears(jobs, c, j);
        }
        if j :| i < j < |jobs| && Clears(jobs, c, j) {
          assert j < n ==> Clears(front, c, j);
        }
      }
      assert !ClearedLater(jobs, c, n);
      if Lingers(jobs, c, n) {
        assert !Clears(jobs, c, n);
      }
    }
  }

  predicate FailedTransaction<E>(call: Call<E>) {
    call.config.runsInTransaction && !Succeeds(call)
  }

  /** By the faults alone. */
  lemma FailedTransactionIs<E>(call: Call<E>)
    ensures FailedTransaction(call) <==>
      && call.config.runsInTransaction
      && (call.faults.acquire || call.faults.start || (call.config.commandTimeout.Some? && call.faults.set_)
          || call.faults.repositories || call.body.raises || call.faults.commit)
  {
  }

  /** The run as if the failed transactions had not been called. */
  function WithoutFailed<E>(jobs: seq<(Call<E>, Connection<E>)>): seq<(Call<E>, Connection<E>)> {
    if jobs == [] then []
    else
      var front, last := WithoutFailed(jobs[..|jobs| - 1]), jobs[|jobs| - 1];
      if FailedTransaction(last.0) then front else front + [last]
  }

  lemma DurableAppend<E>(jobs: seq<(Call<E>, Connection<E>)>, job: (Call<E>, Connection<E>))
    ensures AllDurable(jobs + [job]) == AllDurable(jobs) + Durable(job.0)
  {
    assert (jobs + [job])[..|jobs|] == jobs;
  }

  /** Whatever else ran, with or without a transaction, failed transactions leave no trace:
      the database is that of the run without them. */
  lemma {:induction false} FailedTransactionsLeaveNoTrace<E>(jobs: seq<(Call<E>, Connection<E>)>)
    ensures AllDurable(jobs) == AllDurable(WithoutFailed(jobs))
  {
    if jobs != [] {
      var front, last := jobs[..|jobs| - 1], jobs[|jobs| - 1];
      FailedTransactionsLeaveNoTrace(front);
      if FailedTransaction(last.0) {
        assert AllDurable(jobs) == AllDurable(front) + [];
      } else {
        DurableAppend(WithoutFailed(front), last);
      }
    }
  }
}
