/**
 * Processing one record, carried out alone, is a run of the protocol: fetch, store calls statement by statement,
 * and the offset commit or the stop.
 */
module ConsumerRun {
  import opened Wrappers
  import opened Domain
  import opened Events
  import opened Database
  import opened Storage
  import opened Retry
  import opened Handler
  import opened Consumer
  import P = Protocol
  import T = DispatchTxns

  // ----- One store call -----

  /** The statements of one call as transaction x, by what they come to. */
  function CallSteps(x: T.TxnId, a: Attempt, result: DispatchResult): seq<P.Step> {
    if a.fault.Fails? then [P.Statement(T.Abort(x))]
    else match result
      case Created(_) =>
        [P.Statement(T.InsertEvent(x)), P.Statement(T.InsertDispatch(x, a.id, a.now)), P.Statement(T.Commit(x))]
      case Duplicate => [P.Statement(T.InsertEvent(x)), P.Statement(T.Commit(x))]
      case _ => [P.Statement(T.InsertEvent(x)), P.Statement(T.InsertDispatch(x, a.id, a.now))]
  }

  /** One attempt of the handler, which begins transaction x. */
  function AttemptSteps(c: P.ConsumerId, x: T.TxnId, a: Attempt, result: DispatchResult): seq<P.Step> {
    [P.CallStore(c)] + CallSteps(x, a, result)
    + [if a.fault.NoFault? && (result.Created? || result.Duplicate?) then P.CallSucceeded(c) else P.CallFailed(c)]
  }

  /** Everybody else is left alone. */
  ghost predicate OthersAlone(s: P.State, s': P.State, c: P.ConsumerId) {
    s'.log == s.log && s'.polls == s.polls && s'.tally == s.tally && s'.consumers - {c} == s.consumers - {c}
  }

  /** Consumer c, where it was before, is at this work, with these transactions open. */
  ghost predicate At(s: P.State, s': P.State, c: P.ConsumerId, work: P.Work, open: map<T.TxnId, T.Txn>) {
    && OthersAlone(s, s', c) && s'.committed == s.committed
    && c in s.consumers && c in s'.consumers && s'.consumers[c] == s.consumers[c].(work := work)
    && s'.txns.open == open
  }

  lemma Began(s: P.State, c: P.ConsumerId, offset: nat, req: DispatchRequest)
    requires s.txns.open == map[] && c in s.consumers && s.consumers[c].work == P.Handling(offset, req, None)
    ensures P.Enabled(s, P.CallStore(c))
    ensures var s' := P.Apply(s, P.CallStore(c));
            var x := s.txns.begun;
            && At(s, s', c, P.Handling(offset, req, Some(x)), map[x := T.Txn(req, T.Begun)])
            && s'.Db() == s.Db() && s'.txns.begun == x + 1
  {
  }

  lemma Aborted(s: P.State, s1: P.State, c: P.ConsumerId, work: P.Work, x: T.TxnId, req: DispatchRequest)
    requires At(s, s1, c, work, map[x := T.Txn(req, T.Begun)])
    ensures P.Enabled(s1, P.Statement(T.Abort(x)))
    ensures var s' := P.Apply(s1, P.Statement(T.Abort(x)));
            At(s, s', c, work, map[]) && s'.Db() == s1.Db() && s'.txns.begun == s1.txns.begun
  {
    var s' := P.Apply(s1, P.Statement(T.Abort(x)));
    assert s'.txns.open == map[];
  }

  lemma EventInserted(s: P.State, s1: P.State, c: P.ConsumerId, work: P.Work, x: T.TxnId, req: DispatchRequest)
    requires At(s, s1, c, work, map[x := T.Txn(req, T.Begun)])
    ensures P.Enabled(s1, P.Statement(T.InsertEvent(x)))
    ensures var s' := P.Apply(s1, P.Statement(T.InsertEvent(x)));
            var phase := if req.eventId in s1.Db().processed then T.SeesDuplicate else T.HoldsEvent;
            At(s, s', c, work, map[x := T.Txn(req, phase)]) && s'.Db() == s1.Db() && s'.txns.begun == s1.txns.begun
  {
  }

  lemma InsertAlone(t: T.State, x: T.TxnId, req: DispatchRequest, id: DispatchId, now: int)
    requires t.open == map[x := T.Txn(req, T.HoldsEvent)] && req.eventId !in t.db.processed
    ensures T.Enabled(t, T.InsertDispatch(x, id, now))
    ensures var u := T.Apply(t, T.InsertDispatch(x, id, now));
            var result := RecordTx(t.db, req, id, now).1;
            && u.db == t.db && u.begun == t.begun
            && (result.Created? ==> u.open == map[x := T.Txn(req, T.HoldsBoth(result.row))])
            && (!result.Created? ==> u.open == map[] && x in u.outcomes && u.outcomes[x] == T.Outcome(req, result))
  {
    hide DispatchIds;
  }

  lemma DispatchInserted(s: P.State, s1: P.State, c: P.ConsumerId, work: P.Work, x: T.TxnId, req: DispatchRequest,
                         id: DispatchId, now: int)
    requires At(s, s1, c, work, map[x := T.Txn(req, T.HoldsEvent)])
    requires req.eventId !in s1.Db().processed && id !in DispatchIds(s1.Db())
    ensures P.Enabled(s1, P.Statement(T.InsertDispatch(x, id, now)))
    ensures var s' := P.Apply(s1, P.Statement(T.InsertDispatch(x, id, now)));
            var result := RecordTx(s1.Db(), req, id, now).1;
            && s'.Db() == s1.Db() && s'.txns.begun == s1.txns.begun
            && (result.Created? ==> At(s, s', c, work, map[x := T.Txn(req, T.HoldsBoth(result.row))]))
            && (!result.Created? ==>
                  At(s, s', c, work, map[]) && x in s'.txns.outcomes && s'.txns.outcomes[x] == T.Outcome(req, result))
  {
    hide DispatchIds, T.Apply, T.Enabled, RecordTx;
    InsertAlone(s1.txns, x, req, id, now);
  }

  lemma Committed(s: P.State, s1: P.State, c: P.ConsumerId, work: P.Work, x: T.TxnId, req: DispatchRequest, phase: T.Phase,
                  id: DispatchId, now: int)
    requires At(s, s1, c, work, map[x := T.Txn(req, phase)])
    requires var result := RecordTx(s1.Db(), req, id, now).1;
             || (result.Created? && phase == T.HoldsBoth(result.row))
             || (result.Duplicate? && phase == T.SeesDuplicate)
    ensures P.Enabled(s1, P.Statement(T.Commit(x)))
    ensures var s' := P.Apply(s1, P.Statement(T.Commit(x)));
            && At(s, s', c, work, map[]) && s'.txns.begun == s1.txns.begun
            && s'.Db() == RecordTx(s1.Db(), req, id, now).0
            && x in s'.txns.outcomes && s'.txns.outcomes[x] == T.Outcome(req, RecordTx(s1.Db(), req, id, now).1)
  {
    hide DispatchIds;
    var s' := P.Apply(s1, P.Statement(T.Commit(x)));
    assert s'.txns.open == map[];
  }

  lemma OneStep(s: P.State, step: P.Step)
    requires P.Enabled(s, step)
    ensures P.IsRun(s, [step]) && P.Final(s, [step]) == P.Apply(s, step)
  {
    hide P.Enabled, P.Apply;
    P.Prepend(s, step, []);
    assert [step] + [] == [step];
  }

  /** The statements of a call, one after another. */
  lemma CallRuns(s: P.State, s1: P.State, c: P.ConsumerId, work: P.Work, x: T.TxnId, req: DispatchRequest, a: Attempt)
    requires At(s, s1, c, work, map[x := T.Txn(req, T.Begun)]) && a.id !in DispatchIds(s1.Db())
    ensures var (db', result) := RecordTx(s1.Db(), req, a.id, a.now);
            var steps := CallSteps(x, a, result);
            && P.IsRun(s1, steps)
            && var s' := P.Final(s1, steps);
            && At(s, s', c, work, map[]) && s'.txns.begun == s1.txns.begun
            && s'.Db() == (if TakesEffect(a.fault) then db' else s1.Db())
            && (TakesEffect(a.fault) ==> x in s'.txns.outcomes && s'.txns.outcomes[x] == T.Outcome(req, result))
  {
    hide P.Enabled, P.Apply, At, DispatchIds, RecordTx;
    var result := RecordTx(s1.Db(), req, a.id, a.now).1;
    RecordTxCases(s1.Db(), req, a.id, a.now);
    if a.fault.Fails? {
      Aborted(s, s1, c, work, x, req);
      OneStep(s1, P.Statement(T.Abort(x)));
    } else {
      var insert := P.Statement(T.InsertEvent(x));
      EventInserted(s, s1, c, work, x, req);
      var s2 := P.Apply(s1, insert);
      if result.Duplicate? {
        Committed(s, s2, c, work, x, req, T.SeesDuplicate, a.id, a.now);
        OneStep(s2, P.Statement(T.Commit(x)));
        P.Prepend(s1, insert, [P.Statement(T.Commit(x))]);
        assert CallSteps(x, a, result) == [insert] + [P.Statement(T.Commit(x))];
      } else {
        var dispatch := P.Statement(T.InsertDispatch(x, a.id, a.now));
        DispatchInserted(s, s2, c, work, x, req, a.id, a.now);
        var s3 := P.Apply(s2, dispatch);
        if result.Created? {
          Committed(s, s3, c, work, x, req, T.HoldsBoth(result.row), a.id, a.now);
          OneStep(s3, P.Statement(T.Commit(x)));
          P.Prepend(s2, dispatch, [P.Statement(T.Commit(x))]);
          P.Prepend(s1, insert, [dispatch] + [P.Statement(T.Commit(x))]);
          assert CallSteps(x, a, result) == [insert] + ([dispatch] + [P.Statement(T.Commit(x))]);
        } else {
          OneStep(s2, dispatch);
          P.Prepend(s1, insert, [dispatch]);
          assert CallSteps(x, a, result) == [insert] + [dispatch];
        }
      }
    }
  }

  lemma RecordTxCases(db: Tables, req: DispatchRequest, id: DispatchId, now: int)
    ensures RecordTx(db, req, id, now).1.Duplicate? <==> req.eventId in db.processed
    ensures !RecordTx(db, req, id, now).1.Created? ==> RecordTx(db, req, id, now).0 == db
  {
  }

  lemma Returned(s: P.State, s1: P.State, c: P.ConsumerId, offset: nat, req: DispatchRequest, x: T.TxnId, success: bool)
    requires At(s, s1, c, P.Handling(offset, req, Some(x)), map[])
    requires success ==>
               && x in s1.txns.outcomes
               && (s1.txns.outcomes[x].result.Created? || s1.txns.outcomes[x].result.Duplicate?)
    ensures var step := if success then P.CallSucceeded(c) else P.CallFailed(c);
            && P.Enabled(s1, step)
            && At(s, P.Apply(s1, step), c, if success then P.Handled(offset) else P.Handling(offset, req, None), map[])
            && P.Apply(s1, step).txns == s1.txns
  {
  }

  /** One attempt of the handler, alone. */
  lemma AttemptRuns(s: P.State, c: P.ConsumerId, offset: nat, req: DispatchRequest, a: Attempt)
    requires s.txns.open == map[] && c in s.consumers && s.consumers[c].work == P.Handling(offset, req, None)
    requires a.id !in DispatchIds(s.Db())
    ensures var (db', result) := RecordTx(s.Db(), req, a.id, a.now);
            var success := a.fault.NoFault? && (result.Created? || result.Duplicate?);
            var steps := AttemptSteps(c, s.txns.begun, a, result);
            && P.IsRun(s, steps)
            && var s' := P.Final(s, steps);
            && At(s, s', c, if success then P.Handled(offset) else P.Handling(offset, req, None), map[])
            && s'.Db() == (if TakesEffect(a.fault) then db' else s.Db()) && s'.txns.begun == s.txns.begun + 1
  {
    hide P.Enabled, P.Apply, At, DispatchIds, RecordTx, CallSteps;
    var x := s.txns.begun;
    var result := RecordTx(s.Db(), req, a.id, a.now).1;
    var success := a.fault.NoFault? && (result.Created? || result.Duplicate?);
    var last := if success then P.CallSucceeded(c) else P.CallFailed(c);
    Began(s, c, offset, req);
    var s1 := P.Apply(s, P.CallStore(c));
    CallRuns(s, s1, c, P.Handling(offset, req, Some(x)), x, req, a);
    var s2 := P.Final(s1, CallSteps(x, a, result));
    Returned(s, s2, c, offset, req, x, success);
    OneStep(s2, last);
    P.Concatenate(s1, CallSteps(x, a, result), [last]);
    P.Prepend(s, P.CallStore(c), CallSteps(x, a, result) + [last]);
    assert AttemptSteps(c, x, a, result) == [P.CallStore(c)] + (CallSteps(x, a, result) + [last]);
  }

  // ----- All attempts -----

  /** The first n attempts, the first of which begins transaction x. */
  function AttemptsSteps(c: P.ConsumerId, x: T.TxnId, db: Tables, req: DispatchRequest, env: nat -> Attempt, n: nat): seq<P.Step> {
    if n == 0 then []
    else AttemptsSteps(c, x, db, req, env, n - 1) + AttemptSteps(c, x + n - 1, env(n), ResultAt(db, req, env, n))
  }

  /** Identifiers of dispatches are fresh. */
  ghost predicate FreshIds(db: Tables, req: DispatchRequest, env: nat -> Attempt, n: nat) {
    forall j :: 1 <= j <= n ==> env(j).id !in DispatchIds(After(db, req, env, j - 1))
  }

  lemma AtAgain(s: P.State, s1: P.State, s2: P.State, c: P.ConsumerId, w1: P.Work, w2: P.Work)
    requires At(s, s1, c, w1, map[]) && At(s1, s2, c, w2, map[])
    ensures At(s, s2, c, w2, map[])
  {
  }

  /** Attempt n, on the tables the earlier ones left. */
  lemma NextAttempt(s: P.State, c: P.ConsumerId, offset: nat, db: Tables, req: DispatchRequest, env: nat -> Attempt, n: nat)
    requires n > 0 && s.Db() == After(db, req, env, n - 1) && env(n).id !in DispatchIds(s.Db())
    requires s.txns.open == map[] && c in s.consumers && s.consumers[c].work == P.Handling(offset, req, None)
    ensures var steps := AttemptSteps(c, s.txns.begun, env(n), ResultAt(db, req, env, n));
            && P.IsRun(s, steps)
            && var s' := P.Final(s, steps);
            && At(s, s', c, WorkAfter(offset, db, req, env, n), map[])
            && s'.Db() == After(db, req, env, n) && s'.txns.begun == s.txns.begun + 1
  {
    hide P.Enabled, P.Apply, P.IsRun, P.Final, DispatchIds, RecordTx, AttemptSteps, At;
    AttemptRuns(s, c, offset, req, env(n));
  }

  /** Where n attempts leave the consumer. */
  function WorkAfter(offset: nat, db: Tables, req: DispatchRequest, env: nat -> Attempt, n: nat): P.Work {
    if n > 0 && Succeeds(db, req, env, n) then P.Handled(offset) else P.Handling(offset, req, None)
  }

  lemma AtMeans(s: P.State, s1: P.State, c: P.ConsumerId, work: P.Work)
    requires At(s, s1, c, work, map[])
    ensures s1.txns.open == map[] && c in s1.consumers && s1.consumers[c].work == work
  {
  }

  lemma AtStart(s: P.State, c: P.ConsumerId)
    requires c in s.consumers && s.txns.open == map[]
    ensures At(s, s, c, s.consumers[c].work, map[])
  {
  }

  lemma {:induction false} AttemptsRun(s: P.State, c: P.ConsumerId, offset: nat, req: DispatchRequest, env: nat -> Attempt, n: nat)
    requires s.txns.open == map[] && c in s.consumers && s.consumers[c].work == P.Handling(offset, req, None)
    requires FreshIds(s.Db(), req, env, n)
    requires forall j :: 1 <= j < n ==> !Succeeds(s.Db(), req, env, j)
    ensures var steps := AttemptsSteps(c, s.txns.begun, s.Db(), req, env, n);
            && P.IsRun(s, steps)
            && var s' := P.Final(s, steps);
            && At(s, s', c, WorkAfter(offset, s.Db(), req, env, n), map[])
            && s'.Db() == After(s.Db(), req, env, n) && s'.txns.begun == s.txns.begun + n
  {
    hide P.Enabled, P.Apply, P.IsRun, P.Final, DispatchIds, RecordTx, AttemptSteps, AttemptsSteps, At, After, ResultAt, FreshIds,
         Succeeds;
    if n == 0 {
      NoAttempts(s, c, req, env);
    } else {
      OneAttemptLess(s, c, req, env, n);
      AttemptsRun(s, c, offset, req, env, n - 1);
      var before := AttemptsSteps(c, s.txns.begun, s.Db(), req, env, n - 1);
      var s1 := P.Final(s, before);
      AtMeans(s, s1, c, WorkAfter(offset, s.Db(), req, env, n - 1));
      NextAttempt(s1, c, offset, s.Db(), req, env, n);
      var steps := AttemptSteps(c, s1.txns.begun, env(n), ResultAt(s.Db(), req, env, n));
      P.Concatenate(s, before, steps);
      AtAgain(s, s1, P.Final(s1, steps), c, WorkAfter(offset, s.Db(), req, env, n - 1), WorkAfter(offset, s.Db(), req, env, n));
    }
  }

  lemma NoAttempts(s: P.State, c: P.ConsumerId, req: DispatchRequest, env: nat -> Attempt)
    requires c in s.consumers && s.txns.open == map[]
    ensures var steps := AttemptsSteps(c, s.txns.begun, s.Db(), req, env, 0);
            && P.IsRun(s, steps) && P.Final(s, steps) == s
            && At(s, s, c, s.consumers[c].work, map[]) && After(s.Db(), req, env, 0) == s.Db()
  {
    hide P.Enabled, P.Apply;
  }

  lemma OneAttemptLess(s: P.State, c: P.ConsumerId, req: DispatchRequest, env: nat -> Attempt, n: nat)
    requires n > 0 && FreshIds(s.Db(), req, env, n)
    ensures FreshIds(s.Db(), req, env, n - 1) && env(n).id !in DispatchIds(After(s.Db(), req, env, n - 1))
    ensures AttemptsSteps(c, s.txns.begun, s.Db(), req, env, n) ==
            AttemptsSteps(c, s.txns.begun, s.Db(), req, env, n - 1)
            + AttemptSteps(c, s.txns.begun + (n - 1), env(n), ResultAt(s.Db(), req, env, n))
  {
    hide DispatchIds, After, RecordTx, AttemptSteps, ResultAt;
  }

  // ----- The record -----

  /** What ends the processing of a record: the offset commit, or the process. */
  function LastStep(c: P.ConsumerId, report: Report, commit: Fault): P.Step {
    if report.error then P.Stop(c) else P.CommitOffset(c, TakesEffect(commit), commit.NoFault?)
  }

  function RecordSteps(s: P.State, c: P.ConsumerId, offset: nat, env: nat -> Attempt, report: Report, commit: Fault): seq<P.Step>
    requires offset < |s.log|
  {
    match P.RequestIn(s.log[offset])
    case None => [P.PollRecord(c, offset)]
    case Some(req) =>
      [P.PollRecord(c, offset)] + (AttemptsSteps(c, s.txns.begun, s.Db(), req, env, report.calls) + [LastStep(c, report, commit)])
  }

  lemma Polled(s: P.State, c: P.ConsumerId, offset: nat)
    requires P.CanPoll(s, c, offset)
    ensures P.Enabled(s, P.PollRecord(c, offset))
    ensures var s' := P.Apply(s, P.PollRecord(c, offset));
            && OthersAlone(s, s', c) && s'.committed == s.committed && s'.txns == s.txns
            && match P.RequestIn(s.log[offset])
               case None => s'.consumers == s.consumers - {c}
               case Some(req) =>
                 && c in s'.consumers && s'.consumers[c].work == P.Handling(offset, req, None)
                 && s'.consumers[c].positions == s.consumers[c].positions[s.log[offset].partition := offset + 1]
  {
    hide P.RequestIn;
    var s' := P.Apply(s, P.PollRecord(c, offset));
    assert s'.consumers - {c} == s.consumers - {c};
  }

  lemma Ended(s: P.State, s1: P.State, c: P.ConsumerId, offset: nat, report: Report, commit: Fault)
    requires c in s1.consumers && OthersAlone(s, s1, c) && s1.committed == s.committed && offset < |s1.log|
    requires !report.error ==> s1.consumers[c].work == P.Handled(offset)
    ensures P.Enabled(s1, LastStep(c, report, commit))
    ensures var s' := P.Apply(s1, LastStep(c, report, commit));
            && OthersAlone(s, s', c) && s'.txns == s1.txns
            && s'.committed == (if !report.error && !commit.Fails? then s.committed[s.log[offset].partition := offset + 1]
                                else s.committed)
            && (c in s'.consumers <==> !report.error && commit.NoFault?)
            && (c in s'.consumers ==> s'.consumers[c] == s1.consumers[c].(work := P.Idle))
  {
    var s' := P.Apply(s1, LastStep(c, report, commit));
    assert s'.consumers - {c} == s.consumers - {c};
  }

  /**
   * What ProcessRecord does to tables, committed offsets and its own process, alone, a run of the protocol does
   * too: everything proved of all runs holds of it.
   */
  lemma RecordIsARun(s: P.State, c: P.ConsumerId, offset: nat, policy: RetryPolicy, env: nat -> Attempt, commit: Fault,
                     report: Report, db': Tables)
    requires P.CanPoll(s, c, offset) && s.txns.open == map[]
    requires HandlesPayload(s.Db(), s.log[offset].value, policy, env, report, db')
    requires P.RequestIn(s.log[offset]).Some? ==> FreshIds(s.Db(), P.RequestIn(s.log[offset]).value, env, report.calls)
    ensures var steps := RecordSteps(s, c, offset, env, report, commit);
            && P.IsRun(s, steps)
            && var s' := P.Final(s, steps);
            && s'.Db() == db' && s'.txns.open == map[] && OthersAlone(s, s', c)
            && s'.committed == (if !report.error && !commit.Fails? then s.committed[s.log[offset].partition := offset + 1]
                                else s.committed)
            && (c in s'.consumers <==> !report.error && commit.NoFault?)
            && (c in s'.consumers ==>
                  s'.consumers[c] == P.Consumer(s.consumers[c].positions[s.log[offset].partition := offset + 1], P.Idle))
  {
    hide P.Enabled, P.Apply, Decode, RecordTx, DispatchIds, AttemptsSteps, WaitAfter, After, FreshIds;
    var poll := P.PollRecord(c, offset);
    Polled(s, c, offset);
    var s1 := P.Apply(s, poll);
    match P.RequestIn(s.log[offset])
    case None =>
      OneStep(s, poll);
    case Some(req) =>
      var attempts := AttemptsSteps(c, s.txns.begun, s.Db(), req, env, report.calls);
      forall j | 1 <= j < report.calls
        ensures !Succeeds(s1.Db(), req, env, j)
      {
        assert GoesOn(s.Db(), req, env, j);
      }
      AttemptsRun(s1, c, offset, req, env, report.calls);
      var s2 := P.Final(s1, attempts);
      Ended(s, s2, c, offset, report, commit);
      var last := LastStep(c, report, commit);
      OneStep(s2, last);
      P.Concatenate(s1, attempts, [last]);
      P.Prepend(s, poll, attempts + [last]);
  }

  // ----- A whole turn -----

  /** In s consumer c is where the snapshot says, between two records; a consumer without partitions may be absent. */
  ghost predicate Represents(s: P.State, c: P.ConsumerId, a: Snapshot) {
    && s.Db() == a.db && s.log == a.log && s.committed == a.committed && s.txns.open == map[]
    && (c in s.consumers ==> s.consumers[c] == P.Consumer(a.positions, P.Idle))
    && (c !in s.consumers ==> a.positions == map[])
  }

  /** Positions after the assignment has changed. */
  function Resumed(a: Snapshot, assignment: set<P.Partition>): map<P.Partition, nat> {
    map p | p in assignment :: ResumeAt(a, p)
  }

  ghost predicate Rebalanced(s: P.State, s': P.State, c: P.ConsumerId, a: Snapshot, assignment: set<P.Partition>) {
    Represents(s', c, a.(positions := Resumed(a, assignment))) && OthersAlone(s, s', c)
  }

  lemma RevokeOne(s: P.State, c: P.ConsumerId, a: Snapshot, p: P.Partition)
    requires Represents(s, c, a) && p in a.positions
    ensures P.Enabled(s, P.Revoke(c, p))
    ensures var s' := P.Apply(s, P.Revoke(c, p)); Represents(s', c, a.(positions := a.positions - {p})) && OthersAlone(s, s', c)
  {
    var s' := P.Apply(s, P.Revoke(c, p));
    assert s'.consumers - {c} == s.consumers - {c};
  }

  lemma AssignOne(s: P.State, c: P.ConsumerId, a: Snapshot, p: P.Partition)
    requires Represents(s, c, a) && p < P.PARTITIONS
    ensures P.Enabled(s, P.Assign(c, p))
    ensures var s' := P.Apply(s, P.Assign(c, p));
            && Represents(s', c, a.(positions := a.positions[p := P.CommittedOffset(a.committed, p)]))
            && OthersAlone(s, s', c) && c in s'.consumers
  {
    var s' := P.Apply(s, P.Assign(c, p));
    assert s'.consumers - {c} == s.consumers - {c};
  }

  lemma OthersStayAlone(s: P.State, s1: P.State, s2: P.State, c: P.ConsumerId)
    requires OthersAlone(s, s1, c) && OthersAlone(s1, s2, c)
    ensures OthersAlone(s, s2, c)
  {
  }

  lemma ResumedAfterRevoke(a: Snapshot, p: P.Partition, assignment: set<P.Partition>)
    requires p in a.positions && p !in assignment
    ensures Resumed(a.(positions := a.positions - {p}), assignment) == Resumed(a, assignment)
    ensures (a.positions - {p}).Keys - assignment == (a.positions.Keys - assignment) - {p}
    ensures assignment - (a.positions - {p}).Keys == assignment - a.positions.Keys
  {
  }

  lemma ResumedAfterAssign(a: Snapshot, p: P.Partition, assignment: set<P.Partition>, from: nat)
    requires p !in a.positions && p in assignment && from == P.CommittedOffset(a.committed, p)
    ensures Resumed(a.(positions := a.positions[p := from]), assignment) == Resumed(a, assignment)
    ensures a.positions[p := from].Keys - assignment == a.positions.Keys - assignment
    ensures assignment - a.positions[p := from].Keys == (assignment - a.positions.Keys) - {p}
  {
  }

  /** steps rebalances consumer c. */
  ghost predicate Rebalances(s: P.State, steps: seq<P.Step>, c: P.ConsumerId, a: Snapshot, assignment: set<P.Partition>) {
    P.IsRun(s, steps) && Rebalanced(s, P.Final(s, steps), c, a, assignment)
  }

  lemma OneMoreStep(s: P.State, step: P.Step, rest: seq<P.Step>, c: P.ConsumerId, a: Snapshot, a1: Snapshot,
                    assignment: set<P.Partition>)
    requires P.Enabled(s, step) && Rebalances(P.Apply(s, step), rest, c, a1, assignment)
    requires OthersAlone(s, P.Apply(s, step), c)
    requires a1 == a.(positions := a1.positions) && Resumed(a1, assignment) == Resumed(a, assignment)
    ensures Rebalances(s, [step] + rest, c, a, assignment)
  {
    hide P.Enabled, P.Apply, Represents, OthersAlone, Resumed;
    P.Prepend(s, step, rest);
    OthersStayAlone(s, P.Apply(s, step), P.Final(P.Apply(s, step), rest), c);
  }

  /** How many partitions are still to be revoked or assigned. */
  function Distance(a: Snapshot, assignment: set<P.Partition>): nat {
    |a.positions.Keys - assignment| + |assignment - a.positions.Keys|
  }

  lemma RevokeThen(s: P.State, c: P.ConsumerId, a: Snapshot, p: P.Partition, assignment: set<P.Partition>)
    returns (s1: P.State, a1: Snapshot)
    requires Represents(s, c, a) && p in a.positions.Keys - assignment
    ensures Represents(s1, c, a1)
    ensures Distance(a1, assignment) < Distance(a, assignment)
    ensures forall rest :: Rebalances(s1, rest, c, a1, assignment) ==> Rebalances(s, [P.Revoke(c, p)] + rest, c, a, assignment)
  {
    hide P.Enabled, P.Apply, Represents, OthersAlone, Resumed, Rebalances;
    RevokeOne(s, c, a, p);
    s1, a1 := P.Apply(s, P.Revoke(c, p)), a.(positions := a.positions - {p});
    ResumedAfterRevoke(a, p, assignment);
    forall rest | Rebalances(s1, rest, c, a1, assignment)
      ensures Rebalances(s, [P.Revoke(c, p)] + rest, c, a, assignment)
    {
      OneMoreStep(s, P.Revoke(c, p), rest, c, a, a1, assignment);
    }
  }

  lemma AssignThen(s: P.State, c: P.ConsumerId, a: Snapshot, p: P.Partition, assignment: set<P.Partition>)
    returns (s1: P.State, a1: Snapshot)
    requires Represents(s, c, a) && p in assignment - a.positions.Keys && p < P.PARTITIONS
    ensures Represents(s1, c, a1)
    ensures Distance(a1, assignment) < Distance(a, assignment)
    ensures forall rest :: Rebalances(s1, rest, c, a1, assignment) ==> Rebalances(s, [P.Assign(c, p)] + rest, c, a, assignment)
  {
    hide P.Enabled, P.Apply, Represents, OthersAlone, Resumed, Rebalances, P.CommittedOffset;
    var from := P.CommittedOffset(a.committed, p);
    AssignOne(s, c, a, p);
    s1, a1 := P.Apply(s, P.Assign(c, p)), a.(positions := a.positions[p := from]);
    ResumedAfterAssign(a, p, assignment, from);
    forall rest | Rebalances(s1, rest, c, a1, assignment)
      ensures Rebalances(s, [P.Assign(c, p)] + rest, c, a, assignment)
    {
      OneMoreStep(s, P.Assign(c, p), rest, c, a, a1, assignment);
    }
  }

  /** Revoking and assigning one partition at a time leads to where the consumer resumes. */
  lemma {:induction false} RebalanceRuns(s: P.State, c: P.ConsumerId, a: Snapshot, assignment: set<P.Partition>)
    requires Represents(s, c, a) && forall p :: p in assignment ==> p < P.PARTITIONS
    ensures exists steps :: Rebalances(s, steps, c, a, assignment)
    decreases Distance(a, assignment)
  {
    hide Represents, Rebalances, Distance;
    if p :| p in a.positions.Keys - assignment {
      var s1, a1 := RevokeThen(s, c, a, p, assignment);
      RebalanceRuns(s1, c, a1, assignment);
      var rest :| Rebalances(s1, rest, c, a1, assignment);
      assert Rebalances(s, [P.Revoke(c, p)] + rest, c, a, assignment);
    } else if p :| p in assignment - a.positions.Keys {
      var s1, a1 := AssignThen(s, c, a, p, assignment);
      RebalanceRuns(s1, c, a1, assignment);
      var rest :| Rebalances(s1, rest, c, a1, assignment);
      assert Rebalances(s, [P.Assign(c, p)] + rest, c, a, assignment);
    } else {
      NothingToRebalance(s, c, a, assignment);
    }
  }

  lemma NothingToRebalance(s: P.State, c: P.ConsumerId, a: Snapshot, assignment: set<P.Partition>)
    requires Represents(s, c, a) && a.positions.Keys - assignment == {} && assignment - a.positions.Keys == {}
    ensures Rebalances(s, [], c, a, assignment)
  {
    assert a.positions.Keys == assignment;
    assert Resumed(a, assignment) == a.positions;
  }

  /** What a turn leaves behind. */
  ghost predicate TurnEnds(s: P.State, s': P.State, c: P.ConsumerId, b: Snapshot, step: Step) {
    && OthersAlone(s, s', c)
    && s'.Db() == b.db && s'.log == b.log && s'.committed == b.committed && s'.txns.open == map[]
    && (step.failure.None? ==> Represents(s', c, b))
    && (step.failure.Some? ==> c !in s'.consumers)
  }

  lemma TurnWithoutRecord(s: P.State, s1: P.State, c: P.ConsumerId, a: Snapshot, b: Snapshot, policy: RetryPolicy, turn: Turn,
                          step: Step)
    requires TurnGave(a, b, policy, turn, step) && step.visit.None?
    requires Rebalanced(s, s1, c, a.(log := b.log), turn.assignment)
    ensures TurnEnds(s, s1, c, b, step)
  {
    assert b.positions == Resumed(a.(log := b.log), turn.assignment);
  }

  lemma RecordOfTurn(s: P.State, s1: P.State, c: P.ConsumerId, a: Snapshot, b: Snapshot, policy: RetryPolicy, turn: Turn, step: Step)
    requires TurnGave(a, b, policy, turn, step) && step.visit.Some?
    requires Rebalanced(s, s1, c, a.(log := b.log), turn.assignment)
    ensures P.CanPoll(s1, c, step.visit.value.offset) && s1.txns.open == map[] && s1.Db() == a.db && s1.log == b.log
    ensures s1.committed == a.committed && c in s1.consumers
    ensures s1.consumers[c].positions == Resumed(a.(log := b.log), turn.assignment)
    ensures step.visit.value.partition == b.log[step.visit.value.offset].partition
    ensures HandlesPayload(a.db, b.log[step.visit.value.offset].value, policy, turn.env, step.report, b.db)
  {
    hide HandlesPayload;
    var v := step.visit.value;
    assert v.partition in Resumed(a.(log := b.log), turn.assignment);
  }

  lemma TurnWithRecord(s: P.State, s1: P.State, s2: P.State, c: P.ConsumerId, a: Snapshot, b: Snapshot, policy: RetryPolicy,
                       turn: Turn, step: Step)
    requires TurnGave(a, b, policy, turn, step) && step.visit.Some?
    requires Rebalanced(s, s1, c, a.(log := b.log), turn.assignment) && c in s1.consumers
    requires var v := step.visit.value;
             && s2.Db() == b.db && s2.txns.open == map[] && OthersAlone(s1, s2, c)
             && s2.committed == (if !step.report.error && !turn.commit.Fails? then s1.committed[v.partition := v.offset + 1]
                                 else s1.committed)
             && (c in s2.consumers <==> !step.report.error && turn.commit.NoFault?)
             && (c in s2.consumers ==>
                   s2.consumers[c] == P.Consumer(s1.consumers[c].positions[v.partition := v.offset + 1], P.Idle))
    ensures TurnEnds(s, s2, c, b, step)
  {
    hide HandlesPayload;
    OthersStayAlone(s, s1, s2, c);
    if step.failure.None? {
      assert b.positions == Resumed(a.(log := b.log), turn.assignment)[step.visit.value.partition := step.visit.value.offset + 1];
    }
  }

  /**
   * A turn of the consumer, carried out alone once others have written their records, is a run of the protocol:
   * partitions revoked and assigned, a record fetched and processed, with the same positions, tables and committed
   * offsets at the end.
   */
  lemma TurnIsARun(s: P.State, c: P.ConsumerId, a: Snapshot, b: Snapshot, policy: RetryPolicy, turn: Turn, step: Step)
    requires TurnGave(a, b, policy, turn, step) && Represents(s, c, a.(log := b.log))
    requires forall p :: p in turn.assignment ==> p < P.PARTITIONS
    requires step.visit.Some? && step.visit.value.offset < |b.log| ==>
               var req := P.RequestIn(b.log[step.visit.value.offset]);
               req.Some? ==> FreshIds(a.db, req.value, turn.env, step.report.calls)
    ensures exists steps :: P.IsRun(s, steps) && TurnEnds(s, P.Final(s, steps), c, b, step)
  {
    hide P.Enabled, P.Apply, P.IsRun, P.Final, P.RequestIn, HandlesPayload, TurnGave, Rebalanced, Represents, FreshIds, TurnEnds,
         RecordSteps, P.CanPoll, OthersAlone;
    RebalanceRuns(s, c, a.(log := b.log), turn.assignment);
    var first :| Rebalances(s, first, c, a.(log := b.log), turn.assignment);
    var s1 := P.Final(s, first);
    match step.visit
    case None =>
      TurnWithoutRecord(s, s1, c, a, b, policy, turn, step);
    case Some(v) =>
      RecordOfTurn(s, s1, c, a, b, policy, turn, step);
      PollInRange(s1, c, v.offset);
      RecordIsARun(s1, c, v.offset, policy, turn.env, turn.commit, step.report, b.db);
      var record := RecordSteps(s1, c, v.offset, turn.env, step.report, turn.commit);
      TurnWithRecord(s, s1, P.Final(s1, record), c, a, b, policy, turn, step);
      P.Concatenate(s, first, record);
  }

  lemma PollInRange(s: P.State, c: P.ConsumerId, offset: nat)
    requires P.CanPoll(s, c, offset)
    ensures offset < |s.log|
  {
  }
}
