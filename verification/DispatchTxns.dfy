/**
 * Many RecordDispatch transactions (internal/storage/store.go) running at once, one statement at a time.
 * An insert waits while another open transaction has inserted the same key and not finished.
 */
module DispatchTxns {
  import opened Domain
  import opened Database

  type TxnId = nat

  datatype Phase = Begun | HoldsEvent | HoldsBoth(row: DispatchRow) | SeesDuplicate

  datatype Txn = Txn(req: DispatchRequest, phase: Phase)

  /** One entry per finished call, in order of completion, and per committed change by somebody else. */
  datatype Completion =
    | Call(x: TxnId, req: DispatchRequest, id: DispatchId, now: int, result: DispatchResult)
    | Elsewhere(shipments: map<ShipmentId, ShipmentRow>, outbox: map<EventId, OutboxRow>)

  datatype Outcome = Outcome(req: DispatchRequest, result: DispatchResult)

  datatype State = State(
    db: Tables,                      // committed rows
    open: map<TxnId, Txn>,
    begun: nat,                      // identifiers handed out so far
    outcomes: map<TxnId, Outcome>,   // what each finished call returned
    history: seq<Completion>)

  datatype Step =
    | Begin(req: DispatchRequest)
    | InsertEvent(x: TxnId)
    | InsertDispatch(x: TxnId, id: DispatchId, now: int)
    | Commit(x: TxnId)
    | Abort(x: TxnId)
    | External(shipments: map<ShipmentId, ShipmentRow>, outbox: map<EventId, OutboxRow>)

  predicate HoldsEventKey(t: Txn, e: EventId) {
    (t.phase.HoldsEvent? || t.phase.HoldsBoth?) && t.req.eventId == e
  }

  predicate HoldsDispatchKey(t: Txn, shipment: ShipmentId, id: DispatchId) {
    t.phase.HoldsBoth? && (t.req.shipmentId == shipment || t.phase.row.dispatchId == id)
  }

  predicate EventKeyFree(open: map<TxnId, Txn>, e: EventId) {
    forall y :: y in open ==> !HoldsEventKey(open[y], e)
  }

  predicate DispatchKeysFree(open: map<TxnId, Txn>, shipment: ShipmentId, id: DispatchId) {
    forall y :: y in open ==> !HoldsDispatchKey(open[y], shipment, id)
  }

  predicate Grows(before: map<ShipmentId, ShipmentRow>, after: map<ShipmentId, ShipmentRow>) {
    forall s :: s in before ==> s in after && after[s] == before[s]
  }

  predicate Enabled(s: State, step: Step) {
    match step
    case Begin(_) => true
    case InsertEvent(x) =>
      x in s.open && s.open[x].phase.Begun? && EventKeyFree(s.open, s.open[x].req.eventId)
    case InsertDispatch(x, id, _) =>
      x in s.open && s.open[x].phase.HoldsEvent? && DispatchKeysFree(s.open, s.open[x].req.shipmentId, id)
    case Commit(x) =>
      x in s.open && (s.open[x].phase.HoldsBoth? || s.open[x].phase.SeesDuplicate?)
    case Abort(x) => x in s.open
    case External(shipments, _) => Grows(s.db.shipments, shipments)
  }

  /** Transaction x is over: its call returns result and db is committed. */
  function Finish(s: State, x: TxnId, id: DispatchId, now: int, db: Tables, result: DispatchResult): State
    requires x in s.open
  {
    var req := s.open[x].req;
    s.(db := db, open := s.open - {x}, outcomes := s.outcomes[x := Outcome(req, result)],
       history := s.history + [Call(x, req, id, now, result)])
  }

  function SetPhase(s: State, x: TxnId, phase: Phase): State
    requires x in s.open
  {
    s.(open := s.open[x := s.open[x].(phase := phase)])
  }

  function Apply(s: State, step: Step): State
    requires Enabled(s, step)
  {
    match step
    case Begin(req) => s.(open := s.open[s.begun := Txn(req, Begun)], begun := s.begun + 1)
    case InsertEvent(x) =>
      SetPhase(s, x, if s.open[x].req.eventId in s.db.processed then SeesDuplicate else HoldsEvent)
    case InsertDispatch(x, id, now) =>
      var req := s.open[x].req;
      if !MoneyFits(req.money) then Finish(s, x, id, now, s.db, Refused(CheckViolation))
      else if req.shipmentId in s.db.dispatches || id in DispatchIds(s.db) then Finish(s, x, id, now, s.db, Conflict)
      else if req.shipmentId !in s.db.shipments then Finish(s, x, id, now, s.db, Refused(ForeignKeyViolation))
      else SetPhase(s, x, HoldsBoth(NewDispatchRow(req, id, now)))
    case Commit(x) =>
      var t := s.open[x];
      (match t.phase
       case HoldsBoth(row) =>
         Finish(s, x, row.dispatchId, row.dispatchedAt,
                s.db.(processed := s.db.processed + {t.req.eventId},
                      dispatches := s.db.dispatches[t.req.shipmentId := row]),
                Created(row))
       case _ => Finish(s, x, "", 0, s.db, Duplicate))
    case Abort(x) => s.(open := s.open - {x})
    case External(shipments, outbox) =>
      s.(db := s.db.(shipments := shipments, outbox := outbox), history := s.history + [Elsewhere(shipments, outbox)])
  }

  predicate IsRun(s: State, steps: seq<Step>)
    decreases |steps|
  {
    steps == [] || (Enabled(s, steps[0]) && IsRun(Apply(s, steps[0]), steps[1..]))
  }

  function Final(s: State, steps: seq<Step>): State
    requires IsRun(s, steps)
    decreases |steps|
  {
    if steps == [] then s else Final(Apply(s, steps[0]), steps[1..])
  }

  // ----- Serial execution -----

  /** The tables after running the completed calls one after another, alone. */
  function Serial(db0: Tables, history: seq<Completion>): Tables {
    if history == [] then db0
    else
      var db := Serial(db0, history[..|history| - 1]);
      match history[|history| - 1]
      case Call(_, req, id, now, _) => RecordTx(db, req, id, now).0
      case Elsewhere(shipments, outbox) => db.(shipments := shipments, outbox := outbox)
  }

  /** Each call, run alone at its place, returns what it returned in the interleaving. */
  predicate SameResults(db0: Tables, history: seq<Completion>) {
    history == [] ||
    (var n := |history| - 1;
     SameResults(db0, history[..n]) &&
     match history[n]
     case Call(_, req, id, now, result) => RecordTx(Serial(db0, history[..n]), req, id, now).1 == result
     case Elsewhere(_, _) => true)
  }

  function Returned(history: seq<Completion>): map<TxnId, Outcome> {
    if history == [] then map[]
    else
      var m := Returned(history[..|history| - 1]);
      match history[|history| - 1]
      case Call(x, req, _, _, result) => m[x := Outcome(req, result)]
      case Elsewhere(_, _) => m
  }

  // ----- What the locks guarantee about the committed rows -----

  predicate PhaseOk(db: Tables, t: Txn) {
    match t.phase
    case Begun => true
    case SeesDuplicate => t.req.eventId in db.processed
    case HoldsEvent => t.req.eventId !in db.processed
    case HoldsBoth(row) =>
      && t.req.eventId !in db.processed
      && MoneyFits(t.req.money)
      && row == NewDispatchRow(t.req, row.dispatchId, row.dispatchedAt)
      && t.req.shipmentId !in db.dispatches
      && row.dispatchId !in DispatchIds(db)
      && t.req.shipmentId in db.shipments
  }

  predicate Excludes(t: Txn, u: Txn) {
    && (t.phase.HoldsEvent? || t.phase.HoldsBoth? ==> !HoldsEventKey(u, t.req.eventId))
    && (t.phase.HoldsBoth? ==> !HoldsDispatchKey(u, t.req.shipmentId, t.phase.row.dispatchId))
  }

  ghost predicate LockInv(s: State) {
    && (forall x :: x in s.open ==> PhaseOk(s.db, s.open[x]) && x < s.begun)
    && (forall x, y :: x in s.open && y in s.open && x != y ==> Excludes(s.open[x], s.open[y]))
  }

  lemma LockInvCommit(s: State, x: TxnId)
    requires LockInv(s) && Enabled(s, Commit(x))
    ensures LockInv(Apply(s, Commit(x)))
  {
    var s' := Apply(s, Commit(x));
    forall y | y in s'.open
      ensures PhaseOk(s'.db, s'.open[y])
    {
      assert Excludes(s.open[x], s.open[y]) && Excludes(s.open[y], s.open[x]);
    }
  }

  lemma LockInvStep(s: State, step: Step)
    requires LockInv(s) && Enabled(s, step)
    ensures LockInv(Apply(s, step))
  {
    if step.Commit? {
      LockInvCommit(s, step.x);
    }
  }

  // ----- Serializability -----

  ghost predicate SerialInv(db0: Tables, s: State) {
    && LockInv(s)
    && Serial(db0, s.history) == s.db
    && SameResults(db0, s.history)
    && Returned(s.history) == s.outcomes
  }

  /** One more completed call that behaves as it would alone. */
  lemma CompletionExtends(db0: Tables, s: State, s': State, c: Completion)
    requires SerialInv(db0, s) && LockInv(s')
    requires s'.history == s.history + [c]
    requires match c
             case Call(x, req, id, now, result) =>
               RecordTx(s.db, req, id, now) == (s'.db, result) && s'.outcomes == s.outcomes[x := Outcome(req, result)]
             case Elsewhere(shipments, outbox) =>
               s'.db == s.db.(shipments := shipments, outbox := outbox) && s'.outcomes == s.outcomes
    ensures SerialInv(db0, s')
  {
    assert s'.history[..|s'.history| - 1] == s.history;
  }

  lemma CommitIsSerial(s: State, x: TxnId)
    requires LockInv(s) && Enabled(s, Commit(x))
    ensures var s' := Apply(s, Commit(x));
            var t := s.open[x];
            match t.phase
            case HoldsBoth(row) =>
              RecordTx(s.db, t.req, row.dispatchId, row.dispatchedAt) == (s'.db, Created(row))
            case _ => RecordTx(s.db, t.req, "", 0) == (s'.db, Duplicate)
  {
    assert PhaseOk(s.db, s.open[x]);
  }

  lemma InsertIsSerial(s: State, x: TxnId, id: DispatchId, now: int)
    requires LockInv(s) && Enabled(s, InsertDispatch(x, id, now)) && x !in Apply(s, InsertDispatch(x, id, now)).open
    ensures var s' := Apply(s, InsertDispatch(x, id, now));
            && s'.db == s.db
            && RecordTx(s.db, s.open[x].req, id, now) == (s.db, s'.outcomes[x].result)
            && s'.history == s.history + [Call(x, s.open[x].req, id, now, s'.outcomes[x].result)]
            && s'.outcomes == s.outcomes[x := Outcome(s.open[x].req, s'.outcomes[x].result)]
  {
    assert PhaseOk(s.db, s.open[x]);
  }

  lemma SerialInvStep(db0: Tables, s: State, step: Step)
    requires SerialInv(db0, s) && Enabled(s, step)
    ensures SerialInv(db0, Apply(s, step))
  {
    LockInvStep(s, step);
    var s' := Apply(s, step);
    match step
    case Commit(x) =>
      CommitIsSerial(s, x);
      CompletionExtends(db0, s, s', s'.history[|s.history|]);
    case InsertDispatch(x, id, now) =>
      if x !in s'.open {
        InsertIsSerial(s, x, id, now);
        CompletionExtends(db0, s, s', s'.history[|s.history|]);
      }
    case External(_, _) =>
      CompletionExtends(db0, s, s', s'.history[|s.history|]);
    case _ =>
  }

  lemma {:induction false} SerialInvRun(db0: Tables, s: State, steps: seq<Step>)
    requires SerialInv(db0, s) && IsRun(s, steps)
    ensures SerialInv(db0, Final(s, steps))
    decreases |steps|
  {
    if steps != [] {
      SerialInvStep(db0, s, steps[0]);
      SerialInvRun(db0, Apply(s, steps[0]), steps[1..]);
    }
  }

  /**
   * Any interleaving of any number of RecordDispatch calls leaves the tables, and returns to each caller,
   * exactly what running the finished calls one by one in order of completion does.
   */
  lemma InterleavingsAreSerial(db0: Tables, steps: seq<Step>)
    requires IsRun(State(db0, map[], 0, map[], []), steps)
    ensures var s := Final(State(db0, map[], 0, map[], []), steps);
            && s.db == Serial(db0, s.history)
            && SameResults(db0, s.history)
            && s.outcomes == Returned(s.history)
  {
    SerialInvRun(db0, State(db0, map[], 0, map[], []), steps);
  }

  // ----- No deadlock -----

  /** x's next insert has to wait for y to finish. */
  ghost predicate WaitsFor(s: State, x: TxnId, y: TxnId) {
    && x in s.open && y in s.open && x != y
    && (|| (s.open[x].phase.Begun? && HoldsEventKey(s.open[y], s.open[x].req.eventId))
        || (s.open[x].phase.HoldsEvent?
            && exists id :: HoldsDispatchKey(s.open[y], s.open[x].req.shipmentId, id)))
  }

  function Rank(p: Phase): nat {
    match p
    case Begun => 2
    case HoldsEvent => 1
    case _ => 0
  }

  lemma {:induction false} WaitsDescend(s: State, path: seq<TxnId>)
    requires |path| > 0 && path[0] in s.open
    requires forall i :: 0 <= i < |path| - 1 ==> WaitsFor(s, path[i], path[i + 1])
    ensures path[|path| - 1] in s.open
    ensures Rank(s.open[path[|path| - 1]].phase) + |path| - 1 <= Rank(s.open[path[0]].phase)
    decreases |path|
  {
    if |path| > 1 {
      assert WaitsFor(s, path[0], path[1]);
      forall i | 0 <= i < |path| - 2
        ensures WaitsFor(s, path[1..][i], path[1..][i + 1])
      {
        assert WaitsFor(s, path[i + 1], path[i + 2]);
      }
      WaitsDescend(s, path[1..]);
    }
  }

  /** Event key before shipment key: a chain of waiting calls has at most three members and never closes. */
  lemma NoWaitCycle(s: State, path: seq<TxnId>)
    requires |path| > 1
    requires forall i :: 0 <= i < |path| - 1 ==> WaitsFor(s, path[i], path[i + 1])
    ensures |path| <= 3 && path[0] != path[|path| - 1]
  {
    assert WaitsFor(s, path[0], path[1]);
    WaitsDescend(s, path);
  }

  /** An open call can make its next statement unless it waits for another one. */
  lemma StepOrWait(s: State, x: TxnId, id: DispatchId, now: int)
    requires x in s.open
    ensures match s.open[x].phase
            case Begun => Enabled(s, InsertEvent(x)) <==> !exists y :: WaitsFor(s, x, y)
            case HoldsEvent => Enabled(s, InsertDispatch(x, id, now)) || exists y :: WaitsFor(s, x, y)
            case _ => Enabled(s, Commit(x))
  {
    match s.open[x].phase
    case Begun =>
      if y :| y in s.open && HoldsEventKey(s.open[y], s.open[x].req.eventId) {
        assert WaitsFor(s, x, y);
      }
    case HoldsEvent =>
      if y :| y in s.open && HoldsDispatchKey(s.open[y], s.open[x].req.shipmentId, id) {
        assert WaitsFor(s, x, y);
      }
    case _ =>
  }

  /** While a call is open some call can make its next step, so the system never gets stuck. */
  lemma SomeCallCanAdvance(s: State)
    requires s.open != map[]
    ensures exists step :: Enabled(s, step) && !step.Begin? && !step.Abort? && !step.External?
  {
    if x :| x in s.open && (s.open[x].phase.HoldsBoth? || s.open[x].phase.SeesDuplicate?) {
      assert Enabled(s, Commit(x));
    } else if x :| x in s.open && s.open[x].phase.HoldsEvent? {
      assert Enabled(s, InsertDispatch(x, "", 0));
    } else {
      var x :| x in s.open;
      assert Enabled(s, InsertEvent(x));
    }
  }
}
