/** The system as its users see it, and the proof that every run of the protocol is a run of that. */
module Refinement {
  import opened Wrappers
  import opened Domain
  import opened Database
  import opened ShipmentApi
  import opened Protocol
  import opened NoLoss
  import opened OwnEvents
  import T = DispatchTxns
  import Pricing

  // ----- The two-action machine -----

  /** What creating a shipment promises to dispatch. */
  datatype Promise = Promise(event: EventId, price: Money)

  datatype Spec = Spec(created: map<ShipmentId, Promise>, dispatched: map<ShipmentId, Promise>)

  ghost predicate CreateAction(a: Spec, b: Spec, id: ShipmentId) {
    && id !in a.created && id in b.created
    && (forall s :: s in a.created ==> a.created[s].event != b.created[id].event)
    && b == a.(created := a.created[id := b.created[id]])
  }

  /** At most once, only after Create, and exactly what was promised. */
  ghost predicate DispatchAction(a: Spec, b: Spec, id: ShipmentId) {
    && id in a.created && id !in a.dispatched
    && b == a.(dispatched := a.dispatched[id := a.created[id]])
  }

  ghost predicate SpecNext(a: Spec, b: Spec) {
    a == b || (exists id :: CreateAction(a, b, id)) || (exists id :: DispatchAction(a, b, id))
  }

  // ----- Abstraction -----

  ghost function EventOfShipment(db: Tables, id: ShipmentId): EventId
    requires OutboxOk(db) && id in db.shipments
    ensures EventOfShipment(db, id) in db.outbox && db.outbox[EventOfShipment(db, id)].shipmentId == id
  {
    var e :| e in db.outbox && db.outbox[e].shipmentId == id;
    e
  }

  ghost function Abs(db: Tables): Spec
    requires OutboxOk(db)
  {
    Spec(map s | s in db.shipments :: Promise(EventOfShipment(db, s), db.shipments[s].price),
         map s | s in db.dispatches :: Promise(db.dispatches[s].eventId, db.dispatches[s].money))
  }

  lemma EventIsUnique(db: Tables, id: ShipmentId, e: EventId)
    requires OutboxOk(db) && id in db.shipments && e in db.outbox && db.outbox[e].shipmentId == id
    ensures EventOfShipment(db, id) == e
  {
  }

  /** Dispatches of a table are kept promises. */
  lemma DispatchIsPromise(db: Tables, id: ShipmentId)
    requires OutboxOk(db) && DispatchesOk(db) && id in db.dispatches
    ensures id in Abs(db).created && Abs(db).dispatched[id] == Abs(db).created[id]
  {
    hide RowOk;
    EventIsUnique(db, id, db.dispatches[id].eventId);
  }

  lemma CreatedStays(db: Tables, db': Tables, id: ShipmentId)
    requires OutboxOk(db) && OutboxOk(db') && Keeps(db, db') && id in db.shipments
    ensures Abs(db').created[id] == Abs(db).created[id]
  {
    hide RowOk;
    EventIsUnique(db', id, EventOfShipment(db, id));
  }

  /** Same shipments, same dispatches: nothing happened. */
  lemma Stutters(db: Tables, db': Tables)
    requires OutboxOk(db) && OutboxOk(db') && Keeps(db, db')
    requires db'.shipments.Keys == db.shipments.Keys && db'.dispatches == db.dispatches
    ensures Abs(db') == Abs(db)
  {
    hide OutboxOk;
    forall s | s in db.shipments
      ensures Abs(db').created[s] == Abs(db).created[s]
    {
      CreatedStays(db, db', s);
    }
  }

  lemma CreateRefines(db: Tables, call: CreateCall)
    requires OutboxOk(db) && Prepare(call).Ok? && FreshCall(db, call) && OutboxOk(AfterCreate(db, call))
    ensures CreateAction(Abs(db), Abs(AfterCreate(db, call)), call.shipmentId)
    ensures Abs(AfterCreate(db, call)).created[call.shipmentId] ==
            Promise(call.eventId, Prepare(call).value.shipment.price)
  {
    hide Prepare, AfterCreate, OutboxOk, Keeps;
    CreateKeeps(db, call);
    var db' := AfterCreate(db, call);
    EventIsUnique(db', call.shipmentId, call.eventId);
    forall s | s in db.shipments
      ensures Abs(db').created[s] == Abs(db).created[s] && Abs(db).created[s].event in db.outbox
    {
      CreatedStays(db, db', s);
    }
    assert Abs(db').dispatched == Abs(db).dispatched;
    assert Abs(db').created == Abs(db).created[call.shipmentId := Abs(db').created[call.shipmentId]];
  }

  lemma DispatchRefines(db: Tables, db': Tables, id: ShipmentId)
    requires OutboxOk(db) && OutboxOk(db') && DispatchesOk(db') && Keeps(db, db')
    requires db'.shipments == db.shipments && id !in db.dispatches
    requires id in db'.dispatches && db'.dispatches == db.dispatches[id := db'.dispatches[id]]
    ensures DispatchAction(Abs(db), Abs(db'), id)
  {
    hide OutboxOk, DispatchesOk;
    DispatchIsPromise(db', id);
    forall s | s in db.shipments
      ensures Abs(db').created[s] == Abs(db).created[s]
    {
      CreatedStays(db, db', s);
    }
  }

  lemma StatementRefines(s: State, t: T.Step)
    requires Owned(s) && CanStep(s, t) && Owned(ApplyStatement(s, t)) && Keeps(s.Db(), ApplyStatement(s, t).Db())
    ensures SpecNext(Abs(s.Db()), Abs(ApplyStatement(s, t).Db()))
  {
    hide OutboxOk, DispatchesOk, LogOk, TxnsOk, Keeps, Abs, ConsumersOk, BehindOk, Bijective, OutcomesOk;
    var s' := ApplyStatement(s, t);
    if t.Commit? && s.txns.open[t.x].phase.HoldsBoth? {
      assert T.PhaseOk(s.Db(), s.txns.open[t.x]);
      DispatchRefines(s.Db(), s'.Db(), s.txns.open[t.x].req.shipmentId);
    } else {
      Stutters(s.Db(), s'.Db());
    }
  }

  /** Each step is Create, Dispatch or nothing. */
  lemma StepRefines(s: State, step: Step)
    requires Owned(s) && Enabled(s, step) && !step.Foreign?
    requires Owned(Apply(s, step)) && Keeps(s.Db(), Apply(s, step).Db())
    ensures SpecNext(Abs(s.Db()), Abs(Apply(s, step).Db()))
  {
    hide OutboxOk, DispatchesOk, LogOk, TxnsOk, Keeps, Abs, Safe, ApplyFinish, ApplyStatement, AfterCreate, Prepare,
         FreshCall, IsClaim, RequestIn, RecordFor, CreateAction, DispatchAction;
    if step.Create? && step.durable {
      CreateRefines(s.Db(), step.call);
    } else if step.Statement? {
      StatementRefines(s, step.step);
    } else if step.Finish? {
      FinishStutters(s, step.r, step.now);
    } else {
      assert Apply(s, step).Db() == s.Db();
    }
  }

  lemma FinishStutters(s: State, r: RelayId, now: int)
    requires OutboxOk(s.Db()) && r in s.polls && OutboxOk(ApplyFinish(s, r, now).Db())
    ensures Abs(ApplyFinish(s, r, now).Db()) == Abs(s.Db())
  {
    hide OutboxOk, MarkBatch, Abs;
    MarkKeeps(s.Db(), ResultOf(s.polls[r]), now);
    Stutters(s.Db(), ApplyFinish(s, r, now).Db());
  }

  /** What the users see along a run. */
  ghost function Trace(s: State, steps: seq<Step>): seq<Spec>
    requires Owned(s) && IsRun(s, steps) && OwnProducers(steps)
    decreases |steps|
  {
    if steps == [] then [Abs(s.Db())]
    else
      OwnedStep(s, steps[0]);
      [Abs(s.Db())] + Trace(Apply(s, steps[0]), steps[1..])
  }

  lemma {:induction false} TraceRefines(s: State, steps: seq<Step>)
    requires Owned(s) && IsRun(s, steps) && OwnProducers(steps)
    ensures var trace := Trace(s, steps);
            && |trace| == |steps| + 1 && trace[0] == Abs(s.Db())
            && Owned(Final(s, steps)) && trace[|steps|] == Abs(Final(s, steps).Db())
            && forall i :: 0 <= i < |steps| ==> SpecNext(trace[i], trace[i + 1])
    decreases |steps|
  {
    hide Owned, Enabled, Apply, Abs, SpecNext, OutboxOk;
    if steps != [] {
      OwnedStep(s, steps[0]);
      StepRefines(s, steps[0]);
      TraceRefines(Apply(s, steps[0]), steps[1..]);
    }
  }

  /**
   * Every run with any number of relays, consumers, crashes, ambiguous publishes and commits, and replays is,
   * step by step, a run of the two-action machine that starts empty.
   */
  lemma ProtocolRefinesSpec(steps: seq<Step>)
    requires IsRun(INIT, steps) && OwnProducers(steps)
    ensures Owned(INIT) && Owned(Final(INIT, steps))
    ensures var trace := Trace(INIT, steps);
            && |trace| == |steps| + 1 && trace[0] == Spec(map[], map[])
            && trace[|steps|] == Abs(Final(INIT, steps).Db())
            && forall i :: 0 <= i < |steps| ==> SpecNext(trace[i], trace[i + 1])
  {
    hide Enabled, Apply, SpecNext, EventOfShipment;
    OwnedInit();
    TraceRefines(INIT, steps);
    assert Abs(INIT.Db()) == Spec(map[], map[]);
  }

  // ----- What the price is -----

  /** The pricing service answered this call itself. */
  predicate PricedByService(call: CreateCall) {
    && call.quoteStatus == Pricing.STATUS_OK
    && (Pricing.Quote(call.weightGrams).Ok? ==>
          call.quoteBody == Pricing.QuoteResponse(Pricing.Quote(call.weightGrams).value))
  }

  predicate AllPricedByService(steps: seq<Step>) {
    forall i :: 0 <= i < |steps| && steps[i].Create? ==> PricedByService(steps[i].call)
  }

  ghost predicate TariffPrices(db: Tables) {
    forall s :: s in db.shipments ==>
      Pricing.Quote(db.shipments[s].weightGrams) == Ok(db.shipments[s].price)
  }

  /** Only a shipment's creation touches shipments. */
  lemma ShipmentsStay(s: State, step: Step)
    requires Enabled(s, step) && !(step.Create? && step.durable)
    ensures Apply(s, step).Db().shipments == s.Db().shipments
  {
    hide Prepare, AfterCreate, FreshCall, MarkBatch, IsClaim, RequestIn, RecordFor, CanPoll, CanPublish, ResultOf, Tried;
    if step.Finish? {
      MarkKeeps(s.Db(), ResultOf(s.polls[step.r]), step.now);
    }
  }

  lemma TariffStep(s: State, step: Step)
    requires Enabled(s, step) && TariffPrices(s.Db()) && (step.Create? ==> PricedByService(step.call))
    ensures TariffPrices(Apply(s, step).Db())
  {
    hide Prepare, AfterCreate, FreshCall, IsClaim, Pricing.Quote, PricedByService, ApplyPublish, ApplyFinish, ApplyStatement,
         ApplyPollRecord, ApplyCommitOffset, CanPoll, CanStep;
    if step.Create? && step.durable {
      TariffCreate(s.Db(), step.call);
    } else {
      ShipmentsStay(s, step);
    }
  }

  lemma TariffCreate(db: Tables, call: CreateCall)
    requires Prepare(call).Ok? && FreshCall(db, call) && TariffPrices(db) && PricedByService(call)
    ensures TariffPrices(AfterCreate(db, call))
  {
    hide Prepare, AfterCreate, Pricing.Quote;
    CreateKeeps(db, call);
    PreparedPriceIsTariff(call);
  }

  lemma {:induction false} TariffRun(s: State, steps: seq<Step>)
    requires IsRun(s, steps) && TariffPrices(s.Db()) && AllPricedByService(steps)
    ensures TariffPrices(Final(s, steps).Db())
    decreases |steps|
  {
    hide Enabled, Apply, TariffPrices, PricedByService;
    if steps != [] {
      TariffStep(s, steps[0]);
      TariffRun(Apply(s, steps[0]), steps[1..]);
    }
  }

  /** End to end: the amount dispatched is 500 cents and 100 more per kilogram begun, in USD. */
  lemma DispatchedAmountIsTariff(steps: seq<Step>, id: ShipmentId)
    requires IsRun(INIT, steps) && OwnProducers(steps) && AllPricedByService(steps)
    requires id in Final(INIT, steps).Db().dispatches
    ensures var db := Final(INIT, steps).Db();
            && id in db.shipments
            && var w := db.shipments[id].weightGrams;
            exists k :: 1 <= k <= 30 && 1000 * (k - 1) < w <= 1000 * k
                        && db.dispatches[id].money == Money(500 + 100 * k, "USD")
  {
    hide Enabled, Apply, Pricing.Quote;
    var s := Final(INIT, steps);
    TariffRun(INIT, steps);
    assert Reachable(s);
    DispatchCarriesStoredPrice(s, id);
    Pricing.QuotePrice(s.Db().shipments[id].weightGrams);
  }

  // ----- What GetShipment shows -----

  /** The join has exactly one row for an existing shipment, that of its outbox event, and none for any other. */
  lemma JoinHasOneRow(s: State, id: ShipmentId)
    requires Owned(s)
    ensures id in s.Db().shipments ==>
              exists m :: JoinsOutbox(s.Db(), id, m) && m.Some? && forall n :: JoinsOutbox(s.Db(), id, n) ==> n == m
    ensures id in s.Db().shipments <==> exists v :: Observes(s.Db(), id, v)
    ensures forall v, w :: Observes(s.Db(), id, v) && Observes(s.Db(), id, w) ==> v == w
  {
    hide Safe, DispatchesOk, LogOk, TxnsOk, Says;
    var db := s.Db();
    if id in db.shipments {
      var e := EventOfShipment(db, id);
      assert RowOk(db, e);
      assert JoinsOutbox(db, id, Some(e));
      assert Observes(db, id, View(db, id, Some(e)));
      forall m | JoinsOutbox(db, id, m)
        ensures m == Some(e)
      {
      }
    }
  }

  lemma ObservedOutbox(db: Tables, id: ShipmentId, v: ShipmentView)
    requires OutboxOk(db) && Observes(db, id, v)
    ensures id in db.shipments
    ensures v == View(db, id, Some(EventOfShipment(db, id)))
    ensures JoinsOutbox(db, id, Some(EventOfShipment(db, id)))
  {
    hide Says;
    var e := EventOfShipment(db, id);
    assert RowOk(db, e);
  }

  /** What an observation shows, column by column. */
  ghost predicate Shows(db: Tables, id: ShipmentId, v: ShipmentView) {
    && id in db.shipments
    && v.shipment == Shipment(id, db.shipments[id].weightGrams, db.shipments[id].price, db.shipments[id].createdAt)
    && (v.outbox == OutboxPublished <==>
          exists e :: e in db.outbox && db.outbox[e].shipmentId == id && db.outbox[e].eventType == "shipment.created"
                      && db.outbox[e].publishedAt.Some?)
    && (id in db.dispatches ==>
          v.dispatch == Dispatched(db.dispatches[id].dispatchId, db.dispatches[id].eventId, db.dispatches[id].dispatchedAt))
    && (id !in db.dispatches ==> v.dispatch == DispatchPending)
  }

  /**
   * What is observed is the stored shipment, PUBLISHED exactly when its event row has been marked, and DISPATCHED
   * exactly when there is a dispatch row, whose columns it shows; and there is nothing else to observe.
   */
  lemma ObservedExactly(s: State, id: ShipmentId, v: ShipmentView)
    requires Owned(s)
    ensures Observes(s.Db(), id, v) <==> Shows(s.Db(), id, v)
  {
    hide Safe, DispatchesOk, LogOk, TxnsOk, Says;
    var db := s.Db();
    if id in db.shipments {
      var e := EventOfShipment(db, id);
      assert RowOk(db, e);
      assert JoinsOutbox(db, id, Some(e));
      assert Observes(db, id, View(db, id, Some(e)));
      forall m | JoinsOutbox(db, id, m)
        ensures m == Some(e)
      {
      }
    }
  }

  /** From one observation to any later one: the shipment stays, PUBLISHED stays, the dispatch stays the same. */
  lemma ObservationsAreMonotone(s: State, steps: seq<Step>, id: ShipmentId, v: ShipmentView, w: ShipmentView)
    requires Reachable(s) && IsRun(s, steps) && OwnProducers(steps)
    requires Observes(s.Db(), id, v) && Observes(Final(s, steps).Db(), id, w)
    ensures w.shipment == v.shipment
    ensures v.outbox == OutboxPublished ==> w.outbox == OutboxPublished
    ensures v.dispatch.Dispatched? ==> w.dispatch == v.dispatch
  {
    hide Enabled, Apply, Safe, RowOk, LogOk, TxnsOk, DispatchesOk, Reachable, Observes, EventOfShipment;
    ReachableIsOwned(s);
    OwnedRun(s, steps);
    var db, db' := s.Db(), Final(s, steps).Db();
    ObservedOutbox(db, id, v);
    ObservedOutbox(db', id, w);
    EventIsUnique(db', id, EventOfShipment(db, id));
  }

  /** A shipment shown as dispatched has its event on the topic, even while the outbox still shows PENDING. */
  lemma DispatchedIsOnTheTopic(s: State, id: ShipmentId, v: ShipmentView)
    requires Reachable(s) && Observes(s.Db(), id, v) && v.dispatch.Dispatched?
    ensures Logged(s.log, v.dispatch.eventId)
    ensures v.dispatch.eventId in s.Db().outbox && s.Db().outbox[v.dispatch.eventId].shipmentId == id
  {
    DispatchCarriesStoredPrice(s, id);
  }
}
