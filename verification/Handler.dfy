/** One record turned into at most one dispatch: the retry loop of internal/consumer/handler.go. */
module Handler {
  import opened Wrappers
  import opened Domain
  import opened Json
  import opened Events
  import opened Database
  import opened Storage
  import opened Retry

  datatype Outcome =
    | OutcomeProcessed
    | OutcomeDuplicate
    | OutcomeMalformed
    | OutcomeUnsupported
    | OutcomeConflict
    | OutcomeFailed

  /** Surroundings of one attempt: its fault, its fresh identifier and time, and when the context ends. */
  datatype Attempt = Attempt(fault: Fault, id: DispatchId, now: int, contextEnded: bool, sleepInterrupted: bool)

  /** error is false when the caller may commit the offset; waits are the sleeps requested, in order. */
  datatype Report = Report(outcome: Outcome, error: bool, calls: nat, waits: seq<int64>)

  function DecodeOutcome(e: DecodeError): Outcome {
    if e.Unsupported? then OutcomeUnsupported else OutcomeMalformed
  }

  // ----- What the attempts come to -----

  /** The tables after the first n attempts. */
  function After(db: Tables, req: DispatchRequest, env: nat -> Attempt, n: nat): Tables {
    if n == 0 then db
    else
      var before := After(db, req, env, n - 1);
      if TakesEffect(env(n).fault) then RecordTx(before, req, env(n).id, env(n).now).0 else before
  }

  /** What the statements of attempt k say. */
  function ResultAt(db: Tables, req: DispatchRequest, env: nat -> Attempt, k: nat): DispatchResult
    requires k > 0
  {
    RecordTx(After(db, req, env, k - 1), req, env(k).id, env(k).now).1
  }

  /** The store reports that the event is processed. */
  predicate Succeeds(db: Tables, req: DispatchRequest, env: nat -> Attempt, k: nat)
    requires k > 0
  {
    env(k).fault.NoFault? && (ResultAt(db, req, env, k).Created? || ResultAt(db, req, env, k).Duplicate?)
  }

  predicate Conflicts(db: Tables, req: DispatchRequest, env: nat -> Attempt, k: nat)
    requires k > 0
  {
    !env(k).fault.Fails? && ResultAt(db, req, env, k).Conflict?
  }

  /** Attempt k failed with an error worth a retry. */
  predicate FailsTransiently(db: Tables, req: DispatchRequest, env: nat -> Attempt, k: nat)
    requires k > 0
  {
    !Succeeds(db, req, env, k) && !Conflicts(db, req, env, k)
  }

  /** Attempt k is followed by another one, as far as the attempts are concerned. */
  predicate GoesOn(db: Tables, req: DispatchRequest, env: nat -> Attempt, k: nat)
    requires k > 0
  {
    FailsTransiently(db, req, env, k) && !env(k).contextEnded && !env(k).sleepInterrupted
  }

  /** At most this many store calls. */
  function Budget(p: RetryPolicy): nat {
    if p.maxAttempts < 1 then 1 else p.maxAttempts
  }

  /** The outcome that the last attempt, n, leads to. */
  function OutcomeAt(db: Tables, req: DispatchRequest, env: nat -> Attempt, n: nat): Outcome
    requires n > 0
  {
    if Conflicts(db, req, env, n) then OutcomeConflict
    else if !Succeeds(db, req, env, n) then OutcomeFailed
    else if ResultAt(db, req, env, n).Created? then OutcomeProcessed
    else OutcomeDuplicate
  }

  /** After its last attempt, n, the handler still went to sleep, and was interrupted. */
  predicate StoppedAsleep(db: Tables, req: DispatchRequest, policy: RetryPolicy, env: nat -> Attempt, n: nat)
    requires n > 0
  {
    FailsTransiently(db, req, env, n) && !env(n).contextEnded && n < Budget(policy)
  }

  /** n attempts were made: each but the last went on, and the last one did not. */
  predicate LastAttempt(db: Tables, req: DispatchRequest, policy: RetryPolicy, env: nat -> Attempt, n: nat) {
    && 1 <= n <= Budget(policy)
    && (forall j :: 1 <= j < n ==> GoesOn(db, req, env, j))
    && (GoesOn(db, req, env, n) ==> n == Budget(policy))
  }

  /** What handling a request comes to: report r and tables db'. */
  predicate Handles(db: Tables, req: DispatchRequest, policy: RetryPolicy, env: nat -> Attempt, r: Report, db': Tables) {
    && LastAttempt(db, req, policy, env, r.calls)
    && db' == After(db, req, env, r.calls)
    && r.outcome == OutcomeAt(db, req, env, r.calls)
    && (!r.error <==> Succeeds(db, req, env, r.calls))
    && |r.waits| == r.calls - 1 + (if StoppedAsleep(db, req, policy, env, r.calls) then 1 else 0)
    && forall i :: 0 <= i < |r.waits| ==> r.waits[i] == WaitAfter(policy, i + 1)
  }

  /** What handling a payload comes to. */
  predicate HandlesPayload(db: Tables, payload: Text, policy: RetryPolicy, env: nat -> Attempt, r: Report, db': Tables) {
    match Decode(payload)
    case Err(e) => r == Report(DecodeOutcome(e), true, 0, []) && db' == db
    case Ok(event) => Handles(db, RequestOf(event), policy, env, r, db')
  }

  lemma LastAttemptIsUnique(db: Tables, req: DispatchRequest, policy: RetryPolicy, env: nat -> Attempt, m: nat, n: nat)
    requires LastAttempt(db, req, policy, env, m) && LastAttempt(db, req, policy, env, n)
    ensures m == n
  {
    hide GoesOn;
  }

  /** There is one number of attempts, so report and tables are determined. */
  lemma HandlingIsDetermined(db: Tables, payload: Text, policy: RetryPolicy, env: nat -> Attempt,
                             r: Report, db1: Tables, q: Report, db2: Tables)
    requires HandlesPayload(db, payload, policy, env, r, db1) && HandlesPayload(db, payload, policy, env, q, db2)
    ensures r == q && db1 == db2
  {
    hide Decode, RecordTx, WaitAfter, After, Succeeds, Conflicts, LastAttempt, RequestOf;
    if Decode(payload).Ok? {
      var req := RequestOf(Decode(payload).value);
      LastAttemptIsUnique(db, req, policy, env, r.calls, q.calls);
      assert r.waits == q.waits;
    }
  }

  // ----- At most one effect -----

  /** The tables after attempt k alone has recorded the dispatch; none has when k is 0. */
  function RecordedBy(db: Tables, req: DispatchRequest, env: nat -> Attempt, k: nat): Tables {
    if k == 0 then db else RecordTx(db, req, env(k).id, env(k).now).0
  }

  lemma DuplicateAfterRecorded(db: Tables, req: DispatchRequest, env: nat -> Attempt, k: nat, id: DispatchId, now: int)
    requires k > 0 && RecordTx(db, req, env(k).id, env(k).now).1.Created?
    ensures RecordTx(RecordedBy(db, req, env, k), req, id, now) == (RecordedBy(db, req, env, k), Duplicate)
  {
  }

  /** What a RecordDispatch run leaves alone, and what it leaves behind. */
  lemma RecordTxFacts(db: Tables, req: DispatchRequest, id: DispatchId, now: int)
    ensures var (db', result) := RecordTx(db, req, id, now);
            && (result.Created? || result.Duplicate? ==> req.eventId in db'.processed)
            && (result.Duplicate? ==> req.eventId in db.processed)
            && (!result.Created? ==> db' == db)
  {
  }

  /**
   * However many attempts take effect, reported or not, the tables are those of one RecordDispatch at most: of
   * the first attempt that created the dispatch.
   */
  lemma {:induction false} OneEffect(db: Tables, req: DispatchRequest, env: nat -> Attempt, n: nat) returns (recorder: nat)
    ensures recorder <= n && After(db, req, env, n) == RecordedBy(db, req, env, recorder)
    ensures recorder > 0 ==> TakesEffect(env(recorder).fault) && RecordTx(db, req, env(recorder).id, env(recorder).now).1.Created?
  {
    hide RecordTx;
    if n == 0 {
      return 0;
    }
    recorder := OneEffect(db, req, env, n - 1);
    if recorder > 0 {
      DuplicateAfterRecorded(db, req, env, recorder, env(n).id, env(n).now);
    } else {
      RecordTxFacts(db, req, env(n).id, env(n).now);
      if TakesEffect(env(n).fault) && RecordTx(db, req, env(n).id, env(n).now).1.Created? {
        recorder := n;
      }
    }
  }

  /** No error means that the event is processed. */
  lemma SucceededIsProcessed(db: Tables, req: DispatchRequest, env: nat -> Attempt, n: nat)
    requires n > 0 && Succeeds(db, req, env, n)
    ensures req.eventId in After(db, req, env, n).processed
  {
    hide RecordTx;
    RecordTxFacts(After(db, req, env, n - 1), req, env(n).id, env(n).now);
  }

  // ----- Waits -----

  lemma SleptWithin(p: RetryPolicy, k: nat)
    ensures ValidPolicy(p) && Fits(p) && k < Budget(p) ==> Slept(p, k) <= MaxWait(p)
    ensures ValidPolicy(p) && Fits(p) && k == Budget(p) - 1 ==> Slept(p, k) == MaxWait(p)
  {
    if ValidPolicy(p) && Fits(p) && k < Budget(p) {
      FittingWaitIsExact(p);
      SleptGrows(p, k, p.maxAttempts - 1);
    }
  }

  /**
   * The waits stay within MaxWait while its product fits, and reach it when the last attempt allowed has been
   * made; handling fails with its context alive in no other way.
   */
  lemma WaitsAreBounded(db: Tables, req: DispatchRequest, policy: RetryPolicy, env: nat -> Attempt, r: Report, db': Tables)
    requires Handles(db, req, policy, env, r, db')
    ensures |r.waits| < Budget(policy)
    ensures r.outcome == OutcomeFailed && !env(r.calls).contextEnded && !env(r.calls).sleepInterrupted ==>
              r.calls == Budget(policy)
    ensures ValidPolicy(policy) && Fits(policy) ==>
              && (forall i :: 0 <= i < |r.waits| ==> r.waits[i] == (i + 1) * policy.backoff)
              && Slept(policy, |r.waits|) <= MaxWait(policy)
              && (r.calls == Budget(policy) ==> Slept(policy, |r.waits|) == MaxWait(policy))
    ensures |r.waits| == if r.outcome == OutcomeFailed && !env(r.calls).contextEnded && r.calls < Budget(policy)
                         then r.calls else r.calls - 1
  {
    hide MaxWait, Slept, Fits, RecordTx, After, WaitAfter;
    SleptWithin(policy, |r.waits|);
    if ValidPolicy(policy) && Fits(policy) {
      forall i | 0 <= i < |r.waits|
        ensures r.waits[i] == (i + 1) * policy.backoff
      {
        WaitIsLinear(policy, i + 1);
      }
    }
  }

  // ----- What the outcome says -----

  /** The shipment has its dispatch, or the identifier is in use. */
  predicate Taken(db: Tables, req: DispatchRequest, id: DispatchId) {
    req.shipmentId in db.dispatches || exists s :: s in db.dispatches && db.dispatches[s].dispatchId == id
  }

  /**
   * Handling n attempts of a request, of which recorder created the dispatch, on tables db and to tables db': each
   * outcome by what is in the tables and how the last attempt ended.
   */
  ghost predicate Says(db: Tables, req: DispatchRequest, env: nat -> Attempt, recorder: nat, r: Report, db': Tables) {
    var last := env(r.calls);
    && (!r.error <==> last.fault.NoFault? && req.eventId in db'.processed)
    && (r.outcome == OutcomeProcessed <==> !r.error && recorder == r.calls)
    && (r.outcome == OutcomeDuplicate <==> !r.error && recorder != r.calls)
    && (r.outcome == OutcomeConflict <==>
          recorder == 0 && !last.fault.Fails? && req.eventId !in db.processed && Taken(db, req, last.id))
    && (r.outcome == OutcomeFailed <==> r.error && r.outcome != OutcomeConflict)
    && (forall j :: 1 <= j < r.calls && env(j).fault.NoFault? ==> req.eventId !in db.processed && j != recorder)
  }

  lemma {:induction false} AfterGrows(db: Tables, req: DispatchRequest, env: nat -> Attempt, j: nat, n: nat)
    requires j <= n
    ensures After(db, req, env, j).processed <= After(db, req, env, n).processed
    decreases n
  {
    hide RecordTx;
    if j < n {
      AfterGrows(db, req, env, j, n - 1);
      RecordTxFacts(After(db, req, env, n - 1), req, env(n).id, env(n).now);
      RecordTxGrows(After(db, req, env, n - 1), req, env(n).id, env(n).now);
    }
  }

  lemma RecordTxGrows(db: Tables, req: DispatchRequest, id: DispatchId, now: int)
    ensures db.processed <= RecordTx(db, req, id, now).0.processed
  {
  }

  /** A NoFault attempt on tables with the event succeeds, so none but the last finds or leaves it there. */
  lemma EarlierFoundNothing(db: Tables, req: DispatchRequest, env: nat -> Attempt, recorder: nat, n: nat, j: nat)
    requires 1 <= j < n && env(j).fault.NoFault? && FailsTransiently(db, req, env, j)
    requires recorder > 0 ==> RecordTx(db, req, env(recorder).id, env(recorder).now).1.Created?
    ensures req.eventId !in db.processed && j != recorder
  {
    RecordTxExactly(After(db, req, env, j - 1), req, env(j).id, env(j).now);
    AfterGrows(db, req, env, 0, j - 1);
    var before := OneEffect(db, req, env, j - 1);
    if before > 0 {
      DuplicateAfterRecorded(db, req, env, before, env(j).id, env(j).now);
    }
    hide RecordTx, After;
  }

  /** The attempt that created the dispatch is the last one exactly when that one found it missing. */
  lemma LastFinds(db: Tables, req: DispatchRequest, env: nat -> Attempt, n: nat) returns (recorder: nat)
    requires n > 0
    ensures recorder <= n && After(db, req, env, n) == RecordedBy(db, req, env, recorder)
    ensures recorder > 0 ==> TakesEffect(env(recorder).fault) && RecordTx(db, req, env(recorder).id, env(recorder).now).1.Created?
    ensures recorder == n <==> TakesEffect(env(n).fault) && ResultAt(db, req, env, n).Created?
    ensures recorder == 0 ==> After(db, req, env, n - 1) == db
    ensures 0 < recorder < n ==> ResultAt(db, req, env, n).Duplicate?
  {
    hide RecordTx;
    var before := OneEffect(db, req, env, n - 1);
    if before > 0 {
      DuplicateAfterRecorded(db, req, env, before, env(n).id, env(n).now);
      return before;
    }
    RecordTxFacts(db, req, env(n).id, env(n).now);
    recorder := if TakesEffect(env(n).fault) && RecordTx(db, req, env(n).id, env(n).now).1.Created? then n else 0;
  }

  lemma AfterStep(db: Tables, req: DispatchRequest, env: nat -> Attempt, n: nat)
    requires n > 0
    ensures After(db, req, env, n) ==
            if TakesEffect(env(n).fault) then RecordTx(After(db, req, env, n - 1), req, env(n).id, env(n).now).0
            else After(db, req, env, n - 1)
  {
  }

  lemma OutcomesMean(db: Tables, req: DispatchRequest, policy: RetryPolicy, env: nat -> Attempt, r: Report, db': Tables)
    returns (recorder: nat)
    requires Handles(db, req, policy, env, r, db') && MoneyFits(req.money)
    ensures recorder <= r.calls && db' == RecordedBy(db, req, env, recorder)
    ensures recorder > 0 ==> TakesEffect(env(recorder).fault) && RecordTx(db, req, env(recorder).id, env(recorder).now).1.Created?
    ensures Says(db, req, env, recorder, r, db')
  {
    hide RecordTx, After, WaitAfter, RecordedBy, StoppedAsleep;
    var n := r.calls;
    recorder := LastFinds(db, req, env, n);
    RecordTxExactly(After(db, req, env, n - 1), req, env(n).id, env(n).now);
    AfterStep(db, req, env, n);
    forall j | 1 <= j < n && env(j).fault.NoFault?
      ensures req.eventId !in db.processed && j != recorder
    {
      assert GoesOn(db, req, env, j);
      EarlierFoundNothing(db, req, env, recorder, n, j);
    }
  }

  /** A JSON object whose known fields are well typed, of another event type or version. */
  predicate IsUnsupported(payload: Text) {
    payload.IsJson? && payload.value.Object? && WellTyped(payload.value.fields) && NotForUs(payload.value.fields)
  }

  lemma UnsupportedIs(payload: Text)
    ensures Decode(payload) == Err(Unsupported) <==> IsUnsupported(payload)
  {
    hide Decode;
    UnsupportedExactly(payload);
  }

  /** Decoded money fits its columns. */
  lemma DecodedFits(payload: Text)
    requires Decode(payload).Ok?
    ensures MoneyFits(RequestOf(Decode(payload).value).money)
  {
    DecodeSound(payload);
  }

  // ----- The loop -----

  /**
   * Decode, then call the store until it succeeds, finds a conflict, the context ends, a sleep is interrupted or
   * the attempts are used up. Whatever the attempts report, including failures that committed: the tables change
   * by at most one RecordDispatch, and no error means that the event is processed.
   */
  method Handle(store: Store, policy: RetryPolicy, payload: Text, env: nat -> Attempt)
    returns (r: Report, ghost recorder: nat)
    modifies store
    ensures HandlesPayload(old(store.Contents()), payload, policy, env, r, store.Contents())
    ensures Decode(payload).Ok? ==>
              var req := RequestOf(Decode(payload).value);
              && recorder <= r.calls
              && store.Contents() == RecordedBy(old(store.Contents()), req, env, recorder)
              && (recorder > 0 ==>
                    TakesEffect(env(recorder).fault)
                    && RecordTx(old(store.Contents()), req, env(recorder).id, env(recorder).now).1.Created?)
              && Says(old(store.Contents()), req, env, recorder, r, store.Contents())
    ensures Decode(payload).Err? ==>
              && store.Contents() == old(store.Contents()) && r.error && r.calls == 0 && r.waits == []
              && r.outcome == if IsUnsupported(payload) then OutcomeUnsupported else OutcomeMalformed
    ensures |r.waits| < Budget(policy)
    ensures Decode(payload).Ok? ==>
              |r.waits| == if r.outcome == OutcomeFailed && !env(r.calls).contextEnded && r.calls < Budget(policy)
                           then r.calls else r.calls - 1
    ensures ValidPolicy(policy) && Fits(policy) ==>
              && (forall i :: 0 <= i < |r.waits| ==> r.waits[i] == (i + 1) * policy.backoff)
              && Slept(policy, |r.waits|) <= MaxWait(policy)
              && (r.calls == Budget(policy) ==> Slept(policy, |r.waits|) == MaxWait(policy))
  {
    hide Decode, RecordTx, MaxWait, Slept, Fits, ValidPolicy, RequestOf, Says, IsUnsupported;
    recorder := 0;
    var decoded := Decode(payload);
    UnsupportedIs(payload);
    if decoded.Err? {
      r := Report(DecodeOutcome(decoded.error), true, 0, []);
      SleptWithin(policy, 0);
      return;
    }
    var req := RequestOf(decoded.value);
    ghost var db := store.Contents();
    r := Attempts(store, policy, req, env);
    DecodedFits(payload);
    recorder := OutcomesMean(db, req, policy, env, r, store.Contents());
    WaitsAreBounded(db, req, policy, env, r, store.Contents());
  }

  /** The attempt-counting loop. */
  method Attempts(store: Store, policy: RetryPolicy, req: DispatchRequest, env: nat -> Attempt) returns (r: Report)
    modifies store
    ensures Handles(old(store.Contents()), req, policy, env, r, store.Contents())
  {
    hide RecordTx, WaitAfter;
    ghost var db := store.Contents();
    var attempt, waits := 1, [];
    while true
      invariant 1 <= attempt <= Budget(policy)
      invariant forall j :: 1 <= j < attempt ==> GoesOn(db, req, env, j)
      invariant store.Contents() == After(db, req, env, attempt - 1)
      invariant |waits| == attempt - 1
      invariant forall i :: 0 <= i < |waits| ==> waits[i] == WaitAfter(policy, i + 1)
      decreases Budget(policy) - attempt
    {
      var a := env(attempt);
      var _, duplicate, err := store.RecordDispatch(req, a.id, a.now, a.fault);
      assert store.Contents() == After(db, req, env, attempt);
      if err.None? && duplicate {
        return Report(OutcomeDuplicate, false, attempt, waits);
      } else if err.None? {
        return Report(OutcomeProcessed, false, attempt, waits);
      } else if err == Some(DispatchConflict) {
        return Report(OutcomeConflict, true, attempt, waits);
      } else if a.contextEnded || attempt >= policy.maxAttempts {
        return Report(OutcomeFailed, true, attempt, waits);
      }
      waits := waits + [WaitAfter(policy, attempt)];
      if a.sleepInterrupted {
        return Report(OutcomeFailed, true, attempt, waits);
      }
      attempt := attempt + 1;
    }
  }
}
