/** The queue consumer that turns payment events into credits: it drains a batch of SQS
    records in order, skips events already recorded in `processed_webhooks`, dispatches on
    the event type, grants `floor(amount / 100)` credits to `users/<uid>` in one transaction
    and then records the event. An exception is caught per record, so a failing record never
    stops the rest of the batch. */
module WebhookProcessor {
  import opened Common
  import opened Firestore
  import opened StripeEvents

  /** What the outside world does while one record is handled: the `processed_webhooks`
      lookup throws (read as "not processed"), the ledger transaction throws (nothing is
      written), or the `processed_webhooks` write throws (swallowed). */
  datatype Faults = Faults(lookupFails: bool, transactionFails: bool, markFails: bool)

  /** One SQS record: its body as `JSON.parse(record.body)` yields it (None when that throws),
      the faults met while handling it, and the clock reading used for its timestamps. */
  datatype SqsRecord = SqsRecord(body: Option<QueuedEvent>, faults: Faults, now: Time)

  /** `Math.floor(amountInCents / 100)`: whole credits only, the remainder is dropped. */
  function CalculateCredits(amountInCents: nat): (credits: nat)
    ensures credits * 100 <= amountInCents < credits * 100 + 100
  {
    amountInCents / 100
  }

  lemma CalculateCreditsExamples()
    ensures CalculateCredits(500) == 5 && CalculateCredits(499) == 4 && CalculateCredits(0) == 0
  {
  }

  /** `obj?.client_reference_id`, when it is truthy. */
  function FirebaseUid(obj: Option<EventObject>): (uid: Option<Uid>)
    ensures uid.Some? <==> obj.Some? && Truthy(obj.value.clientReferenceId)
    ensures uid.Some? ==> uid == obj.value.clientReferenceId && uid.value != ""
  {
    if obj.Some? && Truthy(obj.value.clientReferenceId) then obj.value.clientReferenceId else None
  }

  /** What the `switch` on the event type does with an event not yet processed. */
  datatype Action = Grant(uid: Uid, credits: nat, kind: TxnKind) | MissingUid | Unhandled

  /** The dispatch of the handler's `switch` together with `handleCheckoutCompleted` and
      `handlePaymentSucceeded`: a checkout session pays `amount_total`, a payment intent
      `amount`, and either one without a user reference throws. */
  function Classify(e: QueuedEvent): (a: Action)
    ensures a.Unhandled? <==> e.eventType != CHECKOUT_COMPLETED && e.eventType != PAYMENT_SUCCEEDED
    ensures a.MissingUid? <==> !a.Unhandled? && FirebaseUid(e.eventData).None?
    ensures a.Grant? ==>
      && e.eventData.Some?
      && e.eventData.value.clientReferenceId == Some(a.uid) && a.uid != ""
      && (a.kind == CheckoutSession <==> e.eventType == CHECKOUT_COMPLETED)
      && a.credits == CalculateCredits(if a.kind == CheckoutSession then e.eventData.value.amountTotal
                                       else e.eventData.value.amount)
  {
    if e.eventType == CHECKOUT_COMPLETED then
      match FirebaseUid(e.eventData)
      case None => MissingUid
      case Some(uid) => Grant(uid, CalculateCredits(e.eventData.value.amountTotal), CheckoutSession)
    else if e.eventType == PAYMENT_SUCCEEDED then
      match FirebaseUid(e.eventData)
      case None => MissingUid
      case Some(uid) => Grant(uid, CalculateCredits(e.eventData.value.amount), PaymentIntent)
    else
      Unhandled
  }

  /** The document the `updateUserCredits` transaction leaves at `users/<uid>` after
      granting `n` credits for event `id`, given the document it read. */
  function GrantedDoc(doc: Option<Doc>, n: nat, id: EventId, kind: TxnKind, now: Time): (d: Doc)
    ensures doc.None? ==>
      && d.credits == Some(n) && d.totalCredits == Some(n)
      && d.transactions == Some([LedgerEntry(id, n, now, kind)])
    ensures doc.Some? ==>
      && d.credits == Some(Credits(doc.value) + n)
      && d.totalCredits == Some(TotalCredits(doc.value) + n)
    ensures doc.Some? ==>
      var before := Transactions(doc.value);
      && |Transactions(d)| == |before| + 1
      && Transactions(d)[..|before|] == before
      && Transactions(d)[|before|] == LedgerEntry(id, n, now, kind)
    ensures doc.Some? ==>
      && d.userId == doc.value.userId && d.email == doc.value.email
      && d.name == doc.value.name && d.createdAt == doc.value.createdAt
  {
    var entry := LedgerEntry(id, n, now, kind);
    match doc
    case None =>
      Doc(None, None, None, Some(n), Some(n), Some([entry]), Some(now), Some(now))
    case Some(current) =>
      current.(credits := Some(Credits(current) + n),
               totalCredits := Some(TotalCredits(current) + n),
               transactions := Some(Transactions(current) + [entry]),
               updatedAt := Some(now))
  }

  function Lookup(users: map<Uid, Doc>, uid: Uid): Option<Doc> {
    if uid in users then Some(users[uid]) else None
  }

  /** `credits || 0` of `users/<uid>`, 0 when there is no such document. */
  function Balance(users: map<Uid, Doc>, uid: Uid): int {
    if uid in users then Credits(users[uid]) else 0
  }

  /** The store after a committed `updateUserCredits`. */
  function Credited(s: Store, uid: Uid, n: nat, id: EventId, kind: TxnKind, now: Time): (t: Store)
    ensures t.cvwebpagedata == s.cvwebpagedata && t.processedWebhooks == s.processedWebhooks
    ensures t.users.Keys == s.users.Keys + {uid}
    ensures Balance(t.users, uid) == Balance(s.users, uid) + n
    ensures forall u :: u in s.users && u != uid ==> t.users[u] == s.users[u]
  {
    s.(users := s.users[uid := GrantedDoc(Lookup(s.users, uid), n, id, kind, now)])
  }

  /** The store after `markAsProcessed`; a failed write is swallowed. */
  function Marked(s: Store, eventId: EventId, eventType: string, markFails: bool, now: Time): (t: Store)
    ensures t.users == s.users && t.cvwebpagedata == s.cvwebpagedata
    ensures markFails ==> t == s
    ensures !markFails ==> eventId in t.processedWebhooks && t.processedWebhooks[eventId] == ProcessedRecord(eventId, eventType, now, PROCESSED_BY)
    ensures t.processedWebhooks.Keys == s.processedWebhooks.Keys + (if markFails then {} else {eventId})
    ensures forall id :: id in s.processedWebhooks && id != eventId ==> t.processedWebhooks[id] == s.processedWebhooks[id]
  {
    if markFails then s
    else s.(processedWebhooks := s.processedWebhooks[eventId := ProcessedRecord(eventId, eventType, now, PROCESSED_BY)])
  }

  /** One iteration of the handler's loop, the `catch` included. */
  function Step(s: Store, r: SqsRecord): (t: Store)
    ensures t.cvwebpagedata == s.cvwebpagedata
    ensures s.users.Keys <= t.users.Keys
    ensures s.processedWebhooks.Keys <= t.processedWebhooks.Keys
    ensures forall id :: id in s.processedWebhooks ==> t.processedWebhooks[id] == s.processedWebhooks[id] || (r.body.Some? && id == r.body.value.eventId)
  {
    match r.body
    case None => s
    case Some(e) =>
      if !r.faults.lookupFails && e.eventId in s.processedWebhooks then s
      else match Classify(e)
        case Unhandled => Marked(s, e.eventId, e.eventType, r.faults.markFails, r.now)
        case MissingUid => s
        case Grant(uid, n, kind) =>
          if r.faults.transactionFails then s
          else Marked(Credited(s, uid, n, e.eventId, kind, r.now), e.eventId, e.eventType, r.faults.markFails, r.now)
  }

  /** The handler's whole loop over `event.Records`, in order. */
  function ProcessBatch(s: Store, rs: seq<SqsRecord>): (t: Store)
    ensures t.cvwebpagedata == s.cvwebpagedata
    ensures s.users.Keys <= t.users.Keys
    ensures s.processedWebhooks.Keys <= t.processedWebhooks.Keys
    decreases |rs|
  {
    if rs == [] then s else Step(ProcessBatch(s, rs[..|rs| - 1]), rs[|rs| - 1])
  }

  // ---------------------------------------------------------------------------------------
  // The handler, as the source runs it

  /** `checkIfAlreadyProcessed`: a failed lookup is caught and reads as "not processed". */
  method CheckIfAlreadyProcessed(db: Database, eventId: EventId, lookupFails: bool) returns (found: bool)
    ensures found <==> !lookupFails && eventId in db.processedWebhooks
  {
    if lookupFails {
      return false;
    }
    found := eventId in db.processedWebhooks;
  }

  /** `markAsProcessed`: writes `processed_webhooks/<eventId>`; a failed write is swallowed. */
  method MarkAsProcessed(db: Database, eventId: EventId, eventType: string, markFails: bool, now: Time)
    modifies db
    ensures db.Snapshot() == Marked(old(db.Snapshot()), eventId, eventType, markFails, now)
    ensures !markFails ==> db.processedWebhooks == old(db.processedWebhooks)[eventId := ProcessedRecord(eventId, eventType, now, PROCESSED_BY)]
    ensures markFails ==> db.processedWebhooks == old(db.processedWebhooks)
    ensures db.users == old(db.users) && db.cvwebpagedata == old(db.cvwebpagedata)
  {
    if markFails {
      return;
    }
    db.processedWebhooks := db.processedWebhooks[eventId := ProcessedRecord(eventId, eventType, now, PROCESSED_BY)];
  }

  /** `updateUserCredits`: one transaction that reads `users/<uid>` and either creates it or
      increments its balances and pushes one entry onto its `transactions`. `ok` is false when
      the transaction throws, in which case nothing is written. */
  method UpdateUserCredits(db: Database, uid: Uid, creditsToAdd: nat, transactionId: EventId,
                           kind: TxnKind, transactionFails: bool, now: Time) returns (ok: bool)
    modifies db
    ensures ok == !transactionFails
    ensures db.Snapshot() == if ok then Credited(old(db.Snapshot()), uid, creditsToAdd, transactionId, kind, now)
                             else old(db.Snapshot())
    ensures db.cvwebpagedata == old(db.cvwebpagedata) && db.processedWebhooks == old(db.processedWebhooks)
    ensures forall u :: u in old(db.users) && u != uid ==> u in db.users && db.users[u] == old(db.users)[u]
  {
    if transactionFails {
      return false;
    }
    var entry := LedgerEntry(transactionId, creditsToAdd, now, kind);
    if uid !in db.users {
      db.users := db.users[uid := Doc(None, None, None, Some(creditsToAdd), Some(creditsToAdd), Some([entry]), Some(now), Some(now))];
    } else {
      var currentData := db.users[uid];
      var currentCredits := Credits(currentData);
      var totalCredits := TotalCredits(currentData) + creditsToAdd;
      var transactions := Transactions(currentData);
      transactions := transactions + [entry];
      db.users := db.users[uid := currentData.(credits := Some(currentCredits + creditsToAdd),
                                               totalCredits := Some(totalCredits),
                                               transactions := Some(transactions),
                                               updatedAt := Some(now))];
    }
    ok := true;
  }

  /** `handleCheckoutCompleted`: `ok` is false when it throws (no user reference, or the
      transaction failed). */
  method HandleCheckoutCompleted(db: Database, session: Option<EventObject>, eventId: EventId,
                                 transactionFails: bool, now: Time) returns (ok: bool)
    modifies db
    ensures ok <==> FirebaseUid(session).Some? && !transactionFails
    ensures db.Snapshot() == if ok then Credited(old(db.Snapshot()), FirebaseUid(session).value,
                                                 CalculateCredits(session.value.amountTotal), eventId, CheckoutSession, now)
                             else old(db.Snapshot())
  {
    var firebaseUid := FirebaseUid(session);
    if firebaseUid.None? {
      return false;
    }
    var amountPaid := session.value.amountTotal;
    var creditsToAdd := CalculateCredits(amountPaid);
    ok := UpdateUserCredits(db, firebaseUid.value, creditsToAdd, eventId, CheckoutSession, transactionFails, now);
  }

  /** `handlePaymentSucceeded`: as `handleCheckoutCompleted`, paying `amount`. */
  method HandlePaymentSucceeded(db: Database, paymentIntent: Option<EventObject>, eventId: EventId,
                                transactionFails: bool, now: Time) returns (ok: bool)
    modifies db
    ensures ok <==> FirebaseUid(paymentIntent).Some? && !transactionFails
    ensures db.Snapshot() == if ok then Credited(old(db.Snapshot()), FirebaseUid(paymentIntent).value,
                                                 CalculateCredits(paymentIntent.value.amount), eventId, PaymentIntent, now)
                             else old(db.Snapshot())
  {
    var firebaseUid := FirebaseUid(paymentIntent);
    if firebaseUid.None? {
      return false;
    }
    var amountPaid := paymentIntent.value.amount;
    var creditsToAdd := CalculateCredits(amountPaid);
    ok := UpdateUserCredits(db, firebaseUid.value, creditsToAdd, eventId, PaymentIntent, transactionFails, now);
  }

  /** The `try` block of one loop iteration; every way out of it ends the iteration. */
  method ProcessRecord(db: Database, r: SqsRecord)
    modifies db
    ensures db.Snapshot() == Step(old(db.Snapshot()), r)
  {
    if r.body.None? {
      return;  // JSON.parse threw: logged
    }
    var webhookData := r.body.value;
    var alreadyProcessed := CheckIfAlreadyProcessed(db, webhookData.eventId, r.faults.lookupFails);
    if alreadyProcessed {
      return;  // `continue`
    }
    var ok := true;
    if webhookData.eventType == CHECKOUT_COMPLETED {
      ok := HandleCheckoutCompleted(db, webhookData.eventData, webhookData.eventId, r.faults.transactionFails, r.now);
    } else if webhookData.eventType == PAYMENT_SUCCEEDED {
      ok := HandlePaymentSucceeded(db, webhookData.eventData, webhookData.eventId, r.faults.transactionFails, r.now);
    }
    if !ok {
      return;  // the exception skips markAsProcessed and is logged
    }
    MarkAsProcessed(db, webhookData.eventId, webhookData.eventType, r.faults.markFails, r.now);
  }

  /** `handler`: drains the batch in order and always answers 200. */
  method Handler(db: Database, records: seq<SqsRecord>) returns (statusCode: int)
    modifies db
    ensures statusCode == 200
    ensures db.Snapshot() == ProcessBatch(old(db.Snapshot()), records)
  {
    for i := 0 to |records|
      invariant db.Snapshot() == ProcessBatch(old(db.Snapshot()), records[..i])
    {
      assert records[..i + 1][..i] == records[..i];
      ProcessRecord(db, records[i]);
    }
    assert records[..|records|] == records;
    statusCode := 200;
  }

  // ---------------------------------------------------------------------------------------
  // Properties of one record

  /** Whether handling the record throws inside the `try` (before anything is written). */
  predicate Throws(r: SqsRecord) {
    || r.body.None?
    || Classify(r.body.value).MissingUid?
    || (Classify(r.body.value).Grant? && r.faults.transactionFails)
  }

  /** An event already recorded causes no ledger change and no new record. */
  lemma ProcessedEventIsSkipped(s: Store, r: SqsRecord)
    requires r.body.Some? && r.body.value.eventId in s.processedWebhooks && !r.faults.lookupFails
    ensures Step(s, r) == s
  {
  }

  /** A record that throws leaves the store as it was and its event unrecorded. */
  lemma ThrowingRecordChangesNothing(s: Store, r: SqsRecord)
    requires Throws(r)
    ensures Step(s, r) == s
    ensures r.body.Some? && r.body.value.eventId !in s.processedWebhooks ==> r.body.value.eventId !in Step(s, r).processedWebhooks
  {
  }

  /** An event of an unknown type changes no ledger but is recorded as processed. */
  lemma UnhandledEventIsOnlyRecorded(s: Store, r: SqsRecord)
    requires r.body.Some? && Classify(r.body.value).Unhandled?
    requires r.body.value.eventId !in s.processedWebhooks && !r.faults.markFails
    ensures Step(s, r).users == s.users
    ensures Step(s, r).processedWebhooks ==
      s.processedWebhooks[r.body.value.eventId := ProcessedRecord(r.body.value.eventId, r.body.value.eventType, r.now, PROCESSED_BY)]
  {
  }

  /** A handled event with a user reference grants its credits to exactly that user and is
      then recorded (unless that write fails); no other document changes. */
  lemma GrantedEventCreditsOneUser(s: Store, r: SqsRecord)
    requires r.body.Some? && Classify(r.body.value).Grant? && !r.faults.transactionFails
    requires r.faults.lookupFails || r.body.value.eventId !in s.processedWebhooks
    ensures var a := Classify(r.body.value);
      && Step(s, r).users == s.users[a.uid := GrantedDoc(Lookup(s.users, a.uid), a.credits, r.body.value.eventId, a.kind, r.now)]
      && (r.body.value.eventId in Step(s, r).processedWebhooks <==> !r.faults.markFails || r.body.value.eventId in s.processedWebhooks)
  {
  }

  /** A failed lookup counts as "not processed": the grant is applied again. */
  lemma FailedLookupRegrants(s: Store, r: SqsRecord)
    requires r.body.Some? && Classify(r.body.value).Grant? && !r.faults.transactionFails && r.faults.lookupFails
    requires Classify(r.body.value).uid in s.users
    ensures var a := Classify(r.body.value);
      && a.uid in Step(s, r).users
      && Credits(Step(s, r).users[a.uid]) == Credits(s.users[a.uid]) + a.credits
  {
  }

  /** A swallowed `markAsProcessed` failure leaves the event unrecorded, so a redelivery of
      the same event credits the user a second time. */
  lemma SwallowedMarkFailureCreditsTwice(s: Store, r: SqsRecord, again: SqsRecord)
    requires r.body.Some? && Classify(r.body.value).Grant? && r.body.value.eventId !in s.processedWebhooks
    requires !r.faults.transactionFails && r.faults.markFails
    requires again.body == r.body && !again.faults.transactionFails
    ensures var a := Classify(r.body.value);
      var t := Step(Step(s, r), again);
      && a.uid in t.users
      && Credits(t.users[a.uid]) == Balance(s.users, a.uid) + 2 * a.credits
      && |Transactions(t.users[a.uid])| >= 2
      && Transactions(t.users[a.uid])[|Transactions(t.users[a.uid])| - 1].id == r.body.value.eventId
      && Transactions(t.users[a.uid])[|Transactions(t.users[a.uid])| - 2].id == r.body.value.eventId
  {
    var e, a := r.body.value, Classify(r.body.value);
    var s1 := Step(s, r);
    assert s1 == Credited(s, a.uid, a.credits, e.eventId, a.kind, r.now);
    assert e.eventId !in s1.processedWebhooks;
    var d1 := s1.users[a.uid];
    var t := Step(s1, again);
    assert t.users[a.uid] == GrantedDoc(Some(d1), a.credits, e.eventId, a.kind, again.now);
  }

  // ---------------------------------------------------------------------------------------
  // Properties of a batch

  lemma {:induction false} ProcessBatchAppend(s: Store, a: seq<SqsRecord>, b: seq<SqsRecord>)
    ensures ProcessBatch(s, a + b) == ProcessBatch(ProcessBatch(s, a), b)
    decreases |b|
  {
    if b == [] {
      assert a + b == a;
    } else {
      var b' := b[..|b| - 1];
      assert (a + b)[..|a + b| - 1] == a + b';
      assert (a + b)[|a + b| - 1] == b[|b| - 1];
      ProcessBatchAppend(s, a, b');
    }
  }

  /** Error isolation: a record that throws can be struck from the batch without changing
      what the batch does, so the records after it are still processed. */
  lemma FailingRecordIsIsolated(s: Store, a: seq<SqsRecord>, bad: SqsRecord, b: seq<SqsRecord>)
    requires Throws(bad)
    ensures ProcessBatch(s, a + [bad] + b) == ProcessBatch(s, a + b)
  {
    ProcessBatchAppend(s, a + [bad], b);
    ProcessBatchAppend(s, a, [bad]);
    ThrowingRecordChangesNothing(ProcessBatch(s, a), bad);
    assert ProcessBatch(ProcessBatch(s, a), [bad]) == Step(ProcessBatch(s, a), bad) by {
      assert [bad][..0] == [];
    }
    ProcessBatchAppend(s, a, b);
  }

  /** Idempotency: once an earlier part of the stream has recorded an event, the same event
      arriving again, in the same batch or later, changes nothing. */
  lemma RedeliveryChangesNothing(s: Store, a: seq<SqsRecord>, b: seq<SqsRecord>, r: SqsRecord)
    requires r.body.Some? && r.body.value.eventId in ProcessBatch(s, a).processedWebhooks
    requires !r.faults.lookupFails
    ensures ProcessBatch(s, a + b + [r]) == ProcessBatch(s, a + b)
  {
    ProcessBatchAppend(s, a, b);
    assert (a + b + [r])[..|a + b + [r]| - 1] == a + b;
  }

  /** The processor only ever adds to a ledger: no user document disappears, no balance or
      lifetime total decreases, and every earlier `transactions` list is a prefix of the
      later one. */
  lemma {:induction false} ProcessBatchGrowsLedger(s: Store, rs: seq<SqsRecord>)
    ensures var t := ProcessBatch(s, rs);
      forall u :: u in s.users ==>
        && u in t.users
        && Credits(s.users[u]) <= Credits(t.users[u])
        && TotalCredits(s.users[u]) <= TotalCredits(t.users[u])
        && Transactions(s.users[u]) <= Transactions(t.users[u])
    decreases |rs|
  {
    if rs != [] {
      var rs' := rs[..|rs| - 1];
      ProcessBatchGrowsLedger(s, rs');
      var m := ProcessBatch(s, rs');
      var t := Step(m, rs[|rs| - 1]);
      forall u | u in m.users
        ensures u in t.users && Credits(m.users[u]) <= Credits(t.users[u])
        ensures TotalCredits(m.users[u]) <= TotalCredits(t.users[u])
        ensures Transactions(m.users[u]) <= Transactions(t.users[u])
      {
        StepGrowsDoc(m, rs[|rs| - 1], u);
      }
    }
  }

  lemma StepGrowsDoc(s: Store, r: SqsRecord, u: Uid)
    requires u in s.users
    ensures var t := Step(s, r);
      && u in t.users
      && Credits(s.users[u]) <= Credits(t.users[u])
      && TotalCredits(s.users[u]) <= TotalCredits(t.users[u])
      && Transactions(s.users[u]) <= Transactions(t.users[u])
  {
    var t := Step(s, r);
    if t.users[u] != s.users[u] {
      var e := r.body.value;
      var a := Classify(e);
      assert a.Grant? && a.uid == u;
      var before := Transactions(s.users[u]);
      assert t.users[u] == GrantedDoc(Some(s.users[u]), a.credits, e.eventId, a.kind, r.now);
      assert Transactions(t.users[u])[..|before|] == before;
    }
  }

  // ---------------------------------------------------------------------------------------
  // The ledger invariant: every entry records a distinct processed event

  /** Every ledger entry in `users` stands for an event recorded in `processed_webhooks`,
      and no event id occurs in two entries, within one document or across documents. */
  ghost predicate LedgerConsistent(s: Store) {
    && (forall u, i :: u in s.users && 0 <= i < |Transactions(s.users[u])| ==>
          Transactions(s.users[u])[i].id in s.processedWebhooks)
    && (forall u, i, v, j ::
          && u in s.users && v in s.users
          && 0 <= i < |Transactions(s.users[u])| && 0 <= j < |Transactions(s.users[v])|
          && Transactions(s.users[u])[i].id == Transactions(s.users[v])[j].id
          ==> u == v && i == j)
  }

  /** The faults that break the invariant: a lookup that misses a recorded event, and a
      swallowed failure to record one. */
  predicate Reliable(r: SqsRecord) {
    !r.faults.lookupFails && !r.faults.markFails
  }

  lemma StepKeepsLedgerConsistent(s: Store, r: SqsRecord)
    requires LedgerConsistent(s) && Reliable(r)
    ensures LedgerConsistent(Step(s, r))
  {
    var t := Step(s, r);
    if r.body.Some? && r.body.value.eventId !in s.processedWebhooks && Classify(r.body.value).Grant? && !r.faults.transactionFails {
      var e, a := r.body.value, Classify(r.body.value);
      assert t.users == s.users[a.uid := GrantedDoc(Lookup(s.users, a.uid), a.credits, e.eventId, a.kind, r.now)];
      assert e.eventId in t.processedWebhooks;
      // Each entry of t is an old entry or the new one, whose id no old entry has.
      forall u, i | u in t.users && 0 <= i < |Transactions(t.users[u])|
        ensures (u == a.uid && i == |Transactions(t.users[u])| - 1 && Transactions(t.users[u])[i].id == e.eventId)
             || (u in s.users && i < |Transactions(s.users[u])| && Transactions(t.users[u])[i] == Transactions(s.users[u])[i])
      {
        if u == a.uid && u in s.users {
          assert Transactions(t.users[u])[..|Transactions(s.users[u])|] == Transactions(s.users[u]);
          if i < |Transactions(s.users[u])| {
            assert Transactions(t.users[u])[i] == Transactions(t.users[u])[..|Transactions(s.users[u])|][i];
          }
        }
      }
    }
  }

  lemma {:induction false} ProcessBatchKeepsLedgerConsistent(s: Store, rs: seq<SqsRecord>)
    requires LedgerConsistent(s)
    requires forall i :: 0 <= i < |rs| ==> Reliable(rs[i])
    ensures LedgerConsistent(ProcessBatch(s, rs))
    decreases |rs|
  {
    if rs != [] {
      var rs' := rs[..|rs| - 1];
      ProcessBatchKeepsLedgerConsistent(s, rs');
      StepKeepsLedgerConsistent(ProcessBatch(s, rs'), rs[|rs| - 1]);
    }
  }

  // ---------------------------------------------------------------------------------------
  // Grants add up

  /** The event ids of the records that parse. */
  function EventIds(rs: seq<SqsRecord>): set<EventId> {
    set i | 0 <= i < |rs| && rs[i].body.Some? :: rs[i].body.value.eventId
  }

  /** No two records that parse carry the same event id. */
  ghost predicate DistinctEvents(rs: seq<SqsRecord>) {
    forall i, j :: 0 <= i < j < |rs| && rs[i].body.Some? && rs[j].body.Some? ==>
      rs[i].body.value.eventId != rs[j].body.value.eventId
  }

  /** What one record grants to `uid` when it is not skipped. */
  function GrantOf(r: SqsRecord, uid: Uid): nat {
    if r.body.Some? && Classify(r.body.value).Grant? && Classify(r.body.value).uid == uid && !r.faults.transactionFails
    then Classify(r.body.value).credits
    else 0
  }

  /** The credits a batch grants to `uid` when none of its events is skipped. */
  function GrantedTo(rs: seq<SqsRecord>, uid: Uid): nat
    decreases |rs|
  {
    if rs == [] then 0 else GrantedTo(rs[..|rs| - 1], uid) + GrantOf(rs[|rs| - 1], uid)
  }

  /** A batch records no event besides those already recorded and its own. */
  lemma {:induction false} ProcessBatchRecordsOnlyItsEvents(s: Store, rs: seq<SqsRecord>)
    ensures ProcessBatch(s, rs).processedWebhooks.Keys <= s.processedWebhooks.Keys + EventIds(rs)
    decreases |rs|
  {
    if rs != [] {
      var rs' := rs[..|rs| - 1];
      ProcessBatchRecordsOnlyItsEvents(s, rs');
      assert EventIds(rs') <= EventIds(rs) by {
        forall id | id in EventIds(rs') ensures id in EventIds(rs) {
          var i :| 0 <= i < |rs'| && rs'[i].body.Some? && rs'[i].body.value.eventId == id;
          assert rs[i] == rs'[i];
        }
      }
      var r := rs[|rs| - 1];
      if r.body.Some? {
        assert r.body.value.eventId in EventIds(rs);
      }
    }
  }

  /** No lost updates: a batch of distinct events none of which was recorded before raises
      each user's balance by exactly the sum of what its events grant to that user. */
  lemma {:induction false} FreshGrantsAddUp(s: Store, rs: seq<SqsRecord>, uid: Uid)
    requires DistinctEvents(rs)
    requires EventIds(rs) !! s.processedWebhooks.Keys
    ensures Balance(ProcessBatch(s, rs).users, uid) == Balance(s.users, uid) + GrantedTo(rs, uid)
    decreases |rs|
  {
    if rs != [] {
      var rs' := rs[..|rs| - 1];
      var r := rs[|rs| - 1];
      assert EventIds(rs') <= EventIds(rs) by {
        forall id | id in EventIds(rs') ensures id in EventIds(rs) {
          var i :| 0 <= i < |rs'| && rs'[i].body.Some? && rs'[i].body.value.eventId == id;
          assert rs[i] == rs'[i];
        }
      }
      FreshGrantsAddUp(s, rs', uid);
      var m := ProcessBatch(s, rs');
      if r.body.Some? {
        var id := r.body.value.eventId;
        ProcessBatchRecordsOnlyItsEvents(s, rs');
        assert id in EventIds(rs);
        assert id !in EventIds(rs');
        assert id !in m.processedWebhooks;
      }
    }
  }
}
