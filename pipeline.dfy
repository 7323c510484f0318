/** How the handlers fit together: the uid a checkout session carries comes back through the
    receiver and the queue to the processor, which credits exactly that user once; and the
    collection the processor credits is not the one the debit endpoint reads. */
module Pipeline {
  import opened Common
  import opened Firestore
  import opened StripeEvents
  import WebhookReceiver
  import WebhookProcessor
  import DecrementCredits
  import GetProfile
  import CreateCheckout

  const NoFaults := WebhookProcessor.Faults(false, false, false)

  /** The processor's record for a message the receiver sent, received without faults. */
  function Delivered(m: WebhookReceiver.SendMessageRequest, now: Time): WebhookProcessor.SqsRecord {
    WebhookProcessor.SqsRecord(Some(m.messageBody), NoFaults, now)
  }

  /** A completed checkout for a session the creator opened credits the signed-in user whose
      uid it carries with `floor(amount_total / 100)` credits, logs the event id and records
      the event. */
  lemma CompletedCheckoutCreditsThePayer(
    req: CreateCheckout.CheckoutRequest, env: CreateCheckout.CheckoutEnv,
    verifyIdToken: string -> Option<Uid>, createSession: CreateCheckout.SessionParams -> Result<string, string>,
    ev: StripeEvent, queueUrl: string, s: Store, now: Time)
    requires CreateCheckout.Route(req, env, verifyIdToken, createSession).session.Some?
    requires var uid := CreateCheckout.Route(req, env, verifyIdToken, createSession).session.value.clientReferenceId;
      && uid != ""
      && ev.eventType == CHECKOUT_COMPLETED && ev.data.Some? && ev.data.value.clientReferenceId == Some(uid)
    requires ev.id !in s.processedWebhooks
    ensures var uid := CreateCheckout.Route(req, env, verifyIdToken, createSession).session.value.clientReferenceId;
      var n := ev.data.value.amountTotal / 100;
      var t := WebhookProcessor.Step(s, Delivered(WebhookReceiver.Envelope(ev, queueUrl), now));
      && uid in t.users
      && Credits(t.users[uid]) == WebhookProcessor.Balance(s.users, uid) + n
      && |Transactions(t.users[uid])| > 0
      && Transactions(t.users[uid])[|Transactions(t.users[uid])| - 1] == LedgerEntry(ev.id, n, now, CheckoutSession)
      && ev.id in t.processedWebhooks
      && (forall u :: u in s.users && u != uid ==> u in t.users && t.users[u] == s.users[u])
  {
    var uid := CreateCheckout.Route(req, env, verifyIdToken, createSession).session.value.clientReferenceId;
    var m := WebhookReceiver.Envelope(ev, queueUrl);
    var a := WebhookProcessor.Classify(m.messageBody);
    assert a == WebhookProcessor.Grant(uid, ev.data.value.amountTotal / 100, CheckoutSession);
    var t := WebhookProcessor.Step(s, Delivered(m, now));
    assert t.users[uid] == WebhookProcessor.GrantedDoc(WebhookProcessor.Lookup(s.users, uid), a.credits, ev.id, CheckoutSession, now);
  }

  /** A provider retry of the same event (the receiver sends an envelope with the same
      deduplication id) is credited once when the first delivery was recorded. */
  lemma RetriedWebhookCreditsOnce(ev: StripeEvent, queueUrl: string, s: Store, first: Time, retry: Time, b: seq<WebhookProcessor.SqsRecord>)
    requires ev.id !in s.processedWebhooks
    requires WebhookProcessor.Classify(WebhookReceiver.Envelope(ev, queueUrl).messageBody).Grant?
    ensures var m := WebhookReceiver.Envelope(ev, queueUrl);
      WebhookProcessor.ProcessBatch(s, [Delivered(m, first)] + b + [Delivered(m, retry)])
        == WebhookProcessor.ProcessBatch(s, [Delivered(m, first)] + b)
  {
    var m := WebhookReceiver.Envelope(ev, queueUrl);
    var r := Delivered(m, first);
    assert WebhookProcessor.ProcessBatch(s, [r]) == WebhookProcessor.Step(s, r) by {
      assert [r][..0] == [];
    }
    WebhookProcessor.RedeliveryChangesNothing(s, [r], b, Delivered(m, retry));
  }

  /** Credits and debits hit different collections: processing any batch leaves
      `cvwebpagedata` as it was, so every debit request gets the same answer as before. */
  lemma GrantsNeverReachTheDebitedCollection(s: Store, rs: seq<WebhookProcessor.SqsRecord>,
                                             e: Event<DecrementCredits.DebitFields>, dbError: Option<string>)
    ensures WebhookProcessor.ProcessBatch(s, rs).cvwebpagedata == s.cvwebpagedata
    ensures DecrementCredits.Debit(WebhookProcessor.ProcessBatch(s, rs).cvwebpagedata, e, dbError)
         == DecrementCredits.Debit(s.cvwebpagedata, e, dbError)
  {
  }

  /** A buyer who has a `users` document but no `cvwebpagedata` document cannot spend the
      credits bought: the debit answers "User not found" whatever the `users` balance. */
  lemma PurchasedCreditsAreNotSpendable(s: Store, e: Event<DecrementCredits.DebitFields>)
    requires ReadInput(e).Some? && DecrementCredits.ValidRequest(ReadInput(e).value)
    requires ReadInput(e).value.userId.value in s.users
    requires ReadInput(e).value.userId.value !in s.cvwebpagedata
    ensures DecrementCredits.Debit(s.cvwebpagedata, e, None)
         == (Response(400, DecrementCredits.Message(DecrementCredits.USER_NOT_FOUND)), s.cvwebpagedata)
  {
  }

  /** A profile write after a purchase throws the purchase away: the document is the same as
      if the grant had never happened. */
  lemma ProfileWriteAfterGrantForgetsIt(s: Store, r: WebhookProcessor.SqsRecord,
                                        e: Event<SignupFields>, now: Time)
    requires ReadInput(e).Some? && Truthy(ReadInput(e).value.email) && Truthy(ReadInput(e).value.userId)
    ensures var uid := ReadInput(e).value.userId.value;
      GetProfile.CreateProfile(WebhookProcessor.Step(s, r).users, e, None, now).1[uid]
        == GetProfile.CreateProfile(s.users, e, None, now).1[uid]
    ensures var uid := ReadInput(e).value.userId.value;
      var d := GetProfile.CreateProfile(WebhookProcessor.Step(s, r).users, e, None, now).1[uid];
      Credits(d) == GetProfile.SIGNUP_CREDITS && d.totalCredits.None? && Transactions(d) == []
  {
  }
}
