# Credit ledger of the CV-generator back end

This project models the six serverless handlers that move credits through the system. It
proves properties of that model in Dafny.

- **Checkout creator** (`stripe-create-checkout`): authenticates the caller with a Firebase ID
  token. It then opens a Stripe Checkout session whose `client_reference_id` is the caller's uid.
- **Webhook receiver** (`stripe-webhook-receiver`): verifies the Stripe signature and wraps the
  event in a normalised envelope. It sends that envelope to a FIFO queue with the event id as
  the deduplication id.
- **Webhook processor** (`stripe-webhook-processor`): drains queue batches in order and skips
  events already recorded in `processed_webhooks`. It grants `floor(amount / 100)` credits to
  `users/<uid>` in one transaction, then records the event. A failing record never stops the
  rest of the batch.
- **Credit endpoint** (`firestore-lambda-decrement-credits`): debits `cvwebpagedata/<userId>`
  in one transaction. It refuses a missing user or an insufficient balance.
- **Profile endpoint** (`firestore-lambda-get-profile`) and **user service**
  (`firestore-lamda-user-service`): each overwrites a user document (in `users` and in
  `cvwebpagedata` respectively) with a fresh record holding the 5 signup credits.

## How the model is built

- **Shared state.** The database is a value `Firestore.Store` with three collections, and a
  class `Firestore.Database` whose fields the handlers update.
- **Two layers per handler.**
  - A pure function (`Step`/`ProcessBatch`, `Debit`, `CreateProfile`, `CreateUser`,
    `ReceiverResponse`/`Envelope`, `Route`) states what one invocation does to the response and
    the state.
  - An imperative `Handler` method follows the source statement by statement, and is proved to
    agree with that function. The processor's methods leave `Database.Snapshot()` equal to it.
    The debit, profile and user-service handlers each state the one collection they write and
    frame the other two. The receiver's `Handler` works on the `Sqs` class, and the checkout
    creator's on the `CheckoutRuntime` class; neither touches `Database`.
  - The processor's `Handler` is a `for` loop over the batch. Its invariant ties the state after
    `i` records to `ProcessBatch` of the first `i` records.
- **Outside influences are parameters.** The database, queue and Stripe calls can fail. The
  clock is a parameter too. The processor takes `Faults` and `now` per record. The database
  handlers take `dbError`/`writeError`. The receiver takes the signature result and the send
  outcome. The checkout creator takes `verifyIdToken` and `createSession` functions.
- **JavaScript semantics written out.**
  - Truthiness is `Common.Truthy`.
  - `credits || 0` is `Firestore.Credits`.
  - `event.body ? JSON.parse(event.body) : event` is `Common.ReadInput`.
  - An exception that escapes a handler is `Response.Uncaught`.

### Behaviour of the code worth knowing

- **Debits and credits use different collections.** The credit endpoint debits
  `cvwebpagedata`, while the processor credits `users`. So purchased credits are not the
  balance the credit endpoint spends. The read-modify-write race between a grant and a debit
  on one document cannot arise; only races within one collection remain. The model keeps the
  two collections apart and proves the consequences (`Pipeline.GrantsNeverReachTheDebitedCollection`,
  `Pipeline.PurchasedCreditsAreNotSpendable`).
- **The ID token is not simply the text after `'Bearer '`.** It is
  `header.split('Bearer ')[1]`: the text after the prefix up to the next `'Bearer '`, if there
  is one (`CreateCheckout.BearerToken`). For a header holding a single `'Bearer '` the two
  coincide (`CreateCheckout.BearerTokenIsRestOfHeader`).
- **A database failure during a debit is a client error.** The credit endpoint catches every
  error thrown inside its transaction and answers 400 with the error's message, not a 5xx
  (firestore-lambda-decrement-credits/index.mjs:56-62). The `Debit` contract states this.
- **The two signup endpoints differ.** The profile endpoint answers with `credits: 5`; the user
  service response carries no credits. Both overwrite the whole document with `set`, so a
  profile write on a buyer drops the purchased ledger (`GetProfile.ProfileWriteDiscardsLedger`,
  `Pipeline.ProfileWriteAfterGrantForgetsIt`).

## Model

| member | source | states |
|---|---|---|
| WebhookProcessor.CalculateCredits | stripe-webhook-processor/index.mjs:112-114 | the credits are the whole hundreds of the amount: `100*c <= amount < 100*c + 100` |
| WebhookProcessor.CalculateCreditsExamples | stripe-webhook-processor/index.mjs:112-114 | 500 cents give 5 credits, 499 give 4, 0 give 0 |
| WebhookProcessor.Classify | stripe-webhook-processor/index.mjs:35-44 | exactly the two handled event types grant. A handled event without a truthy `client_reference_id` throws. A grant goes to that reference id, and a checkout session is paid from `amount_total`, a payment intent from `amount` |
| WebhookProcessor.FirebaseUid | stripe-webhook-processor/index.mjs:85-89 | a uid is found iff the event object exists and its `client_reference_id` is truthy; it is that id, never empty (the payment-intent handler reads it the same way at line 99) |
| WebhookProcessor.GrantedDoc | stripe-webhook-processor/index.mjs:116-157 | a new document starts with credits and totalCredits equal to the grant and a one-entry ledger. An existing one gains the grant on both balances and has exactly one entry appended, with the earlier entries and the identity fields kept |
| WebhookProcessor.Credited | stripe-webhook-processor/index.mjs:116-157 | a committed grant changes only `users`: that user's document exists afterwards, its balance rises by the grant, and every other user's document is unchanged |
| WebhookProcessor.Marked | stripe-webhook-processor/index.mjs:71-82 | recording writes only `processed_webhooks`: the event's record `{eventId, eventType, processedAt, processedBy}` is added, other records are kept, and a failed write changes nothing |
| WebhookProcessor.Step | stripe-webhook-processor/index.mjs:24-54 | one record never touches `cvwebpagedata`, never removes a user document or a processed record, and changes no processed record except its own event's |
| WebhookProcessor.ProcessBatch | stripe-webhook-processor/index.mjs:21-57 | a batch never touches `cvwebpagedata` and never removes a user document or a processed record |
| WebhookProcessor.CheckIfAlreadyProcessed | stripe-webhook-processor/index.mjs:60-68 | answers "processed" exactly when the lookup succeeds and the event is recorded; a failed lookup reads as "not processed" |
| WebhookProcessor.MarkAsProcessed | stripe-webhook-processor/index.mjs:71-82 | writes the record `{eventId, eventType, processedAt, processedBy}` under the event id, or nothing when the write fails (swallowed); no other collection changes |
| WebhookProcessor.UpdateUserCredits | stripe-webhook-processor/index.mjs:116-157 | a committed transaction leaves the store as `Credited` says (only that user's document changes); a failed one writes nothing |
| WebhookProcessor.HandleCheckoutCompleted | stripe-webhook-processor/index.mjs:84-96 | succeeds exactly when the session has a user reference and the transaction commits; it then grants `floor(amount_total/100)` to that user |
| WebhookProcessor.HandlePaymentSucceeded | stripe-webhook-processor/index.mjs:98-110 | as above, paying `floor(amount/100)` of the payment intent |
| WebhookProcessor.ProcessRecord | stripe-webhook-processor/index.mjs:25-53 | one loop iteration, errors included, changes the database exactly as `Step` says |
| WebhookProcessor.Handler | stripe-webhook-processor/index.mjs:21-57 | always answers 200; the database afterwards is `ProcessBatch` of the records in order |
| WebhookProcessor.ProcessedEventIsSkipped | stripe-webhook-processor/index.mjs:29-33 | an event found in `processed_webhooks` changes nothing |
| WebhookProcessor.ThrowingRecordChangesNothing | stripe-webhook-processor/index.mjs:49-53 | a record that throws (bad JSON, no user reference, failed transaction) changes nothing and its event stays unrecorded |
| WebhookProcessor.UnhandledEventIsOnlyRecorded | stripe-webhook-processor/index.mjs:42-46 | an event of another type, not yet recorded, grants nothing; when the record write succeeds it is recorded as processed |
| WebhookProcessor.GrantedEventCreditsOneUser | stripe-webhook-processor/index.mjs:35-46 | a handled event that is not skipped and whose transaction commits grants to exactly the referenced user; it ends up recorded iff the mark succeeds or it was recorded before |
| WebhookProcessor.FailedLookupRegrants | stripe-webhook-processor/index.mjs:64-67 | when the lookup fails and the transaction commits, an already granted event is granted again |
| WebhookProcessor.SwallowedMarkFailureCreditsTwice | stripe-webhook-processor/index.mjs:79-81 | after a swallowed mark failure, a redelivery credits the user twice and leaves two ledger entries with the same event id |
| WebhookProcessor.ProcessBatchAppend | stripe-webhook-processor/index.mjs:24-54 | processing `a + b` is processing `a` and then `b` |
| WebhookProcessor.FailingRecordIsIsolated | stripe-webhook-processor/index.mjs:49-53 | a record that throws can be struck from any position of a batch without changing the outcome, so later records are still processed |
| WebhookProcessor.RedeliveryChangesNothing | stripe-webhook-processor/index.mjs:29-33 | once an event is recorded, any later copy of it whose lookup succeeds, in the same batch or a later one, changes nothing (a copy whose lookup fails is granted again, see `FailedLookupRegrants`) |
| WebhookProcessor.ProcessBatchGrowsLedger | stripe-webhook-processor/index.mjs:136-155 | a batch never deletes a user document or lowers `credits`/`totalCredits`, and every earlier `transactions` list stays a prefix |
| WebhookProcessor.StepGrowsDoc | stripe-webhook-processor/index.mjs:136-155 | the same for one record |
| WebhookProcessor.StepKeepsLedgerConsistent | stripe-webhook-processor/index.mjs:24-54 | with reliable lookups and marks, one record keeps the invariant: every ledger entry's event is recorded and no event id appears in two entries |
| WebhookProcessor.ProcessBatchKeepsLedgerConsistent | stripe-webhook-processor/index.mjs:21-57 | the same invariant over a whole batch of such records |
| WebhookProcessor.ProcessBatchRecordsOnlyItsEvents | stripe-webhook-processor/index.mjs:71-82 | a batch records no events besides earlier ones and its own |
| WebhookProcessor.FreshGrantsAddUp | stripe-webhook-processor/index.mjs:116-157 | for distinct, unrecorded events, each user's balance rises by exactly the sum of the grants addressed to them: no grant is lost or doubled |
| WebhookReceiver.Envelope | stripe-webhook-receiver/index.mjs:29-51 | the message body carries the event's id, type, data object, created and livemode. The deduplication id is the event id, the group is `stripe-webhooks`, and the attributes repeat type and id |
| WebhookReceiver.Sqs.SendMessage | stripe-webhook-receiver/index.mjs:53 | every call is one attempt; the message is accepted exactly when the call succeeds |
| WebhookReceiver.ReceiverResponse | stripe-webhook-receiver/index.mjs:15-72 | 400 `{error: 'Invalid signature'}` iff the signature fails, 200 `{received, eventId, queued}` iff it verifies and the send succeeds, 500 `{error: 'Failed to queue event'}` iff the send fails |
| WebhookReceiver.Handler | stripe-webhook-receiver/index.mjs:7-74 | nothing is sent for a bad signature; otherwise exactly one send of the event's envelope; the answer is `ReceiverResponse` |
| DecrementCredits.ValidRequest | firestore-lambda-decrement-credits/index.mjs:32 | a request is accepted iff it has a non-empty `userId` and a number cost of at least 1: a missing or empty `userId`, a missing or non-number cost, and `cost <= 0` are each refused, and every other request goes on to the transaction |
| DecrementCredits.DebitTransaction | firestore-lambda-decrement-credits/index.mjs:42-49 | succeeds iff the document exists and the balance (0 when `credits` is absent) covers the cost, otherwise "User not found" or "Insufficient credits"; success stores `credits - cost >= 0` and keeps the other fields |
| Common.ReadInput | firestore-lambda-decrement-credits/index.mjs:30 | a request with a body is read from the parsed body (None when it does not parse); without one, from the event itself. The other two database handlers read their input the same way (firestore-lambda-get-profile/index.mjs:33, firestore-lamda-user-service/index.mjs:55) |
| DecrementCredits.Debit | firestore-lambda-decrement-credits/index.mjs:28-63 | throws iff the body is not JSON; otherwise 200 or 400, and anything but 200 leaves the collection unchanged. A valid request whose transaction hits a database error gets 400 with that error's message and writes nothing (index.mjs:56-62) |
| DecrementCredits.Handler | firestore-lambda-decrement-credits/index.mjs:28-63 | changes `cvwebpagedata` and returns exactly as `Debit` says; the other collections are untouched |
| DecrementCredits.InvalidRequestIsRefused | firestore-lambda-decrement-credits/index.mjs:32-38 | a missing `userId`, a non-number cost or `cost <= 0` gets 400 "Missing or invalid userId or cost." with no change |
| DecrementCredits.UnaffordableDebitIsRefused | firestore-lambda-decrement-credits/index.mjs:44-46 | a missing document gets "User not found", a balance below the cost "Insufficient credits", both with no change |
| DecrementCredits.MissingCreditsFieldRefusesAnyCost | firestore-lambda-decrement-credits/index.mjs:45-46 | a document without `credits` reads as 0 and refuses every valid cost |
| DecrementCredits.AffordableDebitSucceeds | firestore-lambda-decrement-credits/index.mjs:47-55 | an affordable debit stores `old - cost` in that document's `credits` only and answers 200 with that balance |
| DecrementCredits.DebitKeepsBalancesNonNegative | firestore-lambda-decrement-credits/index.mjs:45-47 | if no stored balance is negative before, none is after |
| Firestore.NewUserDoc | firestore-lambda-get-profile/index.mjs:44-52 | the signup document holds exactly the uid, email, name (`''` when falsy), the given credits and the creation time; `totalCredits`, `transactions` and `updatedAt` are absent. The user service writes the same shape (firestore-lamda-user-service/index.mjs:66-74) |
| GetProfile.CreateProfile | firestore-lambda-get-profile/index.mjs:29-67 | throws iff the body is not JSON; otherwise 201, 400 or 500 (never 404). 400 with the missing-fields message iff email or userId is falsy; 500 with `{message, error}` iff the write fails; so a valid request whose write succeeds gets 201, which overwrites the document with the fresh 5-credit profile and reports it. Anything else writes nothing |
| GetProfile.Handler | firestore-lambda-get-profile/index.mjs:29-67 | changes `users` and returns exactly as `CreateProfile` says; the other collections are untouched |
| GetProfile.ProfileWriteDiscardsLedger | firestore-lambda-get-profile/index.mjs:44-52 | after a profile write the document has 5 credits, no `totalCredits`, no ledger, and `name` '' when none was given |
| UserService.CreateUser | firestore-lamda-user-service/index.mjs:51-88 | throws iff the body is not JSON. 400 with the missing-fields message iff email or userId is falsy, 500 with `{message, error}` iff the write fails. A 201 overwrites the document with 5 credits and answers without them; anything else writes nothing |
| UserService.Handler | firestore-lamda-user-service/index.mjs:51-88 | changes `cvwebpagedata` and returns exactly as `CreateUser` says; the other collections are untouched |
| CreateCheckout.UpToSeparator | stripe-create-checkout/index.mjs:102 | the result is a prefix of the text containing no separator, and it stops exactly at the first separator when there is one |
| CreateCheckout.BearerToken | stripe-create-checkout/index.mjs:102 | the token is the text after the leading `'Bearer '` up to, not including, the next `'Bearer '` in the header, or to the end when there is none |
| CreateCheckout.AuthorizationHeader | stripe-create-checkout/index.mjs:98 | a truthy `Authorization` header wins; otherwise the `authorization` header is used; the result is truthy iff either is |
| CreateCheckout.BearerTokenIsRestOfHeader | stripe-create-checkout/index.mjs:99-102 | with a single `'Bearer '`, the token is the whole rest of the header |
| CreateCheckout.Route | stripe-create-checkout/index.mjs:75-201 | OPTIONS answers 200 before anything else. A session is requested only after every guard passed, for the verified uid, one unit of the given price, `payment` mode, card, and the configured URLs with the session-id suffix. 200 iff preflight or the provider created the session; a provider error gives 500 with its message |
| CreateCheckout.GuardLadder | stripe-create-checkout/index.mjs:88-162 | the guards apply in order: 405 for a non-POST, 401 for a missing or non-Bearer header, 403 for a rejected token, 400 for an unparsable body or missing priceId, 500 for unset URLs |
| CreateCheckout.PackageIdIsIgnored | stripe-create-checkout/index.mjs:139-150 | the outcome does not depend on `packageId` |
| CreateCheckout.CheckoutRuntime.InitializeFirebase | stripe-create-checkout/index.mjs:18-40 | a second call is a no-op; a first call succeeds and initialises iff a service account is set and accepted |
| CreateCheckout.CheckoutRuntime.InitializeStripe | stripe-create-checkout/index.mjs:43-52 | an existing client is kept; otherwise it is built iff the secret key is set |
| CreateCheckout.CheckoutRuntime.Handler | stripe-create-checkout/index.mjs:55-73 | an initialisation failure answers 500 before any other check; otherwise the answer is `Route`, and the initialised clients persist |
| Pipeline.CompletedCheckoutCreditsThePayer | stripe-create-checkout/index.mjs:176 | a completed checkout for a session opened by the creator, not yet recorded and delivered without faults, credits exactly the uid it carries with `floor(amount_total/100)`, logs one entry and records the event; no other user changes |
| Pipeline.RetriedWebhookCreditsOnce | stripe-webhook-receiver/index.mjs:49 | a provider retry of a granted event, with both copies delivered without faults and the retry after the first, changes nothing |
| Pipeline.GrantsNeverReachTheDebitedCollection | firestore-lambda-decrement-credits/index.mjs:41 | processing any batch leaves `cvwebpagedata`, and so every debit answer, as it was |
| Pipeline.PurchasedCreditsAreNotSpendable | firestore-lambda-decrement-credits/index.mjs:41-44 | a buyer with a `users` document but no `cvwebpagedata` document gets "User not found" whatever their purchased balance |
| Pipeline.ProfileWriteAfterGrantForgetsIt | firestore-lambda-get-profile/index.mjs:44-52 | a profile write after a grant leaves the same document as without the grant: 5 credits, no total, no ledger |

## Left out

- **Logging.** `console.log`, `console.error` and `logProcessingError` are not modelled. They
  only write logs.
- **JSON serialisation.** Serialisation of bodies and envelopes is not modelled. A body is a
  datatype value. `JSON.parse` is given by its outcome (`Event.parsedBody`,
  `CheckoutRequest.body`, `SqsRecord.body`).
- **Response details.** Response headers and CORS headers are not modelled. Only the status
  code and the body fields are.
- **Clock.** Timestamps (`new Date()`, `serverTimestamp()`) are one abstract `now` per record or
  invocation. The model does not distinguish a server timestamp from a client clock.
- **Concurrency.** Concurrent invocations and Firestore's transaction retries are not modelled.
  Each invocation is one atomic step, with transaction aborts as an input. Interleavings across
  Lambda instances are outside the model.
- **The queue.** FIFO deduplication within its deduplication interval, ordering within the message group,
  redelivery and the SQS trigger are the queue's own behaviour. Only the messages the receiver
  sends are modelled, and the processor is given the batches it receives.
- **Stripe.** Signature verification is an input (`verified`), and session creation is a
  function parameter. The Stripe client is represented by the secret key it was built with.
- **Cost is an integer.** `DecrementCredits.Debit` models `cost` as an integer. Fractional
  numbers, `NaN` and `Infinity` are not modelled.
- **Amounts.** `WebhookProcessor.Classify` assumes `amount_total` and `amount` are present and
  non-negative. An absent amount (which would give `NaN` credits) is not modelled.
- **Exception messages.** The database handlers return the database's error message as given
  (`dbError`, `writeError`). Its text is not modelled.
- **Receiver event without headers.** `WebhookReceiver.Handler` does not model an event without
  `headers`. The source reads `event.headers['stripe-signature']` outside any `try`
  (stripe-webhook-receiver/index.mjs:10), so such an event throws out of the handler. The model
  always returns a response.
- **Body-less or malformed checkout requests.**
  - `CreateCheckout.Route` does not model a missing `requestContext`, nor a body of `null` that
    parses and then fails destructuring. Both raise a TypeError in the source.
  - `JSON.parse` of a missing body is treated like any other unparsable text (400).
- **Module initialisation.** Each database handler initialises the Admin SDK when its module
  loads, guarded by `if (!admin.apps.length)`. A `catch` rethrows any failure
  (firestore-lambda-decrement-credits/index.mjs:12-23, firestore-lambda-get-profile/index.mjs:12-23,
  firestore-lamda-user-service/index.mjs:34-45, stripe-webhook-processor/index.mjs:7-17). The user
  service also swallows a failed read of its key file (firestore-lamda-user-service/index.mjs:24-27),
  so `cert` then throws at load. A failure there aborts module load, so no invocation runs; this is
  not modelled.
- **Out of scope.** The frontend (package table, Firebase Auth UI, document rendering), the
  AI text service and its proxies and deployment configuration are not part of this model.
