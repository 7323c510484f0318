/** The document database as the handlers use it: two collections of user documents
    (`users`, written by the payment pipeline and the profile endpoint, and `cvwebpagedata`,
    written by the user service and debited by the credit endpoint) and the set of processed
    payment events (`processed_webhooks`). A document is a record whose fields may be absent. */
module Firestore {
  import opened Common

  type Uid = string
  type EventId = string

  /** An abstract timestamp (`new Date()` or `serverTimestamp()`), supplied from outside. */
  type Time = nat

  /** `transactionType` of a ledger entry: 'checkout_session' or 'payment_intent'. */
  datatype TxnKind = CheckoutSession | PaymentIntent

  /** One element of a user's `transactions` array. */
  datatype LedgerEntry = LedgerEntry(id: EventId, credits: int, timestamp: Time, kind: TxnKind)

  /** A user document; None is a field the document does not have. */
  datatype Doc = Doc(
    userId: Option<string>,
    email: Option<string>,
    name: Option<string>,
    credits: Option<int>,
    totalCredits: Option<int>,
    transactions: Option<seq<LedgerEntry>>,
    createdAt: Option<Time>,
    updatedAt: Option<Time>)

  /** `doc.credits || 0` */
  function Credits(d: Doc): int {
    if d.credits.Some? then d.credits.value else 0
  }

  /** `doc.totalCredits || 0` */
  function TotalCredits(d: Doc): int {
    if d.totalCredits.Some? then d.totalCredits.value else 0
  }

  /** `doc.transactions || []` */
  function Transactions(d: Doc): seq<LedgerEntry> {
    if d.transactions.Some? then d.transactions.value else []
  }

  /** The `{ userId, email, name }` a signup handler reads from its input. */
  datatype SignupFields = SignupFields(userId: Option<string>, email: Option<string>, name: Option<string>)

  /** The document a signup handler writes with `set` (no merge): every other field is gone. */
  function NewUserDoc(userId: Uid, email: string, name: Option<string>, credits: int, now: Time): (d: Doc)
    ensures d.userId == Some(userId) && d.email == Some(email) && d.createdAt == Some(now)
    ensures d.credits == Some(credits) && Credits(d) == credits
    ensures Truthy(name) ==> d.name == name
    ensures !Truthy(name) ==> d.name == Some("")
    ensures d.totalCredits.None? && Transactions(d) == [] && d.updatedAt.None?
  {
    Doc(Some(userId), Some(email), Some(OrEmpty(name)), Some(credits), None, None, Some(now), None)
  }

  const PROCESSED_BY := "stripe-webhook-processor"

  /** A document of `processed_webhooks`, keyed by the payment event's id. */
  datatype ProcessedRecord = ProcessedRecord(eventId: EventId, eventType: string, processedAt: Time, processedBy: string)

  /** The whole database as a value. */
  datatype Store = Store(
    users: map<Uid, Doc>,
    cvwebpagedata: map<Uid, Doc>,
    processedWebhooks: map<EventId, ProcessedRecord>)

  /** The database the handlers share; each handler invocation is one atomic step over it. */
  class Database {
    var users: map<Uid, Doc>
    var cvwebpagedata: map<Uid, Doc>
    var processedWebhooks: map<EventId, ProcessedRecord>

    constructor (s: Store)
      ensures Snapshot() == s
    {
      users, cvwebpagedata, processedWebhooks := s.users, s.cvwebpagedata, s.processedWebhooks;
    }

    function Snapshot(): Store
      reads this
    {
      Store(users, cvwebpagedata, processedWebhooks)
    }
  }
}
