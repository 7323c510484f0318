/** The credit-consumption endpoint: it validates `userId` and `cost`, then debits
    `cvwebpagedata/<userId>` in one transaction. It refuses an absent document or a balance
    smaller than the cost, and changes nothing when it refuses. */
module DecrementCredits {
  import opened Common
  import opened Firestore

  /** `{ userId, cost }`. `cost` is None when it is absent or not of type number; a number
      is modelled as an integer. */
  datatype DebitFields = DebitFields(userId: Option<string>, cost: Option<int>)

  datatype DebitBody = Message(message: string) | NewCredits(userId: Uid, newCredits: int)

  const INVALID_INPUT := "Missing or invalid userId or cost."
  const USER_NOT_FOUND := "User not found"
  const INSUFFICIENT_CREDITS := "Insufficient credits"

  /** The negation of `!userId || typeof cost !== 'number' || cost <= 0`. */
  predicate ValidRequest(f: DebitFields): (ok: bool)
    ensures f.userId.None? || f.userId == Some("") ==> !ok
    ensures f.cost.None? ==> !ok
    ensures f.cost.Some? && f.cost.value <= 0 ==> !ok
    ensures f.userId.Some? && f.userId.value != "" && f.cost.Some? && f.cost.value >= 1 ==> ok
  {
    Truthy(f.userId) && f.cost.Some? && f.cost.value > 0
  }

  /** The `runTransaction` body: from the document it reads to the document it writes, or
      to the message of the error it throws. */
  function DebitTransaction(doc: Option<Doc>, cost: int): (r: Result<Doc, string>)
    ensures r.Ok? <==> doc.Some? && cost <= Credits(doc.value)
    ensures doc.None? ==> r == Err(USER_NOT_FOUND)
    ensures doc.Some? && Credits(doc.value) < cost ==> r == Err(INSUFFICIENT_CREDITS)
    ensures r.Ok? ==> r.value == doc.value.(credits := Some(Credits(doc.value) - cost))
    ensures r.Ok? ==> 0 <= Credits(r.value) == Credits(doc.value) - cost
  {
    if doc.None? then Err(USER_NOT_FOUND)
    else
      var currentCredits := Credits(doc.value);
      if currentCredits < cost then Err(INSUFFICIENT_CREDITS)
      else Ok(doc.value.(credits := Some(currentCredits - cost)))
  }

  /** The handler over the `cvwebpagedata` collection: the response and the collection after
      it. `dbError` is the message of an error the database raises inside the transaction. */
  function Debit(docs: map<Uid, Doc>, e: Event<DebitFields>, dbError: Option<string>): (r: (Response<DebitBody>, map<Uid, Doc>))
    ensures r.0.Uncaught? <==> ReadInput(e).None?
    ensures r.0.Response? ==> r.0.statusCode == 200 || r.0.statusCode == 400
    ensures !(r.0.Response? && r.0.statusCode == 200) ==> r.1 == docs
    ensures ReadInput(e).Some? && ValidRequest(ReadInput(e).value) && dbError.Some? ==>
      r == (Response(400, Message(dbError.value)), docs)
  {
    match ReadInput(e)
    case None => (Uncaught, docs)
    case Some(f) =>
      if !ValidRequest(f) then (Response(400, Message(INVALID_INPUT)), docs)
      else if dbError.Some? then (Response(400, Message(dbError.value)), docs)
      else
        var userId := f.userId.value;
        match DebitTransaction(if userId in docs then Some(docs[userId]) else None, f.cost.value)
        case Err(message) => (Response(400, Message(message)), docs)
        case Ok(doc) => (Response(200, NewCredits(userId, Credits(doc))), docs[userId := doc])
  }

  /** `handler`: the transaction reads the document, checks it and updates only `credits`. */
  method Handler(db: Database, e: Event<DebitFields>, dbError: Option<string>) returns (resp: Response<DebitBody>)
    modifies db
    ensures (resp, db.cvwebpagedata) == Debit(old(db.cvwebpagedata), e, dbError)
    ensures db.users == old(db.users) && db.processedWebhooks == old(db.processedWebhooks)
  {
    var input := ReadInput(e);
    if input.None? {
      return Uncaught;  // JSON.parse throws outside the try
    }
    var f := input.value;
    if !ValidRequest(f) {
      return Response(400, Message(INVALID_INPUT));
    }
    var userId, cost := f.userId.value, f.cost.value;
    if dbError.Some? {
      return Response(400, Message(dbError.value));
    }
    if userId !in db.cvwebpagedata {
      return Response(400, Message(USER_NOT_FOUND));
    }
    var doc := db.cvwebpagedata[userId];
    var currentCredits := Credits(doc);
    if currentCredits < cost {
      return Response(400, Message(INSUFFICIENT_CREDITS));
    }
    db.cvwebpagedata := db.cvwebpagedata[userId := doc.(credits := Some(currentCredits - cost))];
    resp := Response(200, NewCredits(userId, currentCredits - cost));
  }

  // ---------------------------------------------------------------------------------------
  // Properties

  /** A missing `userId`, a cost that is not a number, or `cost <= 0` is refused before any
      read or write. */
  lemma InvalidRequestIsRefused(docs: map<Uid, Doc>, e: Event<DebitFields>, dbError: Option<string>)
    requires ReadInput(e).Some? && !ValidRequest(ReadInput(e).value)
    ensures Debit(docs, e, dbError) == (Response(400, Message(INVALID_INPUT)), docs)
  {
  }

  /** An absent user document, or a balance below the cost, is refused and the collection,
      so the balance, stays as it was. */
  lemma UnaffordableDebitIsRefused(docs: map<Uid, Doc>, e: Event<DebitFields>)
    requires ReadInput(e).Some? && ValidRequest(ReadInput(e).value)
    ensures var f := ReadInput(e).value;
      && (f.userId.value !in docs ==> Debit(docs, e, None) == (Response(400, Message(USER_NOT_FOUND)), docs))
      && (f.userId.value in docs && Credits(docs[f.userId.value]) < f.cost.value ==>
            Debit(docs, e, None) == (Response(400, Message(INSUFFICIENT_CREDITS)), docs))
  {
  }

  /** A document without `credits` reads as balance 0, so every valid cost is refused. */
  lemma MissingCreditsFieldRefusesAnyCost(docs: map<Uid, Doc>, e: Event<DebitFields>)
    requires ReadInput(e).Some? && ValidRequest(ReadInput(e).value)
    requires ReadInput(e).value.userId.value in docs && docs[ReadInput(e).value.userId.value].credits.None?
    ensures Debit(docs, e, None) == (Response(400, Message(INSUFFICIENT_CREDITS)), docs)
  {
  }

  /** An affordable debit answers 200 with the stored new balance `old - cost`, never
      negative; only the `credits` field of that one document changes. */
  lemma AffordableDebitSucceeds(docs: map<Uid, Doc>, e: Event<DebitFields>)
    requires ReadInput(e).Some? && ValidRequest(ReadInput(e).value)
    requires ReadInput(e).value.userId.value in docs
    requires ReadInput(e).value.cost.value <= Credits(docs[ReadInput(e).value.userId.value])
    ensures var f := ReadInput(e).value;
      var uid, r := f.userId.value, Debit(docs, e, None);
      && r.1 == docs[uid := docs[uid].(credits := Some(Credits(docs[uid]) - f.cost.value))]
      && r.0 == Response(200, NewCredits(uid, Credits(r.1[uid])))
      && 0 <= Credits(r.1[uid]) == Credits(docs[uid]) - f.cost.value
  {
  }

  /** The endpoint never stores a negative balance: if none was stored before, none is after. */
  lemma DebitKeepsBalancesNonNegative(docs: map<Uid, Doc>, e: Event<DebitFields>, dbError: Option<string>)
    requires forall u :: u in docs ==> Credits(docs[u]) >= 0
    ensures var after := Debit(docs, e, dbError).1;
      forall u :: u in after ==> Credits(after[u]) >= 0
  {
  }
}
