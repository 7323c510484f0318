/** The user service: after validating `email` and `userId` it overwrites
    `cvwebpagedata/<userId>` (no merge) with a fresh record holding 5 credits, the balance
    the credit endpoint later debits. */
module UserService {
  import opened Common
  import opened Firestore

  const STARTING_CREDITS := 5

  const MISSING_FIELDS := "Missing email or userId in request."
  const CREATED := "User created successfully"
  const WRITE_FAILED := "Error creating user in Firestore."

  /** Unlike the profile endpoint's, the success body carries no `credits`. */
  datatype UserBody =
    | Message(message: string)
    | Created(message: string, userId: Uid, email: string)
    | Failed(message: string, error: string)

  /** The handler over the `cvwebpagedata` collection: the response and the collection after
      it. `writeError` is the message of an error the `set` raises. */
  function CreateUser(docs: map<Uid, Doc>, e: Event<SignupFields>, writeError: Option<string>, now: Time)
    : (r: (Response<UserBody>, map<Uid, Doc>))
    ensures r.0.Uncaught? <==> ReadInput(e).None?
    ensures r.0.Response? ==> r.0.statusCode in {201, 400, 500}
    ensures !(r.0.Response? && r.0.statusCode == 201) ==> r.1 == docs
    ensures r.0.Response? && r.0.statusCode == 400 <==>
      ReadInput(e).Some? && !(Truthy(ReadInput(e).value.email) && Truthy(ReadInput(e).value.userId))
    ensures r.0.Response? && r.0.statusCode == 500 <==>
      ReadInput(e).Some? && Truthy(ReadInput(e).value.email) && Truthy(ReadInput(e).value.userId) && writeError.Some?
    ensures r.0.Response? && r.0.statusCode == 500 ==> r.0.body == Failed(WRITE_FAILED, writeError.value)
    ensures r.0.Response? && r.0.statusCode == 400 ==> r.0.body == Message(MISSING_FIELDS)
    ensures r.0.Response? && r.0.statusCode == 201 ==>
      var f := ReadInput(e).value;
      && r.1 == docs[f.userId.value := NewUserDoc(f.userId.value, f.email.value, f.name, STARTING_CREDITS, now)]
      && r.0.body == Created(CREATED, f.userId.value, f.email.value)
  {
    match ReadInput(e)
    case None => (Uncaught, docs)
    case Some(f) =>
      if !Truthy(f.email) || !Truthy(f.userId) then (Response(400, Message(MISSING_FIELDS)), docs)
      else if writeError.Some? then (Response(500, Failed(WRITE_FAILED, writeError.value)), docs)
      else
        (Response(201, Created(CREATED, f.userId.value, f.email.value)),
         docs[f.userId.value := NewUserDoc(f.userId.value, f.email.value, f.name, STARTING_CREDITS, now)])
  }

  /** `handler` */
  method Handler(db: Database, e: Event<SignupFields>, writeError: Option<string>, now: Time)
    returns (resp: Response<UserBody>)
    modifies db
    ensures (resp, db.cvwebpagedata) == CreateUser(old(db.cvwebpagedata), e, writeError, now)
    ensures db.users == old(db.users) && db.processedWebhooks == old(db.processedWebhooks)
  {
    var input := ReadInput(e);
    if input.None? {
      return Uncaught;  // JSON.parse throws outside the try
    }
    var f := input.value;
    if !Truthy(f.email) || !Truthy(f.userId) {
      return Response(400, Message(MISSING_FIELDS));
    }
    var email, userId := f.email.value, f.userId.value;
    if writeError.Some? {
      return Response(500, Failed(WRITE_FAILED, writeError.value));
    }
    db.cvwebpagedata := db.cvwebpagedata[userId := Doc(Some(userId), Some(email), Some(OrEmpty(f.name)), Some(STARTING_CREDITS), None, None, Some(now), None)];
    resp := Response(201, Created(CREATED, userId, email));
  }
}
