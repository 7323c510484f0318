/** The profile endpoint: after validating `email` and `userId` it overwrites
    `users/<userId>` (no merge) with a fresh profile holding the signup grant. */
module GetProfile {
  import opened Common
  import opened Firestore

  const SIGNUP_CREDITS := 5

  const MISSING_FIELDS := "Missing email or userId in request."
  const CREATED := "User created successfully"
  const WRITE_FAILED := "Error creating user in Firestore."

  datatype ProfileBody =
    | Message(message: string)
    | Created(message: string, userId: Uid, email: string, credits: int)
    | Failed(message: string, error: string)

  /** The handler over the `users` collection: the response and the collection after it.
      `writeError` is the message of an error the `set` raises. */
  function CreateProfile(users: map<Uid, Doc>, e: Event<SignupFields>, writeError: Option<string>, now: Time)
    : (r: (Response<ProfileBody>, map<Uid, Doc>))
    ensures r.0.Uncaught? <==> ReadInput(e).None?
    ensures r.0.Response? ==> r.0.statusCode in {201, 400, 500}
    ensures !(r.0.Response? && r.0.statusCode == 201) ==> r.1 == users
    ensures r.0.Response? && r.0.statusCode == 400 <==>
      ReadInput(e).Some? && !(Truthy(ReadInput(e).value.email) && Truthy(ReadInput(e).value.userId))
    ensures r.0.Response? && r.0.statusCode == 500 <==>
      ReadInput(e).Some? && Truthy(ReadInput(e).value.email) && Truthy(ReadInput(e).value.userId) && writeError.Some?
    ensures r.0.Response? && r.0.statusCode == 500 ==> r.0.body == Failed(WRITE_FAILED, writeError.value)
    ensures r.0.Response? && r.0.statusCode == 400 ==> r.0.body == Message(MISSING_FIELDS)
    ensures r.0.Response? && r.0.statusCode == 201 ==>
      var f := ReadInput(e).value;
      && r.1 == users[f.userId.value := NewUserDoc(f.userId.value, f.email.value, f.name, SIGNUP_CREDITS, now)]
      && r.0.body == Created(CREATED, f.userId.value, f.email.value, SIGNUP_CREDITS)
  {
    match ReadInput(e)
    case None => (Uncaught, users)
    case Some(f) =>
      if !Truthy(f.email) || !Truthy(f.userId) then (Response(400, Message(MISSING_FIELDS)), users)
      else if writeError.Some? then (Response(500, Failed(WRITE_FAILED, writeError.value)), users)
      else
        (Response(201, Created(CREATED, f.userId.value, f.email.value, SIGNUP_CREDITS)),
         users[f.userId.value := NewUserDoc(f.userId.value, f.email.value, f.name, SIGNUP_CREDITS, now)])
  }

  /** `handler` */
  method Handler(db: Database, e: Event<SignupFields>, writeError: Option<string>, now: Time)
    returns (resp: Response<ProfileBody>)
    modifies db
    ensures (resp, db.users) == CreateProfile(old(db.users), e, writeError, now)
    ensures db.cvwebpagedata == old(db.cvwebpagedata) && db.processedWebhooks == old(db.processedWebhooks)
  {
    var input := ReadInput(e);
    if input.None? {
      return Uncaught;  // JSON.parse throws outside the try
    }
    var f := input.value;
    if !Truthy(f.email) || !Truthy(f.userId) {
      return Response(400, Message(MISSING_FIELDS));
    }
    var userId, email := f.userId.value, f.email.value;
    if writeError.Some? {
      return Response(500, Failed(WRITE_FAILED, writeError.value));
    }
    db.users := db.users[userId := Doc(Some(userId), Some(email), Some(OrEmpty(f.name)), Some(SIGNUP_CREDITS), None, None, Some(now), None)];
    resp := Response(201, Created(CREATED, userId, email, SIGNUP_CREDITS));
  }

  /** A profile write replaces the whole document: on a user who has bought credits it
      resets `credits` to 5 and drops `totalCredits` and `transactions`; a missing name is
      stored as ''. */
  lemma ProfileWriteDiscardsLedger(users: map<Uid, Doc>, e: Event<SignupFields>, now: Time)
    requires ReadInput(e).Some? && Truthy(ReadInput(e).value.email) && Truthy(ReadInput(e).value.userId)
    ensures var f, after := ReadInput(e).value, CreateProfile(users, e, None, now).1;
      && f.userId.value in after
      && Credits(after[f.userId.value]) == SIGNUP_CREDITS
      && after[f.userId.value].totalCredits.None? && Transactions(after[f.userId.value]) == []
      && (!Truthy(f.name) ==> after[f.userId.value].name == Some(""))
  {
  }
}
