/** The checkout-session creator: a once-only initialisation of the database and payment
    clients, then a fixed ladder of guards (preflight, method, bearer header, identity token,
    JSON body, price id, redirect URLs), each ending the request with its own status, and
    finally one call to the payment provider that links the session to the caller's uid. */
module CreateCheckout {
  import opened Common
  import opened Firestore

  const BEARER := "Bearer "
  const SESSION_ID_SUFFIX := "?session_id={CHECKOUT_SESSION_ID}"

  const INIT_FAILED := "Internal server error during initialization."
  const PREFLIGHT_OK := "CORS preflight check successful"
  const METHOD_NOT_ALLOWED := "Method Not Allowed"
  const UNAUTHORIZED := "Unauthorized: Missing or invalid Bearer token."
  const FORBIDDEN := "Forbidden: Invalid or expired token."
  const INVALID_BODY := "Invalid request body. Expected JSON."
  const MISSING_PRICE := "Missing priceId in request body."
  const URLS_NOT_SET := "Server configuration error: Redirect URLs not set."
  const SESSION_FAILED := "Error creating payment session: "

  /** The JSON request body's `{ packageId, priceId }`. */
  datatype CheckoutPayload = CheckoutPayload(packageId: Option<string>, priceId: Option<string>)

  datatype CheckoutRequest = CheckoutRequest(
    httpMethod: Option<string>,            // event.httpMethod
    requestMethod: string,                 // event.requestContext.http.method
    headers: Option<map<string, string>>,  // event.headers
    body: Option<CheckoutPayload>)         // JSON.parse(event.body), None when it throws

  /** The environment: `serviceAccountAccepted` says whether parsing the service account and
      `initializeApp` with it succeed. */
  datatype CheckoutEnv = CheckoutEnv(
    firebaseServiceAccount: Option<string>,
    serviceAccountAccepted: bool,
    stripeSecretKey: Option<string>,
    successUrl: Option<string>,
    cancelUrl: Option<string>)

  datatype LineItem = LineItem(price: string, quantity: nat)

  /** The parameters of `stripe.checkout.sessions.create`. */
  datatype SessionParams = SessionParams(
    paymentMethodTypes: seq<string>,
    lineItems: seq<LineItem>,
    mode: string,
    successUrl: string,
    cancelUrl: string,
    clientReferenceId: Uid)

  datatype CheckoutBody = Message(message: string) | CheckoutUrl(checkoutUrl: string)

  /** The response, and the session parameters sent to the provider when the request gets
      that far. */
  datatype CheckoutResult = CheckoutResult(response: Response<CheckoutBody>, session: Option<SessionParams>)

  predicate StartsWith(s: string, prefix: string) {
    |prefix| <= |s| && s[..|prefix|] == prefix
  }

  predicate OccursAt(s: string, sep: string, i: nat) {
    i + |sep| <= |s| && s[i..i + |sep|] == sep
  }

  /** The text of `s` up to the first occurrence of `sep`, or all of `s` when there is none. */
  function UpToSeparator(s: string, sep: string): (r: string)
    requires sep != ""
    ensures r <= s
    ensures forall i :: 0 <= i < |r| ==> !OccursAt(s, sep, i)
    ensures |r| < |s| ==> OccursAt(s, sep, |r|)
    decreases |s|
  {
    if |s| < |sep| then s
    else if s[..|sep|] == sep then ""
    else
      OccursInSuffix(s, sep, 1);
      [s[0]] + UpToSeparator(s[1..], sep)
  }

  /** `header.split('Bearer ')[1]` for a header that starts with 'Bearer ': the text after
      that prefix up to the next 'Bearer ', if any. */
  function BearerToken(header: string): (token: string)
    requires StartsWith(header, BEARER)
    ensures token <= header[|BEARER|..]
    ensures forall i :: |BEARER| <= i < |BEARER| + |token| ==> !OccursAt(header, BEARER, i)
    ensures |BEARER| + |token| < |header| ==> OccursAt(header, BEARER, |BEARER| + |token|)
  {
    var rest := header[|BEARER|..];
    OccursInSuffix(header, BEARER, |BEARER|);
    var t := UpToSeparator(rest, BEARER);
    forall i | |BEARER| <= i < |BEARER| + |t| ensures !OccursAt(header, BEARER, i) {
      assert !OccursAt(rest, BEARER, i - |BEARER|);
    }
    t
  }

  /** An occurrence in `s[k..]` is an occurrence in `s`, shifted by `k`. */
  lemma OccursInSuffix(s: string, sep: string, k: nat)
    requires k <= |s|
    ensures forall i :: k <= i <= |s| ==> (OccursAt(s, sep, i) <==> OccursAt(s[k..], sep, i - k))
  {
    forall i | k <= i <= |s|
      ensures OccursAt(s, sep, i) <==> OccursAt(s[k..], sep, i - k)
    {
      if i + |sep| <= |s| {
        assert s[i..i + |sep|] == s[k..][i - k..i - k + |sep|];
      }
    }
  }

  /** For a header holding just one 'Bearer ', the token is everything after it. */
  lemma BearerTokenIsRestOfHeader(header: string)
    requires StartsWith(header, BEARER)
    requires forall i :: 0 <= i < |header| - |BEARER| ==> !OccursAt(header[|BEARER|..], BEARER, i)
    ensures BearerToken(header) == header[|BEARER|..]
  {
  }

  /** `event.headers?.Authorization || event.headers?.authorization` */
  function AuthorizationHeader(headers: Option<map<string, string>>): (h: Option<string>)
    ensures Truthy(h) <==> Truthy(Get(headers, "Authorization")) || Truthy(Get(headers, "authorization"))
    ensures Truthy(Get(headers, "Authorization")) ==> h == Some(headers.value["Authorization"])
    ensures !Truthy(Get(headers, "Authorization")) ==> h == Get(headers, "authorization")
  {
    if Truthy(Get(headers, "Authorization")) then Get(headers, "Authorization") else Get(headers, "authorization")
  }

  function Reply(status: int, body: CheckoutBody): CheckoutResult {
    CheckoutResult(Response(status, body), None)
  }

  /** The guard ladder after initialisation. `verifyIdToken` gives the uid of a valid token;
      `createSession` gives the session URL or the provider's error message. */
  function Route(req: CheckoutRequest, env: CheckoutEnv, verifyIdToken: string -> Option<Uid>,
                 createSession: SessionParams -> Result<string, string>): (r: CheckoutResult)
    ensures r.response.Response?
    ensures r.response.statusCode in {200, 400, 401, 403, 405, 500}
    ensures req.httpMethod == Some("OPTIONS") ==> r == Reply(200, Message(PREFLIGHT_OK))
    ensures r.session.Some? ==>
      var auth := AuthorizationHeader(req.headers);
      && req.httpMethod != Some("OPTIONS") && req.requestMethod == "POST"
      && Truthy(auth) && StartsWith(auth.value, BEARER)
      && Some(r.session.value.clientReferenceId) == verifyIdToken(BearerToken(auth.value))
      && req.body.Some? && Truthy(req.body.value.priceId)
      && r.session.value.lineItems == [LineItem(req.body.value.priceId.value, 1)]
      && Truthy(env.successUrl) && Truthy(env.cancelUrl)
      && r.session.value.successUrl == env.successUrl.value + SESSION_ID_SUFFIX
      && r.session.value.cancelUrl == env.cancelUrl.value
      && r.session.value.mode == "payment" && r.session.value.paymentMethodTypes == ["card"]
    ensures r.response.statusCode == 200 <==>
      req.httpMethod == Some("OPTIONS") || (r.session.Some? && createSession(r.session.value).Ok?)
    ensures r.session.Some? ==>
      r.response == match createSession(r.session.value)
                    case Ok(url) => Response(200, CheckoutUrl(url))
                    case Err(msg) => Response(500, Message(SESSION_FAILED + msg))
  {
    if req.httpMethod == Some("OPTIONS") then Reply(200, Message(PREFLIGHT_OK))
    else if req.requestMethod != "POST" then Reply(405, Message(METHOD_NOT_ALLOWED))
    else
      var authorizationHeader := AuthorizationHeader(req.headers);
      if !Truthy(authorizationHeader) || !StartsWith(authorizationHeader.value, BEARER) then
        Reply(401, Message(UNAUTHORIZED))
      else
        match verifyIdToken(BearerToken(authorizationHeader.value))
        case None => Reply(403, Message(FORBIDDEN))
        case Some(uid) =>
          match req.body
          case None => Reply(400, Message(INVALID_BODY))
          case Some(payload) =>
            if !Truthy(payload.priceId) then Reply(400, Message(MISSING_PRICE))
            else if !Truthy(env.successUrl) || !Truthy(env.cancelUrl) then Reply(500, Message(URLS_NOT_SET))
            else
              var params := SessionParams(["card"], [LineItem(payload.priceId.value, 1)], "payment",
                                          env.successUrl.value + SESSION_ID_SUFFIX, env.cancelUrl.value, uid);
              match createSession(params)
              case Ok(url) => CheckoutResult(Response(200, CheckoutUrl(url)), Some(params))
              case Err(msg) => CheckoutResult(Response(500, Message(SESSION_FAILED + msg)), Some(params))
  }

  /** Each guard of the ladder, in order, ends the request with its own status and without
      calling the provider. */
  lemma GuardLadder(req: CheckoutRequest, env: CheckoutEnv, verifyIdToken: string -> Option<Uid>,
                    createSession: SessionParams -> Result<string, string>)
    requires req.httpMethod != Some("OPTIONS")
    ensures var r, auth := Route(req, env, verifyIdToken, createSession), AuthorizationHeader(req.headers);
      && (req.requestMethod != "POST" ==> r == Reply(405, Message(METHOD_NOT_ALLOWED)))
      && (req.requestMethod == "POST" && !(Truthy(auth) && StartsWith(auth.value, BEARER)) ==> r == Reply(401, Message(UNAUTHORIZED)))
      && (req.requestMethod == "POST" && Truthy(auth) && StartsWith(auth.value, BEARER) ==>
          var uid := verifyIdToken(BearerToken(auth.value));
          && (uid.None? ==> r == Reply(403, Message(FORBIDDEN)))
          && (uid.Some? && req.body.None? ==> r == Reply(400, Message(INVALID_BODY)))
          && (uid.Some? && req.body.Some? && !Truthy(req.body.value.priceId) ==> r == Reply(400, Message(MISSING_PRICE)))
          && (uid.Some? && req.body.Some? && Truthy(req.body.value.priceId) && !(Truthy(env.successUrl) && Truthy(env.cancelUrl)) ==>
                r == Reply(500, Message(URLS_NOT_SET)))
          && (uid.Some? && req.body.Some? && Truthy(req.body.value.priceId) && Truthy(env.successUrl) && Truthy(env.cancelUrl) ==>
                r.session.Some? && r.session.value.clientReferenceId == uid.value))
  {
  }

  /** A missing `packageId` only warns: the result does not depend on it. */
  lemma PackageIdIsIgnored(req: CheckoutRequest, env: CheckoutEnv, verifyIdToken: string -> Option<Uid>,
                           createSession: SessionParams -> Result<string, string>, packageId: Option<string>)
    requires req.body.Some?
    ensures Route(req.(body := Some(req.body.value.(packageId := packageId))), env, verifyIdToken, createSession)
         == Route(req, env, verifyIdToken, createSession)
  {
  }

  /** The module-level state of the Lambda: whether the database client is initialised, and
      the key the payment client was built with. Both survive across invocations. */
  class CheckoutRuntime {
    var firebaseAppInitialized: bool
    var stripe: Option<string>

    constructor ()
      ensures !firebaseAppInitialized && stripe.None?
    {
      firebaseAppInitialized, stripe := false, None;
    }

    /** Whether `initializeFirebase` succeeds on a client not yet initialised. */
    static predicate FirebaseConfigured(env: CheckoutEnv) {
      Truthy(env.firebaseServiceAccount) && env.serviceAccountAccepted
    }

    /** `initializeFirebase`; `ok` is false when it throws. A second call is a no-op. */
    method InitializeFirebase(env: CheckoutEnv) returns (ok: bool)
      modifies this`firebaseAppInitialized
      ensures old(firebaseAppInitialized) ==> ok && firebaseAppInitialized
      ensures !old(firebaseAppInitialized) ==> ok == FirebaseConfigured(env) && firebaseAppInitialized == ok
    {
      if firebaseAppInitialized {
        return true;
      }
      if !Truthy(env.firebaseServiceAccount) {
        return false;
      }
      if !env.serviceAccountAccepted {
        return false;
      }
      firebaseAppInitialized := true;
      ok := true;
    }

    /** `initializeStripe`; `ok` is false when it throws. Once built, the client (and the key
      it holds) is kept. */
    method InitializeStripe(env: CheckoutEnv) returns (ok: bool)
      modifies this`stripe
      ensures old(stripe).Some? ==> ok && stripe == old(stripe)
      ensures old(stripe).None? ==> ok == Truthy(env.stripeSecretKey) && stripe == (if ok then env.stripeSecretKey else None)
    {
      if stripe.None? {
        if !Truthy(env.stripeSecretKey) {
          return false;
        }
        stripe := env.stripeSecretKey;
      }
      ok := true;
    }

    /** `handler`: an initialisation failure answers 500 before any other check. */
    method Handler(req: CheckoutRequest, env: CheckoutEnv, verifyIdToken: string -> Option<Uid>,
                   createSession: SessionParams -> Result<string, string>) returns (result: CheckoutResult)
      modifies this
      ensures var firebaseOk := old(firebaseAppInitialized) || FirebaseConfigured(env);
        var stripeOk := firebaseOk && (old(stripe).Some? || Truthy(env.stripeSecretKey));
        && firebaseAppInitialized == firebaseOk
        && stripe == (if old(stripe).Some? then old(stripe) else if stripeOk then env.stripeSecretKey else None)
        && result == if stripeOk then Route(req, env, verifyIdToken, createSession)
                     else Reply(500, Message(INIT_FAILED))
    {
      var ok := InitializeFirebase(env);
      if ok {
        ok := InitializeStripe(env);
      }
      if !ok {
        return Reply(500, Message(INIT_FAILED));
      }
      result := Route(req, env, verifyIdToken, createSession);
    }
  }
}
