/** The token-based auth handlers (handlers/auth.go): sign-up and sign-in
    forward the caller's credentials to the record store's user collection
    and translate its answer; `IsAuthorized` is the bearer-header check. */
module Auth {
  import opened Wrappers
  import opened GoText
  import opened Json
  import opened Http

  const SignUpUrl := RecordStoreBase + "/api/collections/users/records"
  const SignInUrl := RecordStoreBase + "/api/collections/users/auth-with-password"

  /** What a handler posted upstream (`None`: it never called the record
      store) and what it answered. */
  datatype Exchange = Exchange(sent: Option<Post>, response: Response)

  /** `isAuthorized` returns a flag and may already have written an answer. */
  datatype Verdict = Verdict(authorized: bool, written: Option<Response>)

  /** Whether a JSON value decodes into a Go `string`: a string does, and so
      does `null`, which leaves the zero value "". */
  predicate IsStringLike(j: Json) {
    j.JStr? || j.JNull?
  }

  /** `json.NewDecoder(r.Body).Decode(&m)` with `m` a `map[string]string`.
      `body` is the first JSON value the decoder reads from the request body
      (`None` when the body does not start with one; any text after that
      value is ignored). The result is `None` when that value is neither an
      object nor `null`, or has a value that is not a string (or `null`). */
  function DecodeStringMap(body: Option<Json>): (r: Option<map<string, string>>)
    ensures r.Some? <==>
      body.Some? && (body.value.JNull? ||
        (body.value.JObj? && forall k :: k in body.value.fields ==> IsStringLike(body.value.fields[k])))
    ensures r.Some? && body.value.JNull? ==> r.value == map[]
    ensures r.Some? && body.value.JObj? ==> r.value.Keys == body.value.fields.Keys
    ensures r.Some? && body.value.JObj? ==> forall k :: k in r.value ==>
      body.value.fields[k] == JStr(r.value[k]) || (body.value.fields[k] == JNull && r.value[k] == "")
  {
    match body
    case Some(JNull) => Some(map[])
    case Some(JObj(fields)) =>
      if forall k :: k in fields ==> IsStringLike(fields[k]) then
        Some(map k | k in fields :: if fields[k].JStr? then fields[k].s else "")
      else None
    case _ => None
  }

  /** The user record posted on sign-up: the password is sent twice, as
      `password` and as `passwordConfirm`; a missing field is "". */
  function SignUpPayload(input: map<string, string>): (p: map<string, string>)
    ensures p.Keys == {"email", "password", "passwordConfirm"}
    ensures p["email"] == Lookup(input, "email")
    ensures p["password"] == Lookup(input, "password")
    ensures p["passwordConfirm"] == p["password"]
  {
    map["email" := Lookup(input, "email"),
        "password" := Lookup(input, "password"),
        "passwordConfirm" := Lookup(input, "password")]
  }

  /** The credentials posted on sign-in: the caller's `email` is sent as the
      `identity`. */
  function SignInPayload(input: map<string, string>): (p: map<string, string>)
    ensures p.Keys == {"identity", "password"}
    ensures p["identity"] == Lookup(input, "email")
    ensures p["password"] == Lookup(input, "password")
  {
    map["identity" := Lookup(input, "email"), "password" := Lookup(input, "password")]
  }

  /** `SignUp`: a body that does not decode is a 400 and nothing is sent;
      otherwise the user record is posted, and the answer's status is the
      upstream status, 201 included, or 500 when the record store is
      unreachable. */
  function SignUp(body: Option<Json>, reply: Upstream): (x: Exchange)
    ensures DecodeStringMap(body).None? ==> x == Exchange(None, Error("Invalid input", StatusBadRequest))
    ensures DecodeStringMap(body).Some? ==> x.sent == Some(Post(SignUpUrl, SignUpPayload(DecodeStringMap(body).value)))
    ensures DecodeStringMap(body).Some? && reply.Unreachable? ==>
      x.response == Error("Failed to create user", StatusInternalServerError)
    ensures DecodeStringMap(body).Some? && reply.Reply? ==> x.response.status == reply.status
    ensures DecodeStringMap(body).Some? && reply.Reply? && reply.status == StatusCreated ==>
      x.response == Response(StatusCreated, Text("User created successfully"))
    ensures DecodeStringMap(body).Some? && reply.Reply? && reply.status != StatusCreated ==>
      x.response == Error("Failed to create user", reply.status)
  {
    match DecodeStringMap(body)
    case None => Exchange(None, Error("Invalid input", StatusBadRequest))
    case Some(input) =>
      var sent := Some(Post(SignUpUrl, SignUpPayload(input)));
      if reply.Unreachable? then Exchange(sent, Error("Failed to create user", StatusInternalServerError))
      else if reply.status != StatusCreated then Exchange(sent, Error("Failed to create user", reply.status))
      else Exchange(sent, Response(StatusCreated, Text("User created successfully")))
  }

  /** A token read from the record store's answer, or why none could be. */
  datatype TokenResult = Token(token: string) | Failed(message: string)

  /** The `token` of a 200 sign-in answer, read with `json.NewDecoder`: the
      body must be read and start with a JSON value that decodes into a map
      (else "Failed to read response"; text after that value is ignored),
      and its `token` must be a string (else "No token received"). */
  function TokenOf(payload: Payload): (r: TokenResult)
    ensures r.Token? <==>
      ReplyStartsWithMap(payload) && FieldOf(Fields(payload.leading.value), "token").Some?
      && FieldOf(Fields(payload.leading.value), "token").value.JStr?
    ensures r.Token? ==> payload.leading.value.fields["token"] == JStr(r.token)
    ensures !ReplyStartsWithMap(payload) ==> r == Failed("Failed to read response")
    ensures ReplyStartsWithMap(payload) && r.Failed? ==> r == Failed("No token received")
  {
    if !ReplyStartsWithMap(payload) then Failed("Failed to read response")
    else match FieldOf(Fields(payload.leading.value), "token")
      case Some(JStr(token)) => Token(token)
      case _ => Failed("No token received")
  }

  /** `SignIn`: a body that does not decode is a 400 and nothing is sent;
      any non-200 answer is a 401 whatever its code; a 200 answer yields the
      JSON object `{"token": token}` with that one key, or a 500 when no
      string token can be read from it. */
  function SignIn(body: Option<Json>, reply: Upstream): (x: Exchange)
    ensures DecodeStringMap(body).None? ==> x == Exchange(None, Error("Invalid input", StatusBadRequest))
    ensures DecodeStringMap(body).Some? ==> x.sent == Some(Post(SignInUrl, SignInPayload(DecodeStringMap(body).value)))
    ensures DecodeStringMap(body).Some? && reply.Unreachable? ==>
      x.response == Error("Failed to authenticate", StatusInternalServerError)
    ensures DecodeStringMap(body).Some? && reply.Reply? && reply.status != StatusOK ==>
      x.response == Error("Invalid credentials", StatusUnauthorized)
    ensures x.response.status == StatusOK <==>
      DecodeStringMap(body).Some? && reply.Reply? && reply.status == StatusOK && TokenOf(reply.payload).Token?
    ensures x.response.status == StatusOK ==>
      && x.response.content.JsonContent?
      && x.response.content.value.JObj?
      && x.response.content.value.fields.Keys == {"token"}
      && x.response.content.value.fields["token"] == JStr(TokenOf(reply.payload).token)
    ensures DecodeStringMap(body).Some? && reply.Reply? && reply.status == StatusOK && TokenOf(reply.payload).Failed? ==>
      x.response == Error(TokenOf(reply.payload).message, StatusInternalServerError)
  {
    match DecodeStringMap(body)
    case None => Exchange(None, Error("Invalid input", StatusBadRequest))
    case Some(input) =>
      var sent := Some(Post(SignInUrl, SignInPayload(input)));
      if reply.Unreachable? then Exchange(sent, Error("Failed to authenticate", StatusInternalServerError))
      else if reply.status != StatusOK then Exchange(sent, Error("Invalid credentials", StatusUnauthorized))
      else match TokenOf(reply.payload)
        case Failed(message) => Exchange(sent, Error(message, StatusInternalServerError))
        case Token(token) => Exchange(sent, Response(StatusOK, JsonContent(JObj(map["token" := JStr(token)]))))
  }

  /** Sign-in never tells the caller which non-200 code the record store
      gave, nor anything from its body: all of them read the same. */
  lemma SignInHidesUpstreamStatus(body: Option<Json>, s1: int, p1: Payload, s2: int, p2: Payload)
    requires s1 != StatusOK && s2 != StatusOK
    ensures SignIn(body, Reply(s1, p1)) == SignIn(body, Reply(s2, p2))
  {
  }

  /** The credentials the caller gives reach the record store unchanged:
      the same password twice on sign-up, the email as identity on sign-in. */
  lemma PayloadsCarryCredentials(email: string, password: string, reply: Upstream)
    ensures var body := Some(JObj(map["email" := JStr(email), "password" := JStr(password)]));
      && SignUp(body, reply).sent.value.body == map["email" := email, "password" := password, "passwordConfirm" := password]
      && SignIn(body, reply).sent.value.body == map["identity" := email, "password" := password]
  {
    var body := Some(JObj(map["email" := JStr(email), "password" := JStr(password)]));
    var input := DecodeStringMap(body).value;
    assert input["email"] == email && input["password"] == password;
  }

  /** `IsAuthorized`: any non-empty `Authorization` header is accepted; an
      absent or empty one is answered 401. */
  function IsAuthorized(r: Request): (v: Verdict)
    ensures v.authorized <==> Lookup(r.headers, "Authorization") != ""
    ensures !v.authorized ==> v.written == Some(Error("Unauthorized: No token provided", StatusUnauthorized))
    ensures v.authorized ==> v.written == None
  {
    if Lookup(r.headers, "Authorization") == "" then
      Verdict(false, Some(Error("Unauthorized: No token provided", StatusUnauthorized)))
    else
      Verdict(true, None)
  }
}
