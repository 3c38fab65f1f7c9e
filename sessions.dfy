/** The cookie session layer of the front end (main.go): the process-wide
    map from session id to user name, the login and logout handlers that
    issue and clear the `session_id` cookie, and the gate that guards the
    collection routes. */
module Sessions {
  import opened Wrappers
  import opened GoText
  import opened Http

  const SessionCookie := "session_id"
  const SessionPrefix := "sess-"
  /** The cookie's lifetime, 24 hours, in seconds. */
  const CookieLifetime := 24 * 60 * 60

  const LoginUrl := RecordStoreBase + "/api/collections/users/auth-with-password"

  /** A `Set-Cookie` the handlers send; `expires` is in Unix seconds. */
  datatype Cookie = Cookie(name: string, value: string, expires: int, httpOnly: bool)

  /** What a login request gets back: an error, or the session cookie with a
      redirect. */
  datatype LoginResponse =
    | Refused(response: Response)
    | LoggedIn(cookie: Cookie, status: int, location: string)

  /** The gate's decision: answer the request itself, or hand the very same
      request to the wrapped handler. */
  datatype Gate =
    | Reject(response: Response)
    | Forward(request: Request)

  /** The session id issued at Unix second `now`: `"sess-"` and the decimal
      seconds. The seconds can be read back from it, so distinct seconds
      give distinct ids. */
  function SessionId(now: Int64): (id: string)
    ensures SessionPrefix <= id
    ensures Atoi(id[|SessionPrefix|..]) == Some(now as int)
  {
    AtoiItoa(now);
    SessionPrefix + Itoa(now)
  }

  /** The body posted to the record store's password check. */
  function LoginPayload(username: string, password: string): (p: map<string, string>)
    ensures p.Keys == {"identity", "password"}
    ensures p["identity"] == username && p["password"] == password
  {
    map["identity" := username, "password" := password]
  }

  /** The record store accepted the credentials: it answered, with 200. */
  predicate LoginAccepted(reply: Upstream) {
    reply.Reply? && reply.status == StatusOK
  }

  /** The store after a successful login at `now`: the session id maps to the
      user name, replacing whatever it mapped to, and nothing else changes. */
  function Login(store: map<string, string>, username: string, now: Int64): (s: map<string, string>)
    ensures s.Keys == store.Keys + {SessionId(now)}
    ensures s[SessionId(now)] == username
    ensures forall k :: k in store && k != SessionId(now) ==> s[k] == store[k]
  {
    store[SessionId(now) := username]
  }

  /** The gate's test: the request carries a `session_id` cookie and the store
      maps its value to a non-empty name (a missing entry reads as ""). */
  function Admits(store: map<string, string>, r: Request): (ok: bool)
    ensures ok <==>
      && SessionCookie in r.cookies
      && r.cookies[SessionCookie] in store
      && store[r.cookies[SessionCookie]] != ""
  {
    SessionCookie in r.cookies && Lookup(store, r.cookies[SessionCookie]) != ""
  }

  /** A request whose only cookie is `session_id` with the given value. */
  function WithSession(r: Request, value: string): Request {
    r.(cookies := map[SessionCookie := value])
  }

  /** A cookie issued by a successful login opens the gate exactly when the
      record store accepted a non-empty user name (an absent form field reads
      as "", and such a session is stored but never admitted). */
  lemma LoginAdmitsItsCookie(store: map<string, string>, username: string, now: Int64, r: Request)
    ensures Admits(Login(store, username, now), WithSession(r, SessionId(now))) <==> username != ""
  {
  }

  /** A login leaves the gate's answer unchanged for every other cookie. */
  lemma LoginKeepsOtherSessions(store: map<string, string>, username: string, now: Int64, r: Request)
    requires SessionCookie in r.cookies ==> r.cookies[SessionCookie] != SessionId(now)
    ensures Admits(Login(store, username, now), r) == Admits(store, r)
  {
  }

  /** Logins in different seconds do not disturb each other: the earlier
      session still resolves to its own user. */
  lemma {:induction false} DistinctSecondsKeepBothSessions(
    store: map<string, string>, first: string, t1: Int64, second: string, t2: Int64)
    requires t1 != t2
    ensures Lookup(Login(Login(store, first, t1), second, t2), SessionId(t1)) == first
  {
    ItoaInjective(t1, t2);
    assert SessionId(t1)[|SessionPrefix|..] == Itoa(t1);
    assert SessionId(t2)[|SessionPrefix|..] == Itoa(t2);
  }

  /** Two logins in the same second share one session id: the second user
      replaces the first, so the first user's cookie now identifies the
      second user. */
  lemma SameSecondLoginsCollide(store: map<string, string>, first: string, second: string, now: Int64)
    ensures Lookup(Login(Login(store, first, now), second, now), SessionId(now)) == second
  {
  }

  /** The process-wide session map (`sessions` in main.go). */
  class SessionStore {
    var sessions: map<string, string>

    constructor ()
      ensures sessions == map[]
    {
      sessions := map[];
    }

    /** `handleLogin`: read the form, check the credentials with the record
        store (whose answer is `reply`), and on a 200 store a session issued
        at Unix second `now` and send its cookie with a redirect to "/".
        `sent` is the request posted upstream (`None`: no upstream call). */
    method HandleLogin(form: Option<map<string, string>>, reply: Upstream, now: Int64)
      returns (sent: Option<Post>, response: LoginResponse)
      modifies this
      ensures form.None? ==>
        && sent == None
        && response == Refused(Error("Invalid form data", StatusBadRequest))
        && sessions == old(sessions)
      ensures form.Some? ==>
        sent == Some(Post(LoginUrl, LoginPayload(Lookup(form.value, "username"), Lookup(form.value, "password"))))
      ensures form.Some? && !LoginAccepted(reply) ==>
        && response == Refused(Error("Invalid credentials", StatusUnauthorized))
        && sessions == old(sessions)
      ensures form.Some? && LoginAccepted(reply) ==>
        && sessions == Login(old(sessions), Lookup(form.value, "username"), now)
        && response == LoggedIn(Cookie(SessionCookie, SessionId(now), now + CookieLifetime, true),
                                StatusSeeOther, "/")
    {
      if form.None? {
        return None, Refused(Error("Invalid form data", StatusBadRequest));
      }
      var username := Lookup(form.value, "username");
      var password := Lookup(form.value, "password");
      sent := Some(Post(LoginUrl, LoginPayload(username, password)));
      if reply.Unreachable? || reply.status != StatusOK {
        return sent, Refused(Error("Invalid credentials", StatusUnauthorized));
      }
      var sessionId := SessionId(now);
      sessions := sessions[sessionId := username];
      var cookie := Cookie(SessionCookie, sessionId, now + CookieLifetime, true);
      response := LoggedIn(cookie, StatusSeeOther, "/");
    }

    /** `handleLogout`: send an expired, empty `session_id` cookie. The store
        is not touched (no `modifies`), so the session stays valid for anyone
        who still holds its id. */
    method HandleLogout() returns (cookie: Cookie, response: Response)
      ensures cookie.name == SessionCookie && cookie.value == "" && cookie.expires == 0
      ensures !cookie.httpOnly
      ensures response == Response(StatusOK, Text("Logged out"))
    {
      cookie := Cookie(SessionCookie, "", 0, false);
      response := Response(StatusOK, Text("Logged out"));
    }

    /** `authMiddleware`: a request passes, unchanged, exactly when its
        `session_id` cookie names a stored session with a non-empty user
        name; otherwise it is answered 401 and the wrapped handler never
        runs. */
    function AuthMiddleware(r: Request): (g: Gate)
      reads this
      ensures g.Forward? <==>
        && SessionCookie in r.cookies
        && r.cookies[SessionCookie] in sessions
        && sessions[r.cookies[SessionCookie]] != ""
      ensures g.Forward? ==> g.request == r
      ensures g.Reject? ==> g.response == Error("Unauthorized", StatusUnauthorized)
    {
      if Admits(sessions, r) then Forward(r) else Reject(Error("Unauthorized", StatusUnauthorized))
    }
  }

  /** A logout does not revoke anything: for every request, the gate gives
      the same answer after `HandleLogout` as before it. */
  method LogoutKeepsGate(store: SessionStore, r: Request) returns (before: Gate, after: Gate)
    ensures before == after
    ensures before == store.AuthMiddleware(r)
  {
    before := store.AuthMiddleware(r);
    var expired, bye := store.HandleLogout();
    after := store.AuthMiddleware(r);
  }

  /** A successful login of a non-empty user followed by a logout: replaying
      the cookie value the login issued still passes the gate. */
  method ReplayAfterLogout(store: SessionStore, form: map<string, string>, reply: Upstream, now: Int64, r: Request)
    returns (replay: Request, gate: Gate)
    requires LoginAccepted(reply) && Lookup(form, "username") != ""
    modifies store
    ensures replay == WithSession(r, SessionId(now))
    ensures gate == Forward(replay)
  {
    var sent, response := store.HandleLogin(Some(form), reply, now);
    replay := WithSession(r, response.cookie.value);
    var expired, bye := store.HandleLogout();
    gate := store.AuthMiddleware(replay);
  }
}
