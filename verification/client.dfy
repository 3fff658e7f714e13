/** The Medicover API client (src/medicover_client/client.py): the session
    state the client keeps (`_token`, `refresh_token`, `sign_in_cookie`),
    the sign-in and refresh exchanges that overwrite it, the
    `with_login_retry` policy wrapped around every authenticated call, and
    the pure request-building pieces.

    The network is an oracle: `Server` says what the n-th sign-in, the n-th
    refresh and the n-th wrapped call return, counting from zero within one
    wrapped call. */
module Client {
  import opened Wrappers
  import Pkce

  /** `MAX_RETRY_ATTEMPTS`. */
  const MaxRetryAttempts: nat := 3
  /** `httpx.codes.UNAUTHORIZED`. */
  const Unauthorized: int := 401
  /** `httpx.codes.OK`. */
  const Ok: int := 200
  const ClientId: string := "web"
  const Scope: string := "openid offline_access profile"
  const ApiHost: string := "api-gateway-online24.medicover.pl"
  const BearerPrefix: string := "Bearer "
  /** The message of the error raised when the attempts run out. */
  const ExhaustedMessage: string := "Failed to sign in after 3 attempts."

  /** Identifiers are the strings the catalog endpoints return. */
  type Id = string

  /** Python truthiness of an optional identifier: `None` and "" are falsy. */
  predicate Truthy(id: Option<Id>) {
    id.Some? && id.value != ""
  }

  // ---------------------------------------------------------------------
  // Replies of the remote service (inputs of the model)
  // ---------------------------------------------------------------------

  /** The three uuid4 draws of one sign-in. */
  type Draws = s: seq<Pkce.Uuid> | |s| == 3 witness [0, 0, 0]

  /** Everything one `log_in` learns from the outside world. */
  datatype LoginReply = LoginReply(
    draws: Draws,                         // entropy for the code verifier
    requestVerificationToken: string,     // the anti-forgery field of the login page
    finalUrlParams: map<string, string>,  // query of the URL the login POST ends on
    idToken: string,                      // token endpoint: "id_token"
    refreshToken: string)                 // token endpoint: "refresh_token"

  /** The reply of the token endpoint to a refresh-token grant. */
  datatype RefreshReply = RefreshReply(status: int, accessToken: string, refreshToken: string)

  /** What the wrapped operation does when it is run. */
  datatype CallReply<R> =
    | Returns(value: R)
    | RaisesStatus(status: int)     // `httpx.HTTPStatusError` from `raise_for_status`
    | RaisesIncorrectLogin          // `IncorrectLoginError`

  /** The replies the server gives, by index, within one wrapped call. */
  datatype Server<R> = Server(
    login: nat -> LoginReply,
    refresh: nat -> RefreshReply,
    call: nat -> CallReply<R>)

  /** How many replies of each kind have been consumed. */
  datatype Used = Used(logins: nat, refreshes: nat, calls: nat)

  /** How a wrapped call ends: its value, or the exception it raises. */
  datatype Outcome<R> =
    | Returned(value: R)
    | HttpStatusError(status: int)
    | IncorrectLoginError
    | AuthenticationError(message: string)

  datatype LoginStatus = LoggedIn | CodeMissing

  // ---------------------------------------------------------------------
  // Requests the client sends (outputs of the model)
  // ---------------------------------------------------------------------

  /** Query of the authorization request (section 4.1.1 of RFC 6749 with
      the PKCE parameters of section 4.3 of RFC 7636). */
  datatype AuthorizeQuery = AuthorizeQuery(
    clientId: string, responseType: string, scope: string,
    codeChallenge: string, codeChallengeMethod: string)

  /** The login form posted to the login page's own URL. */
  datatype LoginForm = LoginForm(
    returnUrl: AuthorizeQuery, loginType: string, username: string, password: string,
    button: string, requestVerificationToken: string)

  /** The authorization-code grant (section 4.1.3 of RFC 6749, section 4.5
      of RFC 7636). */
  datatype CodeGrant = CodeGrant(grantType: string, code: string, codeVerifier: string, clientId: string)

  /** The refresh grant (section 6 of RFC 6749) and its authorization header. */
  datatype RefreshGrant = RefreshGrant(
    grantType: string, refreshToken: Option<string>, scope: string, clientId: string,
    authorization: string)

  datatype Headers = Headers(authorization: string, host: string)

  // ---------------------------------------------------------------------
  // The session and its transitions
  // ---------------------------------------------------------------------

  /** The credential state of a client: `_token`, `refresh_token`,
      `sign_in_cookie`. */
  datatype Session = Session(token: string, refreshToken: Option<string>, signInCookie: Option<string>)

  /** `log_in` on the session: `None` when it raises `IncorrectLoginError`
      (the final URL has no `code`), otherwise both tokens are replaced by
      those of the token endpoint. */
  function LoginEffect(s: Session, r: LoginReply): (s': Option<Session>)
    ensures s'.None? <==> "code" !in r.finalUrlParams
    ensures s'.Some? ==> s'.value.token == r.idToken && s'.value.refreshToken == Some(r.refreshToken)
    ensures s'.Some? ==> s'.value.signInCookie == s.signInCookie
  {
    if "code" in r.finalUrlParams then
      Some(s.(token := r.idToken, refreshToken := Some(r.refreshToken)))
    else None
  }

  /** `do_refresh_token` on the session: a reply other than 200 leaves it as
      it is; a 200 replaces both tokens. */
  function RefreshEffect(s: Session, r: RefreshReply): (s': Session)
    ensures r.status != Ok ==> s' == s
    ensures r.status == Ok ==> s'.token == r.accessToken && s'.refreshToken == Some(r.refreshToken)
    ensures s'.signInCookie == s.signInCookie
  {
    if r.status == Ok then s.(token := r.accessToken, refreshToken := Some(r.refreshToken)) else s
  }

  // ---------------------------------------------------------------------
  // The retry policy as a specification
  // ---------------------------------------------------------------------

  /** The state after one pass of the loop body of `with_login_retry`. */
  datatype Step<R> =
    | Again(session: Session, used: Used)
    | Stop(outcome: Outcome<R>, session: Session, used: Used)

  /** The session and counters after the step that precedes every attempt:
      `log_in` when there is no token, `do_refresh_token` otherwise; `None`
      when that `log_in` raises `IncorrectLoginError`. */
  function PreCall<R>(s: Session, u: Used, server: Server<R>): (r: Option<(Session, Used)>)
    ensures r.Some? ==> r.value.1.calls == u.calls
    ensures s.token == "" ==> r.None? || r.value.1 == u.(logins := u.logins + 1)
    // with no token the client signs in: the session becomes the sign-in's
    // result, and the step fails exactly when that sign-in is rejected
    ensures s.token == "" ==> (r.None? <==> "code" !in server.login(u.logins).finalUrlParams)
    ensures s.token == "" && r.Some? ==> Some(r.value.0) == LoginEffect(s, server.login(u.logins))
    ensures s.token != "" ==> r == Some((RefreshEffect(s, server.refresh(u.refreshes)), u.(refreshes := u.refreshes + 1)))
  {
    if s.token == "" then
      match LoginEffect(s, server.login(u.logins))
      case None => None
      case Some(s1) => Some((s1, u.(logins := u.logins + 1)))
    else
      Some((RefreshEffect(s, server.refresh(u.refreshes)), u.(refreshes := u.refreshes + 1)))
  }

  /** One pass of the loop body: the pre-call step, the wrapped call, and
      the `except` clause that handles what it raised. */
  function Attempt<R>(s: Session, u: Used, server: Server<R>): (r: Step<R>)
    ensures r.used.calls <= u.calls + 1
    ensures r.used.logins >= u.logins && r.used.refreshes >= u.refreshes
    // only a 401 followed by a successful sign-in leads to another attempt,
    // and that sign-in has dropped the cookie
    ensures r.Again? ==> r.used.calls == u.calls + 1 && server.call(u.calls) == RaisesStatus(Unauthorized)
    ensures r.Again? ==> r.session.signInCookie == None
    // an `IncorrectLoginError` from the pre-call sign-in is reported as an
    // `AuthenticationError` before the operation runs
    ensures s.token == "" && "code" !in server.login(u.logins).finalUrlParams ==>
              r == Stop(AuthenticationError(""), s.(signInCookie := None), u.(logins := u.logins + 1))
    // the operation is skipped only in that case
    ensures r.used.calls == u.calls ==> r == Stop(AuthenticationError(""), s.(signInCookie := None), u.(logins := u.logins + 1))
    // what the operation returned is what the attempt returns
    ensures r.Stop? && r.outcome.Returned? ==>
              r.used.calls == u.calls + 1 && server.call(u.calls) == Returns(r.outcome.value)
    // a status other than 401 propagates unchanged
    ensures r.Stop? && r.outcome.HttpStatusError? ==>
              r.used.calls == u.calls + 1 && r.outcome.status != Unauthorized
              && server.call(u.calls) == RaisesStatus(r.outcome.status)
    // `IncorrectLoginError` escapes only from the sign-in of the 401 handler
    ensures r.Stop? && r.outcome.IncorrectLoginError? ==>
              r.used.calls == u.calls + 1 && server.call(u.calls) == RaisesStatus(Unauthorized)
              && r.used.logins > u.logins && "code" !in server.login(r.used.logins - 1).finalUrlParams
              && r.session.signInCookie == None
    // `AuthenticationError` raised here always comes from a rejected login:
    // the pre-call sign-in, or the one inside the wrapped call
    ensures r.Stop? && r.outcome.AuthenticationError? ==>
              r.outcome.message == "" && r.session.signInCookie == None
              && ((r.used.calls == u.calls && s.token == "" && "code" !in server.login(u.logins).finalUrlParams)
                  || (r.used.calls == u.calls + 1 && server.call(u.calls) == RaisesIncorrectLogin))
    // and the other direction: once the pre-call step has succeeded, the
    // reply of the wrapped call decides the outcome
    ensures PreCall(s, u, server).Some? ==> AttemptFollowsReply(PreCall(s, u, server).value.0, PreCall(s, u, server).value.1, server, r)
  {
    match PreCall(s, u, server)
    case None =>
      Stop(AuthenticationError(""), s.(signInCookie := None), u.(logins := u.logins + 1))
    case Some((s1, u1)) => AfterCall(s1, u1, server)
  }

  /** How the reply of the wrapped call decides a pass that started from
      session `s1` and counters `u1` after the pre-call step: a value is
      returned, `IncorrectLoginError` becomes `AuthenticationError`, a status
      other than 401 is re-raised, and a 401 drops the cookie and signs in
      again, giving another attempt exactly when that sign-in succeeds. */
  ghost predicate AttemptFollowsReply<R>(s1: Session, u1: Used, server: Server<R>, r: Step<R>) {
    match server.call(u1.calls)
    case Returns(v) => r.Stop? && r.outcome == Returned(v)
    case RaisesIncorrectLogin => r.Stop? && r.outcome == AuthenticationError("")
    case RaisesStatus(code) =>
      if code != Unauthorized then r.Stop? && r.outcome == HttpStatusError(code)
      else
        var reply := server.login(u1.logins);
        && (r.Again? <==> "code" in reply.finalUrlParams)
        && (r.Again? ==> Some(r.session) == LoginEffect(s1.(signInCookie := None), reply))
        && (r.Stop? ==> r.outcome == IncorrectLoginError)
  }

  /** The rest of one pass once the pre-call step has succeeded: the
      wrapped call and the `except` clause that handles what it raised. */
  function AfterCall<R>(s1: Session, u1: Used, server: Server<R>): Step<R> {
    var u2 := u1.(calls := u1.calls + 1);
    match server.call(u1.calls)
    case Returns(v) => Stop(Returned(v), s1, u2)
    case RaisesIncorrectLogin => Stop(AuthenticationError(""), s1.(signInCookie := None), u2)
    case RaisesStatus(code) =>
      if code == Unauthorized then AfterUnauthorized(s1, u2, server)
      else Stop(HttpStatusError(code), s1, u2)
  }

  /** The `except HTTPStatusError` clause for a 401: the cookie is dropped
      and the client signs in again. */
  function AfterUnauthorized<R>(s1: Session, u2: Used, server: Server<R>): Step<R> {
    var s2 := s1.(signInCookie := None);
    var u3 := u2.(logins := u2.logins + 1);
    match LoginEffect(s2, server.login(u2.logins))
    case None => Stop(IncorrectLoginError, s2, u3)
    case Some(s3) => Again(s3, u3)
  }

  /** The rest of the loop from attempt number `attempts` on. */
  function RetryFrom<R>(attempts: nat, s: Session, u: Used, server: Server<R>): (Outcome<R>, Session, Used)
    requires attempts <= MaxRetryAttempts
    decreases MaxRetryAttempts - attempts
  {
    if attempts == MaxRetryAttempts then (AuthenticationError(ExhaustedMessage), s, u)
    else
      match Attempt(s, u, server)
      case Stop(o, s', u') => (o, s', u')
      case Again(s', u') => RetryFrom(attempts + 1, s', u', server)
  }

  /** A whole wrapped call, from session `s`. */
  function Retry<R>(s: Session, server: Server<R>): (Outcome<R>, Session, Used) {
    RetryFrom(0, s, Used(0, 0, 0), server)
  }

  /** Every attempt that is not the last one ended in a 401. */
  ghost predicate EarlierCallsUnauthorized<R>(server: Server<R>, from: int, to: int) {
    forall i: nat :: from <= i < to ==> server.call(i) == RaisesStatus(Unauthorized)
  }

  /** The operation ran at most `budget` times after counters `u`, every
      run but the last answered 401, and running out of attempts took all
      `budget` runs, each answered 401. */
  ghost predicate CallsWithin<R>(r: (Outcome<R>, Session, Used), budget: nat, u: Used, server: Server<R>) {
    var (o, _, u') := r;
    && u.calls <= u'.calls <= u.calls + budget
    && EarlierCallsUnauthorized(server, u.calls, u'.calls - 1)
    && (o == AuthenticationError(ExhaustedMessage) ==>
          u'.calls == u.calls + budget && EarlierCallsUnauthorized(server, u.calls, u'.calls))
  }

  /** A pass that stops ran the operation at most once. */
  lemma StopWithin<R>(s: Session, u: Used, server: Server<R>, budget: nat)
    requires Attempt(s, u, server).Stop? && budget >= 1
    ensures var step := Attempt(s, u, server); CallsWithin((step.outcome, step.session, step.used), budget, u, server)
  {
  }

  /** A pass answered 401 adds one run to the budget. */
  lemma AgainWithin<R>(r: (Outcome<R>, Session, Used), budget: nat, u: Used, later: Used, server: Server<R>)
    requires CallsWithin(r, budget, later, server)
    requires later.calls == u.calls + 1 && server.call(u.calls) == RaisesStatus(Unauthorized)
    ensures CallsWithin(r, budget + 1, u, server)
  {
  }

  /** How many times the operation runs from attempt `attempts` on: at
      most once per remaining attempt, every run but the last answered 401,
      and running out of attempts takes a 401 on every one of them. */
  lemma {:induction false} RetryFromCalls<R>(attempts: nat, s: Session, u: Used, server: Server<R>)
    requires attempts <= MaxRetryAttempts
    ensures CallsWithin(RetryFrom(attempts, s, u, server), MaxRetryAttempts - attempts, u, server)
    decreases MaxRetryAttempts - attempts
  {
    if attempts < MaxRetryAttempts {
      var step := Attempt(s, u, server);
      if step.Again? {
        RetryFromCalls(attempts + 1, step.session, step.used, server);
        AgainWithin(RetryFrom(attempts + 1, step.session, step.used, server), MaxRetryAttempts - attempts - 1,
                    u, step.used, server);
      } else {
        StopWithin(s, u, server, MaxRetryAttempts - attempts);
      }
    }
  }

  /** What the end of a wrapped call says about the replies that led to
      it, for a call that started with counters `u`. */
  ghost predicate ExplainedBy<R>(r: (Outcome<R>, Session, Used), u: Used, server: Server<R>) {
    var (o, s', u') := r;
    && (o.Returned? ==> u'.calls > u.calls && server.call(u'.calls - 1) == Returns(o.value))
    && (o.HttpStatusError? ==>
          u'.calls > u.calls && o.status != Unauthorized && server.call(u'.calls - 1) == RaisesStatus(o.status))
    && (o.IncorrectLoginError? ==>
          u'.calls > u.calls && server.call(u'.calls - 1) == RaisesStatus(Unauthorized)
          && u'.logins > u.logins && "code" !in server.login(u'.logins - 1).finalUrlParams
          && s'.signInCookie == None)
    && (o.AuthenticationError? && o.message != ExhaustedMessage ==>
          o.message == "" && s'.signInCookie == None
          && ((u'.logins > u.logins && "code" !in server.login(u'.logins - 1).finalUrlParams)
              || (u'.calls > u.calls && server.call(u'.calls - 1) == RaisesIncorrectLogin)))
  }

  /** A pass that stops explains its own outcome. */
  lemma StopExplained<R>(s: Session, u: Used, server: Server<R>)
    requires Attempt(s, u, server).Stop?
    ensures var step := Attempt(s, u, server); ExplainedBy((step.outcome, step.session, step.used), u, server)
  {
  }

  /** An explanation from later counters is one from earlier counters. */
  lemma ExplainedEarlier<R>(r: (Outcome<R>, Session, Used), u: Used, later: Used, server: Server<R>)
    requires ExplainedBy(r, later, server)
    requires u.calls <= later.calls && u.logins <= later.logins
    ensures ExplainedBy(r, u, server)
  {
  }

  /** Each way a wrapped call can end, with the reply that decided it: the
      value returned and any non-401 status are those of the last run of the
      operation; an escaping `IncorrectLoginError` comes from the sign-in
      after a 401; every `AuthenticationError` leaves the cookie cleared,
      including running out of attempts, since every attempt after the
      first follows a 401 handler that dropped it. */
  lemma {:induction false} RetryFromLastReply<R>(attempts: nat, s: Session, u: Used, server: Server<R>)
    requires attempts <= MaxRetryAttempts
    ensures ExplainedBy(RetryFrom(attempts, s, u, server), u, server)
    ensures (attempts == 0 || s.signInCookie == None) &&
            RetryFrom(attempts, s, u, server).0 == AuthenticationError(ExhaustedMessage) ==>
              RetryFrom(attempts, s, u, server).1.signInCookie == None
    decreases MaxRetryAttempts - attempts
  {
    if attempts < MaxRetryAttempts {
      var step := Attempt(s, u, server);
      if step.Again? {
        RetryFromLastReply(attempts + 1, step.session, step.used, server);
        ExplainedEarlier(RetryFrom(attempts + 1, step.session, step.used, server), u, step.used, server);
      } else {
        StopExplained(s, u, server);
      }
    }
  }

  /** The operation runs at most `MAX_RETRY_ATTEMPTS` times per wrapped
      call, and the attempts run out only after three 401 replies. */
  lemma AtMostThreeCalls<R>(s: Session, server: Server<R>)
    ensures Retry(s, server).2.calls <= MaxRetryAttempts
    ensures Retry(s, server).0 == AuthenticationError(ExhaustedMessage) ==>
              Retry(s, server).2.calls == 3 && EarlierCallsUnauthorized(server, 0, 3)
  {
    RetryFromCalls(0, s, Used(0, 0, 0), server);
  }

  /** A status other than 401 from the first run of the operation is
      re-raised unchanged by the wrapper, after one run. */
  lemma OtherStatusReRaised<R>(s: Session, server: Server<R>)
    requires PreCall(s, Used(0, 0, 0), server).Some?
    requires server.call(0).RaisesStatus? && server.call(0).status != Unauthorized
    ensures Retry(s, server).0 == HttpStatusError(server.call(0).status)
    ensures Retry(s, server).2.calls == 1
  {
    assert Attempt(s, Used(0, 0, 0), server).Stop?;
  }

  /** A rejected pre-call sign-in ends the wrapped call at once: one
      sign-in, no run of the operation, the cookie cleared and an
      `AuthenticationError` raised. */
  lemma IncorrectLoginShortCircuit<R>(s: Session, server: Server<R>)
    requires s.token == "" && "code" !in server.login(0).finalUrlParams
    ensures Retry(s, server) == (AuthenticationError(""), s.(signInCookie := None), Used(1, 0, 0))
  {
  }

  /** A server that always answers 401 while every sign-in succeeds with a
      non-empty token: three runs, then "Failed to sign in after 3 attempts.".
      The 401 handler signs in again but does not clear `_token`, so after
      the first attempt every pre-call step is a refresh. */
  lemma {:induction false} PersistentUnauthorizedExhausts<R>(s: Session, server: Server<R>)
    requires forall i :: server.call(i) == RaisesStatus(Unauthorized)
    requires forall i :: "code" in server.login(i).finalUrlParams && server.login(i).idToken != ""
    ensures Retry(s, server).0 == AuthenticationError(ExhaustedMessage)
    ensures Retry(s, server).2.calls == 3
    ensures Retry(s, server).2.logins == 3 + (if s.token == "" then 1 else 0)
    ensures Retry(s, server).2.refreshes == 2 + (if s.token == "" then 0 else 1)
    ensures Retry(s, server).1.signInCookie == None
  {
    var a0 := Attempt(s, Used(0, 0, 0), server);
    assert a0.Again? && a0.session.token != "";
    var a1 := Attempt(a0.session, a0.used, server);
    assert a1.Again? && a1.session.token != "";
    var a2 := Attempt(a1.session, a1.used, server);
    assert a2.Again?;
  }

  // ---------------------------------------------------------------------
  // The client object
  // ---------------------------------------------------------------------

  class MedicoverClient {
    const username: string
    const password: string
    var signInCookie: Option<string>
    /** `_token`: the id token or access token; "" before the first sign-in. */
    var token: string
    var refreshToken: Option<string>

    function State(): Session
      reads this
    {
      Session(token, refreshToken, signInCookie)
    }

    constructor(username: string, password: string)
      ensures this.username == username && this.password == password
      ensures State() == Session("", None, None)
    {
      this.username := username;
      this.password := password;
      signInCookie := None;
      token := "";
      refreshToken := None;
    }

    /** The `token` property: the bearer credential; the stored token can
        be read back from it. */
    function Authorization(): (h: string)
      reads this
      ensures |h| == |BearerPrefix| + |token|
      ensures h[..|BearerPrefix|] == BearerPrefix && h[|BearerPrefix|..] == token
    {
      BearerPrefix + token
    }

    /** The `headers` property. */
    function RequestHeaders(): (h: Headers)
      reads this
      ensures h.authorization == Authorization()
      ensures h.authorization[..|BearerPrefix|] == BearerPrefix && h.authorization[|BearerPrefix|..] == token
      ensures h.host == ApiHost
    {
      Headers(Authorization(), ApiHost)
    }

    /** `do_refresh_token`: posts the stored refresh token and, on a 200,
        stores the new pair. */
    method DoRefreshToken(reply: RefreshReply) returns (sent: RefreshGrant)
      modifies this
      ensures State() == RefreshEffect(old(State()), reply)
      ensures sent == RefreshGrant("refresh_token", old(refreshToken), Scope, ClientId, BearerPrefix + old(token))
    {
      // the Host header is popped; only the authorization goes along
      sent := RefreshGrant("refresh_token", refreshToken, Scope, ClientId, Authorization());
      if reply.status != Ok {
        return;
      }
      token := reply.accessToken;
      refreshToken := Some(reply.refreshToken);
    }

    /** `log_in`: the authorization request carries the S256 challenge of a
        fresh verifier, the login form carries the credentials, and, when
        the final URL carries a code, the code is exchanged together with
        that same verifier for the tokens the session then holds. */
    method LogIn(sha256: seq<Pkce.byte> -> seq<Pkce.byte>, reply: LoginReply)
      returns (status: LoginStatus, query: AuthorizeQuery, form: LoginForm, grant: Option<CodeGrant>)
      modifies this
      ensures status == CodeMissing <==> "code" !in reply.finalUrlParams
      ensures status == LoggedIn ==> LoginEffect(old(State()), reply) == Some(State())
      ensures status == CodeMissing ==> State() == old(State())
      ensures query == AuthorizeQuery(ClientId, "code", Scope, Pkce.S256(sha256, Pkce.CodeVerifier(reply.draws)), "S256")
      ensures form == LoginForm(query, "FullLogin", username, password, "login", reply.requestVerificationToken)
      ensures grant.Some? <==> status == LoggedIn
      ensures grant.Some? ==>
                grant.value == CodeGrant("authorization_code", reply.finalUrlParams["code"], Pkce.CodeVerifier(reply.draws), ClientId)
    {
      var verifier := Pkce.CodeVerifier(reply.draws);
      var challenge := Pkce.S256(sha256, verifier);
      query := AuthorizeQuery(ClientId, "code", Scope, challenge, "S256");
      form := LoginForm(query, "FullLogin", username, password, "login", reply.requestVerificationToken);
      if "code" !in reply.finalUrlParams {
        status, grant := CodeMissing, None;
        return;
      }
      var code := reply.finalUrlParams["code"];
      grant := Some(CodeGrant("authorization_code", code, verifier, ClientId));
      token := reply.idToken;
      refreshToken := Some(reply.refreshToken);
      status := LoggedIn;
    }

    /** The first statement of the `try` block: sign in when there is no
        token, refresh otherwise. `ok` is false when the sign-in raised
        `IncorrectLoginError`. */
    method SignInOrRefresh<R>(sha256: seq<Pkce.byte> -> seq<Pkce.byte>, server: Server<R>, used: Used)
      returns (ok: bool, u: Used)
      modifies this
      ensures ok ==> PreCall(old(State()), used, server) == Some((State(), u))
      ensures !ok ==> PreCall(old(State()), used, server).None? && State() == old(State())
                      && u == used.(logins := used.logins + 1)
    {
      if token == "" {
        var status, _, _, _ := LogIn(sha256, server.login(used.logins));
        return status == LoggedIn, used.(logins := used.logins + 1);
      }
      var _ := DoRefreshToken(server.refresh(used.refreshes));
      return true, used.(refreshes := used.refreshes + 1);
    }

    /** The wrapped call and the `except` clauses that handle it. */
    method CallAndHandle<R>(sha256: seq<Pkce.byte> -> seq<Pkce.byte>, server: Server<R>, used: Used)
      returns (step: Step<R>)
      modifies this
      ensures step == AfterCall(old(State()), used, server) && State() == step.session
    {
      var reply := server.call(used.calls);
      var u := used.(calls := used.calls + 1);
      match reply {
        case Returns(v) =>
          step := Stop(Returned(v), State(), u);
        case RaisesIncorrectLogin =>
          signInCookie := None;
          step := Stop(AuthenticationError(""), State(), u);
        case RaisesStatus(code) =>
          if code == Unauthorized {
            step := SignInAgain(sha256, server, u);
          } else {
            // any other status is re-raised
            step := Stop(HttpStatusError(code), State(), u);
          }
      }
    }

    /** After a 401: drop the cookie and sign in again; an
        IncorrectLoginError raised here leaves the handler as it is. */
    method SignInAgain<R>(sha256: seq<Pkce.byte> -> seq<Pkce.byte>, server: Server<R>, u: Used)
      returns (step: Step<R>)
      modifies this
      ensures step == AfterUnauthorized(old(State()), u, server) && State() == step.session
    {
      signInCookie := None;
      ghost var s2 := State();
      var status, _, _, _ := LogIn(sha256, server.login(u.logins));
      var u3 := u.(logins := u.logins + 1);
      if status == CodeMissing {
        step := Stop(IncorrectLoginError, State(), u3);
      } else {
        assert LoginEffect(s2, server.login(u.logins)) == Some(State());
        step := Again(State(), u3);
      }
    }

    /** The body of the `with_login_retry` loop: the `try` block with its
        `except` clauses, up to the `finally` that counts the attempt. */
    method TryOnce<R>(sha256: seq<Pkce.byte> -> seq<Pkce.byte>, server: Server<R>, used: Used)
      returns (step: Step<R>)
      modifies this
      ensures step == Attempt(old(State()), used, server) && State() == step.session
    {
      var ok, u := SignInOrRefresh(sha256, server, used);
      if !ok {
        // except IncorrectLoginError: the cookie goes, the error is re-raised
        signInCookie := None;
        return Stop(AuthenticationError(""), State(), u);
      }
      step := CallAndHandle(sha256, server, u);
    }

    /** `with_login_retry` around one call of the wrapped operation. */
    method WithLoginRetry<R>(sha256: seq<Pkce.byte> -> seq<Pkce.byte>, server: Server<R>)
      returns (outcome: Outcome<R>, used: Used)
      modifies this
      ensures (outcome, State(), used) == Retry(old(State()), server)
    {
      var attempts: nat := 0;
      used := Used(0, 0, 0);
      while attempts < MaxRetryAttempts
        invariant attempts <= MaxRetryAttempts
        invariant RetryFrom(attempts, State(), used, server) == Retry(old(State()), server)
        decreases MaxRetryAttempts - attempts
      {
        var step := TryOnce(sha256, server, used);
        used := step.used;
        if step.Stop? {
          outcome := step.outcome;
          return;
        }
        // finally
        attempts := attempts + 1;
      }
      outcome := AuthenticationError(ExhaustedMessage);
    }
  }

  // ---------------------------------------------------------------------
  // Request parameters and catalog projections
  // ---------------------------------------------------------------------

  /** Query parameters of the slot search. */
  datatype SlotQuery = SlotQuery(
    page: int, pageSize: int, regionIds: seq<Id>, specialtyIds: seq<Id>,
    clinicIds: seq<Id>, doctorIds: seq<Id>, startDay: int)

  /** The parameters `get_available_slots` sends: one page of 5000 from
      `fromDay` on; a falsy clinic or doctor id means "any" and is sent as
      an empty list. */
  function SlotSearchParams(region: Id, specialization: Id, fromDay: int, doctor: Option<Id>, clinic: Option<Id>)
    : (q: SlotQuery)
    ensures q.page == 1 && q.pageSize == 5000 && q.startDay == fromDay
    ensures q.regionIds == [region] && q.specialtyIds == [specialization]
    ensures |q.clinicIds| <= 1 && (q.clinicIds == [] <==> !Truthy(clinic))
    ensures forall c :: c in q.clinicIds ==> clinic == Some(c)
    ensures |q.doctorIds| <= 1 && (q.doctorIds == [] <==> !Truthy(doctor))
    ensures forall d :: d in q.doctorIds ==> doctor == Some(d)
  {
    SlotQuery(1, 5000, [region], [specialization],
              if Truthy(clinic) then [clinic.value] else [],
              if Truthy(doctor) then [doctor.value] else [],
              fromDay)
  }

  /** One entry of a catalog list: `{id, value}`. */
  datatype FilterOption = FilterOption(id: Option<Id>, value: string)

  /** The decoded JSON of a catalog endpoint. */
  type CatalogJson = map<string, seq<FilterOption>>

  /** `response_json.get(key, [])`. */
  function ListUnder(json: CatalogJson, key: string): (r: seq<FilterOption>)
    ensures key in json ==> r == json[key]
    ensures key !in json ==> r == []
  {
    if key in json then json[key] else []
  }

  /** The combined catalog endpoint serves three lists. */
  datatype Catalog = Specialties | Clinics | Doctors

  /** Query of `get_filters_data`. */
  datatype FiltersQuery = FiltersQuery(regionIds: Id, specialtyIds: Option<Id>, clinicIds: Option<Id>)

  /** What `get_all_specializations`, `get_all_clinics` and
      `get_all_doctors` ask for and which list of the reply they return:
      specializations are scoped by region, clinics by region and
      specialization, doctors by region, specialization and clinic. */
  function CatalogRequest(c: Catalog, region: Id, specialization: Id, clinic: Option<Id>): (r: (FiltersQuery, string))
    ensures r.0.regionIds == region
    ensures r.0.specialtyIds == (if c == Specialties then None else Some(specialization))
    ensures r.0.clinicIds == (if c == Doctors then clinic else None)
    ensures r.1 == match c case Specialties => "specialties" case Clinics => "clinics" case Doctors => "doctors"
  {
    match c
    case Specialties => (FiltersQuery(region, None, None), "specialties")
    case Clinics => (FiltersQuery(region, Some(specialization), None), "clinics")
    case Doctors => (FiltersQuery(region, Some(specialization), clinic), "doctors")
  }
}
