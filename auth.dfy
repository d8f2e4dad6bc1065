/** Login and logout (src/ikv_secrets/auth.py): the decisions `login` takes around its I/O.
    The vault url is resolved, one of two flows is chosen, the browser flow's callback is
    classified, the wait is settled, the token reply is turned into a `TokenInfo`, and logout
    deletes tokens one tenant at a time. Everything the source obtains from the outside world
    (the bound port, the random CSRF state, the callback request, HTTP replies, the clock) is
    a field of `LoginWorld`. */
module Auth {
  import opened Wrappers
  import opened Strings
  import opened Dicts
  import opened Json
  import Http
  import opened KeyringStore
  import opened Config

  /** Vault used when neither the caller nor the configuration names one. */
  const DefaultVaultUrl: string := "https://localhost:5001"

  /** Token lifetime assumed when the token reply has neither `expires_at` nor `expires_in`. */
  const DefaultExpiresIn: int := 14400

  const TimeoutMessage: string := "Authentication timed out - please try again"

  /** How a login fails: an `AuthError` with its message, an httpx `HTTPStatusError` from
      `raise_for_status`, or a reply without the fields the code reads. */
  datatype LoginError = AuthError(msg: string) | HttpStatusError(status: int) | Malformed

  /** The vault url `login` uses: a non-empty argument, else the tenant's configured url when
      non-empty, else the default; trailing `/` characters are then removed. */
  function ResolveVaultUrl(vaultUrl: Option<string>, doc: Document, tenant: string): (r: string)
    ensures Filled(vaultUrl) ==> r == RStrip(vaultUrl.value, '/')
    ensures !Filled(vaultUrl) && Filled(GetTenantUrl(doc, tenant)) ==> r == RStrip(GetTenantUrl(doc, tenant).value, '/')
    ensures !Filled(vaultUrl) && !Filled(GetTenantUrl(doc, tenant)) ==> r == DefaultVaultUrl
    ensures r == [] || r[|r| - 1] != '/'
  {
    var chosen :=
      if Filled(vaultUrl) then vaultUrl.value
      else if Filled(GetTenantUrl(doc, tenant)) then GetTenantUrl(doc, tenant).value
      else DefaultVaultUrl;
    RStrip(chosen, '/')
  }

  /** The two ways to log in. */
  datatype Flow = ServiceAccountFlow(apiKey: string, masterKey: string) | BrowserFlow

  /** The service-account flow is taken exactly when both keys are non-empty. */
  function ChooseFlow(apiKey: Option<string>, masterKey: Option<string>): (f: Flow)
    ensures f.ServiceAccountFlow? <==> Filled(apiKey) && Filled(masterKey)
    ensures f.ServiceAccountFlow? ==> f.apiKey == apiKey.value && f.masterKey == masterKey.value
  {
    if Filled(apiKey) && Filled(masterKey) then ServiceAccountFlow(apiKey.value, masterKey.value)
    else BrowserFlow
  }

  /** The result of `parse_qs`: every parameter present has at least one value. */
  type Query = q: map<string, seq<string>> | forall k :: k in q ==> q[k] != [] witness map[]

  /** What the callback handler makes of a request's query parameters. */
  datatype Callback = CodeReceived(code: string, state: string) | ErrorReceived(message: string) | Unrecognized

  /** `CallbackHandler.do_GET`'s branches: a `code` wins even beside an `error`; an error's
      message is the first `error_description`, falling back to the first `error`. */
  function ClassifyCallback(q: Query): (c: Callback)
    ensures c.CodeReceived? <==> "code" in q
    ensures c.CodeReceived? ==> c.code == q["code"][0]
    ensures c.CodeReceived? ==> c.state == if "state" in q then q["state"][0] else ""
    ensures c.ErrorReceived? <==> "code" !in q && "error" in q
    ensures c.ErrorReceived? && "error_description" in q ==> c.message == q["error_description"][0]
    ensures c.ErrorReceived? && "error_description" !in q ==> c.message == q["error"][0]
  {
    if "code" in q then CodeReceived(q["code"][0], if "state" in q then q["state"][0] else "")
    else if "error" in q then ErrorReceived((if "error_description" in q then q["error_description"] else q["error"])[0])
    else Unrecognized
  }

  /** The status the handler replies with: 200 only for a code. */
  function CallbackStatus(c: Callback): (status: int)
    ensures status == 200 <==> c.CodeReceived?
    ensures status == 400 <==> !c.CodeReceived?
  {
    if c.CodeReceived? then 200 else 400
  }

  /** The `auth_result` dict as seen after the wait: `code`, `state` and `error` entries. */
  datatype Recorded = Recorded(code: Option<string>, state: Option<string>, error: Option<string>)

  const NothingRecorded: Recorded := Recorded(None, None, None)

  /** The entries a handled request writes into `auth_result`; an unrecognised one writes none. */
  function Record(prior: Recorded, c: Callback): (r: Recorded)
    ensures c.Unrecognized? ==> r == prior
    ensures c.CodeReceived? ==> r.code == Some(c.code) && r.state == Some(c.state) && r.error == prior.error
    ensures c.ErrorReceived? ==> r.error == Some(c.message) && r.code == prior.code && r.state == prior.state
  {
    match c
    case CodeReceived(code, state) => prior.(code := Some(code), state := Some(state))
    case ErrorReceived(message) => prior.(error := Some(message))
    case Unrecognized => prior
  }

  /** What `_browser_login` does once the wait is over. */
  datatype WaitOutcome = WaitFailed(msg: string) | ExchangeCode(code: string)

  /** A recorded error fails the login, a missing code is a timeout, and only a code goes on
      to the token exchange. The recorded `state` is not consulted. */
  function AfterWait(r: Recorded): (o: WaitOutcome)
    ensures r.error.Some? ==> o == WaitFailed("Authentication failed: " + r.error.value)
    ensures r.error.None? && r.code.None? ==> o == WaitFailed(TimeoutMessage)
    ensures o.ExchangeCode? <==> r.error.None? && r.code.Some?
    ensures o.ExchangeCode? ==> o.code == r.code.value
  {
    if r.error.Some? then WaitFailed("Authentication failed: " + r.error.value)
    else if r.code.None? then WaitFailed(TimeoutMessage)
    else ExchangeCode(r.code.value)
  }

  /** The callback server handles one request at most; `None` is no request before the
      five-minute wait ends. */
  function CallbackOutcome(request: Option<Query>): (o: WaitOutcome)
    ensures request.None? ==> o == WaitFailed(TimeoutMessage)
    ensures forall q :: request == Some(q) && "code" in q ==> o == ExchangeCode(q["code"][0])
    ensures forall q :: request == Some(q) && "code" !in q && "error" in q ==>
      o == WaitFailed("Authentication failed: " + (if "error_description" in q then q["error_description"] else q["error"])[0])
    ensures forall q :: request == Some(q) && "code" !in q && "error" !in q ==> o == WaitFailed(TimeoutMessage)
  {
    if request.None? then AfterWait(NothingRecorded)
    else AfterWait(Record(NothingRecorded, ClassifyCallback(request.value)))
  }

  /** A callback carrying a code proceeds to the exchange with the first code, even when an
      error is also present. */
  lemma CodeWinsOverError(q: Query)
    requires "code" in q
    ensures CallbackOutcome(Some(q)) == ExchangeCode(q["code"][0])
  {
  }

  /** A callback with an error and no code fails with the error's description. */
  lemma ErrorCallbackFails(q: Query)
    requires "code" !in q && "error" in q
    ensures CallbackOutcome(Some(q)).WaitFailed?
    ensures "error_description" in q ==>
      CallbackOutcome(Some(q)) == WaitFailed("Authentication failed: " + q["error_description"][0])
    ensures "error_description" !in q ==>
      CallbackOutcome(Some(q)) == WaitFailed("Authentication failed: " + q["error"][0])
  {
  }

  /** A request with neither code nor error ends the wait like no request at all. */
  lemma StrayCallbackTimesOut(q: Query)
    requires "code" !in q && "error" !in q
    ensures CallbackOutcome(Some(q)) == CallbackOutcome(None) == WaitFailed(TimeoutMessage)
  {
  }

  /** The echoed `state` is recorded but never compared: whatever state the callback carries,
      the outcome is the same. */
  lemma StateNeverCompared(q: Query, s: string)
    ensures CallbackOutcome(Some(q["state" := [s]])) == CallbackOutcome(Some(q))
  {
    var q' := q["state" := [s]];
    assert ("code" in q') == ("code" in q) && ("error" in q') == ("error" in q);
    assert ("error_description" in q') == ("error_description" in q);
  }

  /** The shared `auth_result` dict and the `callback_received` event of one browser login. */
  class CallbackState {
    var code: Option<string>
    var state: Option<string>
    var error: Option<string>
    var received: bool

    constructor ()
      ensures Snapshot() == NothingRecorded && !received
    {
      code, state, error, received := None, None, None, false;
    }

    function Snapshot(): Recorded
      reads this
    {
      Recorded(code, state, error)
    }

    /** `do_GET`: record what the query carries, set the event, reply with a status. */
    method HandleGet(q: Query) returns (status: int)
      modifies this
      ensures Snapshot() == Record(old(Snapshot()), ClassifyCallback(q))
      ensures received
      ensures status == CallbackStatus(ClassifyCallback(q))
    {
      if "code" in q {
        code := Some(q["code"][0]);
        state := Some(if "state" in q then q["state"][0] else "");
        status := 200;
      } else if "error" in q {
        error := Some((if "error_description" in q then q["error_description"] else q["error"])[0]);
        status := 400;
      } else {
        status := 400;
      }
      received := true;
    }
  }

  /** `expires_at` of the exchanged token: the reply's `expires_at`, else `now` plus the reply's
      `expires_in`, else `now` plus four hours. The fallback is computed even when `expires_at`
      is present, so an `expires_in` that is not a number fails either way. */
  function ExpiresAtOf(expiresAt: Option<Value>, expiresIn: Option<Value>, now: int): (r: Option<int>)
    ensures expiresIn.Some? && !expiresIn.value.JInt? ==> r == None
    ensures (expiresIn.None? || expiresIn.value.JInt?) ==> (
      && (expiresAt.Some? && expiresAt.value.JInt? ==> r == Some(expiresAt.value.n))
      && (expiresAt.Some? && !expiresAt.value.JInt? ==> r == None))
    ensures expiresAt.None? && expiresIn.None? ==> r == Some(now + DefaultExpiresIn)
    ensures expiresAt.None? && expiresIn.Some? && expiresIn.value.JInt? ==> r == Some(now + expiresIn.value.n)
  {
    if expiresIn.Some? && !expiresIn.value.JInt? then None
    else
      var fallback := now + if expiresIn.Some? then expiresIn.value.n else DefaultExpiresIn;
      match expiresAt
      case None => Some(fallback)
      case Some(JInt(e)) => Some(e)
      case Some(_) => None
  }

  /** The token built from a successful exchange reply, for `tenant`. */
  function ExchangedToken(body: Option<Value>, tenant: string, now: int): (r: Result<TokenInfo, LoginError>)
    ensures r.Success? ==> r.value.tenant == tenant
    ensures r.Success? ==> (
      && body.Some? && body.value.JObject?
      && Member(body.value.fields, "access_token") == Some(JString(r.value.accessToken))
      && ExpiresAtOf(Member(body.value.fields, "expires_at"), Member(body.value.fields, "expires_in"), now) == Some(r.value.expiresAt))
    ensures r.Failure? ==> r.error == Malformed
    ensures forall fs, a, e ::
      (&& body == Some(JObject(fs)) && Member(fs, "access_token") == Some(JString(a))
       && ExpiresAtOf(Member(fs, "expires_at"), Member(fs, "expires_in"), now) == Some(e)) ==>
      r == Success(TokenInfo(a, e, tenant))
  {
    if body.Some? && body.value.JObject? then
      var fields := body.value.fields;
      match (Member(fields, "access_token"), ExpiresAtOf(Member(fields, "expires_at"), Member(fields, "expires_in"), now))
      case (Some(JString(a)), Some(e)) => Success(TokenInfo(a, e, tenant))
      case _ => Failure(Malformed)
    else Failure(Malformed)
  }

  /** The error a failed exchange raises: the reply's `error_description` when the reply is JSON
      and has one, else "Token exchange failed: <status>". */
  function ExchangeError(status: int, jsonContentType: bool, body: Option<Value>): (e: LoginError)
    ensures !jsonContentType ==> e == AuthError("Token exchange failed: " + IntToString(status))
    ensures forall fs :: jsonContentType && body == Some(JObject(fs)) && Member(fs, "error_description").None? ==>
      e == AuthError("Token exchange failed: " + IntToString(status))
    ensures forall fs, d :: jsonContentType && body == Some(JObject(fs)) && Member(fs, "error_description") == Some(JString(d)) ==>
      e == AuthError(d)
    ensures e.HttpStatusError? == false
  {
    if !jsonContentType then AuthError("Token exchange failed: " + IntToString(status))
    else match body
      case Some(JObject(fs)) =>
        (match Member(fs, "error_description")
         case None => AuthError("Token exchange failed: " + IntToString(status))
         case Some(JString(d)) => AuthError(d)
         case Some(_) => Malformed)
      case _ => Malformed
  }

  /** The code exchange at `<vault>/auth/oauth/token`. */
  function ExchangeOutcome(reply: Http.Reply, vaultUrl: string, tenant: string, now: int): (r: Result<TokenInfo, LoginError>)
    ensures reply.ConnectFailed? ==> r == Failure(AuthError("Cannot connect to " + vaultUrl))
    ensures reply.Received? && !Http.IsSuccess(reply.status) ==> r.Failure? && !r.error.HttpStatusError?
    ensures reply.Received? && !Http.IsSuccess(reply.status) ==>
      r == Failure(ExchangeError(reply.status, reply.jsonContentType, reply.body))
    ensures reply.Received? && Http.IsSuccess(reply.status) ==> r == ExchangedToken(reply.body, tenant, now)
    ensures r.Success? ==> reply.Received? && Http.IsSuccess(reply.status) && r.value.tenant == tenant
  {
    match reply
    case ConnectFailed => Failure(AuthError("Cannot connect to " + vaultUrl))
    case Received(status, jsonContentType, body) =>
      if !Http.IsSuccess(status) then Failure(ExchangeError(status, jsonContentType, body))
      else ExchangedToken(body, tenant, now)
  }

  /** `_service_account_login` after its POST: 401 and 403 have messages of their own (403 is
      a plain `AuthError`, not a tier error), any other non-2xx status is an `HTTPStatusError`,
      and a success must carry `access_token` and `expires_at`. */
  function ServiceAccountOutcome(reply: Http.Reply, vaultUrl: string, tenant: string): (r: Result<TokenInfo, LoginError>)
    ensures reply.ConnectFailed? ==> r == Failure(AuthError("Cannot connect to " + vaultUrl))
    ensures reply.Received? && reply.status == 401 ==> r == Failure(AuthError("Invalid service account credentials"))
    ensures reply.Received? && reply.status == 403 ==> r == Failure(AuthError("Service accounts require Enterprise tier"))
    ensures reply.Received? && reply.status != 401 && reply.status != 403 && !Http.IsSuccess(reply.status) ==>
      r == Failure(HttpStatusError(reply.status))
    ensures r.Success? ==> (
      && reply.Received? && Http.IsSuccess(reply.status) && reply.body.Some? && reply.body.value.JObject?
      && r.value.tenant == tenant
      && Member(reply.body.value.fields, "access_token") == Some(JString(r.value.accessToken))
      && Member(reply.body.value.fields, "expires_at") == Some(JInt(r.value.expiresAt)))
    ensures forall s, j, fs, a, e ::
      (&& reply == Http.Received(s, j, Some(JObject(fs))) && Http.IsSuccess(s)
       && Member(fs, "access_token") == Some(JString(a)) && Member(fs, "expires_at") == Some(JInt(e))) ==>
      r == Success(TokenInfo(a, e, tenant))
  {
    match reply
    case ConnectFailed => Failure(AuthError("Cannot connect to " + vaultUrl))
    case Received(status, _, body) =>
      if status == 401 then Failure(AuthError("Invalid service account credentials"))
      else if status == 403 then Failure(AuthError("Service accounts require Enterprise tier"))
      else if !Http.IsSuccess(status) then Failure(HttpStatusError(status))
      else if body.Some? && body.value.JObject? then
        match (Member(body.value.fields, "access_token"), Member(body.value.fields, "expires_at"))
        case (Some(JString(a)), Some(JInt(e))) => Success(TokenInfo(a, e, tenant))
        case _ => Failure(Malformed)
      else Failure(Malformed)
  }

  /** `http://127.0.0.1:<port>/callback`. */
  function CallbackUrl(port: nat): string
  {
    "http://127.0.0.1:" + NatToString(port) + "/callback"
  }

  /** The query parameters of the authorisation url opened in the browser, before encoding. */
  function AuthorizeParams(callbackUrl: string, state: string, fingerprint: string, forceLogin: bool): (p: Dict<string>)
    ensures Keys(p) == ["redirect_uri", "state", "device_fingerprint", "force_login"]
    ensures Get(p, "redirect_uri") == Some(callbackUrl) && Get(p, "state") == Some(state)
    ensures Get(p, "force_login") == Some(if forceLogin then "1" else "0")
  {
    [("redirect_uri", callbackUrl), ("state", state), ("device_fingerprint", fingerprint),
     ("force_login", if forceLogin then "1" else "0")]
  }

  /** What one login obtains from outside the program. */
  datatype LoginWorld = LoginWorld(
    now: int,                  // int(time.time()) at the exchange
    port: nat,                 // the port the callback server bound
    csrfState: string,         // secrets.token_urlsafe(16)
    fingerprint: string,       // the quoted device fingerprint
    callback: Option<Query>,   // the request the callback server handled, if any before the wait ended
    exchangeReply: Http.Reply, // reply to the code exchange
    serviceReply: Http.Reply)  // reply to the service-account POST

  /** The result of `login(tenant, vault_url, api_key, master_key, force_login)`. */
  function LoginOutcome(doc: Document, tenant: string, vaultUrl: Option<string>, apiKey: Option<string>,
                        masterKey: Option<string>, w: LoginWorld): (r: Result<TokenInfo, LoginError>)
    ensures Filled(apiKey) && Filled(masterKey) ==>
      r == ServiceAccountOutcome(w.serviceReply, ResolveVaultUrl(vaultUrl, doc, tenant), tenant)
    ensures !(Filled(apiKey) && Filled(masterKey)) && CallbackOutcome(w.callback).WaitFailed? ==>
      r == Failure(AuthError(CallbackOutcome(w.callback).msg))
    ensures !(Filled(apiKey) && Filled(masterKey)) && CallbackOutcome(w.callback).ExchangeCode? ==>
      r == ExchangeOutcome(w.exchangeReply, ResolveVaultUrl(vaultUrl, doc, tenant), tenant, w.now)
  {
    var url := ResolveVaultUrl(vaultUrl, doc, tenant);
    match ChooseFlow(apiKey, masterKey)
    case ServiceAccountFlow(_, _) => ServiceAccountOutcome(w.serviceReply, url, tenant)
    case BrowserFlow =>
      match CallbackOutcome(w.callback)
      case WaitFailed(m) => Failure(AuthError(m))
      case ExchangeCode(_) => ExchangeOutcome(w.exchangeReply, url, tenant, w.now)
  }

  /** A successful login always yields a token for the tenant asked for, from a 2xx reply of
      the flow the keys select. */
  lemma LoginTokenIsForTenant(doc: Document, tenant: string, vaultUrl: Option<string>, apiKey: Option<string>,
                              masterKey: Option<string>, w: LoginWorld)
    requires LoginOutcome(doc, tenant, vaultUrl, apiKey, masterKey, w).Success?
    ensures LoginOutcome(doc, tenant, vaultUrl, apiKey, masterKey, w).value.tenant == tenant
    ensures Filled(apiKey) && Filled(masterKey) ==> w.serviceReply.Received? && Http.IsSuccess(w.serviceReply.status)
    ensures !(Filled(apiKey) && Filled(masterKey)) ==>
      CallbackOutcome(w.callback).ExchangeCode? && w.exchangeReply.Received? && Http.IsSuccess(w.exchangeReply.status)
  {
  }

  /** A service-account login whose 2xx reply carries a string `access_token` and an integer
      `expires_at` yields exactly that token for the tenant, and the token is valid at `now`
      while more than five minutes remain. */
  lemma ServiceAccountLoginSucceeds(doc: Document, tenant: string, vaultUrl: Option<string>, apiKey: Option<string>,
                                    masterKey: Option<string>, w: LoginWorld, fs: Dict<Value>, a: string, e: int)
    requires Filled(apiKey) && Filled(masterKey)
    requires w.serviceReply.Received? && Http.IsSuccess(w.serviceReply.status) && w.serviceReply.body == Some(JObject(fs))
    requires Member(fs, "access_token") == Some(JString(a)) && Member(fs, "expires_at") == Some(JInt(e))
    ensures LoginOutcome(doc, tenant, vaultUrl, apiKey, masterKey, w) == Success(TokenInfo(a, e, tenant))
    ensures e > w.now + 300 ==> !IsExpired(TokenInfo(a, e, tenant), w.now)
  {
    var reply := w.serviceReply;
    assert reply == Http.Received(reply.status, reply.jsonContentType, Some(JObject(fs)));
  }

  /** A service account for tenant "acme" answered with `{access_token: "tok123", expires_at:
      now + 14400}` logs in with that token, which is not expired at `now`. */
  lemma ServiceAccountLoginExample(doc: Document, vaultUrl: Option<string>, w: LoginWorld)
    requires w.serviceReply == Http.Received(200, true,
      Some(JObject([("access_token", JString("tok123")), ("expires_at", JInt(w.now + 14400))])))
    ensures LoginOutcome(doc, "acme", vaultUrl, Some("key"), Some("master"), w) == Success(TokenInfo("tok123", w.now + 14400, "acme"))
    ensures !IsExpired(TokenInfo("tok123", w.now + 14400, "acme"), w.now)
  {
    var first: (string, Value) := ("access_token", JString("tok123"));
    var fs := [first, ("expires_at", JInt(w.now + 14400))];
    assert FromPairs([first]) == [first] by {
      assert [first][..0] == [];
    }
    assert fs[..1] == [first];
    assert FromPairs(fs) == Put([first], "expires_at", JInt(w.now + 14400));
    ServiceAccountLoginSucceeds(doc, "acme", vaultUrl, Some("key"), Some("master"), w, fs, "tok123", w.now + 14400);
  }

  /** Service-account logins map 401 and 403 to their own messages, whatever the url and keys. */
  lemma ServiceAccountRejections(doc: Document, tenant: string, vaultUrl: Option<string>, apiKey: string,
                                 masterKey: string, w: LoginWorld)
    requires apiKey != "" && masterKey != "" && w.serviceReply.Received?
    ensures w.serviceReply.status == 401 ==>
      LoginOutcome(doc, tenant, vaultUrl, Some(apiKey), Some(masterKey), w) == Failure(AuthError("Invalid service account credentials"))
    ensures w.serviceReply.status == 403 ==>
      LoginOutcome(doc, tenant, vaultUrl, Some(apiKey), Some(masterKey), w) == Failure(AuthError("Service accounts require Enterprise tier"))
  {
  }

  /** The random CSRF state sent to the vault plays no part in the outcome of a login. */
  lemma LoginIgnoresCsrfState(doc: Document, tenant: string, vaultUrl: Option<string>, apiKey: Option<string>,
                              masterKey: Option<string>, w: LoginWorld, s: string)
    ensures LoginOutcome(doc, tenant, vaultUrl, apiKey, masterKey, w.(csrfState := s))
         == LoginOutcome(doc, tenant, vaultUrl, apiKey, masterKey, w)
    ensures w.callback.Some? ==>
      LoginOutcome(doc, tenant, vaultUrl, apiKey, masterKey, w.(callback := Some(w.callback.value["state" := [s]])))
      == LoginOutcome(doc, tenant, vaultUrl, apiKey, masterKey, w)
  {
    if w.callback.Some? {
      StateNeverCompared(w.callback.value, s);
    }
  }

  /** The part of `login` before anything is saved: the flow the keys select, the callback
      server and its wait, and the reply that decides the outcome. */
  method Authenticate(doc: Document, tenant: string, vaultUrl: Option<string>, apiKey: Option<string>,
                      masterKey: Option<string>, forceLogin: bool, w: LoginWorld)
    returns (r: Result<TokenInfo, LoginError>, authParams: Option<Dict<string>>)
    ensures r == LoginOutcome(doc, tenant, vaultUrl, apiKey, masterKey, w)
    ensures authParams.Some? <==> ChooseFlow(apiKey, masterKey).BrowserFlow?
    ensures authParams.Some? ==> authParams.value == AuthorizeParams(CallbackUrl(w.port), w.csrfState, w.fingerprint, forceLogin)
  {
    var url := ResolveVaultUrl(vaultUrl, doc, tenant);
    authParams := None;
    if Filled(apiKey) && Filled(masterKey) {
      r := ServiceAccountOutcome(w.serviceReply, url, tenant);
    } else {
      var received := new CallbackState();
      if w.callback.Some? {
        var _ := received.HandleGet(w.callback.value);
      }
      authParams := Some(AuthorizeParams(CallbackUrl(w.port), w.csrfState, w.fingerprint, forceLogin));
      var waited := AfterWait(received.Snapshot());
      if waited.WaitFailed? {
        r := Failure(AuthError(waited.msg));
      } else {
        r := ExchangeOutcome(w.exchangeReply, url, tenant, w.now);
      }
    }
  }

  /** `login`: resolve the url, run the chosen flow, and on success save the token and the
      tenant's url (which drops any default record saved before). */
  method Login(tokens: TokenStore, config: ConfigStore, tenant: string, vaultUrl: Option<string>, apiKey: Option<string>,
               masterKey: Option<string>, forceLogin: bool, w: LoginWorld)
    returns (r: Result<TokenInfo, LoginError>, authParams: Option<Dict<string>>)
    modifies tokens, config
    ensures r == LoginOutcome(old(config.Current()), tenant, vaultUrl, apiKey, masterKey, w)
    ensures authParams.Some? <==> ChooseFlow(apiKey, masterKey).BrowserFlow?
    ensures authParams.Some? ==> authParams.value == AuthorizeParams(CallbackUrl(w.port), w.csrfState, w.fingerprint, forceLogin)
    ensures r.Success? ==> tokens.file == Present(old(tokens.Tokens())[tenant := ToJson(r.value)])
    ensures r.Success? ==> config.file == Parsed(WithTenant(old(config.Current()), tenant, ResolveVaultUrl(vaultUrl, old(config.Current()), tenant), None))
    ensures r.Success? ==> tokens.GetToken(tenant) == Some(r.value)
    ensures r.Success? ==> GetTenantUrl(config.Current(), tenant) == Some(ResolveVaultUrl(vaultUrl, old(config.Current()), tenant))
    ensures r.Failure? ==> tokens.file == old(tokens.file) && config.file == old(config.file)
  {
    var doc := config.Current();
    r, authParams := Authenticate(doc, tenant, vaultUrl, apiKey, masterKey, forceLogin, w);
    if r.Success? {
      tokens.SaveToken(tenant, r.value);
      config.SaveTenantConfig(tenant, ResolveVaultUrl(vaultUrl, doc, tenant), None);
    }
  }

  /** The tenants `logout(tenant)` deletes: the given one when non-empty, else every tenant of
      the configuration, in order. */
  function LogoutTargets(doc: Document, tenant: Option<string>): (ts: seq<string>)
    ensures Filled(tenant) ==> ts == [tenant.value]
    ensures !Filled(tenant) ==> ts == Keys(TenantsOf(doc))
    ensures forall i, j :: 0 <= i < j < |ts| ==> ts[i] != ts[j]
  {
    if Filled(tenant) then [tenant.value] else Keys(TenantsOf(doc))
  }

  /** The failure, if any, of the write deleting `t`'s token. */
  function FaultFor(faults: map<string, TokensFile>, t: string): Option<TokensFile>
  {
    if t in faults then Some(faults[t]) else None
  }

  /** The tokens file after `delete_token` ran for each of `ts` in order. */
  function DeleteAll(f: TokensFile, ts: seq<string>, faults: map<string, TokensFile>): TokensFile
  {
    if ts == [] then f
    else DeleteOutcome(DeleteAll(f, ts[..|ts| - 1], faults), ts[|ts| - 1], FaultFor(faults, ts[|ts| - 1]))
  }

  /** When no write fails, logging out removes exactly the targeted tenants' tokens. */
  lemma {:induction false} DeleteAllRemovesTargets(f: TokensFile, ts: seq<string>)
    ensures LoadTokensFile(DeleteAll(f, ts, map[])) == LoadTokensFile(f) - (set t | t in ts)
  {
    if ts != [] {
      var init := ts[..|ts| - 1];
      DeleteAllRemovesTargets(f, init);
      assert (set t | t in ts) == (set t | t in init) + {ts[|ts| - 1]} by {
        assert ts == init + [ts[|ts| - 1]];
      }
    }
  }

  /** A failed delete does not stop the loop: every tenant after the last failing one has no
      token afterwards. */
  lemma {:induction false} DeleteAllContinuesPastFailures(f: TokensFile, ts: seq<string>, faults: map<string, TokensFile>, k: nat)
    requires k <= |ts|
    requires forall j :: k <= j < |ts| ==> ts[j] !in faults
    ensures forall j :: k <= j < |ts| ==> ts[j] !in LoadTokensFile(DeleteAll(f, ts, faults))
  {
    if k < |ts| {
      var init := ts[..|ts| - 1];
      DeleteAllContinuesPastFailures(f, init, faults, k);
      forall j | k <= j < |ts|
        ensures ts[j] !in LoadTokensFile(DeleteAll(f, ts, faults))
      {
        if j < |ts| - 1 {
          assert ts[j] == init[j];
        }
      }
    }
  }

  /** `logout(tenant)`: delete the tenant's token, or, given no tenant, each configured
      tenant's token in turn, carrying on past any that fails. */
  method Logout(store: TokenStore, config: ConfigStore, tenant: Option<string>, faults: map<string, TokensFile>)
    modifies store
    ensures store.file == DeleteAll(old(store.file), LogoutTargets(config.Current(), tenant), faults)
  {
    if Filled(tenant) {
      store.DeleteToken(tenant.value, FaultFor(faults, tenant.value));
      assert [tenant.value][..0] == [];
    } else {
      var ts := Keys(TenantsOf(config.Current()));
      var i := 0;
      while i < |ts|
        invariant 0 <= i <= |ts|
        invariant store.file == DeleteAll(old(store.file), ts[..i], faults)
      {
        store.DeleteToken(ts[i], FaultFor(faults, ts[i]));
        assert ts[..i + 1][..i] == ts[..i];
        i := i + 1;
      }
      assert ts[..|ts|] == ts;
    }
  }

  /** `logout` with a named tenant leaves every other tenant's token in place; with an empty
      name it logs out of every configured tenant. */
  lemma LogoutScope(f: TokensFile, doc: Document, tenant: Option<string>, other: string)
    ensures Filled(tenant) && other != tenant.value ==>
      TokenFor(LoadTokensFile(DeleteAll(f, LogoutTargets(doc, tenant), map[])), other) == TokenFor(LoadTokensFile(f), other)
    ensures Filled(tenant) ==> TokenFor(LoadTokensFile(DeleteAll(f, LogoutTargets(doc, tenant), map[])), tenant.value) == None
    ensures LogoutTargets(doc, Some("")) == LogoutTargets(doc, None)
  {
    var ts := LogoutTargets(doc, tenant);
    DeleteAllRemovesTargets(f, ts);
    if Filled(tenant) {
      var before, after := LoadTokensFile(f), LoadTokensFile(DeleteAll(f, ts, map[]));
      assert (set t | t in ts) == {tenant.value};
      assert after == before - {tenant.value};
      if other != tenant.value {
        assert (other in after) == (other in before);
        if other in before {
          assert after[other] == before[other];
        }
      }
    }
  }
}
