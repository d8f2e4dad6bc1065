/** The vault API client (src/ikv_secrets/client.py): url normalisation, construction from
    the environment, the choice of authentication headers, and the classification of the
    replies to `GET /api/v1/env/<record>` and `GET /api/v1/env`. The HTTP exchange itself is a
    `Reply` parameter; the clock, the random nonce and HMAC-SHA256 are parameters too. */
module Client {
  import opened Wrappers
  import opened Strings
  import opened Dicts
  import opened Json
  import Http
  import opened KeyringStore

  /** The exceptions the client lets escape: `IKVClientError` and its subclasses
      `AuthenticationError` and `TierError`, httpx's `HTTPStatusError` and transport errors, and
      a reply body the code cannot read. */
  datatype ClientError =
    | IKVClientError(msg: string)
    | AuthenticationError(msg: string)
    | TierError(msg: string, requiredTier: string, currentTier: string)
    | HttpStatusError(status: int)
    | TransportError
    | MalformedBody

  /** The errors that are `IKVClientError` instances, which the callers catch. */
  predicate IsIKVClientError(e: ClientError)
  {
    e.IKVClientError? || e.AuthenticationError? || e.TierError?
  }

  /** A client's fixed settings. */
  datatype IKVClient = IKVClient(vaultUrl: string, tenant: string, apiKey: Option<string>, masterKey: Option<string>)

  /** `IKVClient(vault_url, tenant, api_key, master_key)`: the url loses its trailing `/`s. */
  function NewClient(vaultUrl: string, tenant: string, apiKey: Option<string>, masterKey: Option<string>): (c: IKVClient)
    ensures |c.vaultUrl| <= |vaultUrl| && c.vaultUrl == vaultUrl[..|c.vaultUrl|]
    ensures c.vaultUrl == [] || c.vaultUrl[|c.vaultUrl| - 1] != '/'
    ensures forall i :: |c.vaultUrl| <= i < |vaultUrl| ==> vaultUrl[i] == '/'
    ensures c.tenant == tenant && c.apiKey == apiKey && c.masterKey == masterKey
  {
    IKVClient(RStrip(vaultUrl, '/'), tenant, apiKey, masterKey)
  }

  /** `os.environ.get(name)`. */
  function EnvGet(env: map<string, string>, name: string): Option<string>
  {
    if name in env then Some(env[name]) else None
  }

  const VaultUrlNotSet: string := "IKV_VAULT_URL not set. Run 'ikv-secrets login --tenant <name>' first."
  const TenantNotSet: string := "IKV_TENANT not set. Run 'ikv-secrets login --tenant <name>' first."

  /** `IKVClient.from_env()`: the vault url is checked before the tenant. */
  function FromEnv(env: map<string, string>): (r: Result<IKVClient, ClientError>)
    ensures !Filled(EnvGet(env, "IKV_VAULT_URL")) ==> r == Failure(IKVClientError(VaultUrlNotSet))
    ensures Filled(EnvGet(env, "IKV_VAULT_URL")) && !Filled(EnvGet(env, "IKV_TENANT")) ==>
      r == Failure(IKVClientError(TenantNotSet))
    ensures r.Success? <==> Filled(EnvGet(env, "IKV_VAULT_URL")) && Filled(EnvGet(env, "IKV_TENANT"))
    ensures r.Success? ==> r.value == NewClient(env["IKV_VAULT_URL"], env["IKV_TENANT"],
                                                EnvGet(env, "IKV_API_KEY"), EnvGet(env, "IKV_MASTER_KEY"))
  {
    var vaultUrl := EnvGet(env, "IKV_VAULT_URL");
    var tenant := EnvGet(env, "IKV_TENANT");
    if !Filled(vaultUrl) then Failure(IKVClientError(VaultUrlNotSet))
    else if !Filled(tenant) then Failure(IKVClientError(TenantNotSet))
    else Success(NewClient(vaultUrl.value, tenant.value, EnvGet(env, "IKV_API_KEY"), EnvGet(env, "IKV_MASTER_KEY")))
  }

  /** The message signed in service-account mode. */
  function SignedMessage(timestamp: string, nonce: string, tenant: string): string
  {
    timestamp + ":" + nonce + ":" + tenant
  }

  function NotLoggedInMessage(tenant: string): string
  {
    "Not logged in to tenant '" + tenant + "'. Run 'ikv-secrets login --tenant " + tenant + "' first."
  }

  function TokenExpiredMessage(tenant: string): string
  {
    "Token expired for tenant '" + tenant + "'. Run 'ikv-secrets login --tenant " + tenant + "' to re-authenticate."
  }

  /** The five service-account headers, the signature computed by `sign(api_key, message)`. */
  function ServiceHeaders(apiKey: string, masterKey: string, timestamp: string, nonce: string, tenant: string,
                          sign: (string, string) -> string): (h: PyDict<string>)
    ensures Keys(h) == ["X-API-Key", "X-Master-Key", "X-Timestamp", "X-Nonce", "X-Signature"]
  {
    [("X-API-Key", apiKey), ("X-Master-Key", masterKey), ("X-Timestamp", timestamp), ("X-Nonce", nonce),
     ("X-Signature", sign(apiKey, SignedMessage(timestamp, nonce, tenant)))]
  }

  /** Each service-account header carries its value; the signature covers timestamp, nonce and
      tenant. */
  lemma ServiceHeaderValues(apiKey: string, masterKey: string, timestamp: string, nonce: string, tenant: string,
                            sign: (string, string) -> string)
    ensures var h := ServiceHeaders(apiKey, masterKey, timestamp, nonce, tenant, sign);
      && Get(h, "X-API-Key") == Some(apiKey) && Get(h, "X-Master-Key") == Some(masterKey)
      && Get(h, "X-Timestamp") == Some(timestamp) && Get(h, "X-Nonce") == Some(nonce)
      && Get(h, "X-Signature") == Some(sign(apiKey, timestamp + ":" + nonce + ":" + tenant))
  {
    var h := ServiceHeaders(apiKey, masterKey, timestamp, nonce, tenant, sign);
    GetAt(h, 0);
    GetAt(h, 1);
    GetAt(h, 2);
    GetAt(h, 3);
    GetAt(h, 4);
  }

  /** The one header of interactive mode. */
  function BearerHeaders(accessToken: string): (h: PyDict<string>)
    ensures Keys(h) == ["Authorization"] && Get(h, "Authorization") == Some("Bearer " + accessToken)
  {
    [("Authorization", "Bearer " + accessToken)]
  }

  /** `_get_auth_headers`. With both keys, the service-account headers over the timestamp `now`
      and the hex `nonce`; otherwise the stored token as a bearer token, unless it is missing
      or expired. */
  function AuthHeaders(c: IKVClient, tokens: map<string, Value>, now: int, nonce: string,
                       sign: (string, string) -> string): (r: Result<PyDict<string>, ClientError>)
    ensures Filled(c.apiKey) && Filled(c.masterKey) ==>
      r == Success(ServiceHeaders(c.apiKey.value, c.masterKey.value, IntToString(now), nonce, c.tenant, sign))
    ensures !(Filled(c.apiKey) && Filled(c.masterKey)) && TokenFor(tokens, c.tenant).None? ==>
      r == Failure(AuthenticationError(NotLoggedInMessage(c.tenant)))
    ensures !(Filled(c.apiKey) && Filled(c.masterKey)) && TokenFor(tokens, c.tenant).Some? && IsExpired(TokenFor(tokens, c.tenant).value, now) ==>
      r == Failure(AuthenticationError(TokenExpiredMessage(c.tenant)))
    ensures !(Filled(c.apiKey) && Filled(c.masterKey)) && r.Success? ==> (
      && TokenFor(tokens, c.tenant).Some? && !IsExpired(TokenFor(tokens, c.tenant).value, now)
      && r.value == BearerHeaders(TokenFor(tokens, c.tenant).value.accessToken))
  {
    if Filled(c.apiKey) && Filled(c.masterKey) then
      Success(ServiceHeaders(c.apiKey.value, c.masterKey.value, IntToString(now), nonce, c.tenant, sign))
    else
      match TokenFor(tokens, c.tenant)
      case None => Failure(AuthenticationError(NotLoggedInMessage(c.tenant)))
      case Some(t) =>
        if IsExpired(t, now) then Failure(AuthenticationError(TokenExpiredMessage(c.tenant)))
        else Success(BearerHeaders(t.accessToken))
  }

  /** Header selection never looks at the token store when both keys are set. */
  lemma ServiceHeadersIgnoreTokens(c: IKVClient, tokens: map<string, Value>, tokens': map<string, Value>, now: int,
                                   nonce: string, sign: (string, string) -> string)
    requires Filled(c.apiKey) && Filled(c.masterKey)
    ensures AuthHeaders(c, tokens, now, nonce, sign) == AuthHeaders(c, tokens', now, nonce, sign)
  {
  }

  /** `data.get(k, default)` for a member that must be a string. */
  function StringMember(fields: Dict<Value>, k: string, default: string): (r: Option<string>)
    ensures Member(fields, k).None? ==> r == Some(default)
    ensures forall s :: Member(fields, k) == Some(JString(s)) ==> r == Some(s)
    ensures r.None? <==> Member(fields, k).Some? && !Member(fields, k).value.JString?
  {
    match Member(fields, k)
    case None => Some(default)
    case Some(JString(s)) => Some(s)
    case Some(_) => None
  }

  /** A member that is absent or a string, as the `TierError` fields need. */
  predicate StringOrAbsent(fields: Dict<Value>, k: string)
  {
    Member(fields, k).None? || Member(fields, k).value.JString?
  }

  /** The `TierError` raised for a 403 reply: each of `error`, `required_tier` and
      `current_tier` is taken from the reply when present, else from its default. */
  function TierErrorOf(body: Option<Value>): (e: ClientError)
    ensures e.TierError? || e == MalformedBody
    ensures !(body.Some? && body.value.JObject?) ==> e == MalformedBody
    ensures body == Some(JObject([])) ==> e == TierError("Feature requires higher tier", "premium", "unknown")
    ensures body.Some? && body.value.JObject? ==> (
      var fs := body.value.fields;
      && (e.TierError? <==> StringOrAbsent(fs, "error") && StringOrAbsent(fs, "required_tier") && StringOrAbsent(fs, "current_tier"))
      && (e.TierError? && Member(fs, "error").None? ==> e.msg == "Feature requires higher tier")
      && (e.TierError? && Member(fs, "error").Some? ==> Member(fs, "error") == Some(JString(e.msg)))
      && (e.TierError? && Member(fs, "required_tier").None? ==> e.requiredTier == "premium")
      && (e.TierError? && Member(fs, "required_tier").Some? ==> Member(fs, "required_tier") == Some(JString(e.requiredTier)))
      && (e.TierError? && Member(fs, "current_tier").None? ==> e.currentTier == "unknown")
      && (e.TierError? && Member(fs, "current_tier").Some? ==> Member(fs, "current_tier") == Some(JString(e.currentTier))))
  {
    match body
    case Some(JObject(fs)) =>
      (match (StringMember(fs, "error", "Feature requires higher tier"), StringMember(fs, "required_tier", "premium"),
              StringMember(fs, "current_tier", "unknown"))
       case (Some(m), Some(req), Some(cur)) => TierError(m, req, cur)
       case _ => MalformedBody)
    case _ => MalformedBody
  }

  /** The values of a decoded object when every one is a string, keys and order kept. */
  function StringValues(d: PyDict<Value>): (r: Option<PyDict<string>>)
    ensures r.Some? <==> forall i :: 0 <= i < |d| ==> d[i].1.JString?
    ensures r.Some? ==> Keys(r.value) == Keys(d) && forall i :: 0 <= i < |d| ==> r.value[i].1 == d[i].1.s
  {
    if forall i :: 0 <= i < |d| ==> d[i].1.JString? then
      var r: Dict<string> := seq(|d|, i requires 0 <= i < |d| => (d[i].0, d[i].1.s));
      assert Keys(r) == Keys(d);
      assert DistinctKeys(r) by {
        forall i, j | 0 <= i < j < |r| ensures r[i].0 != r[j].0 {
          assert r[i].0 == d[i].0 && r[j].0 == d[j].0;
        }
      }
      Some(r)
    else None
  }

  function NotFoundMessage(recordId: string): string
  {
    "Env record '" + recordId + "' not found"
  }

  /** `get_env(record_id)` once the headers are built: 401, 403 and 404 raise the client's own
      errors, any other non-2xx status is an `HTTPStatusError`, and a success yields the body's
      `variables`, or no variables when the member is absent. */
  function EnvReply(recordId: string, reply: Http.Reply): (r: Result<PyDict<string>, ClientError>)
    ensures reply.ConnectFailed? ==> r == Failure(TransportError)
    ensures reply.Received? && reply.status == 401 ==> r == Failure(AuthenticationError("Authentication failed. Please login again."))
    ensures reply.Received? && reply.status == 403 ==> r == Failure(TierErrorOf(reply.body))
    ensures reply.Received? && reply.status == 404 ==> r == Failure(IKVClientError(NotFoundMessage(recordId)))
    ensures reply.Received? && reply.status !in {401, 403, 404} && !Http.IsSuccess(reply.status) ==>
      r == Failure(HttpStatusError(reply.status))
    ensures forall fs :: (reply.Received? && Http.IsSuccess(reply.status) && reply.body == Some(JObject(fs))
      && Member(fs, "variables").None?) ==> r == Success([])
    ensures forall fs, vs ::
      (&& reply.Received? && Http.IsSuccess(reply.status) && reply.body == Some(JObject(fs))
       && Member(fs, "variables") == Some(JObject(vs))) ==>
      r == (if StringValues(FromPairs(vs)).Some? then Success(StringValues(FromPairs(vs)).value) else Failure(MalformedBody))
    ensures forall fs ::
      (&& reply.Received? && Http.IsSuccess(reply.status) && reply.body == Some(JObject(fs))
       && Member(fs, "variables").Some? && !Member(fs, "variables").value.JObject?) ==> r == Failure(MalformedBody)
    ensures reply.Received? && Http.IsSuccess(reply.status) && !(reply.body.Some? && reply.body.value.JObject?) ==>
      r == Failure(MalformedBody)
    ensures r.Success? ==> reply.Received? && Http.IsSuccess(reply.status)
  {
    match reply
    case ConnectFailed => Failure(TransportError)
    case Received(status, _, body) =>
      if status == 401 then Result<PyDict<string>, ClientError>.Failure(AuthenticationError("Authentication failed. Please login again."))
      else if status == 403 then Failure(TierErrorOf(body))
      else if status == 404 then Failure(IKVClientError(NotFoundMessage(recordId)))
      else if !Http.IsSuccess(status) then Failure(HttpStatusError(status))
      else match body
        case Some(JObject(fs)) =>
          (match Member(fs, "variables")
           case None => Success([])
           case Some(JObject(vs)) =>
             (match StringValues(FromPairs(vs))
              case Some(vars) => Success(vars)
              case None => Failure(MalformedBody))
           case Some(_) => Failure(MalformedBody))
        case _ => Failure(MalformedBody)
  }

  /** A successful `get_env` returns exactly the variables of the reply, under dict semantics. */
  lemma EnvReplyVariables(recordId: string, status: int, jsonContentType: bool, fs: Dict<Value>, vs: Dict<Value>, k: string)
    requires Http.IsSuccess(status) && Member(fs, "variables") == Some(JObject(vs))
    requires forall i :: 0 <= i < |FromPairs(vs)| ==> FromPairs(vs)[i].1.JString?
    ensures EnvReply(recordId, Http.Received(status, jsonContentType, Some(JObject(fs)))).Success?
    ensures var vars := EnvReply(recordId, Http.Received(status, jsonContentType, Some(JObject(fs)))).value;
      (Get(vars, k).Some? <==> k in Keys(vs)) && (Get(vars, k).Some? ==> Member(vs, k) == Some(JString(Get(vars, k).value)))
  {
    var d := FromPairs(vs);
    var vars := StringValues(d).value;
    assert EnvReply(recordId, Http.Received(status, jsonContentType, Some(JObject(fs)))) == Success(vars);
    assert Keys(vars) == Keys(d);
    if Get(vars, k).Some? {
      assert k in Keys(vars);
      var i :| 0 <= i < |vars| && Keys(vars)[i] == k;
      GetAt(vars, i);
      GetAt(d, i);
    }
  }

  /** `get_env(record_id)`: headers first (their failure means no request), then the reply. */
  function GetEnv(c: IKVClient, tokens: map<string, Value>, now: int, nonce: string, sign: (string, string) -> string,
                  recordId: string, reply: Http.Reply): (r: Result<PyDict<string>, ClientError>)
    ensures AuthHeaders(c, tokens, now, nonce, sign).Failure? ==> r == Failure(AuthHeaders(c, tokens, now, nonce, sign).error)
    ensures AuthHeaders(c, tokens, now, nonce, sign).Success? ==> r == EnvReply(recordId, reply)
  {
    match AuthHeaders(c, tokens, now, nonce, sign)
    case Failure(e) => Failure(e)
    case Success(_) => EnvReply(recordId, reply)
  }

  /** `list_env_records()` once the headers are built: every non-2xx status, 401 included, is an
      `HTTPStatusError`; a success yields the body's `records`, or none when absent. */
  function RecordsReply(reply: Http.Reply): (r: Result<seq<Value>, ClientError>)
    ensures reply.ConnectFailed? ==> r == Failure(TransportError)
    ensures reply.Received? && !Http.IsSuccess(reply.status) ==> r == Failure(HttpStatusError(reply.status))
    ensures forall fs :: reply.Received? && Http.IsSuccess(reply.status) && reply.body == Some(JObject(fs)) ==>
      (Member(fs, "records").None? ==> r == Success([])) &&
      (forall items :: Member(fs, "records") == Some(JArray(items)) ==> r == Success(items))
    ensures r.Success? ==> reply.Received? && Http.IsSuccess(reply.status)
  {
    match reply
    case ConnectFailed => Failure(TransportError)
    case Received(status, _, body) =>
      if !Http.IsSuccess(status) then Failure(HttpStatusError(status))
      else match body
        case Some(JObject(fs)) =>
          (match Member(fs, "records")
           case None => Success([])
           case Some(JArray(items)) => Success(items)
           case Some(_) => Failure(MalformedBody))
        case _ => Failure(MalformedBody)
  }

  /** Listing records has no special case for 401: unlike `get_env`, it surfaces as an
      `HTTPStatusError`, which is not an `IKVClientError`. */
  lemma ListingDoesNotMapUnauthorized(recordId: string, jsonContentType: bool, body: Option<Value>)
    ensures RecordsReply(Http.Received(401, jsonContentType, body)) == Failure(HttpStatusError(401))
    ensures !IsIKVClientError(RecordsReply(Http.Received(401, jsonContentType, body)).error)
    ensures EnvReply(recordId, Http.Received(401, jsonContentType, body)).error.AuthenticationError?
  {
  }

  /** `list_env_records()`. */
  function ListEnvRecords(c: IKVClient, tokens: map<string, Value>, now: int, nonce: string, sign: (string, string) -> string,
                          reply: Http.Reply): (r: Result<seq<Value>, ClientError>)
    ensures AuthHeaders(c, tokens, now, nonce, sign).Failure? ==> r == Failure(AuthHeaders(c, tokens, now, nonce, sign).error)
    ensures AuthHeaders(c, tokens, now, nonce, sign).Success? ==> r == RecordsReply(reply)
  {
    match AuthHeaders(c, tokens, now, nonce, sign)
    case Failure(e) => Failure(e)
    case Success(_) => RecordsReply(reply)
  }
}
