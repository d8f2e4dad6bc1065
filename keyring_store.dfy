/** Token storage (src/ikv_secrets/keyring_store.py): the `TokenInfo` record with its expiry
    rules and JSON form, and the per-tenant token store. The store is modelled as the JSON
    object kept in `tokens.json` (the file fallback); the OS keyring backend is the same
    tenant-keyed map behind a different transport. Clocks are an integer `now` parameter. */
module KeyringStore {
  import opened Wrappers
  import opened Dicts
  import opened Json

  /** Tokens count as expired this many seconds before `expires_at`. */
  const ExpiryBufferSeconds: int := 300

  datatype TokenInfo = TokenInfo(accessToken: string, expiresAt: int, tenant: string)

  /** `TokenInfo.is_expired` at time `now`. */
  predicate IsExpired(t: TokenInfo, now: int)
  {
    now > t.expiresAt - ExpiryBufferSeconds
  }

  /** `TokenInfo.expires_in` at time `now`: the seconds left, never negative. */
  function ExpiresIn(t: TokenInfo, now: int): (r: nat)
    ensures r >= t.expiresAt - now
    ensures r == 0 || r == t.expiresAt - now
  {
    if t.expiresAt > now then t.expiresAt - now else 0
  }

  /** Exactly 300 seconds before `expires_at` a token is still valid; one second later it is not. */
  lemma ExpiryBoundary(t: TokenInfo)
    ensures !IsExpired(t, t.expiresAt - 300)
    ensures IsExpired(t, t.expiresAt - 299)
  {
  }

  /** Once expired, a token stays expired. */
  lemma ExpiryIsPermanent(t: TokenInfo, now: int, later: int)
    requires IsExpired(t, now) && now <= later
    ensures IsExpired(t, later)
  {
  }

  /** A token that is not expired has at least five minutes left. */
  lemma UnexpiredHasFiveMinutes(t: TokenInfo, now: int)
    requires !IsExpired(t, now)
    ensures ExpiresIn(t, now) >= ExpiryBufferSeconds
    ensures ExpiresIn(t, now) / 60 >= 5
  {
  }

  /** `TokenInfo.to_json`, as the decoded JSON object. */
  function ToJson(t: TokenInfo): (j: Value)
    ensures j.JObject? && Keys(j.fields) == ["access_token", "expires_at", "tenant"]
  {
    JObject([("access_token", JString(t.accessToken)),
             ("expires_at", JInt(t.expiresAt)),
             ("tenant", JString(t.tenant))])
  }

  /** `TokenInfo.from_json` on a decoded JSON value; `None` stands for the exception raised
      when the value is not an object or lacks one of the three members. */
  function FromJson(j: Value): (r: Option<TokenInfo>)
    ensures r.Some? ==> (
      && j.JObject?
      && Member(j.fields, "access_token") == Some(JString(r.value.accessToken))
      && Member(j.fields, "expires_at") == Some(JInt(r.value.expiresAt))
      && Member(j.fields, "tenant") == Some(JString(r.value.tenant)))
    ensures !j.JObject? ==> r == None
    ensures j.JObject? && Member(j.fields, "access_token").None? ==> r == None
    ensures j.JObject? && Member(j.fields, "expires_at").None? ==> r == None
    ensures j.JObject? && Member(j.fields, "tenant").None? ==> r == None
  {
    match j
    case JObject(fields) =>
      (match (Member(fields, "access_token"), Member(fields, "expires_at"), Member(fields, "tenant"))
       case (Some(JString(a)), Some(JInt(e)), Some(JString(t))) => Some(TokenInfo(a, e, t))
       case _ => None)
    case _ => None
  }

  /** Decoding the JSON form of a token gives the token back, in all three fields. */
  lemma JsonRoundTrip(t: TokenInfo)
    ensures FromJson(ToJson(t)) == Some(t)
  {
    var fs := ToJson(t).fields;
    var a, e, n := JString(t.accessToken), JInt(t.expiresAt), JString(t.tenant);
    assert fs[..2][..1] == [("access_token", a)];
    var d1 := FromPairs(fs[..2][..1]);
    assert Get(d1, "access_token") == Some(a);
    var d2 := FromPairs(fs[..2]);
    assert d2 == Put(d1, "expires_at", e);
    var d3 := FromPairs(fs);
    assert d3 == Put(d2, "tenant", n);
    assert Get(d3, "access_token") == Some(a);
    assert Get(d3, "expires_at") == Some(e);
    assert Get(d3, "tenant") == Some(n);
  }

  /** What `tokens.json` holds: no file, a file that does not decode, or a decoded object. */
  datatype TokensFile = Missing | Unreadable | Present(tokens: map<string, Value>)

  /** `_load_tokens_file`: a missing or undecodable file loads as the empty dict. */
  function LoadTokensFile(f: TokensFile): (m: map<string, Value>)
    ensures f.Present? ==> m == f.tokens
    ensures !f.Present? ==> m == map[]
  {
    if f.Present? then f.tokens else map[]
  }

  /** `get_token` over the loaded dict: the decoded token for `tenant`, or `None` when there is
      no entry or the entry does not decode (the exception is swallowed). */
  function TokenFor(tokens: map<string, Value>, tenant: string): (r: Option<TokenInfo>)
    ensures tenant !in tokens ==> r == None
    ensures tenant in tokens ==> r == FromJson(tokens[tenant])
    ensures r.Some? ==> tenant in tokens && Truthy(tokens[tenant])
  {
    if tenant in tokens && Truthy(tokens[tenant]) then FromJson(tokens[tenant]) else None
  }

  /** The file that `delete_token(tenant)` leaves behind. Without a fault, the entry is popped
      and the dict written back (a missing file is created). With a fault, the raised exception
      is swallowed and the file is left as the interrupted, non-atomic write left it. */
  function DeleteOutcome(f: TokensFile, tenant: string, fault: Option<TokensFile>): (g: TokensFile)
    ensures fault.Some? ==> g == fault.value
    ensures fault.None? ==> g.Present? && g.tokens.Keys == LoadTokensFile(f).Keys - {tenant}
    ensures fault.None? ==> forall other :: other in g.tokens ==> g.tokens[other] == LoadTokensFile(f)[other]
  {
    if fault.Some? then fault.value else Present(LoadTokensFile(f) - {tenant})
  }

  /** After saving `t` for `tenant`, reading `tenant` gives `t` back. */
  lemma SaveThenGet(tokens: map<string, Value>, tenant: string, t: TokenInfo)
    ensures TokenFor(tokens[tenant := ToJson(t)], tenant) == Some(t)
  {
    JsonRoundTrip(t);
  }

  /** Saving for one tenant leaves what every other tenant reads unchanged. */
  lemma SaveKeepsOthers(tokens: map<string, Value>, tenant: string, t: TokenInfo, other: string)
    requires other != tenant
    ensures TokenFor(tokens[tenant := ToJson(t)], other) == TokenFor(tokens, other)
  {
    var saved := tokens[tenant := ToJson(t)];
    assert (other in saved) == (other in tokens);
    if other in tokens {
      assert saved[other] == tokens[other];
    }
  }

  /** After a delete, `tenant` reads as absent and every other tenant reads as before. */
  lemma DeleteRemovesOnlyTenant(f: TokensFile, tenant: string, other: string)
    ensures TokenFor(LoadTokensFile(DeleteOutcome(f, tenant, None)), tenant) == None
    ensures other != tenant ==>
      TokenFor(LoadTokensFile(DeleteOutcome(f, tenant, None)), other) == TokenFor(LoadTokensFile(f), other)
  {
  }

  /** Deleting a tenant with no stored token changes no entry. */
  lemma DeleteAbsentIsNoop(f: TokensFile, tenant: string)
    requires tenant !in LoadTokensFile(f)
    ensures LoadTokensFile(DeleteOutcome(f, tenant, None)) == LoadTokensFile(f)
  {
  }

  /** The token store as the source uses it: every call re-reads the backend. */
  class TokenStore {
    var file: TokensFile

    constructor (initial: TokensFile)
      ensures file == initial
    {
      file := initial;
    }

    /** The tenant-keyed dict a read of the backend yields. */
    function Tokens(): map<string, Value>
      reads this
    {
      LoadTokensFile(file)
    }

    /** `get_token(tenant)`. */
    function GetToken(tenant: string): Option<TokenInfo>
      reads this
    {
      TokenFor(Tokens(), tenant)
    }

    /** `save_token(tenant, token)`: load, overwrite the tenant's entry in place, write back. */
    method SaveToken(tenant: string, token: TokenInfo)
      modifies this
      ensures file == Present(old(Tokens())[tenant := ToJson(token)])
      ensures GetToken(tenant) == Some(token)
      ensures forall other :: other != tenant ==> GetToken(other) == old(GetToken(other))
    {
      var tokens := LoadTokensFile(file);
      tokens := tokens[tenant := ToJson(token)];
      file := Present(tokens);
      SaveThenGet(old(Tokens()), tenant, token);
    }

    /** `delete_token(tenant)`: never raises; `fault` is the failure of the underlying write,
        if any, as the file it left behind. */
    method DeleteToken(tenant: string, fault: Option<TokensFile>)
      modifies this
      ensures file == DeleteOutcome(old(file), tenant, fault)
      ensures fault.None? ==> GetToken(tenant) == None
      ensures fault.None? ==> forall other :: other != tenant ==> GetToken(other) == old(GetToken(other))
    {
      if fault.Some? {
        file := fault.value;
      } else {
        var tokens := LoadTokensFile(file);
        tokens := tokens - {tenant};
        file := Present(tokens);
      }
    }
  }
}
