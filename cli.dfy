/** The command line (src/ikv_secrets/cli.py): output line formats, the login skip rule, the
    `status` classification, and the tenant and url checks of `list`, `load` and `export`.
    Each command is a function from its inputs (options, configuration, token store, clock,
    HTTP replies) to what it prints or how it exits. The shell and dotenv formats are read
    back with the POSIX quote removal of module `PosixShell`. */
module Cli {
  import opened Wrappers
  import opened Strings
  import opened Dicts
  import opened Json
  import Http
  import opened KeyringStore
  import opened Config
  import Auth
  import opened Client
  import Env
  import opened PosixShell

  /** What a single quote becomes inside a single-quoted word: close, a double-quoted quote,
      reopen. */
  const QuoteReplacement: string := "'\"'\"'"

  /** `value.replace("'", "'\"'\"'")`. */
  function ShellEscape(v: string): (e: string)
    ensures |e| == |v| + 4 * Count(v, '\'')
    ensures Count(v, '\'') == 0 ==> e == v
  {
    ReplaceChar(v, '\'', QuoteReplacement)
  }

  /** The escaping changes nothing but single quotes, one by one, in order. */
  lemma {:induction false} ShellEscapeSteps(v: string)
    ensures v == [] ==> ShellEscape(v) == []
    ensures v != [] && v[0] == '\'' ==> ShellEscape(v) == QuoteReplacement + ShellEscape(v[1..])
    ensures v != [] && v[0] != '\'' ==> ShellEscape(v) == [v[0]] + ShellEscape(v[1..])
  {
  }

  /** `export K='escaped'`, as `load` and `export -f shell` print it. */
  function ShellLine(k: string, v: string): string
  {
    "export " + k + "='" + ShellEscape(v) + "'"
  }

  /** `value.replace('"', '\\"')`. */
  function DotenvEscape(v: string): (e: string)
    ensures |e| == |v| + Count(v, '"')
    ensures Count(v, '"') == 0 ==> e == v
  {
    ReplaceChar(v, '"', "\\\"")
  }

  /** `K="escaped"`, as `export` prints by default. */
  function DotenvLine(k: string, v: string): string
  {
    k + "=\"" + DotenvEscape(v) + "\""
  }

  /** `K=V`, unescaped, as `export -f docker` prints it. */
  function DockerLine(k: string, v: string): string
  {
    k + "=" + v
  }

  /** Reading `'"'"'` inside single quotes gives back one quote and stays inside. */
  lemma EscapedQuote(x: string)
    ensures Dequote(QuoteReplacement + x, Single) == Prepend('\'', Dequote(x, Single))
  {
    var w := QuoteReplacement + x;
    assert w[0] == '\'' && w[1..] == "\"'\"'" + x;
    assert Dequote(w, Single) == Dequote("\"'\"'" + x, Plain);
    var w1 := "\"'\"'" + x;
    assert w1[0] == '"' && w1[1..] == "'\"'" + x;
    assert Dequote(w1, Plain) == Dequote("'\"'" + x, Double);
    var w2 := "'\"'" + x;
    assert w2[0] == '\'' && w2[1..] == "\"'" + x;
    assert Dequote(w2, Double) == Prepend('\'', Dequote("\"'" + x, Double));
    var w3 := "\"'" + x;
    assert w3[0] == '"' && w3[1..] == "'" + x;
    assert Dequote(w3, Double) == Dequote("'" + x, Plain);
    var w4 := "'" + x;
    assert w4[0] == '\'' && w4[1..] == x;
  }

  /** The closing quote of the single-quoted part hands over to the rest of the word. */
  lemma SingleQuotedEnd(rest: string)
    ensures Dequote(ShellEscape([]) + "'" + rest, Single) == Dequote(rest, Plain)
  {
    var w := ShellEscape([]) + "'" + rest;
    ShellEscapeSteps([]);
    assert w == "'" + rest;
    assert w[0] == '\'' && w[1..] == rest;
  }

  /** The first character of the value, escaped, reads back inside single quotes. */
  lemma SingleQuotedStep(v: string, rest: string)
    requires v != []
    ensures Dequote(ShellEscape(v) + "'" + rest, Single)
         == Prepend(v[0], Dequote(ShellEscape(v[1..]) + "'" + rest, Single))
  {
    var x := ShellEscape(v[1..]) + "'" + rest;
    ShellEscapeSteps(v);
    if v[0] == '\'' {
      assert ShellEscape(v) + "'" + rest == QuoteReplacement + x;
      EscapedQuote(x);
    } else {
      var w := ShellEscape(v) + "'" + rest;
      assert w == [v[0]] + x;
      assert w[0] == v[0] && w[1..] == x;
    }
  }

  /** The escaped text followed by the closing quote reads back as the original value. */
  lemma {:induction false} SingleQuotedBody(v: string, rest: string)
    ensures Dequote(ShellEscape(v) + "'" + rest, Single) == Then(v, Dequote(rest, Plain))
    decreases |v|
  {
    if v == [] {
      SingleQuotedEnd(rest);
      ThenEmpty(Dequote(rest, Plain));
    } else {
      SingleQuotedStep(v, rest);
      SingleQuotedBody(v[1..], rest);
      PrependThen(v[0], v[1..], Dequote(rest, Plain));
      assert [v[0]] + v[1..] == v;
    }
  }

  /** The escaped value in single quotes is one word whose quote removal gives the value back,
      whatever characters it holds. */
  lemma ShellQuotingRoundTrip(v: string)
    ensures Dequote("'" + ShellEscape(v) + "'", Plain) == Some(v)
  {
    var w := "'" + ShellEscape(v) + "'";
    assert w[0] == '\'' && w[1..] == ShellEscape(v) + "'" + "";
    SingleQuotedBody(v, "");
    assert v + "" == v;
  }

  /** A key of ordinary characters followed by `=` is still ordinary. */
  lemma AssignmentPrefix(k: string)
    requires forall i :: 0 <= i < |k| ==> IsOrdinary(k[i])
    ensures forall i :: 0 <= i < |k + "="| ==> IsOrdinary((k + "=")[i])
  {
    assert IsOrdinary('=');
    forall i | 0 <= i < |k + "="| ensures IsOrdinary((k + "=")[i]) {
      if i < |k| { assert (k + "=")[i] == k[i]; }
    }
  }

  /** The assignment word splits into the key with `=` and the quoted value. */
  lemma AssignmentWord(k: string, e: string)
    ensures k + "='" + e + "'" == (k + "=") + ("'" + e + "'")
  {
    assert "='" == "=" + "'";
  }

  /** With a key of ordinary characters, the assignment word `export` prints reads back as
      `K=value`. */
  lemma ShellAssignmentRoundTrip(k: string, v: string)
    requires forall i :: 0 <= i < |k| ==> IsOrdinary(k[i])
    ensures Dequote(k + "='" + ShellEscape(v) + "'", Plain) == Some(k + "=" + v)
  {
    var quoted := "'" + ShellEscape(v) + "'";
    var p := k + "=";
    AssignmentPrefix(k);
    AssignmentWord(k, ShellEscape(v));
    OrdinaryPrefix(p, quoted);
    ShellQuotingRoundTrip(v);
    assert Then(p, Some(v)) == Some(p + v);
    assert p + v == k + "=" + v;
  }

  /** Characters that keep a special meaning inside double quotes. */
  predicate DoubleQuoteSafe(v: string)
  {
    forall i :: 0 <= i < |v| ==> v[i] != '\\' && v[i] != '$' && v[i] != '`'
  }

  /** The closing double quote hands over to the rest of the word. */
  lemma DoubleQuotedEnd(rest: string)
    ensures Dequote(DotenvEscape([]) + "\"" + rest, Double) == Dequote(rest, Plain)
  {
    var w := DotenvEscape([]) + "\"" + rest;
    assert w == "\"" + rest;
    assert w[0] == '"' && w[1..] == rest;
  }

  /** The first character of a safe value, escaped, reads back inside double quotes. */
  lemma DoubleQuotedStep(v: string, rest: string)
    requires v != [] && v[0] != '\\' && v[0] != '$' && v[0] != '`'
    ensures Dequote(DotenvEscape(v) + "\"" + rest, Double)
         == Prepend(v[0], Dequote(DotenvEscape(v[1..]) + "\"" + rest, Double))
  {
    var x := DotenvEscape(v[1..]) + "\"" + rest;
    var w := DotenvEscape(v) + "\"" + rest;
    if v[0] == '"' {
      assert DotenvEscape(v) == "\\\"" + DotenvEscape(v[1..]);
      assert w == "\\\"" + x;
      assert w[0] == '\\' && w[1..] == "\"" + x && w[1..][0] == '"' && w[1..][1..] == x;
    } else {
      assert DotenvEscape(v) == [v[0]] + DotenvEscape(v[1..]);
      assert w == [v[0]] + x;
      assert w[0] == v[0] && w[1..] == x;
    }
  }

  /** The dotenv-escaped text followed by the closing quote reads back as the value. */
  lemma {:induction false} DoubleQuotedBody(v: string, rest: string)
    requires DoubleQuoteSafe(v)
    ensures Dequote(DotenvEscape(v) + "\"" + rest, Double) == Then(v, Dequote(rest, Plain))
    decreases |v|
  {
    if v == [] {
      DoubleQuotedEnd(rest);
      ThenEmpty(Dequote(rest, Plain));
    } else {
      DoubleQuotedStep(v, rest);
      DoubleQuotedBody(v[1..], rest);
      PrependThen(v[0], v[1..], Dequote(rest, Plain));
      assert [v[0]] + v[1..] == v;
    }
  }

  /** A value free of backslashes, `$` and backquotes survives the dotenv format read under
      double-quote rules, double quotes included. */
  lemma DotenvQuotingRoundTrip(v: string)
    requires DoubleQuoteSafe(v)
    ensures Dequote("\"" + DotenvEscape(v) + "\"", Plain) == Some(v)
  {
    var w := "\"" + DotenvEscape(v) + "\"";
    assert w[0] == '"' && w[1..] == DotenvEscape(v) + "\"" + "";
    DoubleQuotedBody(v, "");
    assert v + "" == v;
  }

  /** A value that is a single backslash does not survive: it escapes the closing quote. */
  lemma DotenvBackslashEscapesClosingQuote()
    ensures DotenvEscape("\\") == "\\"
    ensures Dequote("\"" + DotenvEscape("\\") + "\"", Plain) == None
  {
    assert Count("\\", '"') == 0;
    var w := "\"\\\"";
    assert "\"" + DotenvEscape("\\") + "\"" == w;
    assert w[0] == '"' && w[1..] == "\\\"";
    assert Dequote(w, Plain) == Dequote(w[1..], Double);
    var w1 := w[1..];
    assert w1[0] == '\\' && w1[1..] == "\"" && EscapableInDouble(w1[1..][0]) && w1[1..][1..] == [];
    assert Dequote(w1, Double) == Prepend('"', Dequote([], Double));
  }

  /** The proxy's unescaped dotenv line is the command line's when the value has no double
      quote. */
  lemma ProxyDotenvAgreesWithoutQuotes(k: string, v: string)
    requires Count(v, '"') == 0
    ensures Env.DotenvLines([(k, v)])[0] == DotenvLine(k, v)
  {
  }

  /** With a double quote in the value the proxy's line no longer reads back, while the
      command line's escaped one does. */
  lemma ProxyDotenvBreaksOnQuote(k: string)
    requires forall i :: 0 <= i < |k| ==> IsOrdinary(k[i])
    ensures Dequote(Env.DotenvLines([(k, "\"")])[0], Plain) == None
    ensures Dequote(DotenvLine(k, "\""), Plain) == Some(k + "=\"")
  {
    var p := k + "=";
    AssignmentPrefix(k);
    var bad := "\"\"\"";
    assert Env.DotenvLines([(k, "\"")])[0] == p + bad;
    OrdinaryPrefix(p, bad);
    assert bad[1..] == "\"\"" && bad[1..][1..] == "\"" && bad[1..][1..][1..] == [];
    var good := "\"" + DotenvEscape("\"") + "\"";
    assert DotenvLine(k, "\"") == p + good;
    OrdinaryPrefix(p, good);
    assert DoubleQuoteSafe("\"");
    DotenvQuotingRoundTrip("\"");
    assert Then(p, Some("\"")) == Some(p + "\"");
    assert p + "\"" == k + "=\"";
  }

  /** The lines `load` prints, and `export -f shell`. */
  function ShellLines(vars: Dict<string>): (lines: seq<string>)
    ensures |lines| == |vars| && forall i :: 0 <= i < |vars| ==> lines[i] == ShellLine(vars[i].0, vars[i].1)
  {
    seq(|vars|, i requires 0 <= i < |vars| => ShellLine(vars[i].0, vars[i].1))
  }

  /** `export`'s output formats. */
  datatype Format = DotenvFormat | ShellFormat | DockerFormat | JsonFormat

  /** What a command prints on success: lines, or one JSON document. */
  datatype Output = Lines(lines: seq<string>) | JsonDocument(doc: Value)

  /** `export`'s output for fetched variables. */
  function ExportOutput(vars: Dict<string>, fmt: Format): (out: Output)
    ensures fmt == JsonFormat <==> out.JsonDocument?
    ensures fmt == JsonFormat ==> (
      && out.doc.JObject? && Keys(out.doc.fields) == Keys(vars)
      && forall i :: 0 <= i < |vars| ==> out.doc.fields[i].1 == JString(vars[i].1))
    ensures out.Lines? ==> |out.lines| == |vars|
    ensures fmt == ShellFormat ==> out == Lines(ShellLines(vars))
    ensures fmt == DotenvFormat ==> forall i :: 0 <= i < |vars| ==> out.lines[i] == DotenvLine(vars[i].0, vars[i].1)
    ensures fmt == DockerFormat ==> forall i :: 0 <= i < |vars| ==> out.lines[i] == DockerLine(vars[i].0, vars[i].1)
  {
    match fmt
    case JsonFormat => JsonDocument(JObject(seq(|vars|, i requires 0 <= i < |vars| => (vars[i].0, JString(vars[i].1)))))
    case ShellFormat => Lines(ShellLines(vars))
    case DockerFormat => Lines(seq(|vars|, i requires 0 <= i < |vars| => DockerLine(vars[i].0, vars[i].1)))
    case DotenvFormat => Lines(seq(|vars|, i requires 0 <= i < |vars| => DotenvLine(vars[i].0, vars[i].1)))
  }

  /** The `json` export reads back: the document's members are all strings, and taken as
      strings they are the fetched variables, in order. */
  lemma JsonExportReadsBack(vars: PyDict<string>)
    ensures var doc := ExportOutput(vars, JsonFormat).doc;
      DistinctKeys(doc.fields) && StringValues(doc.fields) == Some(vars)
  {
    var fs := ExportOutput(vars, JsonFormat).doc.fields;
    assert forall i :: 0 <= i < |fs| ==> fs[i].0 == Keys(fs)[i] == Keys(vars)[i] == vars[i].0;
    var r := StringValues(fs).value;
    assert forall i :: 0 <= i < |vars| ==> r[i].0 == Keys(r)[i] == Keys(vars)[i] == vars[i].0;
    assert |r| == |Keys(r)| == |vars|;
    assert forall i :: 0 <= i < |vars| ==> r[i] == vars[i];
    assert r == vars;
  }

  /** The decision `login` takes before authenticating. */
  datatype LoginCheck = AlreadyLoggedIn(minutes: int) | NeedsLogin

  /** Re-authentication is skipped exactly when a token exists, has not expired and `--force`
      is not given; the minutes shown are then at least five. */
  function CheckExistingLogin(existing: Option<TokenInfo>, now: int, force: bool): (c: LoginCheck)
    ensures c.AlreadyLoggedIn? <==> existing.Some? && !IsExpired(existing.value, now) && !force
    ensures c.AlreadyLoggedIn? ==> c.minutes == ExpiresIn(existing.value, now) / 60 && c.minutes >= 5
  {
    if existing.Some? && !IsExpired(existing.value, now) && !force then
      UnexpiredHasFiveMinutes(existing.value, now);
      AlreadyLoggedIn(ExpiresIn(existing.value, now) / 60)
    else NeedsLogin
  }

  /** How `ikv-secrets login` ends. */
  datatype LoginResult =
    | Skipped(minutes: int)          // already logged in, exit 0
    | LoggedIn(minutes: int)         // exit 0
    | LoginFailed(message: string)   // an AuthError, exit 1
    | LoginCrashed(error: Auth.LoginError) // any other exception escapes

  /** `ikv-secrets login`: the skip rule, then `login` without `force_login`, so a forced
      re-login still lets the browser reuse its session. */
  method CliLogin(tokens: TokenStore, config: ConfigStore, tenant: string, url: Option<string>, apiKey: Option<string>,
                  masterKey: Option<string>, force: bool, w: Auth.LoginWorld)
    returns (result: LoginResult, authParams: Option<Dict<string>>)
    modifies tokens, config
    ensures CheckExistingLogin(old(tokens.GetToken(tenant)), w.now, force).AlreadyLoggedIn? ==>
      result == Skipped(CheckExistingLogin(old(tokens.GetToken(tenant)), w.now, force).minutes)
      && authParams == None && tokens.file == old(tokens.file) && config.file == old(config.file)
    ensures CheckExistingLogin(old(tokens.GetToken(tenant)), w.now, force).NeedsLogin? ==>
      match Auth.LoginOutcome(old(config.Current()), tenant, url, apiKey, masterKey, w)
      case Success(t) => result == LoggedIn(ExpiresIn(t, w.now) / 60)
      case Failure(e) => result == (if e.AuthError? then LoginFailed(e.msg) else LoginCrashed(e))
    ensures CheckExistingLogin(old(tokens.GetToken(tenant)), w.now, force).NeedsLogin? ==>
      match Auth.LoginOutcome(old(config.Current()), tenant, url, apiKey, masterKey, w)
      case Success(t) =>
        && tokens.file == Present(old(tokens.Tokens())[tenant := ToJson(t)])
        && config.file == Parsed(WithTenant(old(config.Current()), tenant,
                                            Auth.ResolveVaultUrl(url, old(config.Current()), tenant), None))
        && tokens.GetToken(tenant) == Some(t)
      case Failure(_) => tokens.file == old(tokens.file) && config.file == old(config.file)
    ensures authParams.Some? ==> Get(authParams.value, "force_login") == Some("0")
  {
    var check := CheckExistingLogin(tokens.GetToken(tenant), w.now, force);
    if check.AlreadyLoggedIn? {
      return Skipped(check.minutes), None;
    }
    var r;
    r, authParams := Auth.Login(tokens, config, tenant, url, apiKey, masterKey, false, w);
    match r
    case Success(t) => result := LoggedIn(ExpiresIn(t, w.now) / 60);
    case Failure(e) => result := if e.AuthError? then LoginFailed(e.msg) else LoginCrashed(e);
  }

  /** A tenant's line in `status`. */
  datatype TenantStatus = LoggedInFor(minutes: int) | TokenExpired | NotLoggedIn

  /** A token that has not expired is logged in, an expired one is reported as such, no token
      is not logged in. */
  function ClassifyTenant(token: Option<TokenInfo>, now: int): (s: TenantStatus)
    ensures s.LoggedInFor? <==> token.Some? && !IsExpired(token.value, now)
    ensures s.TokenExpired? <==> token.Some? && IsExpired(token.value, now)
    ensures s.NotLoggedIn? <==> token.None?
    ensures s.LoggedInFor? ==> s.minutes == ExpiresIn(token.value, now) / 60 && s.minutes >= 5
  {
    match token
    case None => NotLoggedIn
    case Some(t) =>
      if IsExpired(t, now) then TokenExpired
      else
        UnexpiredHasFiveMinutes(t, now);
        LoggedInFor(ExpiresIn(t, now) / 60)
  }

  datatype StatusRow = StatusRow(tenant: string, status: TenantStatus, url: string)

  /** `ikv-secrets status`: a hint when no tenant is configured, else one row per tenant. */
  datatype StatusReport = NoTenants | Rows(rows: seq<StatusRow>)

  /** The url column: the configured url, or "unknown". */
  function UrlColumn(e: TenantEntry): string
  {
    if e.url.Some? then e.url.value else "unknown"
  }

  function StatusReportOf(doc: Document, tokens: map<string, Value>, now: int): (r: StatusReport)
    ensures r.NoTenants? <==> TenantsOf(doc) == []
    ensures r.Rows? ==> |r.rows| == |TenantsOf(doc)|
    ensures r.Rows? ==> forall i :: 0 <= i < |r.rows| ==>
      r.rows[i] == StatusRow(TenantsOf(doc)[i].0, ClassifyTenant(TokenFor(tokens, TenantsOf(doc)[i].0), now),
                             UrlColumn(TenantsOf(doc)[i].1))
  {
    var tenants := TenantsOf(doc);
    if tenants == [] then NoTenants
    else Rows(seq(|tenants|, i requires 0 <= i < |tenants| =>
      StatusRow(tenants[i].0, ClassifyTenant(TokenFor(tokens, tenants[i].0), now), UrlColumn(tenants[i].1))))
  }

  /** The status of a tenant right after a successful login is "logged in". */
  lemma StatusAfterLogin(tokens: map<string, Value>, tenant: string, t: TokenInfo, now: int)
    requires !IsExpired(t, now)
    ensures ClassifyTenant(TokenFor(tokens[tenant := ToJson(t)], tenant), now).LoggedInFor?
  {
    SaveThenGet(tokens, tenant, t);
  }

  /** How `list`, `load` and `export` end. */
  datatype CommandResult =
    | Printed(out: Output)          // exit 0
    | ErrorExit(message: string)    // an error line, exit 1
    | Crashed(error: ClientError)   // an exception other than IKVClientError escapes

  /** The exit status of a command. */
  function ExitCode(r: CommandResult): (code: int)
    ensures code == 0 <==> r.Printed?
    ensures code == 0 || code == 1
  {
    if r.Printed? then 0 else 1
  }

  /** The client of `load` and `export`: a tenant and its configured url are required. */
  function RecordClient(tenant: Option<string>, doc: Document): (r: Result<IKVClient, string>)
    ensures !Filled(tenant) ==> r == Failure("# Error: --tenant required or set IKV_TENANT")
    ensures Filled(tenant) && !Filled(GetTenantUrl(doc, tenant.value)) ==>
      r == Failure("# Error: No URL for tenant '" + tenant.value + "'")
    ensures r.Success? ==> (
      && Filled(tenant) && Filled(GetTenantUrl(doc, tenant.value))
      && r.value == NewClient(GetTenantUrl(doc, tenant.value).value, tenant.value, None, None))
  {
    if !Filled(tenant) then Failure("# Error: --tenant required or set IKV_TENANT")
    else
      var url := GetTenantUrl(doc, tenant.value);
      if !Filled(url) then Failure("# Error: No URL for tenant '" + tenant.value + "'")
      else Success(NewClient(url.value, tenant.value, None, None))
  }

  /** The client of `list`: with `IKV_VAULT_URL` set it comes from the environment (tenant and
      keys included), otherwise from the configured url of the given tenant. */
  function ListClient(tenant: Option<string>, env: map<string, string>, doc: Document): (r: Result<IKVClient, string>)
    ensures !Filled(tenant) ==> r == Failure("Error: --tenant required or set IKV_TENANT")
    ensures Filled(tenant) && !Filled(EnvGet(env, "IKV_VAULT_URL")) && !Filled(GetTenantUrl(doc, tenant.value)) ==>
      r == Failure("Error: No URL for tenant '" + tenant.value + "'")
    ensures Filled(tenant) && Filled(EnvGet(env, "IKV_VAULT_URL")) && FromEnv(env).Success? ==> r == Success(FromEnv(env).value)
    ensures Filled(tenant) && Filled(EnvGet(env, "IKV_VAULT_URL")) && FromEnv(env).Failure? ==>
      r == Failure("✗ Error: " + FromEnv(env).error.msg)
  {
    if !Filled(tenant) then Failure("Error: --tenant required or set IKV_TENANT")
    else if Filled(EnvGet(env, "IKV_VAULT_URL")) then
      match FromEnv(env)
      case Success(c) => Success(c)
      case Failure(e) => Failure("✗ Error: " + e.msg)
    else
      var url := GetTenantUrl(doc, tenant.value);
      if !Filled(url) then Failure("Error: No URL for tenant '" + tenant.value + "'")
      else Success(NewClient(url.value, tenant.value, None, None))
  }

  /** When `IKV_VAULT_URL` is set, `list` talks to the tenant of `IKV_TENANT`, whatever
      `--tenant` says. */
  lemma ListUsesEnvironmentTenant(tenant: string, env: map<string, string>, doc: Document)
    requires tenant != "" && Filled(EnvGet(env, "IKV_VAULT_URL")) && Filled(EnvGet(env, "IKV_TENANT"))
    ensures ListClient(Some(tenant), env, doc).Success?
    ensures ListClient(Some(tenant), env, doc).value.tenant == env["IKV_TENANT"]
  {
  }

  /** A client error becomes the error line; anything else escapes. */
  function Report(e: ClientError, prefix: string): (r: CommandResult)
    ensures IsIKVClientError(e) ==> r == ErrorExit(prefix + e.msg)
    ensures !IsIKVClientError(e) ==> r == Crashed(e)
  {
    if IsIKVClientError(e) then ErrorExit(prefix + e.msg) else Crashed(e)
  }

  /** `ikv-secrets load RECORD`. */
  function LoadCommand(record: string, tenant: Option<string>, doc: Document, tokens: map<string, Value>, now: int,
                       nonce: string, sign: (string, string) -> string, reply: Http.Reply): (r: CommandResult)
    ensures RecordClient(tenant, doc).Failure? ==> r == ErrorExit(RecordClient(tenant, doc).error)
    ensures r.Printed? ==> exists vars :: (
      && r.out == Lines(ShellLines(vars))
      && GetEnv(RecordClient(tenant, doc).value, tokens, now, nonce, sign, record, reply) == Success(vars))
    ensures RecordClient(tenant, doc).Success? ==>
      match GetEnv(RecordClient(tenant, doc).value, tokens, now, nonce, sign, record, reply)
      case Success(vars) => r == Printed(Lines(ShellLines(vars)))
      case Failure(e) => r == Report(e, "# Error: ")
  {
    match RecordClient(tenant, doc)
    case Failure(m) => ErrorExit(m)
    case Success(c) =>
      match GetEnv(c, tokens, now, nonce, sign, record, reply)
      case Success(vars) => Printed(Lines(ShellLines(vars)))
      case Failure(e) => Report(e, "# Error: ")
  }

  /** `ikv-secrets export RECORD -f FORMAT`. */
  function ExportCommand(record: string, tenant: Option<string>, fmt: Format, doc: Document, tokens: map<string, Value>,
                         now: int, nonce: string, sign: (string, string) -> string, reply: Http.Reply): (r: CommandResult)
    ensures RecordClient(tenant, doc).Failure? ==> r == ErrorExit(RecordClient(tenant, doc).error)
    ensures r.Printed? ==> exists vars :: (
      && r.out == ExportOutput(vars, fmt)
      && GetEnv(RecordClient(tenant, doc).value, tokens, now, nonce, sign, record, reply) == Success(vars))
    ensures RecordClient(tenant, doc).Success? ==>
      match GetEnv(RecordClient(tenant, doc).value, tokens, now, nonce, sign, record, reply)
      case Success(vars) => r == Printed(ExportOutput(vars, fmt))
      case Failure(e) => r == Report(e, "# Error: ")
  {
    match RecordClient(tenant, doc)
    case Failure(m) => ErrorExit(m)
    case Success(c) =>
      match GetEnv(c, tokens, now, nonce, sign, record, reply)
      case Success(vars) => Printed(ExportOutput(vars, fmt))
      case Failure(e) => Report(e, "# Error: ")
  }

  /** A shell line is `export ` followed by the assignment word. */
  lemma ShellLineWord(k: string, v: string)
    ensures ShellLine(k, v) == "export " + (k + "='" + ShellEscape(v) + "'")
  {
  }

  /** Each line `load` prints is `export ` and one word that quote removal turns back into
      `K=value`, whatever the value holds, when the key is made of ordinary characters. */
  lemma LoadLinesReadBack(record: string, tenant: Option<string>, doc: Document, tokens: map<string, Value>, now: int,
                          nonce: string, sign: (string, string) -> string, reply: Http.Reply, vars: Dict<string>, i: nat)
    requires RecordClient(tenant, doc).Success?
    requires GetEnv(RecordClient(tenant, doc).value, tokens, now, nonce, sign, record, reply) == Success(vars)
    requires i < |vars| && forall j :: 0 <= j < |vars[i].0| ==> IsOrdinary(vars[i].0[j])
    ensures LoadCommand(record, tenant, doc, tokens, now, nonce, sign, reply).Printed?
    ensures LoadCommand(record, tenant, doc, tokens, now, nonce, sign, reply).out.lines[i]
         == "export " + (vars[i].0 + "='" + ShellEscape(vars[i].1) + "'")
    ensures Dequote(vars[i].0 + "='" + ShellEscape(vars[i].1) + "'", Plain) == Some(vars[i].0 + "=" + vars[i].1)
  {
    var out := LoadCommand(record, tenant, doc, tokens, now, nonce, sign, reply);
    assert out == Printed(Lines(ShellLines(vars)));
    var k, v := vars[i].0, vars[i].1;
    assert out.out.lines[i] == ShellLine(k, v);
    ShellLineWord(k, v);
    ShellAssignmentRoundTrip(k, v);
  }

  /** What `list` prints for the records received: a notice when there are none, else the
      records (their row layout is not modelled). */
  datatype Listing = NoRecords | RecordRows(records: seq<Value>)

  /** `ikv-secrets list`. */
  function ListCommand(tenant: Option<string>, env: map<string, string>, doc: Document, tokens: map<string, Value>,
                       now: int, nonce: string, sign: (string, string) -> string, reply: Http.Reply): (r: Result<Listing, CommandResult>)
    ensures ListClient(tenant, env, doc).Failure? ==> r == Failure(ErrorExit(ListClient(tenant, env, doc).error))
    ensures r.Success? ==> (
      && ListClient(tenant, env, doc).Success?
      && ListEnvRecords(ListClient(tenant, env, doc).value, tokens, now, nonce, sign, reply).Success?
      && (r.value.NoRecords? <==> ListEnvRecords(ListClient(tenant, env, doc).value, tokens, now, nonce, sign, reply).value == []))
    ensures ListClient(tenant, env, doc).Success? ==>
      match ListEnvRecords(ListClient(tenant, env, doc).value, tokens, now, nonce, sign, reply)
      case Success(records) => r == Success(if records == [] then NoRecords else RecordRows(records))
      case Failure(e) => r == Failure(
        if e.TierError? then ErrorExit("✗ " + e.msg + " (requires " + e.requiredTier + ", you have " + e.currentTier + ")")
        else Report(e, "✗ Error: "))
  {
    match ListClient(tenant, env, doc)
    case Failure(m) => Failure(ErrorExit(m))
    case Success(c) =>
      match ListEnvRecords(c, tokens, now, nonce, sign, reply)
      case Success(records) => Success(if records == [] then NoRecords else RecordRows(records))
      case Failure(TierError(m, req, cur)) => Failure(ErrorExit("✗ " + m + " (requires " + req + ", you have " + cur + ")"))
      case Failure(e) => Failure(Report(e, "✗ Error: "))
  }

  /** `list` catches only the client's own errors: a 401 from the vault, which listing does not
      map, escapes as an `HTTPStatusError` instead of an error line. */
  lemma ListUnauthorizedEscapes(tenant: Option<string>, env: map<string, string>, doc: Document, tokens: map<string, Value>,
                                now: int, nonce: string, sign: (string, string) -> string, jsonContentType: bool,
                                body: Option<Value>)
    requires ListClient(tenant, env, doc).Success?
    requires AuthHeaders(ListClient(tenant, env, doc).value, tokens, now, nonce, sign).Success?
    ensures ListCommand(tenant, env, doc, tokens, now, nonce, sign, Http.Received(401, jsonContentType, body))
         == Failure(Crashed(HttpStatusError(401)))
  {
    ListingDoesNotMapUnauthorized("", jsonContentType, body);
  }

  /** `load` and `export` exit with status 1, before any request, when no tenant is given or
      the tenant has no configured url; `list` does too unless `IKV_VAULT_URL` is set. */
  lemma MissingTenantOrUrlExits(record: string, tenant: Option<string>, fmt: Format, env: map<string, string>, doc: Document,
                                tokens: map<string, Value>, now: int, nonce: string, sign: (string, string) -> string,
                                reply: Http.Reply)
    requires !Filled(tenant) || !Filled(GetTenantUrl(doc, tenant.value))
    ensures ExitCode(LoadCommand(record, tenant, doc, tokens, now, nonce, sign, reply)) == 1
    ensures ExitCode(ExportCommand(record, tenant, fmt, doc, tokens, now, nonce, sign, reply)) == 1
    ensures !Filled(EnvGet(env, "IKV_VAULT_URL")) ==> ListCommand(tenant, env, doc, tokens, now, nonce, sign, reply).Failure?
  {
  }
}
