/** The example script examples/get_env.py: its prerequisite checks, the masking of sensitive
    values, the choice of output mode and the lines it prints. The script is a function from
    its arguments, the configuration, the token store, the clock and the vault's reply to what
    it prints or how it exits. */
module GetEnvExample {
  import opened Wrappers
  import opened Strings
  import opened Dicts
  import opened Json
  import Http
  import opened KeyringStore
  import opened Config
  import opened Client
  import Cli

  /** Why the script stops before contacting the vault; each is exit status 1. */
  datatype Stop = NoTenant | NoUrl | NotLoggedIn | TokenExpired

  /** The outcome of the checks: a tenant and the url to use, or the first failed check. */
  datatype Gate = Proceed(tenant: string, url: string) | Stopped(reason: Stop)

  /** `args.url or get_tenant_url(args.tenant)`. */
  function UrlChoice(urlArg: Option<string>, doc: Document, tenant: string): (u: Option<string>)
    ensures Filled(urlArg) ==> u == urlArg
    ensures !Filled(urlArg) ==> u == GetTenantUrl(doc, tenant)
  {
    if Filled(urlArg) then urlArg else GetTenantUrl(doc, tenant)
  }

  /** The checks in order: a tenant, a url, a stored token, a token not expired. The first that
      fails decides; the vault is contacted only when all pass. */
  function CheckPrerequisites(tenant: Option<string>, urlArg: Option<string>, doc: Document,
                              tokens: map<string, Value>, now: int): (g: Gate)
    ensures !Filled(tenant) ==> g == Stopped(NoTenant)
    ensures Filled(tenant) && !Filled(UrlChoice(urlArg, doc, tenant.value)) ==> g == Stopped(NoUrl)
    ensures Filled(tenant) && Filled(UrlChoice(urlArg, doc, tenant.value)) && TokenFor(tokens, tenant.value).None? ==>
      g == Stopped(NotLoggedIn)
    ensures g.Proceed? <==> (
      && Filled(tenant) && Filled(UrlChoice(urlArg, doc, tenant.value))
      && TokenFor(tokens, tenant.value).Some? && !IsExpired(TokenFor(tokens, tenant.value).value, now))
    ensures g.Proceed? ==> g == Proceed(tenant.value, UrlChoice(urlArg, doc, tenant.value).value)
    ensures g == Stopped(TokenExpired) <==> (
      && Filled(tenant) && Filled(UrlChoice(urlArg, doc, tenant.value))
      && TokenFor(tokens, tenant.value).Some? && IsExpired(TokenFor(tokens, tenant.value).value, now))
  {
    if !Filled(tenant) then Stopped(NoTenant)
    else
      var url := UrlChoice(urlArg, doc, tenant.value);
      if !Filled(url) then Stopped(NoUrl)
      else match TokenFor(tokens, tenant.value)
        case None => Stopped(NotLoggedIn)
        case Some(t) => if IsExpired(t, now) then Stopped(TokenExpired) else Proceed(tenant.value, url.value)
  }

  /** Once the checks pass, the client the script builds (no keys) has its bearer headers: any
      later failure comes from the vault's reply. */
  lemma PassedChecksAuthenticate(tenant: Option<string>, urlArg: Option<string>, doc: Document,
                                 tokens: map<string, Value>, now: int, nonce: string, sign: (string, string) -> string,
                                 record: string, reply: Http.Reply)
    requires CheckPrerequisites(tenant, urlArg, doc, tokens, now).Proceed?
    ensures var g := CheckPrerequisites(tenant, urlArg, doc, tokens, now);
      && AuthHeaders(NewClient(g.url, g.tenant, None, None), tokens, now, nonce, sign).Success?
      && GetEnv(NewClient(g.url, g.tenant, None, None), tokens, now, nonce, sign, record, reply) == EnvReply(record, reply)
  {
  }

  /** The substrings that make a key sensitive here. */
  const Markers: seq<string> := ["password", "secret", "key", "token", "api"]

  /** The width beyond which a value that is not sensitive is cut. */
  const Limit: nat := 60

  /** `any(s in key.lower() for s in markers)`. */
  function IsSensitive(key: string, markers: seq<string>): (b: bool)
    ensures b <==> exists i :: 0 <= i < |markers| && Contains(Lower(key), markers[i])
  {
    if markers == [] then false
    else if Contains(Lower(key), markers[0]) then true
    else
      var b := IsSensitive(key, markers[1..]);
      assert forall i :: 1 <= i < |markers| ==> markers[i] == markers[1..][i - 1];
      b
  }

  /** How a value is shown: a sensitive one as at most its first four characters and `****`, any
      other cut to `limit` characters and `...` when longer. */
  function Display(value: string, sensitive: bool, limit: nat): (d: string)
    ensures sensitive ==> (
      && |d| >= 4 && d[|d| - 4..] == "****"
      && |d| - 4 == (if |value| > 4 then 4 else 0)
      && d[..|d| - 4] == value[..|d| - 4])
    ensures !sensitive && |value| <= limit ==> d == value
    ensures !sensitive && |value| > limit ==> (
      && |d| == limit + 3 && d[..limit] == value[..limit] && d[limit..] == "...")
  {
    if sensitive then
      if |value| > 4 then value[..4] + "****" else "****"
    else
      if |value| > limit then value[..limit] + "..." else value
  }

  /** A masked value shows nothing beyond its first four characters: two sensitive values that
      agree there are shown alike, and all short ones are shown alike. */
  lemma MaskHidesAllButFour(v1: string, v2: string, limit: nat)
    requires (|v1| > 4 && |v2| > 4 && v1[..4] == v2[..4]) || (|v1| <= 4 && |v2| <= 4)
    ensures Display(v1, true, limit) == Display(v2, true, limit)
  {
    var d1, d2 := Display(v1, true, limit), Display(v2, true, limit);
    assert |d1| == |d2|;
    assert d1 == d1[..|d1| - 4] + d1[|d1| - 4..];
    assert d2 == d2[..|d2| - 4] + d2[|d2| - 4..];
    if |v1| > 4 {
      assert d1[..4] == v1[..4];
    }
  }

  /** "api" makes a key sensitive here: an upper-case `API` key is masked. */
  lemma ApiKeysAreSensitive()
    ensures IsSensitive("API", Markers)
  {
    assert Lower("API") == "api";
    assert Markers[4] == "api";
    ContainsAt("api", "api", 0);
  }

  /** The output modes of the script. */
  datatype Mode = ShellMode | DotenvMode | JsonMode | HumanMode

  /** `--shell` wins over `--dotenv`, which wins over `--json`; without any, human-readable. */
  function ChooseMode(shell: bool, dotenv: bool, json: bool): (m: Mode)
    ensures m == ShellMode <==> shell
    ensures m == DotenvMode <==> !shell && dotenv
    ensures m == JsonMode <==> !shell && !dotenv && json
    ensures m == HumanMode <==> !shell && !dotenv && !json
  {
    if shell then ShellMode else if dotenv then DotenvMode else if json then JsonMode else HumanMode
  }

  /** One human-readable line. */
  function HumanLine(k: string, v: string, markers: seq<string>, limit: nat, indent: string): string
  {
    indent + k + "=" + Display(v, IsSensitive(k, markers), limit)
  }

  /** The script's own shell and dotenv lines, escaped inline. */
  function ScriptLine(mode: Mode, k: string, v: string): string
  {
    if mode == ShellMode then "export " + k + "='" + ReplaceChar(v, '\'', "'\"'\"'") + "'"
    else k + "=\"" + ReplaceChar(v, '"', "\\\"") + "\""
  }

  /** What the script prints for fetched variables in each mode. */
  function ScriptOutput(record: string, vars: Dict<string>, mode: Mode, quiet: bool): (out: Cli.Output)
    ensures mode == JsonMode <==> out.JsonDocument?
    ensures mode == JsonMode ==> out == Cli.ExportOutput(vars, Cli.JsonFormat)
    ensures mode == ShellMode || mode == DotenvMode ==> out.Lines? && |out.lines| == |vars|
    ensures mode == HumanMode ==> (
      && out.Lines? && |out.lines| == |vars| + (if quiet then 0 else 2)
      && forall i :: 0 <= i < |vars| ==>
        out.lines[|out.lines| - |vars| + i] == HumanLine(vars[i].0, vars[i].1, Markers, Limit, "  "))
  {
    match mode
    case ShellMode => Cli.Lines(seq(|vars|, i requires 0 <= i < |vars| => ScriptLine(ShellMode, vars[i].0, vars[i].1)))
    case DotenvMode => Cli.Lines(seq(|vars|, i requires 0 <= i < |vars| => ScriptLine(DotenvMode, vars[i].0, vars[i].1)))
    case JsonMode => Cli.ExportOutput(vars, Cli.JsonFormat)
    case HumanMode =>
      var header := if quiet then [] else ["✅ Loaded " + NatToString(|vars|) + " variables from '" + record + "':", ""];
      Cli.Lines(header + seq(|vars|, i requires 0 <= i < |vars| => HumanLine(vars[i].0, vars[i].1, Markers, Limit, "  ")))
  }

  /** The script's shell and dotenv output is the command line's `export -f shell` and
      `export -f dotenv`, line for line. */
  lemma EscapingMatchesCli(record: string, vars: Dict<string>, quiet: bool)
    ensures ScriptOutput(record, vars, ShellMode, quiet) == Cli.ExportOutput(vars, Cli.ShellFormat)
    ensures ScriptOutput(record, vars, DotenvMode, quiet) == Cli.ExportOutput(vars, Cli.DotenvFormat)
  {
    var a, b := ScriptOutput(record, vars, ShellMode, quiet), Cli.ExportOutput(vars, Cli.ShellFormat);
    assert a.lines == b.lines by {
      forall i | 0 <= i < |vars| ensures a.lines[i] == b.lines[i] {
        assert b.lines[i] == Cli.ShellLine(vars[i].0, vars[i].1);
      }
    }
    var c, d := ScriptOutput(record, vars, DotenvMode, quiet), Cli.ExportOutput(vars, Cli.DotenvFormat);
    assert c.lines == d.lines by {
      forall i | 0 <= i < |vars| ensures c.lines[i] == d.lines[i] {
        assert d.lines[i] == Cli.DotenvLine(vars[i].0, vars[i].1);
      }
    }
  }

  /** The command line of the script; `tenant` and `url` already hold their environment
      defaults. */
  datatype Args = Args(record: string, tenant: Option<string>, url: Option<string>,
                       shell: bool, dotenv: bool, json: bool, quiet: bool)

  /** How a run ends: printed output (exit 0), a failed check or a reported client error (exit
      1), or an exception that escapes. */
  datatype RunResult =
    | Printed(out: Cli.Output)
    | CheckFailed(reason: Stop)
    | ClientFailed(error: ClientError)
    | Crashed(error: ClientError)

  function ExitCode(r: RunResult): (code: int)
    ensures code == 0 <==> r.Printed?
    ensures code == 0 || code == 1
  {
    if r.Printed? then 0 else 1
  }

  /** A run of the script. */
  function Run(args: Args, doc: Document, tokens: map<string, Value>, now: int, nonce: string,
               sign: (string, string) -> string, reply: Http.Reply): (r: RunResult)
    ensures var g := CheckPrerequisites(args.tenant, args.url, doc, tokens, now);
      && (g.Stopped? ==> r == CheckFailed(g.reason))
      && (g.Proceed? ==> match EnvReply(args.record, reply)
          case Success(vars) => r == Printed(ScriptOutput(args.record, vars, ChooseMode(args.shell, args.dotenv, args.json), args.quiet))
          case Failure(e) => r == (if IsIKVClientError(e) then ClientFailed(e) else Crashed(e)))
  {
    var g := CheckPrerequisites(args.tenant, args.url, doc, tokens, now);
    match g
    case Stopped(reason) => CheckFailed(reason)
    case Proceed(tenant, url) =>
      PassedChecksAuthenticate(args.tenant, args.url, doc, tokens, now, nonce, sign, args.record, reply);
      match GetEnv(NewClient(url, tenant, None, None), tokens, now, nonce, sign, args.record, reply)
      case Success(vars) => Printed(ScriptOutput(args.record, vars, ChooseMode(args.shell, args.dotenv, args.json), args.quiet))
      case Failure(e) => if IsIKVClientError(e) then ClientFailed(e) else Crashed(e)
  }
}
