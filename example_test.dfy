/** The example script examples/test.py: a record argument is required, the same prerequisite
    checks as examples/get_env.py with the tenant from `IKV_TENANT` and the url from the
    configuration only, a listing whose failure is only reported, and the fetched variables
    shown masked with its own markers and width. */
module TestExample {
  import opened Wrappers
  import opened Dicts
  import opened Json
  import Http
  import opened KeyringStore
  import opened Config
  import opened Client
  import GetEnvExample

  /** The substrings that make a key sensitive here: "api" is not one of them. */
  const TestMarkers: seq<string> := ["password", "secret", "key", "token"]

  /** The width beyond which a value that is not sensitive is cut. */
  const TestLimit: nat := 50

  /** The marker of a listed record: an arrow when its `name` is the requested record, a blank
      otherwise; a record that is not an object has no `get` and breaks the listing. */
  function Marker(r: Value, name: string): (m: Option<string>)
    ensures m.Some? <==> r.JObject?
    ensures m.Some? ==> (m.value == "→" <==> Member(r.fields, "name") == Some(JString(name)))
    ensures m.Some? ==> (m.value == "→" || m.value == " ")
  {
    match r
    case JObject(fields) => Some(if Member(fields, "name") == Some(JString(name)) then "→" else " ")
    case _ => None
  }

  /** Whether the script treats `key` as sensitive, and the difference from get_env.py. */
  lemma ApiKeysAreNotSensitiveHere()
    ensures !GetEnvExample.IsSensitive("API", TestMarkers)
    ensures GetEnvExample.IsSensitive("API", GetEnvExample.Markers)
  {
    GetEnvExample.ApiKeysAreSensitive();
    var s := Strings.Lower("API");
    assert s == "api";
    Strings.ContainsFits(s, "password");
    Strings.ContainsFits(s, "secret");
    Strings.ContainsFits(s, "token");
    Strings.ContainsFits(s[1..], "key");
    assert s[0] != "key"[0];
  }

  /** What the listing section shows: a failure, or one marker per record. */
  datatype Listing = ListFailed | Listed(markers: seq<Option<string>>)

  /** The listing section for the result of `list_env_records()`: any exception is caught and
      reported, otherwise each record gets its marker for the requested record `name`. */
  function ListingOf(listed: Result<seq<Value>, ClientError>, name: string): (l: Listing)
    ensures l.ListFailed? <==> listed.Failure?
    ensures listed.Success? ==> |l.markers| == |listed.value|
    ensures listed.Success? ==> forall i :: 0 <= i < |listed.value| ==> l.markers[i] == Marker(listed.value[i], name)
  {
    match listed
    case Success(records) => Listed(seq(|records|, i requires 0 <= i < |records| => Marker(records[i], name)))
    case Failure(_) => ListFailed
  }

  /** How a run ends. */
  datatype TestResult =
    | Usage                                                  // no record argument, exit 1
    | CheckFailed(reason: GetEnvExample.Stop)                // exit 1
    | Passed(listing: Listing, lines: seq<string>)           // exit 0
    | ClientFailed(listing: Listing, error: ClientError)     // exit 1
    | Crashed(listing: Listing, error: ClientError)          // escapes

  function ExitCode(r: TestResult): (code: int)
    ensures code == 0 <==> r.Passed?
  {
    if r.Passed? then 0 else 1
  }

  /** The variable lines of a successful fetch. */
  function VariableLines(vars: Dict<string>): (lines: seq<string>)
    ensures |lines| == |vars|
    ensures forall i :: 0 <= i < |vars| ==> lines[i] == GetEnvExample.HumanLine(vars[i].0, vars[i].1, TestMarkers, TestLimit, "   ")
  {
    seq(|vars|, i requires 0 <= i < |vars| => GetEnvExample.HumanLine(vars[i].0, vars[i].1, TestMarkers, TestLimit, "   "))
  }

  /** A run with arguments `argv` (the script's name first) and `IKV_TENANT` = `tenant`. */
  function Run(argv: seq<string>, tenant: Option<string>, doc: Document, tokens: map<string, Value>, now: int,
               nonce: string, sign: (string, string) -> string, listReply: Http.Reply, envReply: Http.Reply): (r: TestResult)
    ensures |argv| < 2 <==> r == Usage
    ensures |argv| >= 2 && GetEnvExample.CheckPrerequisites(tenant, None, doc, tokens, now).Stopped? ==>
      r == CheckFailed(GetEnvExample.CheckPrerequisites(tenant, None, doc, tokens, now).reason)
    ensures r.Passed? ==> (
      && |argv| >= 2 && EnvReply(argv[1], envReply).Success?
      && r.lines == VariableLines(EnvReply(argv[1], envReply).value))
    ensures r.ClientFailed? ==> IsIKVClientError(r.error)
    ensures |argv| >= 2 && GetEnvExample.CheckPrerequisites(tenant, None, doc, tokens, now).Proceed? ==>
      var listing := ListingOf(RecordsReply(listReply), argv[1]);
      match EnvReply(argv[1], envReply)
      case Success(vars) => r == Passed(listing, VariableLines(vars))
      case Failure(e) => r == (if IsIKVClientError(e) then ClientFailed(listing, e) else Crashed(listing, e))
  {
    if |argv| < 2 then Usage
    else
      var record := argv[1];
      match GetEnvExample.CheckPrerequisites(tenant, None, doc, tokens, now)
      case Stopped(reason) => CheckFailed(reason)
      case Proceed(t, url) =>
        var c := NewClient(url, t, None, None);
        GetEnvExample.PassedChecksAuthenticate(tenant, None, doc, tokens, now, nonce, sign, record, envReply);
        var listing := ListingOf(ListEnvRecords(c, tokens, now, nonce, sign, listReply), record);
        match GetEnv(c, tokens, now, nonce, sign, record, envReply)
        case Success(vars) => Passed(listing, VariableLines(vars))
        case Failure(e) => if IsIKVClientError(e) then ClientFailed(listing, e) else Crashed(listing, e)
  }

  /** A failed listing is only reported: how the run ends does not depend on it. */
  lemma ListingNeverDecides(argv: seq<string>, tenant: Option<string>, doc: Document, tokens: map<string, Value>,
                            now: int, nonce: string, sign: (string, string) -> string,
                            listReply1: Http.Reply, listReply2: Http.Reply, envReply: Http.Reply)
    ensures var r1 := Run(argv, tenant, doc, tokens, now, nonce, sign, listReply1, envReply);
      var r2 := Run(argv, tenant, doc, tokens, now, nonce, sign, listReply2, envReply);
      && ExitCode(r1) == ExitCode(r2)
      && (r1.Passed? ==> r2.Passed? && r1.lines == r2.lines)
  {
  }
}
