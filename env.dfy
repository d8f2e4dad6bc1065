/** The lazy environment proxy (src/ikv_secrets/env.py): a cache of one record's variables,
    a loaded flag and the record id, filled on first use. Fetching a record stands for
    `_ensure_client().get_env(record_id)` and is the parameter `fetch`; the `IKV_RECORD`
    environment variable is the parameter `envRecord`. */
module Env {
  import opened Wrappers
  import opened Strings
  import opened Dicts
  import opened Client

  /** The three fields of an `EnvProxy`. */
  datatype ProxyState = ProxyState(cache: PyDict<string>, loaded: bool, recordId: Option<string>)

  /** A new proxy: unloaded, empty, no record. */
  const Initial: ProxyState := ProxyState([], false, None)

  /** What fetching a record yields: its variables, or the error raised on the way. */
  type Fetch = string -> Result<PyDict<string>, ClientError>

  /** `load(record_id)`: on success the cache, record and flag are replaced; on failure the
      exception leaves every field as it was. */
  function LoadStep(s: ProxyState, record: string, fetch: Fetch): (Outcome<ClientError>, ProxyState)
  {
    match fetch(record)
    case Success(vars) => (Pass, ProxyState(vars, true, Some(record)))
    case Failure(e) => (Fail(e), s)
  }

  /** `_ensure_loaded()`: nothing happens once loaded or when `IKV_RECORD` is unset or empty. */
  function EnsureLoadedStep(s: ProxyState, envRecord: Option<string>, fetch: Fetch): (Outcome<ClientError>, ProxyState)
  {
    if s.loaded || !Filled(envRecord) then (Pass, s) else LoadStep(s, envRecord.value, fetch)
  }

  /** A load that succeeds leaves the proxy loaded with the fetched variables. */
  lemma LoadFills(s: ProxyState, record: string, fetch: Fetch)
    ensures LoadStep(s, record, fetch).0.Pass? <==> fetch(record).Success?
    ensures fetch(record).Success? ==> LoadStep(s, record, fetch).1 == ProxyState(fetch(record).value, true, Some(record))
    ensures fetch(record).Failure? ==> LoadStep(s, record, fetch).1 == s
  {
  }

  /** Loading on demand is idempotent: a second `_ensure_loaded` changes nothing more and
      reports what the first reported. */
  lemma EnsureLoadedIdempotent(s: ProxyState, envRecord: Option<string>, fetch: Fetch)
    ensures var (o, s') := EnsureLoadedStep(s, envRecord, fetch);
      EnsureLoadedStep(s', envRecord, fetch) == (o, s')
  {
  }

  /** Once loaded, the proxy never fetches again until cleared. */
  lemma LoadedProxyDoesNotFetch(s: ProxyState, envRecord: Option<string>, fetch: Fetch, fetch': Fetch)
    requires s.loaded
    ensures EnsureLoadedStep(s, envRecord, fetch) == EnsureLoadedStep(s, envRecord, fetch') == (Pass, s)
  {
  }

  /** `self._cache.get(key, default)`. */
  function Lookup(cache: PyDict<string>, key: string, default: Option<string>): (r: Option<string>)
    ensures key in Keys(cache) ==> r == Get(cache, key)
    ensures key !in Keys(cache) ==> r == default
  {
    if key in Keys(cache) then Get(cache, key) else default
  }

  /** `get(k)` without a default finds a value exactly when `has(k)` holds. */
  lemma LookupAgreesWithHas(cache: PyDict<string>, key: string)
    ensures Lookup(cache, key, None).Some? <==> key in Keys(cache)
  {
  }

  /** After a successful load, a lookup gives the fetched record's value. */
  lemma LoadThenLookup(s: ProxyState, record: string, fetch: Fetch, key: string, default: Option<string>)
    requires fetch(record).Success?
    ensures Lookup(LoadStep(s, record, fetch).1.cache, key, default)
         == if key in Keys(fetch(record).value) then Get(fetch(record).value, key) else default
  {
  }

  /** The lines of `to_dotenv()`: `k="v"` per entry, in order, nothing escaped. */
  function DotenvLines(cache: Dict<string>): (lines: seq<string>)
    ensures |lines| == |cache|
  {
    seq(|cache|, i requires 0 <= i < |cache| => cache[i].0 + "=\"" + cache[i].1 + "\"")
  }

  /** The lines of `to_shell()`: the dotenv line behind `export `. */
  function ShellLines(cache: Dict<string>): (lines: seq<string>)
    ensures |lines| == |cache| && forall i :: 0 <= i < |cache| ==> lines[i] == "export " + DotenvLines(cache)[i]
  {
    seq(|cache|, i requires 0 <= i < |cache| => "export " + DotenvLines(cache)[i])
  }

  /** Each variable's `k="v"` line appears in `to_dotenv()`'s text. */
  lemma DotenvHasEveryEntry(cache: Dict<string>, i: nat)
    requires i < |cache|
    ensures Contains(Join(DotenvLines(cache), "\n"), cache[i].0 + "=\"" + cache[i].1 + "\"")
  {
    JoinContains(DotenvLines(cache), "\n", i);
  }

  /** Each variable's `export k="v"` line appears in `to_shell()`'s text. */
  lemma ShellHasEveryEntry(cache: Dict<string>, i: nat)
    requires i < |cache|
    ensures Contains(Join(ShellLines(cache), "\n"), "export " + cache[i].0 + "=\"" + cache[i].1 + "\"")
  {
    assert ShellLines(cache)[i] == "export " + cache[i].0 + "=\"" + cache[i].1 + "\"";
    JoinContains(ShellLines(cache), "\n", i);
  }

  /** `__repr__`. */
  function ReprText(s: ProxyState): string
  {
    "<EnvProxy(" + (if s.loaded then "loaded" else "not loaded") + ", " + NatToString(|s.cache|) + " vars"
      + (if Filled(s.recordId) then ", record=" + s.recordId.value else "") + ")>"
  }

  /** The representation of an unloaded proxy says so. */
  lemma ReprShowsNotLoaded(s: ProxyState)
    requires !s.loaded
    ensures Contains(ReprText(s), "not loaded")
  {
    var rest := ", " + NatToString(|s.cache|) + " vars"
      + (if Filled(s.recordId) then ", record=" + s.recordId.value else "") + ")>";
    assert ReprText(s) == "<EnvProxy(" + "not loaded" + rest;
    ContainsMiddle("<EnvProxy(", "not loaded", rest);
  }

  /** The representation gives the number of variables held. */
  lemma ReprShowsCount(s: ProxyState)
    ensures Contains(ReprText(s), NatToString(|s.cache|) + " vars")
  {
    var head := "<EnvProxy(" + (if s.loaded then "loaded" else "not loaded") + ", ";
    var count := NatToString(|s.cache|) + " vars";
    var tail := (if Filled(s.recordId) then ", record=" + s.recordId.value else "") + ")>";
    assert ReprText(s) == head + count + tail;
    ContainsMiddle(head, count, tail);
  }

  /** The representation names the record the variables came from, when there is one. */
  lemma ReprShowsRecord(s: ProxyState)
    requires Filled(s.recordId)
    ensures Contains(ReprText(s), s.recordId.value)
  {
    var head := "<EnvProxy(" + (if s.loaded then "loaded" else "not loaded") + ", " + NatToString(|s.cache|) + " vars"
      + ", record=";
    assert ReprText(s) == head + s.recordId.value + ")>";
    ContainsMiddle(head, s.recordId.value, ")>");
  }

  /** The message of the `AttributeError` for a missing variable. */
  function MissingMessage(name: string, keys: seq<string>): string
  {
    var available := Join(keys, ", ");
    "Environment variable '" + name + "' not found. Available: " + (if available == "" then "(none loaded)" else available)
  }

  /** The message names the missing variable. */
  lemma MissingMessageNamesKey(name: string, keys: seq<string>)
    ensures Contains(MissingMessage(name, keys), name)
  {
    var available := Join(keys, ", ");
    var tail := "' not found. Available: " + (if available == "" then "(none loaded)" else available);
    assert MissingMessage(name, keys) == "Environment variable '" + name + tail;
    ContainsMiddle("Environment variable '", name, tail);
  }

  /** How attribute access fails: a plain `AttributeError`, or the load's own error. */
  datatype LookupError = AttributeError(message: string) | LoadFailed(error: ClientError)

  /** `Outcome` of the on-demand load followed by a value. */
  function AfterLoad<T>(o: Outcome<ClientError>, v: T): (r: Result<T, ClientError>)
    ensures o.Fail? ==> r == Failure(o.error)
    ensures o.Pass? ==> r == Success(v)
  {
    if o.Fail? then Failure(o.error) else Success(v)
  }

  /** The proxy object; every accessor but `clear` and `__repr__` loads on demand first. */
  class EnvProxy {
    var cache: PyDict<string>
    var loaded: bool
    var recordId: Option<string>

    /** `EnvProxy()`. */
    constructor ()
      ensures State() == Initial
    {
      cache, loaded, recordId := [], false, None;
    }

    function State(): ProxyState
      reads this
    {
      ProxyState(cache, loaded, recordId)
    }

    /** `load(record_id)`. */
    method Load(record: string, fetch: Fetch) returns (r: Outcome<ClientError>)
      modifies this
      ensures (r, State()) == LoadStep(old(State()), record, fetch)
      ensures fetch(record).Success? ==> cache == fetch(record).value && recordId == Some(record) && loaded
      ensures fetch(record).Failure? ==> r == Fail(fetch(record).error) && State() == old(State())
    {
      var fetched := fetch(record);
      if fetched.Failure? {
        return Fail(fetched.error);
      }
      cache := fetched.value;
      recordId := Some(record);
      loaded := true;
      r := Pass;
    }

    /** `_ensure_loaded()`. */
    method EnsureLoaded(envRecord: Option<string>, fetch: Fetch) returns (r: Outcome<ClientError>)
      modifies this
      ensures (r, State()) == EnsureLoadedStep(old(State()), envRecord, fetch)
      ensures old(loaded) || !Filled(envRecord) ==> r == Pass && State() == old(State())
    {
      if loaded {
        return Pass;
      }
      if Filled(envRecord) {
        r := Load(envRecord.value, fetch);
      } else {
        r := Pass;
      }
    }

    /** `get(key, default)`. */
    method Get(key: string, default: Option<string>, envRecord: Option<string>, fetch: Fetch)
      returns (r: Result<Option<string>, ClientError>)
      modifies this
      ensures State() == EnsureLoadedStep(old(State()), envRecord, fetch).1
      ensures r == AfterLoad(EnsureLoadedStep(old(State()), envRecord, fetch).0, Lookup(cache, key, default))
    {
      var o := EnsureLoaded(envRecord, fetch);
      r := AfterLoad(o, Lookup(cache, key, default));
    }

    /** `has(key)`. */
    method Has(key: string, envRecord: Option<string>, fetch: Fetch) returns (r: Result<bool, ClientError>)
      modifies this
      ensures State() == EnsureLoadedStep(old(State()), envRecord, fetch).1
      ensures r == AfterLoad(EnsureLoadedStep(old(State()), envRecord, fetch).0, key in Dicts.Keys(cache))
    {
      var o := EnsureLoaded(envRecord, fetch);
      r := AfterLoad(o, key in Dicts.Keys(cache));
    }

    /** `keys()`. */
    method Keys(envRecord: Option<string>, fetch: Fetch) returns (r: Result<seq<string>, ClientError>)
      modifies this
      ensures State() == EnsureLoadedStep(old(State()), envRecord, fetch).1
      ensures r == AfterLoad(EnsureLoadedStep(old(State()), envRecord, fetch).0, Dicts.Keys(cache))
    {
      var o := EnsureLoaded(envRecord, fetch);
      r := AfterLoad(o, Dicts.Keys(cache));
    }

    /** `to_dict()`: a copy of the cache. */
    method ToDict(envRecord: Option<string>, fetch: Fetch) returns (r: Result<PyDict<string>, ClientError>)
      modifies this
      ensures State() == EnsureLoadedStep(old(State()), envRecord, fetch).1
      ensures r == AfterLoad(EnsureLoadedStep(old(State()), envRecord, fetch).0, cache)
    {
      var o := EnsureLoaded(envRecord, fetch);
      r := AfterLoad(o, cache);
    }

    /** `to_dotenv()`. */
    method ToDotenv(envRecord: Option<string>, fetch: Fetch) returns (r: Result<string, ClientError>)
      modifies this
      ensures State() == EnsureLoadedStep(old(State()), envRecord, fetch).1
      ensures r == AfterLoad(EnsureLoadedStep(old(State()), envRecord, fetch).0, Join(DotenvLines(cache), "\n"))
    {
      var o := EnsureLoaded(envRecord, fetch);
      r := AfterLoad(o, Join(DotenvLines(cache), "\n"));
    }

    /** `to_shell()`. */
    method ToShell(envRecord: Option<string>, fetch: Fetch) returns (r: Result<string, ClientError>)
      modifies this
      ensures State() == EnsureLoadedStep(old(State()), envRecord, fetch).1
      ensures r == AfterLoad(EnsureLoadedStep(old(State()), envRecord, fetch).0, Join(ShellLines(cache), "\n"))
    {
      var o := EnsureLoaded(envRecord, fetch);
      r := AfterLoad(o, Join(ShellLines(cache), "\n"));
    }

    /** `clear()`: back to the state of a new proxy. */
    method Clear()
      modifies this
      ensures State() == Initial
    {
      cache := [];
      loaded := false;
      recordId := None;
    }

    /** `__getattr__(name)`: private names are refused without loading; a missing variable is
        an `AttributeError` that lists what is loaded. Python only calls `__getattr__` for names
        that are not real attributes, so `env.keys` and the like never arrive here. */
    method GetAttr(name: string, envRecord: Option<string>, fetch: Fetch) returns (r: Result<string, LookupError>)
      modifies this
      ensures StartsWith(name, "_") ==> r == Failure(AttributeError(name)) && State() == old(State())
      ensures !StartsWith(name, "_") ==> State() == EnsureLoadedStep(old(State()), envRecord, fetch).1
      ensures !StartsWith(name, "_") && EnsureLoadedStep(old(State()), envRecord, fetch).0.Fail? ==>
        r == Failure(LoadFailed(EnsureLoadedStep(old(State()), envRecord, fetch).0.error))
      ensures !StartsWith(name, "_") && EnsureLoadedStep(old(State()), envRecord, fetch).0.Pass? ==>
        r == if name in Dicts.Keys(cache) then Success(Dicts.Get(cache, name).value)
             else Failure(AttributeError(MissingMessage(name, Dicts.Keys(cache))))
    {
      if StartsWith(name, "_") {
        return Failure(AttributeError(name));
      }
      var o := EnsureLoaded(envRecord, fetch);
      if o.Fail? {
        return Failure(LoadFailed(o.error));
      }
      if name !in Dicts.Keys(cache) {
        return Failure(AttributeError(MissingMessage(name, Dicts.Keys(cache))));
      }
      r := Success(Dicts.Get(cache, name).value);
    }

    /** `__repr__()`. */
    function Repr(): string
      reads this
    {
      ReprText(State())
    }
  }
}
