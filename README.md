# ikv-secrets in Dafny

A model of the decision logic of ikv-secrets, the Python client of the IronKeyVault secrets
vault. Four parts are modelled:

- **Storage.** The token store in `tokens.json`, with its expiry rules and JSON form, and the
  tenant configuration in `~/.ikv/config.yaml`.
- **Login and logout.** How `login` resolves the vault url and picks a flow, how the browser
  callback is classified, what the wait and the token exchange produce, how the service-account
  statuses map to errors, and the best-effort `logout` loop.
- **Client and proxy.** How `IKVClient` picks its authentication headers and classifies the
  vault's replies, and the lazy `EnvProxy` cache.
- **Command line and example scripts.** The `ikv-secrets` commands and the two scripts
  `examples/get_env.py` and `examples/test.py`: output line formats, gating, masking and exit
  codes.

The shell lines are read back with quote removal as defined in POSIX.1-2017, Shell Command
Language, sections 2.2.1 to 2.2.3 (module `PosixShell`). The proofs show that every value
survives the single-quoted `export` format. They also show which values do not survive the
dotenv format and the proxy's unescaped lines.

## How the model is organised

Each core file has its own module:

| file | module |
|---|---|
| `keyring_store.py` | `KeyringStore` |
| `config.py` | `Config` |
| `auth.py` | `Auth` |
| `client.py` | `Client` |
| `env.py` | `Env` |
| `cli.py` | `Cli` |
| `examples/get_env.py` | `GetEnvExample` |
| `examples/test.py` | `TestExample` |

Supporting modules:

- `Wrappers`: Option, Result and Outcome, plus `Filled`, which is Python truthiness of an
  optional string.
- `Strings`: `rstrip`, single-character `replace`, `in`, `lower`, `join` and `str(int)`.
- `Dicts`: insertion-ordered dicts, with `d[k] = v` and `dict(pairs)`.
- `Json` and `Http`: decoded JSON values, and a reply as status, content type and body.
- `PosixShell`: the shell quote-removal reference described above.

State that the source changes in place is held in classes:

- `TokenStore` holds the tokens file.
- `ConfigStore` holds the configuration file.
- `CallbackState` holds the callback handler's `auth_result` dict and event.
- `EnvProxy` holds the proxy's cache, loaded flag and record id.

Each method's `ensures` gives the new state as a function of the old one. `Auth.Logout` is a
loop whose invariant says that the tenants handled so far have been deleted. Everything the
source takes from outside is a parameter:

- the clock (`now`);
- the random nonce and CSRF state;
- HMAC-SHA256 (`sign`);
- the environment (`env`);
- the HTTP replies (`Http.Reply`);
- the callback query;
- the contents of the files.

## Model

| member | source | states |
|---|---|---|
| KeyringStore.ExpiresIn | src/ikv_secrets/keyring_store.py:72-75 | the seconds left are never negative and equal `expires_at - now` whenever that is not negative |
| KeyringStore.ExpiryBoundary | src/ikv_secrets/keyring_store.py:67-70 | a token is still valid exactly 300 seconds before `expires_at` and expired one second later |
| KeyringStore.ExpiryIsPermanent | src/ikv_secrets/keyring_store.py:67-70 | once expired, a token stays expired at every later time |
| KeyringStore.UnexpiredHasFiveMinutes | src/ikv_secrets/keyring_store.py:67-75 | a token that is not expired has at least 300 seconds, so at least 5 whole minutes, left |
| KeyringStore.ToJson | src/ikv_secrets/keyring_store.py:77-83 | the JSON form is an object with exactly the keys access_token, expires_at, tenant in that order |
| KeyringStore.FromJson | src/ikv_secrets/keyring_store.py:85-93 | decoding fails on a non-object or a missing field, and a decoded token carries the three members |
| KeyringStore.JsonRoundTrip | src/ikv_secrets/keyring_store.py:77-93 | decoding the JSON form of a token gives the same token in all three fields |
| KeyringStore.LoadTokensFile | src/ikv_secrets/keyring_store.py:42-49 | a missing or undecodable tokens file loads as the empty dict |
| KeyringStore.TokenFor | src/ikv_secrets/keyring_store.py:106-117 | an absent tenant reads as None, a present object entry reads as its decoding, and every decoding error reads as None (a string entry holding JSON text reads as None, see Left out) |
| KeyringStore.DeleteOutcome | src/ikv_secrets/keyring_store.py:143-151 | without a fault the tenant's key alone is removed and every other entry is kept; a failed write is swallowed |
| KeyringStore.SaveThenGet | src/ikv_secrets/keyring_store.py:128-131 | after saving a token for a tenant, reading that tenant gives the token back |
| KeyringStore.SaveKeepsOthers | src/ikv_secrets/keyring_store.py:128-131 | saving for one tenant leaves every other tenant's token as it read before |
| KeyringStore.DeleteRemovesOnlyTenant | src/ikv_secrets/keyring_store.py:143-147 | after a delete the tenant reads as absent and every other tenant reads as before |
| KeyringStore.DeleteAbsentIsNoop | src/ikv_secrets/keyring_store.py:143-151 | deleting a tenant that has no token changes no entry |
| KeyringStore.TokenStore.constructor | src/ikv_secrets/keyring_store.py:23-25 | the store starts over the given tokens file |
| KeyringStore.TokenStore.SaveToken | src/ikv_secrets/keyring_store.py:120-131 | the file becomes the loaded dict with the tenant's entry overwritten; that tenant reads back the token and the others are unchanged |
| KeyringStore.TokenStore.DeleteToken | src/ikv_secrets/keyring_store.py:136-151 | the file becomes the delete outcome; without a fault the tenant reads as absent and the others are unchanged |
| Config.GetConfig | src/ikv_secrets/config.py:26-41 | a missing file reads as `{"tenants": {}}`, an empty one as `{}`, and a parsed one as itself |
| Config.GetTenantUrl | src/ikv_secrets/config.py:84-95 | None when `tenants` or the tenant is absent; when the tenant's entry is present, exactly that entry's url |
| Config.NewEntry | src/ikv_secrets/config.py:74-79 | the entry holds the url, and holds `default_record` exactly when a non-empty one is given |
| Config.WithTenant | src/ikv_secrets/config.py:69-80 | `tenants` exists afterwards, the tenant's entry is replaced whole, and every other tenant's entry is unchanged |
| Config.SaveThenGetUrl | src/ikv_secrets/config.py:60-95 | after saving a tenant's url, `get_tenant_url` returns it |
| Config.SaveKeepsOtherTenants | src/ikv_secrets/config.py:71-75 | saving one tenant leaves every other tenant's url unchanged |
| Config.SaveDropsEarlierDefaultRecord | src/ikv_secrets/config.py:74-79 | a save without a default record drops the one stored before |
| Config.SaveIsIdempotent | src/ikv_secrets/config.py:69-81 | saving the same values twice gives the same document as saving them once |
| Config.SaveKeepsTenantOrder | src/ikv_secrets/config.py:74-76 | existing tenants keep their order and a new tenant is appended |
| Config.ConfigStore.constructor | src/ikv_secrets/config.py:21-23 | the store starts over the given configuration file |
| Config.ConfigStore.SaveTenantConfig | src/ikv_secrets/config.py:60-81 | the file becomes the loaded document with the tenant's entry replaced; the url reads back and other tenants are unchanged |
| Auth.ResolveVaultUrl | src/ikv_secrets/auth.py:71-81 | the url is a non-empty argument, else the configured url, else the default, with trailing `/` stripped |
| Auth.ChooseFlow | src/ikv_secrets/auth.py:84-88 | the service-account flow is taken exactly when both keys are non-empty |
| Auth.ClassifyCallback | src/ikv_secrets/auth.py:109-174 | a `code` wins, with the first code and state (default ""); otherwise `error` gives `error_description` or else `error`; otherwise nothing is recognised |
| Auth.CallbackStatus | src/ikv_secrets/auth.py:113-174 | the handler replies 200 exactly for a code and 400 otherwise |
| Auth.Record | src/ikv_secrets/auth.py:113-145 | a code writes code and state, an error writes the error, and anything else writes nothing |
| Auth.AfterWait | src/ikv_secrets/auth.py:220-224 | a recorded error fails as "Authentication failed: …", a missing code is the timeout, and only a code goes on |
| Auth.CallbackOutcome | src/ikv_secrets/auth.py:212-224 | no request is the timeout; a request with a code goes to the exchange with its first code; an error without a code fails with the first description, else the first error; a request with neither is the timeout |
| Auth.CodeWinsOverError | src/ikv_secrets/auth.py:113-116 | a callback with a code goes to the exchange with its first code, even beside an error |
| Auth.ErrorCallbackFails | src/ikv_secrets/auth.py:143-145 | an error callback without a code fails with the error's description, or else its code |
| Auth.StrayCallbackTimesOut | src/ikv_secrets/auth.py:172-176 | a request with neither code nor error ends like no request: the timeout |
| Auth.StateNeverCompared | src/ikv_secrets/auth.py:113-116 | the outcome is the same whatever `state` the callback echoes |
| Auth.CallbackState.constructor | src/ikv_secrets/auth.py:105-106 | nothing is recorded and the event is not set |
| Auth.CallbackState.HandleGet | src/ikv_secrets/auth.py:109-176 | the recorded entries become `Record` of the old ones, the event is set, and the status is `CallbackStatus` |
| Auth.ExpiresAtOf | src/ikv_secrets/auth.py:249-253 | the reply's `expires_at`, else `now + expires_in`, else `now + 14400` |
| Auth.ExchangedToken | src/ikv_secrets/auth.py:249-253 | an object reply with a string `access_token` and a computable expiry gives exactly the token of that access token and expiry for the tenant; any success comes from such a reply, and anything else is malformed |
| Auth.ExchangeError | src/ikv_secrets/auth.py:239-241 | a failed exchange raises AuthError with the JSON `error_description`, or else "Token exchange failed: status" |
| Auth.ExchangeOutcome | src/ikv_secrets/auth.py:228-253 | connect failure gives "Cannot connect to url"; a non-2xx status gives exactly the AuthError built from the status and body; a 2xx reply gives exactly the token read from its body |
| Auth.ServiceAccountOutcome | src/ikv_secrets/auth.py:270-301 | 401 and 403 give their own AuthError messages, other non-2xx statuses give HTTPStatusError, a connect failure is an AuthError, and a 2xx object with a string `access_token` and an integer `expires_at` gives exactly that token for the tenant |
| Auth.LoginOutcome | src/ikv_secrets/auth.py:71-89 | with both keys the outcome is the service-account outcome at the resolved url; otherwise a failed wait is an AuthError with its message and a code goes to the exchange at the resolved url |
| Auth.AuthorizeParams | src/ikv_secrets/auth.py:196-201 | the parameters are redirect_uri, state, device_fingerprint and force_login ("1" or "0") in that order |
| Auth.LoginTokenIsForTenant | src/ikv_secrets/auth.py:249-296 | a successful login yields a token for the tenant asked for, from a 2xx reply of the flow taken |
| Auth.ServiceAccountLoginSucceeds | src/ikv_secrets/auth.py:286-293 | with both keys and a well-formed 2xx reply, the login yields exactly the reply's token for the tenant, valid while more than five minutes remain |
| Auth.ServiceAccountLoginExample | src/ikv_secrets/auth.py:286-293 | tenant "acme" answered with `tok123` and `now + 14400` logs in with that token, not expired at `now` |
| Auth.ServiceAccountRejections | src/ikv_secrets/auth.py:281-284 | service-account 401 and 403 fail login with "Invalid service account credentials" and "Service accounts require Enterprise tier" |
| Auth.LoginIgnoresCsrfState | src/ikv_secrets/auth.py:190-224 | the generated CSRF state plays no part in the login outcome |
| Auth.Authenticate | src/ikv_secrets/auth.py:71-253 | before anything is saved, the outcome is the login outcome, and the authorisation parameters exist exactly for the browser flow |
| Auth.Login | src/ikv_secrets/auth.py:45-260 | the result is the login outcome; on success the token and the tenant's url are saved and read back, and on failure neither file changes |
| Auth.LogoutTargets | src/ikv_secrets/auth.py:311-316 | a non-empty tenant alone, else every configured tenant in order, each named once |
| Auth.DeleteAllRemovesTargets | src/ikv_secrets/auth.py:311-320 | without write failures, logout removes exactly the targeted tenants' tokens |
| Auth.DeleteAllContinuesPastFailures | src/ikv_secrets/auth.py:316-320 | a failed delete does not stop the loop: every later tenant is still deleted |
| Auth.Logout | src/ikv_secrets/auth.py:304-320 | the tokens file after the loop is each target's delete applied in order |
| Auth.LogoutScope | src/ikv_secrets/auth.py:311-312 | logout of a named tenant removes it and keeps every other tenant; an empty name means all tenants |
| Client.NewClient | src/ikv_secrets/client.py:52-64 | the stored url is the argument without its trailing `/` characters; tenant and keys are kept |
| Client.FromEnv | src/ikv_secrets/client.py:66-86 | a missing IKV_VAULT_URL fails first, then a missing IKV_TENANT; otherwise the client takes both and the keys |
| Client.ServiceHeaders | src/ikv_secrets/client.py:91-109 | the five service-account headers, in order |
| Client.ServiceHeaderValues | src/ikv_secrets/client.py:96-109 | each header carries its value, and the signature is over `timestamp:nonce:tenant` keyed by the API key |
| Client.BearerHeaders | src/ikv_secrets/client.py:125-127 | the only header is `Authorization: Bearer <token>` |
| Client.AuthHeaders | src/ikv_secrets/client.py:88-127 | both keys give the service headers; otherwise a missing token is "Not logged in", an expired one "Token expired", else the bearer header |
| Client.ServiceHeadersIgnoreTokens | src/ikv_secrets/client.py:91-112 | with both keys set, the token store is never consulted |
| Client.StringMember | src/ikv_secrets/client.py:152-154 | `data.get(k, default)`: the default when absent, the string when a string |
| Client.TierErrorOf | src/ikv_secrets/client.py:149-155 | a 403 raises TierError exactly when `error`, `required_tier` and `current_tier` are each absent or a string; each field is the reply's member when present, else "Feature requires higher tier", "premium" or "unknown"; a non-object body is malformed |
| Client.StringValues | src/ikv_secrets/client.py:162-163 | an all-string object becomes the variables, with keys and order kept |
| Client.EnvReply | src/ikv_secrets/client.py:146-163 | 401 is AuthenticationError, 403 exactly the tier error read from the body, 404 not-found, other non-2xx HTTPStatusError; on 2xx a missing `variables` is empty, an all-string `variables` object gives its string values, and anything else is malformed |
| Client.EnvReplyVariables | src/ikv_secrets/client.py:162-163 | a 2xx reply whose `variables` object holds only strings succeeds, and the variables returned are exactly those of that object |
| Client.GetEnv | src/ikv_secrets/client.py:129-163 | a header failure means no request; otherwise the reply decides |
| Client.RecordsReply | src/ikv_secrets/client.py:174-180 | every non-2xx status is HTTPStatusError, and success yields `records` or else no records |
| Client.ListingDoesNotMapUnauthorized | src/ikv_secrets/client.py:179-180 | a 401 when listing is an HTTPStatusError, not an IKVClientError, unlike `get_env` |
| Client.ListEnvRecords | src/ikv_secrets/client.py:165-180 | a header failure means no request; otherwise the reply decides |
| Env.LoadFills | src/ikv_secrets/env.py:53-64 | a load succeeds exactly when the fetch does, and then sets cache, record and loaded; a failed fetch changes nothing |
| Env.EnsureLoadedIdempotent | src/ikv_secrets/env.py:43-51 | a second on-demand load changes nothing |
| Env.LoadedProxyDoesNotFetch | src/ikv_secrets/env.py:43-46 | a loaded proxy never fetches again |
| Env.Lookup | src/ikv_secrets/env.py:69-72 | the cached value when the key is present, else the default |
| Env.LookupAgreesWithHas | src/ikv_secrets/env.py:69-77 | `get(k)` finds a value exactly when `has(k)` holds |
| Env.LoadThenLookup | src/ikv_secrets/env.py:61-72 | after a successful load a lookup gives the fetched record's value |
| Env.DotenvLines | src/ikv_secrets/env.py:89-93 | one line per cache entry |
| Env.ShellLines | src/ikv_secrets/env.py:95-99 | each line is `export ` followed by the dotenv line |
| Env.DotenvHasEveryEntry | src/ikv_secrets/env.py:89-93 | every entry's unescaped `k="v"` line occurs in `to_dotenv()` |
| Env.ShellHasEveryEntry | src/ikv_secrets/env.py:95-99 | every entry's `export k="v"` line occurs in `to_shell()` |
| Env.ReprShowsNotLoaded | src/ikv_secrets/env.py:122-126 | the representation of an unloaded proxy says "not loaded" |
| Env.ReprShowsCount | src/ikv_secrets/env.py:122-126 | the representation gives the number of variables |
| Env.ReprShowsRecord | src/ikv_secrets/env.py:122-126 | the representation names the record when there is one |
| Env.MissingMessageNamesKey | src/ikv_secrets/env.py:114-118 | the error for a missing variable names it |
| Env.EnvProxy.constructor | src/ikv_secrets/env.py:31-35 | a new proxy is unloaded, with an empty cache and no record |
| Env.EnvProxy.Load | src/ikv_secrets/env.py:53-67 | success replaces the cache and the record and sets loaded; failure raises and changes nothing |
| Env.EnvProxy.EnsureLoaded | src/ikv_secrets/env.py:43-51 | nothing happens when already loaded or when IKV_RECORD is unset or empty |
| Env.EnvProxy.Get | src/ikv_secrets/env.py:69-72 | loads on demand, then gives the cached value or the default |
| Env.EnvProxy.Has | src/ikv_secrets/env.py:74-77 | loads on demand, then tests for the key |
| Env.EnvProxy.Keys | src/ikv_secrets/env.py:79-82 | loads on demand, then lists the keys in order |
| Env.EnvProxy.ToDict | src/ikv_secrets/env.py:84-87 | loads on demand, then copies the cache |
| Env.EnvProxy.ToDotenv | src/ikv_secrets/env.py:89-93 | loads on demand, then joins the dotenv lines |
| Env.EnvProxy.ToShell | src/ikv_secrets/env.py:95-99 | loads on demand, then joins the shell lines |
| Env.EnvProxy.Clear | src/ikv_secrets/env.py:101-105 | back to a new proxy's state: empty, unloaded, no record |
| Env.EnvProxy.GetAttr | src/ikv_secrets/env.py:107-120 | a name starting with `_` is refused without loading; a missing name raises a message naming it; otherwise the value |
| Strings.RStrip | src/ikv_secrets/client.py:59 | the longest prefix not ending in the character, with only that character removed |
| Strings.ReplaceChar | src/ikv_secrets/cli.py:158 | each occurrence grows the text by the replacement's extra length, and with none the text is unchanged |
| Strings.Lower | examples/get_env.py:134 | the ASCII letters are lower-cased one by one |
| Cli.ShellEscape | src/ikv_secrets/cli.py:156-159 | the escaped length is the value's plus 4 per single quote, and a value without quotes is unchanged |
| Cli.ShellEscapeSteps | src/ikv_secrets/cli.py:158 | only single quotes change, each into `'"'"'`, in order |
| Cli.SingleQuotedBody | src/ikv_secrets/cli.py:156-159 | the escaped text followed by a closing quote reads back, inside single quotes, as the value |
| Cli.ShellQuotingRoundTrip | src/ikv_secrets/cli.py:140-159 | quote removal of `'escaped'` gives the original value for every value |
| Cli.ShellAssignmentRoundTrip | src/ikv_secrets/cli.py:156-159 | the word `K='escaped'` reads back as `K=value` when the key is ordinary |
| Cli.DotenvEscape | src/ikv_secrets/cli.py:208-211 | the escaped length is the value's plus 1 per double quote |
| Cli.DotenvQuotingRoundTrip | src/ikv_secrets/cli.py:208-211 | a value without `\`, `$` or backquote survives the dotenv line read under double-quote rules |
| Cli.DotenvBackslashEscapesClosingQuote | src/ikv_secrets/cli.py:210-211 | a value that is one backslash escapes the closing quote and does not read back |
| Cli.ProxyDotenvAgreesWithoutQuotes | src/ikv_secrets/cli.py:208-211 | without double quotes in the value, the proxy's dotenv line is the command line's |
| Cli.ProxyDotenvBreaksOnQuote | src/ikv_secrets/env.py:89-93 | a double quote in a value breaks the proxy's unescaped line, while the escaped one reads back |
| Cli.ShellLines | src/ikv_secrets/cli.py:156-159 | one `export K='escaped'` line per variable, in order |
| Cli.ExportOutput | src/ikv_secrets/cli.py:199-211 | json gives an object with the variables' names in order, each mapped to its value as a string; every other format gives one line per variable, in the dotenv, shell or docker form |
| Cli.JsonExportReadsBack | src/ikv_secrets/cli.py:199-200 | the json document read back as a string dict is exactly the fetched variables |
| Cli.CheckExistingLogin | src/ikv_secrets/cli.py:42-47 | the login is skipped exactly when a token exists, is not expired and `--force` is absent, showing at least 5 minutes |
| Cli.CliLogin | src/ikv_secrets/cli.py:33-59 | the skip changes nothing; otherwise the login runs with force_login "0": on success the token is saved under the tenant (and reads back) and the tenant's url is saved in the configuration; on failure neither file changes, an AuthError exits 1 and other errors escape |
| Cli.ClassifyTenant | src/ikv_secrets/cli.py:84-93 | not expired is logged in (at least 5 minutes), expired is token expired, and no token is not logged in |
| Cli.StatusReportOf | src/ikv_secrets/cli.py:73-93 | a notice when no tenant is configured, else one row per tenant in order, with the url or "unknown" |
| Cli.StatusAfterLogin | src/ikv_secrets/cli.py:83-89 | right after saving a valid token, status shows the tenant as logged in |
| Cli.RecordClient | src/ikv_secrets/cli.py:142-153 | no tenant, or a tenant without url, stops with its error; otherwise a client for the configured url |
| Cli.ListClient | src/ikv_secrets/cli.py:100-112 | no tenant stops; with IKV_VAULT_URL set the client comes from the environment; otherwise from the configured url |
| Cli.ListUsesEnvironmentTenant | src/ikv_secrets/cli.py:104-105 | with IKV_VAULT_URL set, `list` uses IKV_TENANT's tenant whatever `--tenant` says |
| Cli.Report | src/ikv_secrets/cli.py:161-166 | IKVClientError and its subclasses become an error line, and anything else escapes |
| Cli.LoadCommand | src/ikv_secrets/cli.py:131-166 | a missing tenant or url exits with its error; once the client exists, a fetch that succeeds prints exactly the shell lines of the fetched variables and one that fails is reported with "# Error: " |
| Cli.ExportCommand | src/ikv_secrets/cli.py:169-218 | a missing tenant or url exits with its error; once the client exists, a fetch that succeeds prints exactly the chosen format of the fetched variables and one that fails is reported with "# Error: " |
| Cli.ListCommand | src/ikv_secrets/cli.py:96-128 | a missing tenant or url exits; once the client exists, a listing that succeeds gives exactly its records (or says there are none), a TierError exits with the message naming both tiers, and any other error is reported with "✗ Error: " |
| Cli.LoadLinesReadBack | src/ikv_secrets/cli.py:131-159 | line i of a successful `load` is `export` followed by a word whose quote removal gives back `name=value` of the i-th fetched variable |
| Cli.ListUnauthorizedEscapes | src/ikv_secrets/cli.py:114-128 | a 401 listing is not caught as an authentication error: it escapes as an HTTP status error |
| Cli.MissingTenantOrUrlExits | src/ikv_secrets/cli.py:142-151 | `load` and `export` exit 1 without a tenant or url, and so does `list` unless IKV_VAULT_URL is set |
| GetEnvExample.UrlChoice | examples/get_env.py:87 | `args.url` when non-empty, else the configured url |
| GetEnvExample.CheckPrerequisites | examples/get_env.py:78-103 | the checks run in the order tenant, url, token, not expired; the first failure decides, and all passing yields tenant and url |
| GetEnvExample.PassedChecksAuthenticate | examples/get_env.py:93-108 | once the checks pass, the client's headers succeed and only the reply decides the fetch |
| GetEnvExample.IsSensitive | examples/get_env.py:134 | a key is sensitive exactly when its lower-case form contains one of the markers |
| GetEnvExample.Display | examples/get_env.py:134-137 | a sensitive value shows its first 4 characters (none if it is 4 or shorter) then `****`; any other value is cut to the limit plus `...` |
| GetEnvExample.MaskHidesAllButFour | examples/get_env.py:134-135 | sensitive values agreeing on their first 4 characters are shown alike, and so are all short ones |
| GetEnvExample.ApiKeysAreSensitive | examples/get_env.py:134 | "api" is a marker here: the key `API` is masked |
| GetEnvExample.ChooseMode | examples/get_env.py:112-126 | shell wins over dotenv, which wins over json; human-readable otherwise |
| GetEnvExample.ScriptOutput | examples/get_env.py:111-138 | shell and dotenv print one line per variable; json prints the same document as `export -f json`; human mode prints an optional header and one masked line per variable |
| GetEnvExample.EscapingMatchesCli | examples/get_env.py:112-120 | the script's shell and dotenv lines are the command line's, line for line |
| GetEnvExample.Run | examples/get_env.py:78-150 | a failed check exits 1; otherwise the fetched variables are printed in the chosen mode, client errors exit 1, and others escape |
| TestExample.Marker | examples/test.py:86 | a record is marked "→" exactly when its `name` is the requested record, else " " |
| TestExample.ApiKeysAreNotSensitiveHere | examples/test.py:100 | "api" is not a marker here: the key `API` is shown in clear, unlike in get_env.py |
| TestExample.VariableLines | examples/test.py:98-104 | one line per variable, masked with this script's markers and a limit of 50 |
| TestExample.ListingOf | examples/test.py:80-90 | a listing that raises is shown as failed; otherwise one marker per listed record, in order |
| TestExample.Run | examples/test.py:25-121 | fewer than two arguments is the usage exit; a failed check ends the run; after the checks the listing is that of the records reply, and a fetch that succeeds passes with the masked variables, while a failed one is a reported client error when it is an IKVClientError and escapes otherwise |
| TestExample.ListingNeverDecides | examples/test.py:80-90 | a failed or odd listing is only reported, and the run ends the same way |

## Left out

- HTTP transport, TLS settings, timeouts and JSON text parsing. Replies are given as status, content type and decoded body.
- Wrong-typed JSON fields count as malformed. Python would pass them through or fail later.
- The callback HTTP server, its thread and the 300-second wait. At most one request arrives before the wait ends.
- `webbrowser.open`, the device fingerprint and `urllib` percent-encoding. The authorisation parameters are modelled before encoding.
- Every `print` and `click.echo` beyond the lines modelled. Also left out: stderr texts, the `logout` command's confirmation line, the `list` row layout, and the headers and footers of the example scripts.
- The OS keyring backend and its liveness probe. Only the file fallback is modelled.
- KeyringStore.TokenFor: a string entry, whether from the keyring or stored as a string in tokens.json, is JSON text that the source parses with `json.loads`. The model does not parse JSON text, so such an entry reads as undecodable (None). Only object entries decode.
- Config.Document keeps only the `tenants` key. Other top-level keys of the configuration file, which `save_tenant_config` writes back unchanged, are not represented.
- Env.EnvProxy.GetAttr: in the source, names that are real attributes of the proxy (`get`, `has`, `keys`, `load` and the others) never reach `__getattr__`. The model treats every name that does not start with `_` as a variable lookup.
- Writing the tokens or configuration file. A write that fails in `save_token` or `save_config` raises in the source, and that failure is not modelled.
- mkdir and chmod. Writes are not atomic in the source, and the model assumes nothing about atomicity.
- JSON and YAML text serialisation. `yaml.dump` sorts keys, so after a re-read the tenants come back in sorted order. The model keeps insertion order.
- `time.time()` is a float. It is an integer `now` here, and one reading serves a whole command.
- HMAC-SHA256, `os.urandom` and `secrets.token_urlsafe` are parameters.
- The body of the code-exchange request (code and redirect_uri) is not modelled.
- `EnvProxy._client` caching and `IKVClient.from_env` inside `load` are a `fetch` parameter.
- The `inject=True` write to `os.environ` is not modelled.
- `close` and the context-manager methods of `IKVClient` hold no logic.
- `eval $(ikv-secrets load …)` also splits fields and expands globs on the substituted text, because it is unquoted. Only quote removal of each word is modelled.
- Strings.Lower: only ASCII letters are lower-cased. Python lower-cases all of Unicode.
- Cli.CliLogin: the skip check and the success message use the same `now`, where the source reads the clock twice.
- Cli.ListCommand: the rows of a listing are returned as records, not formatted lines. A record without `id` or `name` raises a KeyError in the source, and that is not modelled.
- TestExample.Run: a listing whose records are objects without `id` or `name` is shown as listed. In the source the KeyError is caught midway, after the earlier rows were printed.
- GetEnvExample.ScriptOutput: json mode gives the JSON value, not the indented text.
