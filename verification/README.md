# gondor-go client core, modelled in Dafny

This project models the core of the Go client library for the Gondor hosting
API. It covers three parts:

- **The client's credentials.** This is the one-time authentication check
  (`EnsureAuthed`), the OAuth 2.0 password grant (section 4.3 of RFC 6749),
  the refresh grant (section 6 of RFC 6749) and token revocation
  (section 2.1 of RFC 7009).
- **The requests the resource facades build.** The facades are services,
  host names, sites, builds, deployments and logs.
- **How the facades classify the answers they get.**

HTTP is not modelled. Each operation takes as a parameter the outcome of the
request it would send:

- a `Reply` for a request it sends itself;
- a `Fetched` value for a call through the resource client;
- an optional error for a call whose only outcome is that error.

Each operation returns the request it sends, as method, target, query map and
payload. A payload is a sparse map from JSON key to JSON value. That makes the
difference between an absent key and a key bound to `null` explicit.

Modules:

- `Http` holds the shared vocabulary: optional values, errors, JSON, requests,
  outcomes and the `Ref` cell for records the caller owns.
- `Codec` holds the `omitempty` field-presence rules and `Collect`, which
  builds a payload from a list of fields.
- `Text` holds `%q`, decimal numerals, `strings.Join` and `strings.Split`, and
  what `fmt.Errorf` does with a format and no arguments.
- `Auth` holds the credential state machine. It is a `Client` class whose
  methods are proved against pure step functions on a `Session` value.
- `Services`, `Hosts`, `Sites`, `Builds`, `Deployments` and `Logs` hold one
  facade each. A facade is a class with a `client` field. Records are
  datatypes with a back-reference `r` to the facade that fetched them.
- A decoded list is an `array`. The `List` loops set each element's
  back-reference in place. `Create` updates the caller's record through a
  `Ref`.

Where the code and its documentation disagree, the model follows the code:

- The error of the first `EnsureAuthed` call is not replayed by later calls.
  `err` is a fresh local on every call (auth.go:12, auth.go:44), so every
  later call answers `(authed, nil)`.
- A successful refresh stores both tokens of the answer (auth.go:108-109),
  even when the answer has no `refresh_token`, which section 6 of RFC 6749
  allows. The credentials are then an access token beside an empty refresh
  token: not all empty and not all set (`Auth.RefreshWithoutRefreshToken`).
- A password grant succeeds on any status but 401 whose body decodes with
  an empty `error` (auth.go:60-77). An answer without tokens, such as a 500
  with body `{}`, then stores the username beside two empty tokens
  (`Auth.LoginWithoutTokens`).
- Log listings take only `instance`/`service`, `size` and `since`. The code
  has no page tokens and no `after`/`before` bounds.

## Model

| member | source | states |
|---|---|---|
| Auth.Grant | auth.go:57-74 | A token response succeeds iff it arrived, is not a 401, decodes and has an empty `error`; otherwise the transport error, "authentication failed", the decode error or `authentication request failed: %q` of the description |
| Auth.AfterLogin | auth.go:57-78 | After a password grant the client ID is unchanged; on failure nothing changes; on success the username is the argument and both tokens are the payload's |
| Auth.AfterRefresh | auth.go:90-110 | After a refresh grant the ID and username are unchanged; on failure nothing changes; on success both tokens are the payload's |
| Auth.Revoke | auth.go:113-130 | Revocation succeeds iff the status is 200, and then returns the credentials with username and both tokens cleared; otherwise the transport error or `unable to log out (<status>)` |
| Auth.AfterRevoke | auth.go:121-130 | A failed revocation leaves the credentials alone; a successful one clears them |
| Auth.Check | auth.go:11-45 | Later calls are no-ops answering `(authed, nil)`. A first call with an empty token fails with "auth: access token not present" and sends nothing. Otherwise it sends the bearer probe first. A 200 authenticates without touching credentials. A 401 sends the refresh grant and authenticates iff the grant succeeds; a failed refresh returns the grant's own error. A transport error on the probe is returned as it is. Any other status fails with `auth: unhandled status code returned (<status>)`. The guard is set afterwards, and `authed` never without it |
| Auth.GuardedChecksAreSilent | auth.go:11-45 | Once the guard has fired, any number of calls sends nothing, changes nothing and answers `(authed, nil)` |
| Auth.SingleVerification | auth.go:11-45 | Over any sequence of calls only the first sends (at most two requests). The state ends as the first call left it, and every later caller sees the first call's `authed` with no error |
| Auth.RefreshTransparency | auth.go:34-39 | A 401 probe followed by a successful refresh authenticates the client with the new access token |
| Auth.LoginThenRejectedRefresh | auth.go:47-111 | A successful login stores the returned tokens. A refresh the identity service rejects yields the quoted description and leaves those tokens in place |
| Auth.RefreshWithoutRefreshToken | auth.go:97-110 | A successful refresh whose answer has no refresh token, directly or after a 401 probe, leaves a non-empty access token with an empty refresh token, and the check still authenticates |
| Auth.LoginWithoutTokens | auth.go:57-78 | A password-grant answer with any status but 401 and a body with no `error` and no tokens counts as success, and stores the username beside two empty tokens |
| Auth.Client.Authenticate | auth.go:47-79 | Sends the password grant; the new credentials are `AfterLogin` of the old and the result is the credentials or the grant's error; `authed` and the guard are untouched |
| Auth.Client.AuthenticateWithRefreshToken | auth.go:81-111 | Sends the refresh grant with the stored refresh token; the new credentials are `AfterRefresh` of the old and the error is the grant's |
| Auth.Client.RevokeAccess | auth.go:113-131 | Sends the revocation of the stored refresh token; result and new credentials are `Revoke`/`AfterRevoke` of the old |
| Auth.Client.EnsureAuthed | auth.go:11-45 | The answer, the requests sent and the new state are exactly those of `Check` on the old state |
| Codec.ReadStringInvertsStr | lib/services.go:14-22 | An optional string field written under `omitempty` reads back as it was, nil included |
| Codec.ReadNumberInvertsNum | lib/services.go:19 | The same for an optional integer field |
| Codec.ReadPlainInvertsNonEmpty | lib/services.go:28 | A plain string written under `omitempty` reads back as it was; "" is absent on the wire |
| Text.DecimalRoundTrip | lib/logs.go:21-23 | The decimal numeral of a number parses back to it |
| Text.SplitJoin | lib/services.go:149 | Words without spaces, joined with single spaces, split back into the same words |
| Services.ServiceResource.FindOne | lib/services.go:39-50 | GET the target. A 404 gives "service not found" and no record. A client error passes through. Anything else gives the record pointing back at the facade |
| Services.ServiceResource.GetFromURL | lib/services.go:61-67 | GET the given URL with no query. A 404 gives "service not found", a client error passes through, anything else gives the record pointing back |
| Services.ServiceResource.Get | lib/services.go:69-76 | Targets `services/find/` with exactly the query keys `instance` and `name`, set to the arguments |
| Services.ServiceResource.GetDistinguishesLookups | lib/services.go:69-76 | Two lookups send the same request only for the same instance and name |
| Services.ServiceResource.List | lib/services.go:78-94 | Sends the listing request. A client error passes through. On success every record of the slice gets the back-reference in place and nothing else changes |
| Services.ListRequest | lib/services.go:78-84 | GET `services/` with `instance` iff an instance is given, and no other key |
| Services.ListRequestRecoversFilter | lib/services.go:78-84 | The instance filter reads back from the listing query |
| Services.Encode | lib/services.go:13-37 | Each pointer field's key is present iff the pointer is set, with its value. `env` is present only when non-empty, `open_ports` only when non-empty, and no other key (not the back-reference) |
| Services.DecodeEncode | lib/services.go:13-37 | Decoding an encoded service gives it back, except for the back-reference |
| Services.EnvRoundTrip | lib/services.go:23 | The `env` object reads back as the map it was written from |
| Services.ServiceResource.Update | lib/services.go:96-104 | PATCH the record's own URL with the encoding minus `url`; fails iff the client call fails |
| Services.EncodeWithoutURL | lib/services.go:96-99 | Clearing `url` removes exactly the `url` key from the encoding |
| Services.UpdatePayloadDecodes | lib/services.go:96-99 | The update payload has no `url` and decodes to the record as given minus its URL |
| Services.ServiceResource.Delete | lib/services.go:106-113 | DELETE the given URL; fails iff the client call fails, with its error |
| Services.SetState | lib/services.go:119-129 | PATCH the record's URL with exactly `{desired_state: state}` |
| Services.Restart | lib/services.go:115-117 | Equal to `SetState("restarted")`; the payload is `{desired_state: "restarted"}` |
| Services.SetReplicas | lib/services.go:131-141 | PATCH the record's URL with exactly `{desired_replicas: n}` |
| Services.Run | lib/services.go:143-162 | POST to URL + `run/`. `command` is the words joined by single spaces and is absent iff that is empty. `size` is present iff non-empty. The result is the endpoint or the client error |
| Services.RunCommandRecoversWords | lib/services.go:143-150 | The sent command splits back into the words when no word holds a space |
| Hosts.HostNameResource.FindOne | lib/hosts.go:22-33 | GET the target. A 404 gives "host not found" and no record. A client error passes through. Anything else gives the record pointing back |
| Hosts.HostNameResource.GetFromURL | lib/hosts.go:44-50 | GET the given URL with no query. A 404 gives "host not found", a client error passes through, anything else gives the record pointing back |
| Hosts.HostNameResource.Get | lib/hosts.go:52-59 | Targets `hosts/find/` with exactly the query keys `instance` and `host`, set to the arguments |
| Hosts.HostNameResource.List | lib/hosts.go:61-77 | Sends the listing request; on success every record gets the back-reference in place |
| Hosts.ListRequest | lib/hosts.go:61-67 | GET `hosts/` with `instance` iff an instance is given, and no other key |
| Hosts.Encode | lib/hosts.go:12-20 | `instance`, `host`, `keypair` and `url` are each present iff the pointer is set, with its value, and no other key |
| Hosts.DecodeEncode | lib/hosts.go:12-20 | Decoding an encoded host name gives it back, except for the back-reference |
| Hosts.HostNameResource.Update | lib/hosts.go:79-87 | PATCH the host's own URL with the encoding minus `url` |
| Hosts.EncodeWithoutURL | lib/hosts.go:79-82 | Clearing `url` removes exactly the `url` key |
| Hosts.HostNameResource.Delete | lib/hosts.go:89-96 | DELETE the given URL; errors iff the client call errors, with its error |
| Hosts.DetachKeyPair | lib/hosts.go:98-107 | PATCH the host's URL with a payload whose only key is `keypair`, bound to null; fails iff the client call fails, with its error |
| Hosts.DetachClearsKeyPair | lib/hosts.go:98-103 | Applied to any record, the detach payload clears the key pair and leaves every other field |
| Hosts.EncodeNeverDetaches | lib/hosts.go:15 | An encoded host never binds `keypair` to null, so no encoded record could detach the key pair |
| Sites.SiteResource.List | sites.go:39-55 | Sends the listing request; on success every record gets the back-reference in place |
| Sites.ListRequest | sites.go:39-45 | GET `sites/` with the group filter |
| Sites.GroupParam | sites.go:42-44 | `resource_group` is present iff a group is given, and is then the group's URL |
| Sites.SiteResource.FindOne | sites.go:57-65 | A client error passes through; any answer gives the record pointing back (no status check) |
| Sites.FindQuery | sites.go:67-74 | `name` always, `resource_group` (the group's URL) iff a group is given, nothing else |
| Sites.SiteResource.Get | sites.go:67-84 | Targets `sites/find/` with the lookup query. A not-found error becomes `site "<name>" was not found`, followed by ` in resource group "<group>"` iff a group is given. Other errors and records are the lookup's own |
| Sites.GetNotFoundNamesSite | sites.go:76-80 | The not-found message names the site. It ends with " was not found" without a group and with the quoted group name with one |
| Sites.SiteResource.Delete | sites.go:86-96 | With an empty URL nothing is sent and the result is "missing site URL"; otherwise DELETE the URL |
| Sites.UsersJson | sites.go:18-23 | The `users` array is absent iff there are no users, and holds one object per user in order |
| Sites.Encode | sites.go:13-28 | Empty `name`, `key` and `url`, a nil group and empty `instances`/`users` are left out, and there is no other key |
| Sites.DecodeEncode | sites.go:13-28 | Name, key, URL and users read back from an encoded site as they were |
| Sites.AddUser | sites.go:98-114 | POST `site_users/` with the encoded site under `site` (always present), `email` and `role` iff non-empty, nothing else |
| Text.FormatNoArgsPlain | sites.go:81 | A format without `%` prints as it is |
| Text.FormatNoArgsFinalDot | sites.go:81 | A `.` that ends the format is the verb: `%.` and `%5.` print `%!.(MISSING)` |
| Text.FormatNoArgsMissing | sites.go:81 | `%` and a verb print as `%!v(MISSING)` when there is no argument |
| Sites.NotFoundAsWritten | sites.go:76-81 | The not-found error as the code builds it (the message read as a format). It equals the message when neither name contains `%` |
| Sites.PercentInSiteName | sites.go:76-81 | For a site name with exactly one `%`, followed by an ASCII letter, and no `[`, looked up without a resource group, the error as built reads `%!<letter>(MISSING)` in place of the two characters and no longer names the site |
| Sites.FiftyPercentOff | sites.go:76-81 | For the site `50%off` the error as built does not name the site |
| Builds.BuildResource.List | lib/builds.go:31-53 | Sends the listing request; on success every build gets the back-reference in place |
| Builds.ListRequest | lib/builds.go:31-43 | GET `builds/`. `site` and `instance` are present iff given. `limit` is present iff positive, as its decimal numeral |
| Builds.ListRequestRecoversLimit | lib/builds.go:40-42 | The `limit` value is all digits and parses back to the limit |
| Builds.BuildResource.Create | lib/builds.go:55-63 | POST the encoded build to `builds/`. On success the answer is decoded into the caller's record and the back-reference is set. On failure the record is unchanged |
| Builds.Encode | lib/builds.go:16-29 | Each field's key is present iff its pointer is set, with its value, and no other key |
| Builds.DecodeEncode | lib/builds.go:16-29 | Decoding an encoded build gives it back, except for the back-reference |
| Builds.EchoKeepsRecord | lib/builds.go:55-62 | A server echoing the posted build leaves the caller's record as it was |
| Builds.UploadHeaders | lib/builds.go:86-88 | Exactly `Authorization: Bearer <token>`, `Content-Type: application/x-tar` and `Content-Disposition: attachment; filename=blob.tar` |
| Builds.Perform | lib/builds.go:65-110 | PUT the build's URL with the upload headers. Status below 300: the decoded endpoint or the decode error. Otherwise `build: non-200 response; got <status>` and no endpoint. A transport error passes through |
| Builds.PerformUsesClientBearer | lib/builds.go:86 | The upload's `Authorization` header is the one the client's own token probe sends |
| Deployments.DeploymentResource.List | lib/deployments.go:20-36 | Sends the listing request; on success every deployment gets the back-reference in place |
| Deployments.ListRequest | lib/deployments.go:20-26 | GET `deployments/` with `site` iff a site is given, and no other key |
| Deployments.DeploymentResource.Create | lib/deployments.go:38-46 | POST the encoded deployment. On success decode the answer into it and set the back-reference. On failure leave it unchanged |
| Deployments.Encode | lib/deployments.go:9-18 | Each field's key is present iff its pointer is set, with its value, and no other key |
| Deployments.DecodeEncode | lib/deployments.go:9-18 | Decoding an encoded deployment gives it back, except for the back-reference |
| Deployments.EchoKeepsRecord | lib/deployments.go:38-45 | A server echoing the posted deployment leaves the record as it was |
| Deployments.Wait | lib/deployments.go:48-50 | The wait polls the deployment's service with a 900-second timeout |
| Deployments.Check | lib/deployments.go:50-63 | One poll fetches the service by URL. A failed fetch stops with its error. "running" is done with no error. "deploying" is not done, with no error. Any other state stops with "unknown instance state" |
| Deployments.CheckOutcomes | lib/deployments.go:55-62 | A poll is never done and failed; it goes on without error iff the state is "deploying" |
| Logs.LogResource.ListByInstance | lib/logs.go:17-34 | GET `logs/` with `instance` always, `size` iff lines > 0 (as its numeral), `since` iff non-empty, nothing else; the records come back unchanged or the error passes through |
| Logs.LogResource.ListByService | lib/logs.go:36-53 | The same with `service` in place of `instance` |
| Logs.Query | lib/logs.go:18-26 | Builds that query one parameter at a time |
| Logs.Records | lib/logs.go:28-33 | The client's error, or the decoded records exactly as they came, with no back-reference |
| Logs.SizeRecoversLines | lib/logs.go:21-26 | The `size` value parses back to the number of lines, and `since` reads back as given |

## Left out

- The HTTP transport and the parts of the client not shown (`Client.Get/Post/Patch/Delete`, `buildBaseURL`, `http.PostForm`, `httpClient.Do`). Their outcomes are parameters. Their status-to-error mapping is not modelled. Decoding an answer into the caller's record (`Create`) is modelled by `DecodeInto` on the sparse JSON map, with exact key matches only.
- Failures of `url.Parse` in `GetFromURL` and of `http.NewRequest` (auth.go:21-23, lib/builds.go:82-85). The URLs are taken as given.
- `sync.Once` concurrency: the guard is the sequential `onceDone` flag.
- `WaitFor`'s loop, sleeping and clock: only the 900-second argument and one poll are modelled.
- `Perform`'s temporary file, `io.Copy`, `os.Open`, `Stat` and content length, and their errors (pure I/O).
- Byte-level encodings: JSON text, `url.Values.Encode` (escaping, key order) and `%q` escaping. `Text.Quote` wraps the text in quotes without escaping.
- Decoding a JSON value of the wrong type into a field is not an error here: the field keeps its value.
- Nil-pointer dereferences (`*service.URL`, `*service.State`, `*d.Service`, a nil back-reference) are preconditions. A lookup whose body decodes to `null` is not modelled: the answer is always a record. Nor is a `null` element of a listed slice, on which the back-reference loops (lib/services.go:90-92 and its twins) would panic: a listed array holds records only.
- `Create` of services, host names and sites, which the core does not include.
- The resource-group and instance records: a site keeps them in their JSON form.
- `Deployments.Check` takes the service facade as a parameter, because the client's `Services` field belongs to the client type, which is not part of this model.
- Builds.BuildResource.Create: a failed call leaves the record unchanged, although the unseen client might have decoded part of an error body into it. On success the answer is decoded with `DecodeInto`, which matches JSON keys exactly, while `encoding/json` also accepts a key that differs only in case (`"URL"` for `url`); such keys are ignored here. The same holds for Deployments.DeploymentResource.Create.
- Sites.NotFoundAsWritten: requires that neither name contains `[` (explicit argument indexes of `fmt` are not modelled).
- Auth.Client.Authenticate: returns the credentials, where the code returns the whole options value holding them.
- Auth.Client.RevokeAccess: returns the cleared credentials, where the code returns the whole options value holding them (auth.go:130).
- Sites.SiteResource.Get: returns the intended not-found message unchanged, where the program passes it to `fmt.Errorf` as a format; the program's text is `Sites.NotFoundAsWritten` (see Findings), which differs when a name holds `%`.
- Builds.PerformUsesClientBearer: the upload reads the token from `client.cfg.Auth` (lib/builds.go:86) and the authentication code from `c.opts.Auth` (auth.go:25). The client type is not part of this model, so both are taken to be the same credentials, `Auth.Client.accessToken`; the lemma holds under that identification.

## Findings

| source | as written | input that shows it | evidently intended | confidence | as-written member | corrected member |
|---|---|---|---|---|---|---|
| sites.go:81 | `fmt.Errorf(msg)` uses the built message as a format string, so a `%` in the site or group name is read as a directive | a site named `50%off` that is not found gives `site "50%!o(MISSING)ff" was not found` | the message verbatim (`errors.New(msg)`): the error names the site | high, not executed | Sites.PercentInSiteName | Sites.GetNotFoundNamesSite |
