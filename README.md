# freee integration for kintone: a Dafny model

The script `customizations/freee-integration/src/main.ts` is a kintone app customisation. It lets a kintone user connect the app to freee's accounting API using OAuth 2.0. That means the authorization-code grant (section 4.1 of RFC 6749) and the refresh-token grant (section 6 of RFC 6749). Each user owns a single record holding the client id and secret, the tokens, their expiry and the pending `state` nonce. The script hooks four kinds of kintone events:

- On the list view, a redirect guard sends a user who does not own exactly one record to the create screen.
- On submit, a hook writes a fresh UUID-shaped nonce into the record's `state` field.
- On submit success, a hook navigates to freee's authorize URL with the client id, the encoded callback URL and the nonce.
- On the list view, the token handler picks one of five outcomes:
  - do nothing;
  - refresh the token;
  - exchange a returned code;
  - abort on a state mismatch;
  - call the companies resource with the stored access token.

The model has six modules, one per file:

- `Uuid` (`uuid.dfy`) is the nonce generator. It is an in-place fill of a `char` array, with the random draws given as an input sequence.
- `Credentials` (`credentials.dfy`) holds the record, the token response, the expiry arithmetic, the credential update and the validity test.
- `Form` (`form.dfy`) holds the `key=value&…` encoding the script writes by concatenation. It also has a reference decoder, `Form.Decode`, that only splits at `&` and at the first `=` of each segment. It does not turn `+` into a space or decode `%XX`, which a real `application/x-www-form-urlencoded` receiver also does.
- `Requests` (`requests.dfy`) holds the authorize URL and the two grant bodies, concatenated exactly as the script does. Each is proved equal to a form encoding, and to give back its fields through `Form.Decode` when the values hold no `&`.
- `Handlers` (`handlers.dfy`) holds the four event handlers. Host calls are recorded as a sequence of `Effect` values, and their replies are inputs. The list-view token handler is a method mirroring the script's nested `if`s, proved equal to the specification function `IndexShowEffects`.
- `Wrappers` (`wrappers.dfy`) holds `Option`.

Host context is passed in as data. `Host` carries `location.host`, the app id, `encodeURIComponent` as an uninterpreted function, and a `Calendar`. The `Calendar` stands for `Date`: `toIso` plays the role of `toISOString` and `parse` the role of `new Date(string)`. An unparsable string parses to `None`, the NaN date. Where a lemma needs to read back a stored expiry, it assumes the calendar round-trips (`Calendar.RoundTrips`).

The model follows the code in details that an informal reading of the flow could get wrong:

- The validity test also requires a non-empty `expiresDateTime` (line 150). With a round-tripping calendar this is the same as asking for a non-empty token and an expiry in the future.
- `if (code)` treats an empty `code` like an absent one (line 179).
- A code that comes back without any `state` is refused, because `null !== state` holds (line 181).
- A due refresh wins even over a returned code (line 158).

## Model

| member | source | states |
|---|---|---|
| Uuid.GenerateUuid | customizations/freee-integration/src/main.ts:41-56 | The in-place fill of the template, one placeholder per draw, yields `FromDraws(draws)`. The result is 36 characters with `-` at 8, 13, 18 and 23, `4` at 14, one of `8 9 a b` at 19, and lower-case hex elsewhere. |
| Uuid.FromDraws | customizations/freee-integration/src/main.ts:44-55 | The identifier built from any valid stream of draws has the version-4 UUID layout (`WellShaped`). |
| Uuid.DrawsOfUuid | customizations/freee-integration/src/main.ts:44-55 | Every draw can be read back from the identifier, so distinct draw streams give distinct nonces. |
| Uuid.UuidOfDraws | customizations/freee-integration/src/main.ts:44-55 | Every string with the UUID layout is produced by some valid draw stream, so the layout is exactly the generator's range. |
| Credentials.ExpiryMillis | customizations/freee-integration/src/main.ts:63-65 | The expiry instant is a whole number of seconds, namely `created_at + expires_in` seconds after the epoch. |
| Credentials.ExpiryExample | customizations/freee-integration/src/main.ts:63-65 | `created_at` 1700000000 with `expires_in` 3600 gives 1700003600000 ms. |
| Credentials.SaveCredentials | customizations/freee-integration/src/main.ts:58-84 | The update goes to the current app and the record's own id. It carries the response's access and refresh tokens. Its expiry string parses back to the computed expiry instant. |
| Credentials.SaveCredentialsTouchesThreeFields | customizations/freee-integration/src/main.ts:67-81 | Applying the update changes exactly the access token, the refresh token and the expiry. The id, client id, client secret and state keep their values. |
| Credentials.IsValid | customizations/freee-integration/src/main.ts:149-155 | `valid` is true iff the expiry is non-empty, it parses, `now` is strictly before it, and the access token is non-empty. |
| Credentials.EmptyExpiryNeverValid | customizations/freee-integration/src/main.ts:150 | A record with an empty expiry is never valid, whatever its token. |
| Credentials.ValidAfterSave | customizations/freee-integration/src/main.ts:149-155 | After a credential update the record is valid exactly while `now` is before the new expiry, provided the response's token is non-empty. |
| Form.DecodeEncode | customizations/freee-integration/src/main.ts:163-170 | When no key holds `&` or `=` and no value holds `&`, decoding the `key=value&…` encoding returns the same fields in the same order. |
| Requests.AuthorizeQueryIsEncoding | customizations/freee-integration/src/main.ts:119-128 | The authorize query is the form encoding of `client_id`, `redirect_uri`, `response_type=code` and `state`, in that order. |
| Requests.AuthorizeUrlFields | customizations/freee-integration/src/main.ts:119-128 | The URL is the authorize endpoint, then `?`, then a query. When the client id, the encoded redirect and the state hold no `&`, `Form.Decode` of that query gives back exactly those four fields in order. |
| Requests.AuthorizeUrlState | customizations/freee-integration/src/main.ts:128 | When the client id, the encoded redirect and the state hold no `&`, the only `state` that `Form.Decode` finds in the authorize query is the one the script put there. |
| Requests.RefreshBodyIsEncoding | customizations/freee-integration/src/main.ts:163-170 | The refresh body is the encoding of `grant_type=refresh_token`, `client_id`, `client_secret`, `redirect_uri` and `refresh_token`, in that order. |
| Requests.RefreshBodyFields | customizations/freee-integration/src/main.ts:163-170 | When the client id, secret, encoded redirect and refresh token hold no `&`, `Form.Decode` of the body gives back exactly those five fields with the record's values. |
| Requests.CodeBodyIsEncoding | customizations/freee-integration/src/main.ts:189-196 | The code body has `grant_type=authorization_code`, the same three middle fields as the refresh body, and `code` last. |
| Requests.CodeBodyFields | customizations/freee-integration/src/main.ts:189-196 | When the client id, secret, encoded redirect and code hold no `&`, `Form.Decode` of the body gives back exactly those five fields, ending with the returned code. |
| Handlers.CreateRedirect | customizations/freee-integration/src/main.ts:92-95 | Navigation happens iff the record count is not 1, and it goes to `pathname + "edit"`. |
| Handlers.OnIndexShowRedirect | customizations/freee-integration/src/main.ts:86-96 | The handler returns its event unchanged and navigates as `CreateRedirect` says. |
| Handlers.OnSubmit | customizations/freee-integration/src/main.ts:107-114 | The submit hook overwrites only `state`, with the generated nonce, which is well shaped. It returns the same event. |
| Handlers.OnSubmitSuccess | customizations/freee-integration/src/main.ts:116-131 | The hook navigates to the authorize URL built from the record's client id, the encoded callback and the stored state. |
| Handlers.NonceHasNoDelimiters | customizations/freee-integration/src/main.ts:128 | A well-shaped nonce contains neither `&` nor `=`, so it can be placed in a query string unencoded. |
| Handlers.AuthorizeUrlCarriesNonce | customizations/freee-integration/src/main.ts:107-131 | For a client id and encoded redirect without `&`, the generated nonce is the fourth and last field, `state`, of the four that `Form.Decode` finds in the authorize query. |
| Handlers.OnIndexShowToken | customizations/freee-integration/src/main.ts:134-237 | The token handler, run step by step, emits exactly the effects of `IndexShowEffects`. |
| Handlers.DecidePriority | customizations/freee-integration/src/main.ts:140-214 | Each of the five outcomes holds iff its condition holds, in the script's priority order. Count ≠ 1 does nothing. A due refresh wins over a code. A code with a matching state is exchanged and one with any other state aborts. Otherwise the resource is called. |
| Handlers.RefreshIgnoresCallback | customizations/freee-integration/src/main.ts:158-178 | When a refresh is due, the `code` and `state` parameters do not affect the run. |
| Handlers.TokenRequestOnlyOnRefreshOrMatch | customizations/freee-integration/src/main.ts:158-203 | A run posts to the token endpoint at most once. It posts iff a refresh is due or a code came back with the stored state. |
| Handlers.StateMismatchAborts | customizations/freee-integration/src/main.ts:180-184 | A code with a mismatching or missing state yields only the failure alert: no token request and no update. |
| Handlers.IndexShowHandlersComplement | customizations/freee-integration/src/main.ts:86-140 | Given that both handlers' queries return the same records, exactly one of the two list-view handlers acts: the token handler does nothing exactly when the guard navigates away. |
| Handlers.EchoedNonceIsAccepted | customizations/freee-integration/src/main.ts:179-184 | Suppose the record holds exactly one generated nonce and its client id and encoded redirect hold no `&`. Suppose also that no refresh is due and the returned code is non-empty. Then echoing a `state` that `Form.Decode` found in the authorize query selects the code exchange. When a refresh is due, the refresh wins instead (see `Handlers.DecidePriority`). |
| Handlers.StoredTokenIsUsed | customizations/freee-integration/src/main.ts:214-225 | After a credential update and before the new expiry, a visit without a code calls the companies endpoint with `Bearer <new token>`. |
| Handlers.FailedStatusIsNotParsed | customizations/freee-integration/src/main.ts:227-231 | A resource status other than 200 or 201 yields the request and the failure alert, whatever the body. |
| Handlers.SuccessfulStatusShowsFirstCompany | customizations/freee-integration/src/main.ts:232-234 | With status 200 or 201 the first company's name is alerted. A body that is not JSON, or one that lists no company, ends the run with an exception. |
| Handlers.CodeExchangeScenario | customizations/freee-integration/src/main.ts:179-213 | A matching code is posted once. The resulting update stores the response's tokens and the instant 1100 s, followed by the success alert. |
| Handlers.StateMismatchScenario | customizations/freee-integration/src/main.ts:180-184 | A concrete mismatching state gives only the failure alert. |
| Handlers.NotFoundScenario | customizations/freee-integration/src/main.ts:227-231 | A 404 from the companies endpoint gives the failure alert and nothing parsed. |

## Left out

- `kintone.api`, `kintone.proxy`, `kintone.app.getId` and `kintone.events.on` are host calls. The record list, the app id and the proxy replies are inputs; the requests and the record update are `Effect` values.
- The replies to the record `GET` and `PUT` are not modelled beyond the record list. In the refresh branch (line 177, awaited) a failing `PUT` rejects before the alert. In the code branch (line 212, not awaited) the success alert is still shown and the rejection goes unhandled. Neither case is represented.
- The two list-view handlers query the records separately (lines 91 and 139). Handlers.IndexShowHandlersComplement gives both the same record list, so a change to the user's records between the two queries is not modelled.
- `location.href`, `location.search` and `URLSearchParams`: navigation is a `Navigation` value. The `code` and `state` parameters arrive already decoded, as `Callback`.
- `alert` texts are the `Notice` values, not the Japanese strings.
- `console.log` is not modelled, because it has no effect on the logic.
- The create-screen header injection (lines 99-106) is not modelled, because it only writes a fixed HTML fragment.
- `Math.random` becomes an input sequence of integer draws, 0..15 for `x` and 0..3 for `y`.
- `Date` is opaque: `Calendar.toIso` and `Calendar.parse`. A `RangeError` from `toISOString` on an out-of-range or NaN instant is not modelled.
- The expiry is exact integer arithmetic. IEEE double rounding for very large values is not modelled.
- `JSON.parse` is a body that is either already decoded or `None`. A response that parses but lacks fields is not distinguished.
- The companies response is reduced to the list of company display names.
- `encodeURIComponent` is an uninterpreted function. `Form.Decode` does no percent-decoding.
- Promise scheduling is not modelled. This includes the missing `await` on `saveCredentials` at line 212: the update effect is listed before the alert.
- The token response's status is never checked (the TODO at line 208). The model keeps that gap and adds no error path.
- The token handler's return values (`undefined`, and `"success"` at line 235) are not modelled.
- A `null` app id from `getId` is not modelled; the app id is a `nat`.
- Requests.AuthorizeUrlFields, Requests.RefreshBodyFields and Requests.CodeBodyFields require the values to be free of `&`. The script percent-encodes only the redirect URI, so a client id, secret, token or code containing `&` would be misread by a receiver.
- Requests.AuthorizeUrlState, Handlers.AuthorizeUrlCarriesNonce and Handlers.EchoedNonceIsAccepted require the same: a client id and an encoded redirect without `&`. The client id is written raw at line 122, so a client id such as `c&state=evil` would plant a second `state` field.
- Form.Decode only splits. The read-back lemmas say what `Form.Decode` returns, not what a real form decoder returns. Lines 165-170 and 191-196 insert the client secret, refresh token and code unencoded, so a value holding `+` or `%` would be altered by a real receiver even without `&`. The `redirect_uri` field reads back as the encoded string, not as the callback URL.
