# node-feedly client: session logic and request shaping in Dafny

This project models the part of the `Feedly` client class (`lib/feedly.js`) that
can be reasoned about once the network, the browser and the file system are
taken out:

- the **credential decision** run before every authenticated call (`_validToken`, `_getAuth`, `refresh`): authorize through the browser, refresh the token, or hand out the current `access_token`;
- the **in-place updates of the session record** `this.state`: merging a token response and recomputing `expires`, stripping the token keys and merging the revoke answer on logout, and loading the record from the session file;
- **identifier normalisation**: tags and categories put into the `user/<id>/…` namespace, feed ids given the `feed/` prefix, and `encodeURIComponent` applied to path segments;
- the **request shapes** of `counts`, the marker calls, `stream`, `contents`, `subscribe` and the tag calls.

The session record is a `map<string, Value>` keyed by the service's own names
(`access_token`, `refresh_token`, `expires`, `id`, `plan`, `provider`,
`token_type`, and any other key a response brings). A `Value` is JSON data or a
`Date`. Time is an integer count of milliseconds, and the clock is a parameter: `now`
for the credential decision and `replyNow` for when a token answer arrives. Network answers are method inputs: the redirect's query
parameters, the token endpoint's reply, and the revoke reply.

Modules, leaf first:

- `Wrappers`: `Option` and `Result`.
- `Text`: prefix tests, `join` and `split`.
- `Values`: JSON data, `Date` values, and the JavaScript conversions the client relies on (`typeof`, ToNumber, String).
- `UriEncoding`: `encodeURIComponent` as ECMA-262 defines it, with a left inverse.
- `Session`: pure functions on the record.
- `Client`: the `Feedly` class whose methods replace `state`.
- `Ids`: normalisation of tags, categories and feed ids.
- `Requests`: the request builders.

Assumptions:

- `utils.extend` is not part of this model. It is taken to be a shallow merge in which the keys of its second argument win (`Session.Extend`).
- `untildify` is not part of this model. It is taken to be the identity on the `config_file` option, so a null `config_file` stays null and `_loadConfig` reads nothing (`Client.Feedly.LoadConfig`).
- `Date.parse` and `Date.prototype.toISOString` are parameters. The save/load round trip assumes that parsing reads back what formatting wrote.
- `encodeURIComponent` is modelled concretely. Characters are Unicode scalar values, so its lone-surrogate error cannot arise.

Behaviour of the code worth noting:

- `refresh()` refreshes when `_validToken()` holds. It does not refresh merely because a refresh token exists. An expired token therefore sends the user back through the browser.
- Logout also deletes `token_type`.
- Concurrent calls are not coalesced into one in-flight authorization.
- `contents` sends its continuation in the body of a GET, through `_request`, and not in the query string.

## Model

| member | source | states |
|---|---|---|
| `Session.Extend` | lib/feedly.js:154 | the merged record has the keys of both; keys of the second argument take its values, others keep the first's |
| `Session.Configure` | lib/feedly.js:31-45 | options are the caller's over the defaults (port 0, base `http://cloud.feedly.com`, config file `~/.feedly`, html text, slop 3600000, null credentials); it fails with "client_id and client_secret required" exactly when either credential is missing or null |
| `Session.DefaultSlop` | lib/feedly.js:37 | without a caller-supplied slop, the slop is 3600000 ms |
| `Session.ValidToken` | lib/feedly.js:95-97 | false without a non-null access token and refresh token, or without a usable expiry; with both tokens and a Date expiry, true exactly when the expiry is after now |
| `Session.AuthChoice` | lib/feedly.js:95-112 | authorize exactly when the token is not valid (access token, refresh token and expiry all non-null, expiry after now); refresh exactly when valid and expiry − now < slop; otherwise hand out the current non-null `access_token` |
| `Session.RefreshChoice` | lib/feedly.js:254 | the public refresh refreshes exactly when the token is valid and authorizes otherwise |
| `Session.RefreshChoiceAgrees` | lib/feedly.js:254 | `refresh()` authorizes in exactly the states in which `_getAuth` authorizes |
| `Session.FreshTokenIsReused` | lib/feedly.js:105-108 | a token whose Date expiry lies at least slop after now (and after now) is handed out unchanged |
| `Session.AuthorizeStays` | lib/feedly.js:95-97 | once a record needs authorization it keeps needing it at every later time |
| `Session.ExpiryAfter` | lib/feedly.js:155 | the new expiry is a Date at now + expires_in × 1000 when that is numeric and within the Date range, and an invalid Date otherwise (a missing lifetime included) |
| `Session.TokenState` | lib/feedly.js:154-155 | after a token response every body key except `expires` holds the body's value, other keys keep their old values, and `expires` is recomputed; only `expires` ever holds a Date |
| `Session.TokenResponseIsFresh` | lib/feedly.js:154-157 | after a response with an access token, a refresh token (new or kept) and a lifetime of at least the slop, `_getAuth` hands out the new access token |
| `Session.LogoutState` | lib/feedly.js:276-282 | after logout the six token keys are present exactly when the revoke body supplies them; other old keys such as `id` are kept unless the body overrides them; body keys are added |
| `Session.LogoutForcesAuthorize` | lib/feedly.js:276-282 | after a logout whose answer brings no access token, the next call authorizes |
| `Session.DateOf` | lib/feedly.js:61 | `new Date(x)` of a stored value is never plain JSON: a number gives the clipped Date, a string the clipped parsed Date or an invalid Date when it does not parse |
| `Session.Loaded` | lib/feedly.js:54-72 | a missing or unparsable file gives the empty record; otherwise the parsed keys, with a non-null `expires` replaced by `DateOf` of it |
| `Session.Serialized` | lib/feedly.js:89 | the saved object has exactly the record's keys; plain values are written as they are, a Date as its formatted string, an invalid Date as null |
| `Session.LoadAfterSave` | lib/feedly.js:57-63 | for a record whose `expires` is a Date or null, saving it and loading it back gives the same record, with `expires` a Date again |
| `Session.SaveLosesInvalidDate` | lib/feedly.js:89 | an invalid `expires` is saved as null and comes back as null, and in both records the next call authorizes |
| `Session.UserId` | lib/feedly.js:233 | the user id as it reads inside a path: a string id as it is, a missing id as "undefined", a null id as "null" |
| `Client.Feedly.constructor` | lib/feedly.js:46 | a new client starts with an empty session record |
| `Client.Feedly.Create` | lib/feedly.js:30-48 | construction fails exactly when `Configure` does; otherwise a fresh client holds the merged options |
| `Client.Feedly.LoadConfig` | lib/feedly.js:50-73 | without a config file the record is untouched; otherwise it becomes `Loaded` of the file contents |
| `Client.Feedly.TokenReply` | lib/feedly.js:152-159 | a failed exchange rejects and leaves the record alone; a successful one sets the record to `TokenState` at the time the answer arrives and returns its `access_token` |
| `Client.Feedly.Authorize` | lib/feedly.js:128-133 | a redirect carrying `error` rejects with it and changes nothing; otherwise the code exchange's reply is taken as in `TokenReply` |
| `Client.Feedly.GetAuth` | lib/feedly.js:99-112 | the choice is made at the decision time: a fresh token is returned without any exchange and with the record unchanged; within slop the refresh reply is applied; without a valid token the authorization path runs; an applied reply sets `expires` from the later time at which it arrives |
| `Client.Feedly.Refresh` | lib/feedly.js:250-258 | with a token valid at the decision time the refresh reply is applied; otherwise the authorization path runs; an applied reply sets `expires` from the later time at which it arrives |
| `Client.Feedly.Logout` | lib/feedly.js:260-287 | a failed revoke changes nothing; a successful one sets the record to `LogoutState` |
| `UriEncoding.Encode` | lib/feedly.js:26 | `encodeURIComponent` output consists only of unreserved characters and `%` |
| `UriEncoding.UnescapeEncode` | lib/feedly.js:26 | percent-decoding the encoding gives back the original string |
| `UriEncoding.EncodeInjective` | lib/feedly.js:26 | distinct strings encode to distinct strings |
| `UriEncoding.EncodeHasNoSeparators` | lib/feedly.js:26 | an encoded identifier holds no `/` and no `,` |
| `Values.TypeOf` | lib/feedly.js:387 | `typeof` yields only "boolean", "number", "string" or "object"; a Date is an "object" |
| `Ids.Qualify` | lib/feedly.js:22-25 | the result starts with `user/`; a name already starting with `user/` is kept; any other name follows `user/<id>/<kind>/` |
| `Ids.QualifyIdempotent` | lib/feedly.js:23-25 | qualifying twice is qualifying once |
| `Ids.NormalizeTag` | lib/feedly.js:22-27 | the tag is qualified with `/tag/` and encoded as a whole: decoding gives the qualified tag, and the result holds no `/` or `,` |
| `Ids.NormalizeTagInjective` | lib/feedly.js:22-27 | two tags normalise alike exactly when they qualify alike |
| `Ids.NormalizeTags` | lib/feedly.js:231-237 | length and order are preserved, each tag normalised |
| `Ids.NormalizeCategories` | lib/feedly.js:239-248 | length and order are preserved, each category qualified with `/category/` and not encoded |
| `Ids.NormalizeCategoriesIdempotent` | lib/feedly.js:243-245 | normalising categories twice is normalising once |
| `Ids.FeedId` | lib/feedly.js:528-530 | `feed/` is added exactly when the id lacks it |
| `Ids.FeedIdIdempotent` | lib/feedly.js:528-530 | prefixing a feed id twice is prefixing once |
| `Ids.MatchQualified` | lib/feedly.js:548 | the pattern `^user\/[^\/]+\/(.*)` matches exactly when the name starts with `user/`, a non-`/` character, and has a later `/` |
| `Ids.MatchQualifiedShape` | lib/feedly.js:548-557 | for `user/<x>/<rest>` the captured name is `rest` up to its first line terminator |
| `Ids.CategoryObject` | lib/feedly.js:545-564 | a string the pattern rejects becomes `{id: user/<uid>/category/c, name: c}`, one it accepts becomes `{id: c, name: <captured rest>}`, and a non-string is kept |
| `Ids.CategoryObjectCases` | lib/feedly.js:548-557 | a qualified `user/<x>/<rest>` (x non-empty and without `/`) keeps its id and is named by `rest` up to its first line terminator |
| `Ids.CategoryIdsAgree` | lib/feedly.js:243-245 | for bare and fully qualified names, `subscribe` and `_normalizeCategories` give the same category id |
| `Ids.CategoryIdsDisagreeOnUnmatched` | lib/feedly.js:548-553 | for every name that starts with `user/` but fails the pattern, `_normalizeCategories` keeps it while `subscribe` prefixes it again, so the two ids differ |
| `Ids.UnmatchedUserNames` | lib/feedly.js:548 | `user/x`, `user/` and `user//y` start with `user/` yet fail the pattern |
| `Requests.WrapIds` | lib/feedly.js:353-355 | a string id becomes a one-element list; anything else passes unchanged |
| `Requests.Counts` | lib/feedly.js:332-349 | the body of the GET holds exactly the given (non-null) arguments, `newerThan` in milliseconds, and is null when none is given |
| `Requests.MarkEntryRead` | lib/feedly.js:352-361 | POST to `/v3/markers` with a body of exactly `entryIds`, `type` `entries` and action `markAsRead`; a string id is wrapped and anything else sent as it is |
| `Requests.MarkEntryUnread` | lib/feedly.js:363-372 | the same request with action `keepUnread` |
| `Requests.MarkFeedRead` | lib/feedly.js:374-393 | as written, the body is exactly the wrapped feed ids, type `feeds`, action `markAsRead`, whatever `since` is |
| `Requests.MarkCategoryRead` | lib/feedly.js:395-419 | as written, the body is exactly the qualified category ids, type `categories`, action `markAsRead`, whatever `since` is |
| `Requests.SinceDateIsDropped` | lib/feedly.js:387-391 | the `typeof since === 'Date'` guard fails even for a Date, which the intended body would send as `asOf` |
| `Requests.SinceFields` | lib/feedly.js:387-391 | intended: a Date since gives `asOf` in milliseconds, a string gives `lastReadEntryId`, and anything else adds nothing |
| `Requests.MarkFeedReadIntended` | lib/feedly.js:382-391 | intended feed marker: the wrapped feed ids, type `feeds` and action `markAsRead`, plus exactly `SinceFields(since)` |
| `Requests.MarkCategoryReadIntended` | lib/feedly.js:406-415 | intended category marker: the qualified category ids, type `categories` and action `markAsRead`, plus exactly `SinceFields(since)` |
| `Requests.Stream` | lib/feedly.js:493-511 | GET `/v3/streams/<encoded id>/ids` with the query a continuation object for a string, the option itself for null, arrays and objects, and `{}` otherwise |
| `Requests.StreamPathIdentifiesStream` | lib/feedly.js:510 | different stream ids never share a path |
| `Requests.Contents` | lib/feedly.js:513-520 | GET `/v3/streams/<encoded id>/contents` whose body holds `continuation` exactly when one is given |
| `Requests.Subscribe` | lib/feedly.js:526-570 | the body's `id` is the `feed/`-prefixed id; `categories` is present exactly when given, a scalar counts as a one-element list, and each element is mapped by `CategoryObject` in order |
| `Requests.TagEntry` | lib/feedly.js:576-596 | PUT on the joined normalised tags, with `entryIds` for a list of entries and `entryId` otherwise |
| `Requests.SetTagLabel` | lib/feedly.js:598-607 | POST of the label on `/v3/tags/` followed by exactly the normalised tag, one segment without `/` that decodes to the qualified tag |
| `Requests.UntagEntries` | lib/feedly.js:609-625 | DELETE on `/v3/tags/<tags>/<encoded entries>` |
| `Requests.DeleteTags` | lib/feedly.js:627-637 | DELETE on `/v3/tags/<tags>` |
| `Requests.TagSegmentRecoversTags` | lib/feedly.js:584-586 | the comma-joined tag segment has no `/` and splits back into the normalised tags, each decoding to its qualified name |
| `Requests.EntrySegmentRecoversEntries` | lib/feedly.js:615-622 | the comma-joined entry segment has no `/` and splits back into the entries, each decoding to its id |
| `Requests.UntagPathParts` | lib/feedly.js:622 | an untag path splits at its single `/` after the prefix into the tag segment and the entry segment |

## Left out

- HTTP transport (`utils.qrequest`), the local redirect listener (`utils.qserver`), opening the browser, and URL assembly through `url.parse`/`url.format`. These are foreign code that is not part of this model. Their answers are method inputs, and paths are plain strings.
- The token-endpoint requests themselves (their grant types, client credentials and redirect URI), the authorization URL, and the `Authorization: OAuth <token>` header. All of them are URL and transport assembly.
- File reading and writing in `_loadConfig`, `_loadHTML` and `_save`, `JSON.parse`, and `untildify`. Only the step from parsed contents to the record (`Session.Loaded`) and the saved contents (`Session.Serialized`) are modelled. `_loadHTML` only replaces `html_text`, so `options` is a constant of the class.
- A session file whose JSON is not an object. `null` falls back to the empty record, and any other non-object would itself become the record. In the model the parsed contents are always an object.
- `_loadConfig`'s read-failure handler assigns `state` on the wrong `this`. This is not modelled, and it changes nothing, because the record is already empty from the constructor.
- Promise sequencing and the `ready` wait. The code has no single-flight coalescing: each concurrent `_getAuth` starts its own authorization or refresh. `_save()` after a token is not awaited. No ordering between calls is claimed.
- The callback-or-options argument shuffling on `typeof x === 'function'`. Arguments are explicit, and a null stands for one not given.
- The one-line endpoint wrappers (`categories`, `entry`, `feed`, `preferences`, `profile`, `reads`, `tags`, `searchFeeds`, `shorten`, `subscriptions`, `unsubscribe`, …). Each only maps a path and a verb.
- Floating point. Numbers are integers, so a fractional `expires_in` is not covered.
- Number-to-string conversion beyond 10^21, where JavaScript switches to exponent notation.
- Values.ToNumber: numeric strings and arrays convert to NaN in the model. In JavaScript, `"3600"` converts to 3600.
- `state.id` is never a Date in the model, because only `expires` ever holds one. A Date's locale-dependent text is therefore never needed.
- Non-string tags or categories, for which `.match` throws. The model types them as strings.
- Date arguments (`newerThan`, `since`) are valid Dates.

## Findings

| source | as written | input that shows it | evidently intended | confidence | as-written member | corrected member |
|---|---|---|---|---|---|---|
| lib/feedly.js:387-391 | both branches test `typeof since === 'Date'`, but `typeof` of a Date is `"object"`, so neither branch runs | `markFeedRead("feed/x", new Date(5))` sends no `asOf` | a Date `since` sends `asOf` = `since.getTime()`; an entry id sends `lastReadEntryId` | high; not executed | `Requests.MarkFeedRead` (with `Requests.SinceDateIsDropped`) | `Requests.MarkFeedReadIntended` |
| lib/feedly.js:411-415 | the same two dead branches in `markCategoryRead` | `markCategoryRead("c", new Date(5))` sends no `asOf` | as above | high; not executed | `Requests.MarkCategoryRead` (with `Requests.SinceDateIsDropped`) | `Requests.MarkCategoryReadIntended` |
