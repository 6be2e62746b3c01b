# CoWechatAPI — a Dafny model of the credential cache and the send protocol

`CoWechatAPI` is a Python client for an enterprise messaging platform. It
obtains an access token from the platform's token endpoint and caches it in a
single JSON file. It then sends text, image, voice, video and file messages to
users, departments or tags through the send endpoint. This project models the
part of the client that makes decisions:

- **Message payload builder** (`values.dfy`, `message.dfy`). `send` turns its
  arguments into a request body (a base envelope plus one sub-object keyed by
  the message kind), or raises a caller-input error before any network call.
  Python values are modelled as a `Json` datatype, so that truthiness
  (`not msg_type`, `and media_id`) keeps its Python meaning.
- **Send protocol** (`delivery.dfy`). `_send_util` is one POST. The bounded
  `while count < self.retry_count` loop in `send` surrounds it. The network is
  an oracle: `replies(k)` is the answer to the k-th POST of one `send` call.
- **Credential cache** (`token_cache.dfy`). Pure functions for `token_valid`,
  `save_token`, `get_access_token_cache`, `get_access_token_url` and
  `get_access_token`. The cache file is a value `Option<Cache>`. The wall clock
  is integer seconds `now`. The token endpoint is a `TokenReply` oracle:
  `TransportError` or `Response(map)`.
- **The client object** (`client.dfy`). The class `CoWechatAPI` has the fields
  `token` and `cache`. Its methods are stated against the functions above:
  `__init__`, `login`, `save_token`, `get_access_token_url`,
  `get_access_token_cache`, `get_access_token` and `send`.

Exceptions are `Failure(Error)` values. A Python `return False` is
`Success(JBool(false))`.

The model keeps the following behaviour exactly as the code has it, although
a reader of the client's comments might expect otherwise:

- `login` gives up only when identity and secret are **both** empty (`and`,
  line 57). It does not give up when either one is empty.
- Transport failures of a POST are not retried. `requests.post` raises inside
  `_send_util`, and the exception leaves `send`. So does a remote rejection.
  The loop therefore never makes a second attempt.
- A cache file without `errmsg`, or with status "ok" and no `date`, raises.
  It is not treated as "invalid, refresh".
- `get_access_token_url` returns the token from the in-memory response. It
  does not re-read the cache file. A response without `access_token` raises
  `KeyError` after the cache has been overwritten.
- The token's age is `timedelta.seconds`, which is the difference modulo one
  day. A record 25 hours old counts as one hour old.

## Model

| member | source | states |
|---|---|---|
| `Message.Kind` | cowechatapi/cowechat_api.py:144-175 | the `msgtype` tag of every payload body is one of text, image, voice, video, file |
| `Message.BuildPayload` | cowechatapi/cowechat_api.py:129-178 | success iff the kind is one of the five and every non-text kind has a truthy media id; a falsy kind raises the missing-kind error, any other rejection raises the invalid-arguments error; on success the envelope fields equal the arguments and the agent id, the kind tag equals `msg_type`, text carries the content unchecked, media kinds carry the media id, video carries "Title"/"Description" |
| `Message.BodyJson` | cowechatapi/cowechat_api.py:144-175 | text sub-object is exactly `{content}`; image/voice/file exactly `{media_id}`; video exactly `{media_id, title, description}` with the body's title and description as strings |
| `Message.VideoCarriesPlaceholders` | cowechatapi/cowechat_api.py:162-167 | for any truthy media id, the posted video sub-object is exactly `{media_id, title: "Title", description: "Description"}` |
| `Message.ToJson` | cowechatapi/cowechat_api.py:131-175 | the posted document has exactly the six envelope keys plus the kind key, with `safe = 0`, and the kind key holds the sub-object |
| `Message.PayloadShape` | cowechatapi/cowechat_api.py:131-175 | for accepted arguments the posted document has exactly 7 keys: the envelope taken unchanged from the arguments plus one object under the key `msg_type` |
| `Message.TextTakesAnyContent` | cowechatapi/cowechat_api.py:144-147 | a text message is built for any content value, including `None` |
| `Message.RejectedArguments` | cowechatapi/cowechat_api.py:150-178 | a media kind (image, voice, video, file) with a falsy media id raises the invalid-arguments error |
| `Message.UnknownOrMissingKindRejected` | cowechatapi/cowechat_api.py:140-178 | for any media id, an unknown kind raises the invalid-arguments error and `None` or `""` raises the missing-kind error |
| `Delivery.LoggedErrmsg` | cowechatapi/cowechat_api.py:193-198 | logging the reply's errmsg raises KeyError when it is missing and TypeError when it is not a string; otherwise it yields that string |
| `Delivery.SendUtil` | cowechatapi/cowechat_api.py:188-198 | one POST returns True iff errcode is 0 and errmsg is a string; a missing or non-string errmsg raises KeyError or TypeError on either branch; any other errcode raises with the endpoint's errmsg; a transport fault raises; never returns False |
| `Delivery.Dispatch` | cowechatapi/cowechat_api.py:180-185 | the retry loop makes at most `retry_count` (5) attempts and at least one; it returns False only after all 5; otherwise its result is that of its last attempt |
| `Delivery.Deliver` | cowechatapi/cowechat_api.py:180-185 | the loop with its counter returns what `Dispatch` returns, after exactly `Dispatch`'s number of POSTs, all of the same request |
| `Delivery.DispatchStopsAtFirstDecisive` | cowechatapi/cowechat_api.py:180-185 | the loop ends at the first attempt that does not return False, with that attempt's result, and makes no later attempt |
| `Delivery.DispatchFalseIffExhausted` | cowechatapi/cowechat_api.py:180-185 | the loop returns False iff every attempt returned False, and then it has made all 5 |
| `Delivery.SendUtilAttemptsOnce` | cowechatapi/cowechat_api.py:180-198 | with `_send_util` as written, the loop makes exactly one attempt and never returns False |
| `Delivery.SendUtilRetrying` | cowechatapi/cowechat_api.py:180-198 | corrected single-shot send: returns False exactly on a transport fault, True exactly when `_send_util` would, and handles every endpoint answer as `_send_util` does |
| `Delivery.RetryingRetriesTransportFaults` | cowechatapi/cowechat_api.py:180-185 | with transport faults retried, the first accepted or rejected POST after a run of faults decides the result; False iff all 5 POSTs hit transport faults |
| `TokenCache.Elapsed` | cowechatapi/cowechat_api.py:81 | the age read is in [0, 86400) and congruent to `now - date` modulo a day, equal to it within a day |
| `TokenCache.TokenValid` | cowechatapi/cowechat_api.py:69-87 | no cache file means invalid; a valid cache has status "ok", an integer date and an age (modulo a day) under 7200 seconds; an "ok" record with an integer date is valid iff that age is under 7200; an "ok" record with a non-integer date raises ValueError (text) or TypeError; a record without `errmsg` raises KeyError("errmsg"), a non-string status raises TypeError, and an "ok" record without `date` raises KeyError("date"), rather than being treated as invalid |
| `TokenCache.Stamp` | cowechatapi/cowechat_api.py:63-66 | the saved record is the token dictionary with "date" set to now (replacing any old date) and every other key unchanged |
| `TokenCache.CachedToken` | cowechatapi/cowechat_api.py:110-119 | reading the cache raises only when the file is missing; returns the cached `access_token`, or False when the record has none |
| `TokenCache.FetchToken` | cowechatapi/cowechat_api.py:90-107 | a transport error returns False and keeps the cache; a response replaces the cache with the stamped response and then returns its `access_token`, or raises KeyError when it has none; the only exception is that KeyError |
| `TokenCache.AccessToken` | cowechatapi/cowechat_api.py:122-126 | the only change to the cache is writing the stamped response, and it happens only when the cache was judged invalid; an exception of the validity check is the result, with the cache untouched |
| `TokenCache.InvalidWithoutOkStatus` | cowechatapi/cowechat_api.py:69-77 | a missing cache file, or a string status other than "ok", is invalid whatever the age |
| `TokenCache.ValidityWithinADay` | cowechatapi/cowechat_api.py:75-87 | an "ok" record under a day old is valid iff it is under 7200 seconds old |
| `TokenCache.ValidityRepeatsDaily` | cowechatapi/cowechat_api.py:81-87 | the validity decision at `now + 86400` equals the one at `now` |
| `TokenCache.DayOldTokenReused` | cowechatapi/cowechat_api.py:81-87 | a record 25 hours old is judged valid and its token is returned without the token endpoint |
| `TokenCache.TokenValidIntended` | cowechatapi/cowechat_api.py:81 | corrected validity rule: raises exactly when `token_valid` raises, with the same exception; an "ok" record with an integer date is valid iff its total age is under 7200 seconds; valid only for such a record |
| `TokenCache.TokenValidIntendedExpires` | cowechatapi/cowechat_api.py:81-87 | with the age read in total seconds, a record 7200 seconds old or older is never valid, and the rule agrees with the as-written one under a day |
| `TokenCache.ValidCacheReused` | cowechatapi/cowechat_api.py:122-124 | a valid cache returns the cached token, leaves the cache untouched, and the token endpoint's reply has no effect |
| `TokenCache.RefreshFollowsReply` | cowechatapi/cowechat_api.py:90-126 | an invalid cache is refreshed: a transport error returns False and keeps the cache; a response overwrites the cache with the stamped response and returns its token, or raises KeyError when it has none |
| `TokenCache.TokenlessReplyRaises` | cowechatapi/cowechat_api.py:101-107 | a response without `access_token` is saved to the cache and then the lookup raises KeyError |
| `TokenCache.FetchTokenIntended` | cowechatapi/cowechat_api.py:101-107 | corrected refresh: never raises; a transport error or a response without a token returns exactly False and leaves the cache untouched; a response with a token behaves as the as-written refresh |
| `TokenCache.FreshTokenReused` | cowechatapi/cowechat_api.py:63-87 | after a successful refresh at `now`, every lookup less than two hours later returns the same token from the cache without the token endpoint |
| `TokenCache.ErrorReplyForcesRefresh` | cowechatapi/cowechat_api.py:63-77 | a refresh answered with a non-"ok" status leaves a cache that every later lookup judges invalid |
| `Client.CoWechatAPI.constructor` | cowechatapi/cowechat_api.py:44-52 | the identity, secret and agent id are stored, the token starts as "" and the cache is the existing file |
| `Client.CoWechatAPI.Create` | cowechatapi/cowechat_api.py:44-53 | construction logs in: with both identity and secret empty the token stays ""; otherwise the token is `get_access_token`'s result, or construction raises its exception; the cache file ends as `get_access_token` leaves it |
| `Client.CoWechatAPI.Login` | cowechatapi/cowechat_api.py:56-60 | returns False and changes nothing only when both identity and secret are empty; otherwise the cache follows `get_access_token` and the token becomes its result unless it raises |
| `Client.CoWechatAPI.SaveToken` | cowechatapi/cowechat_api.py:63-66 | the cache file is overwritten wholesale with the stamped dictionary |
| `Client.CoWechatAPI.GetAccessTokenUrl` | cowechatapi/cowechat_api.py:90-107 | result and new cache are those of `FetchToken` on the old cache |
| `Client.CoWechatAPI.GetAccessTokenCache` | cowechatapi/cowechat_api.py:110-119 | the result is `CachedToken` of the current cache; nothing changes |
| `Client.CoWechatAPI.GetAccessToken` | cowechatapi/cowechat_api.py:122-126 | result and new cache are those of `AccessToken` on the old cache |
| `Client.CoWechatAPI.Send` | cowechatapi/cowechat_api.py:129-185 | bad arguments raise with no POST; otherwise each POST carries the stored token and the built payload, and the result is the retry loop's; as written at most one POST is made and False is never returned |

## Findings

| source | as written | input that shows it | evidently intended | confidence | as-written member | corrected member |
|---|---|---|---|---|---|---|
| cowechatapi/cowechat_api.py:81 | the age is `timedelta.seconds`, the difference modulo one day | a cache record with status "ok" dated 25 hours before `now` is judged 1 hour old, and its token is reused | the age in total seconds, so that a record 7200 seconds old or older is always refreshed | high; not executed | `TokenCache.DayOldTokenReused` | `TokenCache.TokenValidIntendedExpires` |
| cowechatapi/cowechat_api.py:180-198 | `_send_util` returns True or raises, so the retry loop never reaches a second attempt and `return False` is dead | a POST that raises a connection error on the first attempt: `send` raises at once, after one POST | transport faults retried up to 5 times, with False after 5 faults | medium; not executed | `Delivery.SendUtilAttemptsOnce` | `Delivery.RetryingRetriesTransportFaults` |
| cowechatapi/cowechat_api.py:101-107 | the `try` guards `res_dict.get(...)`, which never raises KeyError, and the lookup at line 107 is unguarded | a token response `{"errcode": 40013, "errmsg": "invalid corpid"}`: the cache is overwritten and `KeyError` escapes | return False, without saving, when the response has no token | high; not executed | `TokenCache.TokenlessReplyRaises` | `TokenCache.FetchTokenIntended` |

The client class models the code as written: `GetAccessToken` and `Send` use
`TokenValid`, `FetchToken` and `SendUtil`. The corrected definitions stand
beside them with their properties proved. The corrected retry loop is the
same `Dispatch`/`Deliver` run with `SendUtilRetrying`.

## Left out

- `upload` (lines 201-212). It is a multipart file POST that returns the raw response text. Its only decision is to call `get_access_token`, which is modelled, and to go on after logging missing arguments.
- HTTP calls (`requests.get`, `requests.post`). They are replaced by the `TokenReply` oracle and the `replies` oracle. A response body that is not JSON, or one without `errcode`, is not modelled. Both would raise. The send endpoint's `errcode` is an integer; `errmsg` may be missing or any JSON value, as `Delivery.SendReply` records.
- File I/O and JSON text. The cache file is the `cache` field, already parsed. A cache file with malformed JSON is not modelled.
- Date text. The cache's "date" is integer seconds (`JInt`), not `"%Y-%m-%d %H%M%S"` text. A `JStr` date stands for text that `strptime` rejects and raises `ValueError`; any other non-integer date raises `TypeError`. Sub-second precision of `datetime.now()` is dropped.
- JSON arrays and floats are not in the `Json` datatype. None of the modelled decisions depends on them.
- URL formatting with the identity, secret and token (lines 91, 189, 205). A POST records the token it would put in its URL (`Client.Post`).
- Identity and secret are strings. A Python `None` for either is modelled as the empty string, which is just as falsy in the `login` guard.
- Recipient selectors `to_user`, `to_party` and `to_tag` are strings. The source passes any value through unchanged (lines 132-134); the model narrows them to text, which is what the send endpoint expects.
- One `now` serves a whole `get_access_token` call: the validity check (line 81) and the stamp written by `save_token` (line 64) read the same instant. The source reads the clock separately in each, so the stamp may be a moment later.
- Logging and `print`, and the resolution of the cache directory from environment variables and the platform (lines 24-42).
- The cache file is shared with other processes, and they race on it. This is not modelled. The `cache` field belongs to one client object.
