# TradeUnifox WhatsApp client: token lifecycle and authenticated requests

This project models, in Dafny, the core of the TradeUnifox WhatsApp client SDK (Python). The SDK logs in with a username, password and API key. It caches the token the server issues and tracks when that token expires. It sends authenticated calls and retries a call once after re-authenticating when the server answers 401. The model covers four source files:

- `TokenManager` (`build/lib/Whatsapp/token_manager.py`). It extracts a token under four alias keys, computes the expiry, checks the server's token status, and decides between reusing a token and generating one.
- `BaseService` (`build/lib/Whatsapp/core.py`). It holds `authenticate`, `_ensure_token`, URL joining, and `request` with its single retry.
- `MessageReceiver` (`build/lib/Whatsapp/message_receiver.py`). It holds the query parameters, the `last_message_id` cursor, the unread count and the mark-read id list.
- The `WhatsApp` facade (`Whatsapp/whatsapp.py`). It holds the nested token manager, the rule that a message sender exists only after `generate_token`, and `__str__`.

Modules:

| file | module | contents |
|---|---|---|
| `wrappers.dfy` | `Wrappers` | `Option` |
| `json.dfy` | `Json` | decoded JSON values, Python truthiness, `dict.get`, `str()` |
| `text.dfy` | `Text` | `str.lstrip`, `str.join` / `str.split`, decimal `str(int)` / `int(str)` |
| `http.dfy` | `Http` | one transport outcome (`Reply`) and `raise_for_status` |
| `errors.dfy` | `Errors` | the exceptions the client raises, and `Result` |
| `token_manager.dfy` | `TokenManagement` | `TokenManager` |
| `core.dfy` | `Core` | `BaseService` |
| `message_receiver.dfy` | `MessageReceiving` | `MessageReceiver` |
| `whatsapp.dfy` | `Facade` | `WhatsApp` and its nested `TokenManager` |

## How the model is built

- **No real I/O.** Each HTTP call is replaced by a `Reply` value given as a parameter. A `Reply` is either `Lost(Timeout | ConnectionFailed)` or `Response(status, body)`.
- **Multi-call operations.** The replies to an operation that makes several calls are inputs too, in one of two shapes:
  - `GetTokenInfoSpec` and `AuthHeadersSpec`, and the methods `TokenManager.GetTokenInfo` and `TokenManager.GetAuthHeaders`, take two named replies: `statusReply` for `/check-token` and `tokenReply` for `/get-token`;
  - `RequestSpec` and `BaseService.Request` take a `seq<Reply>` and use its replies in order. A call past the end of the sequence counts as a connection failure.
- **Time.** The clock is an integer number of seconds, `now`. It is passed once per operation.
- **Parsing timestamps.** `datetime.fromisoformat` is a function parameter, `parseTime: string -> Option<int>`.
- **Spec functions and classes.** The stateful operations of `TokenManager`, `BaseService` and the facade have two parts:
  - a pure specification function over the cached state (`GenerateSpec`, `CheckStatusSpec`, `GetTokenInfoSpec`, `AuthHeadersSpec`, `AuthenticateSpec`, `EnsureSpec`, `RequestSpec`, and the facade's `GenerateSpec` and `SendSpec`) whose contract, together with the lemmas named in its row, states the behaviour. For `AuthenticateSpec`, `EnsureSpec` and `RequestSpec` most of it is in those lemmas (`AuthenticateOutcomes`, `EnsureOutcomes` and the `Request…` lemmas);
  - a class method that follows the Python code statement by statement and `ensures` its result and new fields equal that function's result.
- **Direct contracts.** Four single-call methods state their results and new fields in their own `ensures`, with no separate function: `MessageReceiver.ReceiveMessages`, `GetUnreadCount` and `MarkMessagesAsRead`, and the facade's nested `WhatsAppTokenManager.GenerateToken`. Their query parameters come from the functions `ReceiveQuery` and `MarkReadQuery`, and the cursor from `NextCursor`.
- **Properties across calls.** Properties that involve more than one call are lemmas about the specification functions.

Some behaviour of the code is easy to miss; the model keeps it as written:

- **`raise_for_status`.** It raises only for statuses 400–599, not for every non-2xx status. So 1xx and 3xx replies are read as successes (`Http.RaiseForStatus`).
- **`BaseService.authenticate`.** It calls `raise_for_status()` before it looks at the body, so a 401 from `/get-token` is a `NetworkError`. `AuthenticationError` arises only from a reply that `raise_for_status` accepts (any status outside 400–599) without a truthy `"token"`. Only the key `"token"` is checked there, not the four aliases (`Core.AuthenticateSpec`).
- **`is_new_token` flag.** `get_token_info` sets `has_token` to False on a freshly generated token (`TokenManagement.GetTokenInfoSpec`).
- **Partial updates.** Two operations assign the token before a later statement can raise:
  - `generate_token` assigns `self.token` before `timedelta(minutes=...)` can raise TypeError, or OverflowError when the timedelta passes 999999999 days or the expiry falls outside `datetime`'s range: after the year 9999 (`TokenManagement.MaxInstant`), or before the year 1, which negative minutes can cause;
  - `authenticate` assigns `self.token` before `int(expires_in)` can raise, or `time.time() + n` can raise OverflowError for an `n` beyond the range of a double (`Core.FloatOverflowBound`).
  In all these cases the model keeps the new token and the old expiry.
- **Retry target.** The retry at core.py:69-76 repeats the same method, URL and keyword arguments; the model records them as a `Target` on each API call.
- **Keyword arguments of `request`.** They are forwarded to `requests.request`, which already receives `auth`, `headers` and `timeout` and takes `method` and `url` positionally. A keyword among those five, or one `requests.request` does not take, raises TypeError before any API call. TypeError is not a `RequestException`, so it leaves `request` unwrapped, after `_ensure_token` has run (`Core.UnacceptedKwargsRaise`).

## Model

| member | source | states |
|---|---|---|
| Http.RaiseForStatus | build/lib/Whatsapp/core.py:31 | a reply raises iff it is a transport failure or has status 400–599; the cause is the fault or the status |
| Text.LStrip | build/lib/Whatsapp/core.py:53 | the result is a suffix of the input and does not start with the character; everything removed was that character |
| Text.LStripIdempotent | build/lib/Whatsapp/core.py:53 | stripping twice equals stripping once |
| Text.LStripRepeat | build/lib/Whatsapp/core.py:53 | any number of leading copies of the character is removed alike |
| Text.Split | build/lib/Whatsapp/message_receiver.py:147 | the inverse of the comma join (the source itself never splits): at least one piece, none containing the separator |
| Text.SplitJoin | build/lib/Whatsapp/message_receiver.py:147 | splitting the comma join of separator-free pieces gives back exactly those pieces |
| Text.Join | build/lib/Whatsapp/message_receiver.py:147 | no parts join to "", one part to itself, and the result starts with the first part, followed by the separator when more parts follow |
| Text.IntToDecimal | build/lib/Whatsapp/token_manager.py:234 | `str(i)` is non-empty, starts with "-" exactly for a negative number, and is otherwise the digits whose value is the magnitude |
| Text.ParseDecimal | build/lib/Whatsapp/core.py:37 | `int()` of a string succeeds only when the string holds a digit |
| Text.ParseDecimalAcceptsNumerals | build/lib/Whatsapp/core.py:37 | `int()` of a string succeeds iff it is a numeral: a digit or a sign first, at least one digit, digits only after the first character |
| Text.IntToDecimalParses | build/lib/Whatsapp/core.py:37 | `int(str(i)) == i` for every integer |
| Text.LeadingZerosValue | build/lib/Whatsapp/core.py:37 | leading zeros do not change the value of a run of digits |
| Text.NonCanonicalNumerals | build/lib/Whatsapp/core.py:37 | numerals `str` never writes read as expected: zero padding and `+` are ignored, `-` negates, so "007" is 7 and "-0" is 0 |
| Json.FalsyValues | build/lib/Whatsapp/token_manager.py:71 | `Json.Truthy` is false exactly for None, False, 0, "", [] and {} |
| Json.Get | build/lib/Whatsapp/core.py:35 | `dict.get(key)`: the stored value for a present key (even null), None for a missing one; the same as `GetOr` with default None |
| Json.GetOr | build/lib/Whatsapp/core.py:37 | `dict.get(key, default)`: the stored value for a present key, the default only for a missing one |
| Json.AsNumber | build/lib/Whatsapp/token_manager.py:83 | a number exactly for int and bool values; a bool is 0 or 1, and the number is non-zero iff the value is truthy |
| Json.PyStr | build/lib/Whatsapp/token_manager.py:234 | empty only for the empty string; a string renders as itself; an integer renders as the numeral `int()` reads back as that integer |
| TokenManagement.FirstTruthyIndex | build/lib/Whatsapp/token_manager.py:71 | the chosen `or` operand is the first truthy one, or the last when none is truthy |
| TokenManagement.ExtractToken | build/lib/Whatsapp/token_manager.py:71 | the token is truthy iff some alias is truthy. It then equals the first truthy alias in the order token, access_token, auth_token, key; otherwise it is the value under "key" |
| TokenManagement.EachAliasAccepted | build/lib/Whatsapp/token_manager.py:71 | a reply carrying a truthy value under any one alias yields that value |
| TokenManagement.ExpiryMinutesField | build/lib/Whatsapp/token_manager.py:80 | the reply's expires_in_minutes when present, even null; 60 when absent |
| TokenManagement.WholeMinutes | build/lib/Whatsapp/token_manager.py:220-223 | 0 for a span under a minute or already over; otherwise the m with 60m ≤ span < 60m+60 (the same rule as lines 135-136) |
| TokenManagement.IsTokenValid | build/lib/Whatsapp/token_manager.py:208-212 | valid only with a truthy token and a known expiry, and then iff now is before the expiry |
| TokenManagement.MinutesUntilExpiry | build/lib/Whatsapp/token_manager.py:214-223 | None iff no expiry; 0 once expired; otherwise the whole minutes m with 60m ≤ remaining < 60m+60 |
| TokenManagement.GenerateSpec | build/lib/Whatsapp/token_manager.py:43-99 | one call. Transport or HTTP failure re-raises with the cache unchanged. No token raises ValueError with the cache unchanged. Success iff the reply is OK, has a token and a numeric expires_in_minutes whose timedelta and resulting date are in range; the cache then holds that token and now + 60·minutes (60 minutes by default), and the returned record repeats them. A non-numeric minutes value (TypeError) or an out-of-range one (OverflowError) stores the token only |
| TokenManagement.GeneratedTokenValidUntilExpiry | build/lib/Whatsapp/token_manager.py:79-83 | a generated token is valid at every instant before its expiry |
| TokenManagement.CheckStatusSpec | build/lib/Whatsapp/token_manager.py:101-173 | a request failure reports no token plus the error and leaves the cache alone. A falsy has_token clears the cache. With a token and an expiry it caches both and reports the minutes left. With a token and no expiry it reports 0 minutes and leaves the cache alone. An unparsable expiry raises |
| TokenManagement.ParseExpiry | build/lib/Whatsapp/token_manager.py:127-128 | no expiry iff the raw value is falsy; TypeError iff it is truthy and not a string; ValueError iff it is a string the parser rejects; otherwise the parsed instant |
| TokenManagement.ClearedCacheIsInvalid | build/lib/Whatsapp/token_manager.py:154-157 | after the server reports no token, the cache is invalid at every instant and has no expiry |
| TokenManagement.GetTokenInfoSpec | build/lib/Whatsapp/token_manager.py:175-206 | one request iff the status check raised or the server token has whole minutes left, otherwise two (a new token is generated). is_new_token iff a token was generated. A new token reports has_token False, the cached token and expiry, and the token reply's expires_in_minutes (60 when absent). A reused token has at least 60 s left |
| TokenManagement.AuthHeaders | build/lib/Whatsapp/token_manager.py:233-236 | exactly the keys Authorization and Content-Type; Content-Type is application/json; Authorization is "Bearer " followed by str(token) |
| TokenManagement.AuthHeadersSpec | build/lib/Whatsapp/token_manager.py:225-236 | no request iff the cached token is valid. Otherwise the calls and errors of get_token_info. The headers carry "Bearer " followed by the cached token |
| TokenManagement.HeadersStableWhileValid | build/lib/Whatsapp/token_manager.py:230-231 | once a valid token is cached, a second call at the same instant makes no request and returns the same headers |
| TokenManagement.TokenManager.constructor | build/lib/Whatsapp/token_manager.py:13-29 | no token and no expiry, so the token starts out invalid |
| TokenManagement.TokenManager.GenerateToken | build/lib/Whatsapp/token_manager.py:43-99 | result and fields equal GenerateSpec on the old fields |
| TokenManagement.TokenManager.CheckTokenStatus | build/lib/Whatsapp/token_manager.py:101-173 | result and fields equal CheckStatusSpec on the old fields |
| TokenManagement.TokenManager.GetTokenInfo | build/lib/Whatsapp/token_manager.py:175-206 | result, fields and request count equal GetTokenInfoSpec |
| TokenManagement.TokenManager.GetAuthHeaders | build/lib/Whatsapp/token_manager.py:225-236 | result, fields and request count equal AuthHeadersSpec |
| Core.PyInt | build/lib/Whatsapp/core.py:37 | integers pass through; strings convert iff they are a signed decimal numeral; None, lists and dicts raise TypeError |
| Core.NumeralExpiresIn | build/lib/Whatsapp/core.py:37 | an expires_in sent as the text of a number is read as that number |
| Core.ExpiresInField | build/lib/Whatsapp/core.py:37 | the reply's expires_in when present, even null; 3600 when absent |
| Core.AuthenticateSpec | build/lib/Whatsapp/core.py:35-41 | a success returns the token it stored, which is truthy; a failure is never an APIError |
| Core.AuthenticateOutcomes | build/lib/Whatsapp/core.py:20-44 | HTTP or transport failure is a NetworkError with the session unchanged. Success iff the reply is OK with a truthy "token" and an int()-convertible expires_in (3600 by default) within float range; the session then holds the token and now + expires_in. A falsy token is an AuthenticationError carrying the message (default "Authentication failed") with the session unchanged. A bad or overflowing expires_in stores the token only |
| Core.RefreshDueStaysDue | build/lib/Whatsapp/core.py:47 | the token is reused exactly while it is truthy and now is before its expiry; once a refresh is due it stays due at every later instant |
| Core.EnsureSpec | build/lib/Whatsapp/core.py:46-49 | authenticates iff the token is falsy or now ≥ expiry; success leaves a truthy token; a failure is never an APIError |
| Core.EnsureOutcomes | build/lib/Whatsapp/core.py:46-49 | a fresh token is kept with no call; otherwise session and outcome are those of authenticate |
| Core.Preamble | build/lib/Whatsapp/core.py:52 | one call to /get-token before the API call iff a refresh is due |
| Core.BuildUrlParts | build/lib/Whatsapp/core.py:53 | the URL is the base URL, one "/", then the endpoint without leading slashes, so its path never starts with "/" |
| Core.LeadingSlashesIgnored | build/lib/Whatsapp/core.py:53 | endpoints differing only in leading slashes give the same URL |
| Core.Finish | build/lib/Whatsapp/core.py:78-83 | an OK reply yields its body; a failing one an APIError with its cause |
| Core.ApiCallCountAppend | build/lib/Whatsapp/core.py:57-76 | counting API calls distributes over concatenation of call logs |
| Core.RequestSpec | build/lib/Whatsapp/core.py:51-83 | at most four calls; RequestCallShape and the lemmas below state the rest |
| Core.RequestCallShape | build/lib/Whatsapp/core.py:51-83 | at most four calls. No call at all only when no refresh was due and the keyword arguments raised TypeError. Otherwise the first call is a token call iff a refresh was needed. Accepted keyword arguments always lead to a call. Without any token call the session is unchanged |
| Core.UnacceptedKwargsRaise | build/lib/Whatsapp/core.py:57-64 | keyword arguments requests.request cannot take make no API call: only `_ensure_token`'s call, its session, and TypeError, or `_ensure_token`'s own error |
| Core.RequestSessionAndTokens | build/lib/Whatsapp/core.py:52-76 | the first API call carries the token `_ensure_token` left; a re-authentication follows it only as the next call, and the retry carries the token that re-authentication stored. The final session is the one the last stage left, so a last API call carried the token the service keeps |
| Core.RequestCallsWellFormed | build/lib/Whatsapp/core.py:57-76 | every API call repeats the one method, joined URL and keyword arguments with a truthy token, and only a re-authentication can follow one |
| Core.RequestResultFromLastCall | build/lib/Whatsapp/core.py:57-83 | the result is the last API reply's body or its APIError. A request ending in a token call, or making no call, fails with an error that is not an APIError; RequestErrorsUnwrapped and UnacceptedKwargsRaise say which |
| Core.RequestErrorsUnwrapped | build/lib/Whatsapp/core.py:46-68 | a failing `_ensure_token` ends the request with exactly its error and session and no API call; a request whose last call is the re-authentication ends with exactly that authentication's error and session, unwrapped |
| Core.RequestRetriesOnlyOn401 | build/lib/Whatsapp/core.py:57-76 | the first API call happens iff `_ensure_token` succeeded and the keyword arguments are accepted; re-authentication happens iff that call's reply is 401 and auto refresh is on; the second API call happens iff that re-authentication succeeded |
| Core.RetryIsBounded | build/lib/Whatsapp/core.py:57-76 | at most two API calls and two authentications per request, whatever the server answers |
| Core.PersistentUnauthorizedIsAPIError | build/lib/Whatsapp/core.py:66-83 | with accepted keyword arguments, a server answering 401 twice yields exactly two API calls and APIError(401) |
| Core.NoRetryWithoutAutoRefresh | build/lib/Whatsapp/core.py:66 | with accepted keyword arguments and auto refresh off, a 401 is final: one API call, APIError, session as `_ensure_token` left it |
| Core.BaseService.constructor | build/lib/Whatsapp/core.py:11-17 | auto refresh on by default; no token, expiry 0, so the first request always authenticates |
| Core.BaseService.Authenticate | build/lib/Whatsapp/core.py:20-44 | result and fields equal AuthenticateSpec |
| Core.BaseService.EnsureToken | build/lib/Whatsapp/core.py:46-49 | result, fields and whether it authenticated equal EnsureSpec |
| Core.BaseService.CallApi | build/lib/Whatsapp/core.py:53-83 | given `_ensure_token`'s outcome, result, call log and fields equal the request's remaining stages |
| Core.BaseService.Request | build/lib/Whatsapp/core.py:51-83 | method "GET" and no keyword arguments by default; result, call log and fields equal RequestSpec |
| MessageReceiving.ReceiveQuery | build/lib/Whatsapp/message_receiver.py:49-60 | api_key and limit always present. after present iff the cursor is truthy, and then equal to it. mark_read="true" present iff requested. No other keys |
| MessageReceiving.NextCursor | build/lib/Whatsapp/message_receiver.py:74-81 | a messages value with no len() raises TypeError. An empty or absent batch keeps the cursor. A batch headed by an object moves the cursor to its "id". Any other shape raises; success iff none of these errors applies |
| MessageReceiving.CursorFeedsNextQuery | build/lib/Whatsapp/message_receiver.py:55-56 | a truthy new cursor is sent as `after` by the next fetch; an empty batch leaves the next query as it was |
| MessageReceiving.MarkReadQuery | build/lib/Whatsapp/message_receiver.py:143-147 | api_key always present; message_ids present iff the id list is non-empty, and then equal to the ids joined by commas |
| MessageReceiving.MarkedIdsRecoverable | build/lib/Whatsapp/message_receiver.py:146-147 | ids without commas can be split back from the message_ids parameter |
| MessageReceiving.CommaInIdIsAmbiguous | build/lib/Whatsapp/message_receiver.py:147 | for all strings a and b, the single id a + "," + b and the two ids a, b are different lists that produce the same request |
| MessageReceiving.MessageReceiver.constructor | build/lib/Whatsapp/message_receiver.py:14-19 | the cursor starts as None |
| MessageReceiving.MessageReceiver.ReceiveMessages | build/lib/Whatsapp/message_receiver.py:32-100 | limit 10 and mark_as_read false by default; sends ReceiveQuery on the old cursor. A request failure returns the error answer and keeps the cursor. Otherwise the data are returned and the cursor is NextCursor, or the shape error propagates with the cursor kept |
| MessageReceiving.MessageReceiver.GetUnreadCount | build/lib/Whatsapp/message_receiver.py:102-127 | the reply's count (0 when absent), and 0 on any request failure |
| MessageReceiving.MessageReceiver.MarkMessagesAsRead | build/lib/Whatsapp/message_receiver.py:129-162 | no ids by default; sends MarkReadQuery; returns the reply's data, or the error answer on a request failure |
| Facade.TokenPayload | Whatsapp/whatsapp.py:21-25 | exactly username, password and api_key |
| Facade.SendPayload | Whatsapp/whatsapp.py:52-56 | exactly to, message and api_key |
| Facade.GenerateSpec | Whatsapp/whatsapp.py:93-96 | a request failure re-raises and changes nothing. Otherwise both objects store the reply's "token" (None when absent) and a sender is created with it |
| Facade.SendSpec | Whatsapp/whatsapp.py:98-101 | without a sender: ValueError and no request. Otherwise one POST with the sender's credentials and payload; failure re-raises, success returns the reply's JSON |
| Facade.SendBeforeGenerateRefused | Whatsapp/whatsapp.py:79 | a fresh facade refuses every send |
| Facade.SendAfterGenerateNotRefused | Whatsapp/whatsapp.py:93-101 | after a successful generation sends are never refused, even when no token came back. The POST then authenticates with the generated token |
| Facade.FailedGenerateKeepsGate | Whatsapp/whatsapp.py:93-96 | a failed generation leaves the sender as it was |
| Facade.Display | Whatsapp/whatsapp.py:104 | a truthy token shown as str(token), otherwise "not set" |
| Facade.Describe | Whatsapp/whatsapp.py:105 | the text starts with "username=" and the username |
| Facade.DescribeLines | Whatsapp/whatsapp.py:105 | with no newline in either part, the text splits into exactly the username line and the token line |
| Facade.WhatsAppTokenManager.constructor | Whatsapp/whatsapp.py:12-17 | stores the three credentials; no token |
| Facade.WhatsAppTokenManager.GenerateToken | Whatsapp/whatsapp.py:19-40 | posts TokenPayload. A failure re-raises with the token kept. Success stores and returns the reply's "token" |
| Facade.WhatsApp.constructor | Whatsapp/whatsapp.py:71-80 | no token, no sender, and a fresh nested token manager without a token |
| Facade.WhatsApp.GenerateToken | Whatsapp/whatsapp.py:93-96 | fields after the call equal Facade.GenerateSpec; success and error agree with it |
| Facade.WhatsApp.SendMessage | Whatsapp/whatsapp.py:98-101 | result and the request issued equal SendSpec on the current fields |
| Facade.WhatsApp.ToString | Whatsapp/whatsapp.py:103-105 | equals Describe of the username and token |

## Left out

- HTTP transport, Basic-Auth encoding, JSON decoding and network time-outs are left out: these are I/O. Replies are parameters, and a body is always a JSON object. A body that decodes to a list or scalar is not modelled.
- The clock (`datetime.now()`, `time.time()`) is replaced by an integer `now` in seconds. Each operation reads it once, while the code reads it several times. Microseconds and floating-point `total_seconds()` are not modelled.
- `datetime.fromisoformat` is a parameter: ISO 8601 parsing and time zones are not modelled.
- Core.PyInt: follows the unlimited `int()` of Python before 3.11. CPython 3.11 and later raise ValueError for a numeral of more than 4300 digits, and the package allows Python 3.7 and later; the model reads such numerals as their value.
- Text.ParseDecimalAcceptsNumerals: states the same unlimited rule, so on CPython 3.11 and later a numeral over 4300 digits is one it accepts and `int()` rejects. Text.ParseDecimal likewise.
- Core.PyInt: does not model `int()` on floats, nor strings with surrounding whitespace, underscores between digits, or non-ASCII Unicode decimal digits (which `int()` also accepts); such strings are read as ValueError.
- `Json.Value` has no floating-point case, so JSON numbers such as 1.5 or 3600.0 are not modelled. `timedelta(minutes=...)` at token_manager.py:83 and `int()` at core.py:37 accept them; the model covers only integer and bool values there.
- `mark_messages_as_read(message_ids=None)`: None and the empty list are both falsy and send the same query, so the model takes the empty list as the default.
- `Json.PyStr` renders lists and dicts as fixed placeholders rather than Python's `repr`. Only the strings shown for tokens depend on it.
- The TokenManager and BaseService methods do not return the credential payload they post, or the basic-auth pair; the facade's `TokenPayload` and `SendPayload` show that shape.
- TokenManagement.GenerateSpec, TokenManagement.CheckStatusSpec and TokenManagement.GetTokenInfoSpec return expires_at as an instant in seconds rather than its `isoformat()` text. The `strftime` of the log line is left out with the logging.
- Logging, the `print` of debug responses, `_setup_logger` and `build/lib/Whatsapp/utils.py` are left out: they are side effects with no bearing on results.
- `setup.py`, `pyd_converter.py`, `test.py` and both `__init__.py` files are not part of this model: they are packaging, build and import scripts.
- `start_polling`, `stop_polling` and their timer threads, `debug_connection` and `get_message_by_id` are left out. Polling and threads are concurrency, and the other two are diagnostics that only pass a reply through.
- `Whatsapp/message_sender.py` and the duplicate `build/lib/Whatsapp/whatsapp.py` are not part of this model.
- `config.py` is not part of this model. `BASE_URL` is a constructor argument of `BaseService`, and `DEFAULT_TIMEOUT` is left out with the rest of the transport.
- `exceptions.py` is mirrored by the `Errors.Error` datatype. Exception messages are kept where the code fixes them; rendered exception text is represented by its `Cause`.
- Concurrent callers are not modelled: each operation runs alone on its object.
- MessageReceiving.MessageReceiver.GetUnreadCount does not model `data.get` on a non-object body, which the code would let raise.
