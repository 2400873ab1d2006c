/**
 * The authenticated request executor of build/lib/Whatsapp/core.py
 * (BaseService). Its state is the pair (token, token_expiry); `authenticate`
 * asks `/get-token` for a token, `_ensure_token` does so lazily, and
 * `request` runs one API call, re-authenticating and retrying once when the
 * server answers 401 Unauthorized (section 15.5.2 of RFC 9110).
 *
 * Time is a whole number of seconds passed in as `now`. The transport is a
 * sequence of replies, the i-th answering the i-th call an operation makes;
 * every call made is recorded in order, so the calls can be counted.
 */
module Core {
  import opened Wrappers
  import opened Json
  import opened Http
  import opened Errors
  import Text

  const DefaultExpiresIn: int := 3600
  const AuthenticationFailed: string := "Authentication failed"
  const InvalidLiteral: string := "invalid literal for int() with base 10"
  const NotIntConvertible: string := "int() argument must be a string or a number"
  const IntTooLargeForFloat: string := "int too large to convert to float"
  const UnexpectedKeyword: string := "request() got an unexpected or repeated keyword argument"

  /**
   * The keyword arguments `requests.request` takes besides those `request`
   * already passes itself (the method and URL positionally, `auth`, `headers`
   * and `timeout` by name).
   */
  const PassableKwargs: set<string> :=
    {"params", "data", "cookies", "files", "allow_redirects", "proxies", "hooks", "stream", "verify", "cert", "json"}

  /**
   * The API call can be made with these keyword arguments. Any other key
   * repeats an argument `request` passes itself, or is one
   * `requests.request` does not take; the call then raises TypeError before
   * anything is sent.
   */
  predicate KwargsAccepted(kwargs: map<string, Value>) {
    forall k :: k in kwargs ==> Passable(k)
  }

  predicate Passable(key: string) {
    key in PassableKwargs
  }

  /**
   * 2^1024 - 2^970: the least integer that rounds past the largest double, so
   * `time.time() + n` raises OverflowError exactly when |n| reaches it.
   */
  const FloatOverflowBound: int := 0xfffffffffffffc00000000000000000000000000000000000000000000000000000000000000000000000000000000000000000000000000000000000000000000000000000000000000000000000000000000000000000000000000000000000000000000000000000000000000000000000000000000000000000000000000

  /** `float(n)` is finite. */
  predicate FloatConvertible(n: int) {
    -FloatOverflowBound < n < FloatOverflowBound
  }

  /** The executor's state: `token` (Null for None) and `token_expiry` in seconds. */
  datatype Session = Session(token: Value, expiry: int)

  /** What an API call asks for: the HTTP method, the URL and the extra keyword arguments, passed on as given. */
  datatype Target = Target(verb: string, url: string, kwargs: map<string, Value>)

  /** One transport call: to `/get-token`, or to the API with the credential it carried. */
  datatype Call = TokenCall | ApiCall(target: Target, token: Value)

  datatype AuthStep = AuthStep(result: Result<Value>, session: Session)
  datatype EnsureStep = EnsureStep(result: Result<()>, session: Session, authenticated: bool)
  datatype RequestStep = RequestStep(result: Result<Value>, session: Session, calls: seq<Call>)

  /** `int(v)` for a decoded JSON value (floats are not modelled). */
  function PyInt(v: Value): (r: Result<int>)
    ensures v.Int? ==> r == Ok(v.i)
    ensures v.Str? ==> (r.Ok? <==> Text.ParseDecimal(v.s).Some?)
    ensures v.Str? && r.Ok? ==> r.value == Text.ParseDecimal(v.s).value
    ensures v.Null? || v.List? || v.Obj? ==> r.Err? && r.error.TypeError?
  {
    match v
    case Int(i) => Ok(i)
    case Bool(b) => Ok(if b then 1 else 0)
    case Str(s) =>
      (match Text.ParseDecimal(s) case Some(n) => Ok(n) case None => Err(ValueError(InvalidLiteral)))
    case _ => Err(TypeError(NotIntConvertible))
  }

  /** A numeral the server writes as text is read back as the number it denotes. */
  lemma NumeralExpiresIn(n: int)
    ensures PyInt(Str(Text.IntToDecimal(n))) == Ok(n)
  {
    Text.IntToDecimalParses(n);
  }

  /** The `expires_in` value of a reply, 3600 seconds when absent; a value present, even null, is kept. */
  function ExpiresInField(body: map<string, Value>): (v: Value)
    ensures "expires_in" !in body ==> v == Int(3600)
    ensures "expires_in" in body ==> v == body["expires_in"]
  {
    GetOr(body, "expires_in", Int(DefaultExpiresIn))
  }

  /** `authenticate`. Only the key "token" is looked at; AuthenticateOutcomes states the rest. */
  function AuthenticateSpec(s: Session, now: int, reply: Reply): (o: AuthStep)
    ensures o.result.Ok? ==> o.result.value == o.session.token && Truthy(o.session.token)
    ensures o.result.Err? ==> !o.result.error.APIError?
  {
    match RaiseForStatus(reply)
    case Some(cause) => AuthStep(Err(NetworkError(cause)), s)
    case None =>
      var data := reply.body;
      if Truthy(Get(data, "token")) then
        var token := Get(data, "token");
        match PyInt(ExpiresInField(data))
        case Err(e) => AuthStep(Err(e), s.(token := token))
        case Ok(n) =>
          if FloatConvertible(n) then AuthStep(Ok(token), Session(token, now + n))
          else AuthStep(Err(OverflowError(IntTooLargeForFloat)), s.(token := token))
      else
        AuthStep(Err(AuthenticationError(GetOr(data, "message", Str(AuthenticationFailed)))), s)
  }

  /**
   * What `authenticate` does with each kind of reply: a transport or HTTP
   * failure becomes a NetworkError, a reply without a truthy "token" an
   * AuthenticationError, and a success sets both fields; an `int()` failure,
   * or an `expires_in` too large to add to a float, leaves the new token with
   * the old expiry.
   */
  lemma AuthenticateOutcomes(s: Session, now: int, reply: Reply)
    ensures var o := AuthenticateSpec(s, now, reply);
            && (RaiseForStatus(reply).Some? ==>
                  o == AuthStep(Err(NetworkError(RaiseForStatus(reply).value)), s))
            && (o.result.Ok? <==>
                  && RaiseForStatus(reply).None?
                  && Truthy(Get(reply.body, "token"))
                  && PyInt(ExpiresInField(reply.body)).Ok?
                  && FloatConvertible(PyInt(ExpiresInField(reply.body)).value))
            && (o.result.Ok? ==>
                  o.session == Session(Get(reply.body, "token"), now + PyInt(ExpiresInField(reply.body)).value))
            && (RaiseForStatus(reply).None? && !Truthy(Get(reply.body, "token")) ==>
                  o == AuthStep(Err(AuthenticationError(GetOr(reply.body, "message", Str(AuthenticationFailed)))), s))
            && (o.result.Err? && o.result.error.IsTradeUnifoxError() ==> o.session == s)
            && (o.result.Err? && !o.result.error.IsTradeUnifoxError() ==>
                  && RaiseForStatus(reply).None?
                  && Truthy(Get(reply.body, "token"))
                  && o.result == (match PyInt(ExpiresInField(reply.body))
                                  case Err(e) => Err(e)
                                  case Ok(_) => Err(OverflowError(IntTooLargeForFloat)))
                  && o.session == s.(token := Get(reply.body, "token")))
            && (RaiseForStatus(reply).None? && Truthy(Get(reply.body, "token")) && !o.result.Ok? ==>
                  && o.session == s.(token := Get(reply.body, "token"))
                  && o.result == (match PyInt(ExpiresInField(reply.body))
                                  case Err(e) => Err(e)
                                  case Ok(_) => Err(OverflowError(IntTooLargeForFloat))))
  {
  }

  /** `_ensure_token`'s test: no truthy token, or its expiry has been reached. */
  predicate NeedsRefresh(s: Session, now: int) {
    !Truthy(s.token) || now >= s.expiry
  }

  /** A token is reused exactly while it is truthy and unexpired; once a refresh is due it stays due. */
  lemma RefreshDueStaysDue(s: Session, now: int, later: int)
    ensures !NeedsRefresh(s, now) <==> Truthy(s.token) && now < s.expiry
    ensures NeedsRefresh(s, now) && now <= later ==> NeedsRefresh(s, later)
  {
  }

  /** `_ensure_token`. */
  function EnsureSpec(s: Session, now: int, reply: Reply): (o: EnsureStep)
    ensures o.authenticated <==> NeedsRefresh(s, now)
    ensures o.result.Ok? ==> Truthy(o.session.token)
    ensures o.result.Err? ==> !o.result.error.APIError?
  {
    if NeedsRefresh(s, now) then
      var a := AuthenticateSpec(s, now, reply);
      match a.result
      case Err(e) => EnsureStep(Err(e), a.session, true)
      case Ok(_) => EnsureStep(Ok(()), a.session, true)
    else EnsureStep(Ok(()), s, false)
  }

  /** A token that is still fresh is used as it is; a stale one is replaced exactly as `authenticate` would. */
  lemma EnsureOutcomes(s: Session, now: int, reply: Reply)
    ensures var o := EnsureSpec(s, now, reply);
            && (!o.authenticated ==> o == EnsureStep(Ok(()), s, false))
            && (o.authenticated ==>
                  var a := AuthenticateSpec(s, now, reply);
                  && o.session == a.session
                  && (o.result.Ok? <==> a.result.Ok?)
                  && (a.result.Err? ==> o.result.error == a.result.error))
  {
  }

  /** `f"{BASE_URL}/{endpoint.lstrip('/')}"`. */
  function BuildUrl(baseUrl: string, endpoint: string): string {
    baseUrl + "/" + Text.LStrip(endpoint, '/')
  }

  /**
   * The URL is the base URL and one "/", followed by the endpoint with its
   * leading slashes stripped, so the path part never starts with "/".
   */
  lemma BuildUrlParts(baseUrl: string, endpoint: string)
    ensures var url := BuildUrl(baseUrl, endpoint);
            |url| > |baseUrl| && url[..|baseUrl| + 1] == baseUrl + "/"
    ensures var path := BuildUrl(baseUrl, endpoint)[|baseUrl| + 1..];
            path == Text.LStrip(endpoint, '/') && (path == [] || path[0] != '/')
  {
  }

  /** Leading slashes on an endpoint make no difference: "x", "/x" and "//x" give one URL. */
  lemma LeadingSlashesIgnored(baseUrl: string, endpoint: string, n: nat)
    ensures BuildUrl(baseUrl, Text.Repeat('/', n) + endpoint) == BuildUrl(baseUrl, endpoint)
  {
    Text.LStripRepeat('/', n, endpoint);
  }

  /** `response.raise_for_status(); return response.json()` on the final API response. */
  function Finish(reply: Reply, s: Session, calls: seq<Call>): (o: RequestStep)
    ensures o.session == s && o.calls == calls
    ensures RaiseForStatus(reply).None? <==> o.result.Ok?
    ensures o.result.Ok? ==> o.result.value == Obj(reply.body)
    ensures o.result.Err? ==> o.result.error == APIError(RaiseForStatus(reply).value)
  {
    match RaiseForStatus(reply)
    case Some(cause) => RequestStep(Err(APIError(cause)), s, calls)
    case None => RequestStep(Ok(Obj(reply.body)), s, calls)
  }

  /** The number of calls to the API (not to `/get-token`) in a call log. */
  function ApiCallCount(calls: seq<Call>): nat
    decreases |calls|
  {
    if |calls| == 0 then 0 else (if calls[0].ApiCall? then 1 else 0) + ApiCallCount(calls[1..])
  }

  lemma {:induction false} ApiCallCountAppend(a: seq<Call>, b: seq<Call>)
    ensures ApiCallCount(a + b) == ApiCallCount(a) + ApiCallCount(b)
    decreases |a|
  {
    if |a| > 0 {
      assert (a + b)[1..] == a[1..] + b;
      ApiCallCountAppend(a[1..], b);
    } else {
      assert a + b == b;
    }
  }

  /** The calls `_ensure_token` makes before the first API call: one to `/get-token` iff a refresh is due. */
  function Preamble(s: Session, now: int): (pre: seq<Call>)
    ensures pre == [] || pre == [TokenCall]
    ensures |pre| == 1 <==> NeedsRefresh(s, now)
  {
    if NeedsRefresh(s, now) then [TokenCall] else []
  }

  /** What `_ensure_token` does at the start of `request`, answered by the first reply. */
  function Ensured(s: Session, now: int, replies: seq<Reply>): EnsureStep {
    EnsureSpec(s, now, At(replies, 0))
  }

  /** What a re-authentication after a 401 would do, answered by the reply after the first API call. */
  function Reauthenticated(s: Session, now: int, replies: seq<Reply>): AuthStep {
    AuthenticateSpec(Ensured(s, now, replies).session, now, At(replies, |Preamble(s, now)| + 1))
  }

  /**
   * `request` put together from its stages: `e` is the outcome of
   * `_ensure_token` after the calls `pre`, and `a` the outcome the
   * re-authentication has if the first API call is answered 401.
   */
  function Assemble(t: Target, autoRefresh: bool, e: EnsureStep, pre: seq<Call>, a: AuthStep, replies: seq<Reply>): RequestStep {
    match e.result
    case Err(err) => RequestStep(Err(err), e.session, pre)
    case Ok(_) =>
      if !KwargsAccepted(t.kwargs) then RequestStep(Err(TypeError(UnexpectedKeyword)), e.session, pre)
      else
      var first := At(replies, |pre|);
      var calls := pre + [ApiCall(t, e.session.token)];
      if IsUnauthorized(first) && autoRefresh then
        var reauth := calls + [TokenCall];
        match a.result
        case Err(err) => RequestStep(Err(err), a.session, reauth)
        case Ok(_) => Finish(At(replies, |reauth|), a.session, reauth + [ApiCall(t, a.session.token)])
      else Finish(first, e.session, calls)
  }

  /** The call `request(endpoint, method, **kwargs)` makes. */
  function RequestTarget(baseUrl: string, endpoint: string, verb: string, kwargs: map<string, Value>): Target {
    Target(verb, BuildUrl(baseUrl, endpoint), kwargs)
  }

  /**
   * `request`. RequestCallShape states which calls it makes, and
   * RequestSessionAndTokens which session and which token each call ends with.
   */
  function RequestSpec(baseUrl: string, autoRefresh: bool, s: Session, endpoint: string, verb: string,
                       kwargs: map<string, Value>, now: int, replies: seq<Reply>): (o: RequestStep)
    ensures |o.calls| <= 4
  {
    AssembleCases(RequestTarget(baseUrl, endpoint, verb, kwargs), autoRefresh, Ensured(s, now, replies), Preamble(s, now),
                  Reauthenticated(s, now, replies), replies);
    Assemble(RequestTarget(baseUrl, endpoint, verb, kwargs), autoRefresh, Ensured(s, now, replies), Preamble(s, now),
             Reauthenticated(s, now, replies), replies)
  }

  /**
   * At most four calls; the first is a token call iff a refresh was due. No
   * call at all is made only when the token was fresh and the keyword
   * arguments raised TypeError. Without a token call the session is unchanged.
   */
  lemma {:induction false} RequestCallShape(baseUrl: string, autoRefresh: bool, s: Session, endpoint: string, verb: string,
      kwargs: map<string, Value>, now: int, replies: seq<Reply>)
    ensures var o := RequestSpec(baseUrl, autoRefresh, s, endpoint, verb, kwargs, now, replies);
            && |o.calls| <= 4
            && (|o.calls| == 0 ==> !NeedsRefresh(s, now) && o.result == Err(TypeError(UnexpectedKeyword)))
            && (|o.calls| > 0 ==> (o.calls[0] == TokenCall <==> NeedsRefresh(s, now)))
            && (KwargsAccepted(kwargs) ==> |o.calls| >= 1)
            && (TokenCall !in o.calls ==> o.session == s)
  {
    EnsureOutcomes(s, now, At(replies, 0));
    AssembleCases(RequestTarget(baseUrl, endpoint, verb, kwargs), autoRefresh, Ensured(s, now, replies), Preamble(s, now),
                  Reauthenticated(s, now, replies), replies);
  }

  /** Stage outcomes as `_ensure_token` and `authenticate` produce them. */
  predicate StagesSound(e: EnsureStep, pre: seq<Call>, a: AuthStep) {
    && (pre == [] || pre == [TokenCall])
    && (e.result.Ok? ==> Truthy(e.session.token))
    && (e.result.Err? ==> !e.result.error.APIError? && pre == [TokenCall])
    && (a.result.Ok? ==> Truthy(a.session.token))
    && (a.result.Err? ==> !a.result.error.APIError?)
  }

  lemma RealStagesSound(s: Session, now: int, replies: seq<Reply>)
    ensures StagesSound(Ensured(s, now, replies), Preamble(s, now), Reauthenticated(s, now, replies))
  {
  }

  /** The four call logs `request` can produce, with the session and result of each. */
  lemma AssembleCases(t: Target, autoRefresh: bool, e: EnsureStep, pre: seq<Call>, a: AuthStep, replies: seq<Reply>)
    ensures var o := Assemble(t, autoRefresh, e, pre, a, replies);
            var retry := IsUnauthorized(At(replies, |pre|)) && autoRefresh;
            && (e.result.Err? ==> o == RequestStep(Err(e.result.error), e.session, pre))
            && (e.result.Ok? && !KwargsAccepted(t.kwargs) ==>
                  o == RequestStep(Err(TypeError(UnexpectedKeyword)), e.session, pre))
            && (e.result.Ok? && KwargsAccepted(t.kwargs) && !retry ==>
                  o == Finish(At(replies, |pre|), e.session, pre + [ApiCall(t, e.session.token)]))
            && (e.result.Ok? && KwargsAccepted(t.kwargs) && retry && a.result.Err? ==>
                  o == RequestStep(Err(a.result.error), a.session, pre + [ApiCall(t, e.session.token), TokenCall]))
            && (e.result.Ok? && KwargsAccepted(t.kwargs) && retry && a.result.Ok? ==>
                  o == Finish(At(replies, |pre| + 2), a.session,
                              pre + [ApiCall(t, e.session.token), TokenCall, ApiCall(t, a.session.token)]))
  {
    var calls := pre + [ApiCall(t, e.session.token)];
    assert calls + [TokenCall] == pre + [ApiCall(t, e.session.token), TokenCall];
    assert calls + [TokenCall] + [ApiCall(t, a.session.token)] ==
           pre + [ApiCall(t, e.session.token), TokenCall, ApiCall(t, a.session.token)];
  }

  /**
   * After the k calls of `_ensure_token`, position k holds the first API
   * call, with the token `_ensure_token` left; k + 1 the re-authentication
   * and k + 2 the retry, with the token it stored. The session is the one
   * the last stage left, so the last API call carried the token the service
   * keeps.
   */
  predicate SessionAndTokens(o: RequestStep, k: nat, t: Target, e: EnsureStep, a: AuthStep) {
    && (|o.calls| > 0 && o.calls[|o.calls| - 1].ApiCall? ==> o.calls[|o.calls| - 1].token == o.session.token)
    && (|o.calls| > k ==> o.calls[k] == ApiCall(t, e.session.token))
    && (|o.calls| <= k + 1 ==> o.session == e.session)
    && (|o.calls| > k + 1 ==> o.calls[k + 1] == TokenCall && o.session == a.session)
    && (|o.calls| == k + 3 ==> o.calls[k + 2] == ApiCall(t, a.session.token))
  }

  lemma {:induction false} AssembleSessionAndTokens(t: Target, autoRefresh: bool, e: EnsureStep, pre: seq<Call>, a: AuthStep, replies: seq<Reply>)
    requires pre == [] || pre == [TokenCall]
    ensures SessionAndTokens(Assemble(t, autoRefresh, e, pre, a, replies), |pre|, t, e, a)
  {
    AssembleCases(t, autoRefresh, e, pre, a, replies);
  }

  /** Which session `request` ends with, and which token each of its API calls carries. */
  lemma {:induction false} RequestSessionAndTokens(baseUrl: string, autoRefresh: bool, s: Session, endpoint: string, verb: string,
      kwargs: map<string, Value>, now: int, replies: seq<Reply>)
    ensures SessionAndTokens(RequestSpec(baseUrl, autoRefresh, s, endpoint, verb, kwargs, now, replies), |Preamble(s, now)|,
                             RequestTarget(baseUrl, endpoint, verb, kwargs), Ensured(s, now, replies), Reauthenticated(s, now, replies))
  {
    AssembleSessionAndTokens(RequestTarget(baseUrl, endpoint, verb, kwargs), autoRefresh, Ensured(s, now, replies),
                             Preamble(s, now), Reauthenticated(s, now, replies), replies);
  }

  /**
   * Every API call repeats the one target (method, URL and keyword
   * arguments) with a truthy token, and is followed by nothing but a
   * re-authentication.
   */
  predicate CallsWellFormed(calls: seq<Call>, t: Target) {
    && (forall k :: 0 <= k < |calls| && calls[k].ApiCall? ==> calls[k].target == t && Truthy(calls[k].token))
    && (forall k :: 0 <= k < |calls| - 1 && calls[k].ApiCall? ==> calls[k + 1] == TokenCall)
  }

  /** The four call logs are well formed when both tokens are truthy. */
  lemma WellFormedLogs(t: Target, pre: seq<Call>, t1: Value, t2: Value)
    requires pre == [] || pre == [TokenCall]
    requires Truthy(t1) && Truthy(t2)
    ensures CallsWellFormed(pre, t)
    ensures CallsWellFormed(pre + [ApiCall(t, t1)], t)
    ensures CallsWellFormed(pre + [ApiCall(t, t1), TokenCall], t)
    ensures CallsWellFormed(pre + [ApiCall(t, t1), TokenCall, ApiCall(t, t2)], t)
  {
  }

  lemma {:induction false} AssembleWellFormed(t: Target, autoRefresh: bool, e: EnsureStep, pre: seq<Call>, a: AuthStep, replies: seq<Reply>)
    requires StagesSound(e, pre, a)
    ensures CallsWellFormed(Assemble(t, autoRefresh, e, pre, a, replies).calls, t)
  {
    AssembleCases(t, autoRefresh, e, pre, a, replies);
    var t1 := if e.result.Ok? then e.session.token else Str("t");
    var t2 := if a.result.Ok? then a.session.token else Str("t");
    WellFormedLogs(t, pre, t1, t2);
  }

  /** `request` repeats the one call with a truthy token, and retries only after re-authenticating. */
  lemma {:induction false} RequestCallsWellFormed(baseUrl: string, autoRefresh: bool, s: Session, endpoint: string, verb: string,
      kwargs: map<string, Value>, now: int, replies: seq<Reply>)
    ensures var o := RequestSpec(baseUrl, autoRefresh, s, endpoint, verb, kwargs, now, replies);
            CallsWellFormed(o.calls, RequestTarget(baseUrl, endpoint, verb, kwargs))
  {
    RealStagesSound(s, now, replies);
    AssembleWellFormed(RequestTarget(baseUrl, endpoint, verb, kwargs), autoRefresh, Ensured(s, now, replies), Preamble(s, now),
                       Reauthenticated(s, now, replies), replies);
  }

  /**
   * The outcome is decided by the last call: an API reply's body or its
   * APIError, or, after a token call or none at all, an error that is not
   * an APIError (an authentication error passed through unwrapped, or the
   * TypeError of unacceptable keyword arguments).
   */
  predicate ResultFromLastCall(o: RequestStep, replies: seq<Reply>) {
    var last := |o.calls| - 1;
    && (|o.calls| == 0 ==> o.result.Err? && !o.result.error.APIError?)
    && (|o.calls| > 0 && o.calls[last].ApiCall? ==>
          && (o.result.Ok? <==> RaiseForStatus(At(replies, last)).None?)
          && (o.result.Ok? ==> o.result.value == Obj(At(replies, last).body))
          && (o.result.Err? ==> o.result.error == APIError(RaiseForStatus(At(replies, last)).value)))
    && (|o.calls| > 0 && o.calls[last] == TokenCall ==> o.result.Err? && !o.result.error.APIError?)
  }

  lemma {:induction false} AssembleResultFromLastCall(t: Target, autoRefresh: bool, e: EnsureStep, pre: seq<Call>, a: AuthStep, replies: seq<Reply>)
    requires StagesSound(e, pre, a)
    ensures var o := Assemble(t, autoRefresh, e, pre, a, replies);
            ResultFromLastCall(o, replies)
  {
    AssembleCases(t, autoRefresh, e, pre, a, replies);
  }

  /** `request` returns what its last call produced. */
  lemma {:induction false} RequestResultFromLastCall(baseUrl: string, autoRefresh: bool, s: Session, endpoint: string, verb: string,
      kwargs: map<string, Value>, now: int, replies: seq<Reply>)
    ensures var o := RequestSpec(baseUrl, autoRefresh, s, endpoint, verb, kwargs, now, replies);
            ResultFromLastCall(o, replies)
  {
    RealStagesSound(s, now, replies);
    AssembleResultFromLastCall(RequestTarget(baseUrl, endpoint, verb, kwargs), autoRefresh, Ensured(s, now, replies), Preamble(s, now),
                               Reauthenticated(s, now, replies), replies);
  }

  lemma {:induction false} AssembleErrorsUnwrapped(t: Target, autoRefresh: bool, e: EnsureStep, pre: seq<Call>, a: AuthStep, replies: seq<Reply>)
    ensures var o := Assemble(t, autoRefresh, e, pre, a, replies);
            && (e.result.Err? ==> o == RequestStep(Err(e.result.error), e.session, pre))
            && (|o.calls| == |pre| + 2 ==>
                  && a.result.Err?
                  && o == RequestStep(Err(a.result.error), a.session, pre + [ApiCall(t, e.session.token), TokenCall]))
  {
    AssembleCases(t, autoRefresh, e, pre, a, replies);
  }

  /**
   * The errors of `_ensure_token` and of the re-authentication leave
   * `request` unwrapped: a failing `_ensure_token` ends the request with its
   * own error and session and no API call, and a request whose last call is
   * the re-authentication ends with that authentication's error and session.
   */
  lemma {:induction false} RequestErrorsUnwrapped(baseUrl: string, autoRefresh: bool, s: Session, endpoint: string, verb: string,
      kwargs: map<string, Value>, now: int, replies: seq<Reply>)
    ensures var o := RequestSpec(baseUrl, autoRefresh, s, endpoint, verb, kwargs, now, replies);
            var e := Ensured(s, now, replies);
            && (e.result.Err? ==> o == RequestStep(Err(e.result.error), e.session, Preamble(s, now)))
            && (|o.calls| == |Preamble(s, now)| + 2 ==>
                  && Reauthenticated(s, now, replies).result.Err?
                  && o.result == Err(Reauthenticated(s, now, replies).result.error)
                  && o.session == Reauthenticated(s, now, replies).session
                  && o.calls[|o.calls| - 1] == TokenCall)
  {
    AssembleErrorsUnwrapped(RequestTarget(baseUrl, endpoint, verb, kwargs), autoRefresh, Ensured(s, now, replies), Preamble(s, now),
                            Reauthenticated(s, now, replies), replies);
  }

  /**
   * Re-authentication happens iff `_ensure_token` succeeded, the keyword
   * arguments were accepted, the first API reply (after the k preamble
   * calls) was 401 and auto refresh is on; the second API call happens iff
   * that re-authentication succeeded too.
   */
  predicate RetriesOnlyOn401(o: RequestStep, autoRefresh: bool, k: nat, ensured: bool, accepted: bool,
                             reauthenticated: bool, replies: seq<Reply>) {
    && (|o.calls| > k <==> ensured && accepted)
    && (|o.calls| > k + 1 <==> ensured && accepted && autoRefresh && IsUnauthorized(At(replies, k)))
    && (|o.calls| == k + 3 <==> |o.calls| > k + 1 && reauthenticated)
  }

  lemma {:induction false} AssembleRetriesOnlyOn401(t: Target, autoRefresh: bool, e: EnsureStep, pre: seq<Call>, a: AuthStep, replies: seq<Reply>)
    ensures RetriesOnlyOn401(Assemble(t, autoRefresh, e, pre, a, replies), autoRefresh, |pre|,
                             e.result.Ok?, KwargsAccepted(t.kwargs), a.result.Ok?, replies)
  {
    AssembleCases(t, autoRefresh, e, pre, a, replies);
  }

  /** `request` re-authenticates and retries exactly when its first API call got 401 and auto refresh is on. */
  lemma {:induction false} RequestRetriesOnlyOn401(baseUrl: string, autoRefresh: bool, s: Session, endpoint: string, verb: string,
      kwargs: map<string, Value>, now: int, replies: seq<Reply>)
    ensures var o := RequestSpec(baseUrl, autoRefresh, s, endpoint, verb, kwargs, now, replies);
            RetriesOnlyOn401(o, autoRefresh, |Preamble(s, now)|, Ensured(s, now, replies).result.Ok?,
                             KwargsAccepted(kwargs), Reauthenticated(s, now, replies).result.Ok?, replies)
  {
    AssembleRetriesOnlyOn401(RequestTarget(baseUrl, endpoint, verb, kwargs), autoRefresh, Ensured(s, now, replies), Preamble(s, now),
                             Reauthenticated(s, now, replies), replies);
  }

  lemma ApiCallCountSingle(c: Call)
    ensures ApiCallCount([c]) == if c.ApiCall? then 1 else 0
  {
    assert [c][1..] == [];
  }

  /** The API calls in the four call logs. */
  lemma CountLogs(t: Target, pre: seq<Call>, t1: Value, t2: Value)
    requires pre == [] || pre == [TokenCall]
    ensures ApiCallCount(pre) == 0
    ensures ApiCallCount(pre + [ApiCall(t, t1)]) == 1
    ensures ApiCallCount(pre + [ApiCall(t, t1), TokenCall]) == 1
    ensures ApiCallCount(pre + [ApiCall(t, t1), TokenCall, ApiCall(t, t2)]) == 2
  {
    if pre == [] {
      assert ApiCallCount(pre) == 0;
    } else {
      ApiCallCountSingle(TokenCall);
    }
    var l1 := pre + [ApiCall(t, t1)];
    var l2 := l1 + [TokenCall];
    var l3 := l2 + [ApiCall(t, t2)];
    ApiCallCountSingle(ApiCall(t, t1));
    ApiCallCountSingle(TokenCall);
    ApiCallCountSingle(ApiCall(t, t2));
    ApiCallCountAppend(pre, [ApiCall(t, t1)]);
    ApiCallCountAppend(l1, [TokenCall]);
    ApiCallCountAppend(l2, [ApiCall(t, t2)]);
    assert l2 == pre + [ApiCall(t, t1), TokenCall];
    assert l3 == pre + [ApiCall(t, t1), TokenCall, ApiCall(t, t2)];
  }

  lemma {:induction false} AssembleIsBounded(t: Target, autoRefresh: bool, e: EnsureStep, pre: seq<Call>, a: AuthStep, replies: seq<Reply>)
    requires pre == [] || pre == [TokenCall]
    ensures var o := Assemble(t, autoRefresh, e, pre, a, replies);
            ApiCallCount(o.calls) <= 2 && |o.calls| - ApiCallCount(o.calls) <= 2
  {
    AssembleCases(t, autoRefresh, e, pre, a, replies);
    CountLogs(t, pre, e.session.token, a.session.token);
  }

  /**
   * The retry is bounded: one `request` makes at most two API calls, and at
   * most two authentications, whatever the server answers.
   */
  lemma {:induction false} RetryIsBounded(baseUrl: string, autoRefresh: bool, s: Session, endpoint: string, verb: string,
      kwargs: map<string, Value>, now: int, replies: seq<Reply>)
    ensures var o := RequestSpec(baseUrl, autoRefresh, s, endpoint, verb, kwargs, now, replies);
            ApiCallCount(o.calls) <= 2 && |o.calls| - ApiCallCount(o.calls) <= 2
  {
    AssembleIsBounded(RequestTarget(baseUrl, endpoint, verb, kwargs), autoRefresh, Ensured(s, now, replies), Preamble(s, now),
                      Reauthenticated(s, now, replies), replies);
  }

  lemma {:induction false} AssemblePersistentUnauthorized(t: Target, e: EnsureStep, pre: seq<Call>, a: AuthStep, replies: seq<Reply>)
    requires e.result.Ok? && a.result.Ok? && KwargsAccepted(t.kwargs)
    requires IsUnauthorized(At(replies, |pre|)) && IsUnauthorized(At(replies, |pre| + 2))
    ensures var o := Assemble(t, true, e, pre, a, replies);
            o == RequestStep(Err(APIError(HttpStatus(401))), a.session,
                             pre + [ApiCall(t, e.session.token), TokenCall, ApiCall(t, a.session.token)])
  {
    AssembleCases(t, true, e, pre, a, replies);
  }

  lemma {:induction false} AssembleNoRetry(t: Target, e: EnsureStep, pre: seq<Call>, a: AuthStep, replies: seq<Reply>)
    requires e.result.Ok? && KwargsAccepted(t.kwargs)
    requires IsUnauthorized(At(replies, |pre|))
    ensures Assemble(t, false, e, pre, a, replies) ==
            RequestStep(Err(APIError(HttpStatus(401))), e.session, pre + [ApiCall(t, e.session.token)])
  {
    AssembleCases(t, false, e, pre, a, replies);
  }

  /**
   * A server that keeps answering 401 gets exactly two API calls, the second
   * with the re-authenticated token, and an APIError, not a loop.
   */
  lemma {:induction false} PersistentUnauthorizedIsAPIError(baseUrl: string, s: Session, endpoint: string, verb: string,
                                                            kwargs: map<string, Value>, now: int, replies: seq<Reply>)
    requires Ensured(s, now, replies).result.Ok? && Reauthenticated(s, now, replies).result.Ok?
    requires KwargsAccepted(kwargs)
    requires IsUnauthorized(At(replies, |Preamble(s, now)|)) && IsUnauthorized(At(replies, |Preamble(s, now)| + 2))
    ensures var o := RequestSpec(baseUrl, true, s, endpoint, verb, kwargs, now, replies);
            var t := RequestTarget(baseUrl, endpoint, verb, kwargs);
            && o.result == Err(APIError(HttpStatus(401)))
            && o.calls == Preamble(s, now) + [ApiCall(t, Ensured(s, now, replies).session.token), TokenCall,
                                              ApiCall(t, Reauthenticated(s, now, replies).session.token)]
            && o.session == Reauthenticated(s, now, replies).session
  {
    AssemblePersistentUnauthorized(RequestTarget(baseUrl, endpoint, verb, kwargs), Ensured(s, now, replies), Preamble(s, now),
                                   Reauthenticated(s, now, replies), replies);
  }

  /** Without auto refresh a 401 is final: one API call, no re-authentication, an APIError. */
  lemma {:induction false} NoRetryWithoutAutoRefresh(baseUrl: string, s: Session, endpoint: string, verb: string,
                                                     kwargs: map<string, Value>, now: int, replies: seq<Reply>)
    requires Ensured(s, now, replies).result.Ok? && KwargsAccepted(kwargs)
    requires IsUnauthorized(At(replies, |Preamble(s, now)|))
    ensures var o := RequestSpec(baseUrl, false, s, endpoint, verb, kwargs, now, replies);
            && o.result == Err(APIError(HttpStatus(401)))
            && o.calls == Preamble(s, now) + [ApiCall(RequestTarget(baseUrl, endpoint, verb, kwargs), Ensured(s, now, replies).session.token)]
            && o.session == Ensured(s, now, replies).session
  {
    AssembleNoRetry(RequestTarget(baseUrl, endpoint, verb, kwargs), Ensured(s, now, replies), Preamble(s, now),
                    Reauthenticated(s, now, replies), replies);
  }

  /**
   * Keyword arguments that repeat `auth`, `headers`, `timeout`, the method
   * or the URL, or that `requests.request` does not take, make the API call
   * raise TypeError, which `except RequestException` does not catch: no API
   * call is made and the session is whatever `_ensure_token` left.
   */
  lemma {:induction false} UnacceptedKwargsRaise(baseUrl: string, autoRefresh: bool, s: Session, endpoint: string, verb: string,
      kwargs: map<string, Value>, now: int, replies: seq<Reply>)
    requires !KwargsAccepted(kwargs)
    ensures var o := RequestSpec(baseUrl, autoRefresh, s, endpoint, verb, kwargs, now, replies);
            var e := Ensured(s, now, replies);
            && o.calls == Preamble(s, now)
            && o.session == e.session
            && o.result == (if e.result.Ok? then Err(TypeError(UnexpectedKeyword)) else Err(e.result.error))
  {
    AssembleCases(RequestTarget(baseUrl, endpoint, verb, kwargs), autoRefresh, Ensured(s, now, replies), Preamble(s, now),
                  Reauthenticated(s, now, replies), replies);
  }

  class BaseService {
    const username: string
    const password: string
    const apiKey: string
    /** `BASE_URL` from the configuration module, which is not part of this model. */
    const baseUrl: string
    const autoRefresh: bool
    var token: Value
    var tokenExpiry: int

    function State(): Session
      reads this
    {
      Session(token, tokenExpiry)
    }

    constructor (username: string, password: string, apiKey: string, baseUrl: string, autoRefresh: bool := true)
      ensures this.username == username && this.password == password && this.apiKey == apiKey
      ensures this.baseUrl == baseUrl && this.autoRefresh == autoRefresh
      ensures State() == Session(Null, 0)
      ensures forall now :: NeedsRefresh(State(), now)
    {
      this.username := username;
      this.password := password;
      this.apiKey := apiKey;
      this.baseUrl := baseUrl;
      this.autoRefresh := autoRefresh;
      token := Null;
      tokenExpiry := 0;
    }

    method Authenticate(now: int, reply: Reply) returns (r: Result<Value>)
      modifies this
      ensures var o := AuthenticateSpec(old(State()), now, reply);
              r == o.result && State() == o.session
    {
      var failure := RaiseForStatus(reply);
      if failure.Some? {
        return Err(NetworkError(failure.value));
      }
      var data := reply.body;
      if Truthy(Get(data, "token")) {
        token := data["token"];
        var expiresIn := PyInt(ExpiresInField(data));
        if expiresIn.Err? {
          return Err(expiresIn.error);
        }
        if !FloatConvertible(expiresIn.value) {
          return Err(OverflowError(IntTooLargeForFloat));
        }
        tokenExpiry := now + expiresIn.value;
        r := Ok(token);
      } else {
        r := Err(AuthenticationError(GetOr(data, "message", Str(AuthenticationFailed))));
      }
    }

    method EnsureToken(now: int, reply: Reply) returns (r: Result<()>, authenticated: bool)
      modifies this
      ensures var o := EnsureSpec(old(State()), now, reply);
              r == o.result && State() == o.session && authenticated == o.authenticated
    {
      r, authenticated := Ok(()), false;
      if !Truthy(token) || now >= tokenExpiry {
        authenticated := true;
        var a := Authenticate(now, reply);
        if a.Err? {
          r := Err(a.error);
        }
      }
    }

    /**
     * What `request` does once `_ensure_token` has returned `ensured` (its
     * outcome `e`) after the calls `pre`: stop on its error, otherwise the
     * `try` block with the API call, the one re-authentication and retry on
     * 401, and the final status check.
     */
    method CallApi(target: Target, now: int, replies: seq<Reply>, ensured: Result<()>, pre: seq<Call>,
                   ghost e: EnsureStep, ghost reauth: AuthStep)
      returns (r: Result<Value>, calls: seq<Call>)
      requires ensured == e.result && State() == e.session
      requires reauth == AuthenticateSpec(e.session, now, At(replies, |pre| + 1))
      modifies this
      ensures var o := Assemble(target, autoRefresh, e, pre, reauth, replies);
              r == o.result && calls == o.calls && State() == o.session
    {
      AssembleCases(target, autoRefresh, e, pre, reauth, replies);
      calls := pre;
      if ensured.Err? {
        return Err(ensured.error), calls;
      }
      if !KwargsAccepted(target.kwargs) {
        return Err(TypeError(UnexpectedKeyword)), calls;
      }
      var response := At(replies, |calls|);
      calls := calls + [ApiCall(target, token)];
      if IsUnauthorized(response) && autoRefresh {
        var a := Authenticate(now, At(replies, |calls|));
        calls := calls + [TokenCall];
        if a.Err? {
          return Err(a.error), calls;
        }
        response := At(replies, |calls|);
        calls := calls + [ApiCall(target, token)];
      }
      var failure := RaiseForStatus(response);
      if failure.Some? {
        return Err(APIError(failure.value)), calls;
      }
      r := Ok(Obj(response.body));
    }

    /** `request(endpoint, method="GET", **kwargs)`, the method named `verb` here. */
    method Request(endpoint: string, now: int, replies: seq<Reply>, verb: string := "GET",
                   kwargs: map<string, Value> := map[])
      returns (r: Result<Value>, calls: seq<Call>)
      modifies this
      ensures var o := RequestSpec(baseUrl, autoRefresh, old(State()), endpoint, verb, kwargs, now, replies);
              r == o.result && calls == o.calls && State() == o.session
    {
      ghost var s0 := State();
      ghost var e, a := Ensured(s0, now, replies), Reauthenticated(s0, now, replies);
      var ensured, authenticated := EnsureToken(now, At(replies, 0));
      calls := if authenticated then [TokenCall] else [];
      r, calls := CallApi(RequestTarget(baseUrl, endpoint, verb, kwargs), now, replies, ensured, calls, e, a);
    }
  }
}
