/**
 * The token cache of build/lib/Whatsapp/token_manager.py. The cached state is
 * the pair (token, expires_at); `generate_token` asks `/get-token` for a
 * fresh token, `check_token_status` asks `/check-token` what the server
 * holds, and `get_token_info` / `get_auth_headers` combine the two.
 *
 * Time is a whole number of seconds since 0001-01-01T00:00:00 (naive
 * `datetime.min`), passed in as `now`; each server reply is an input.
 * Each operation is specified by a function from the old cache and the
 * replies to a Step (the result, the new cache and the number of transport
 * calls made); the class TokenManager below runs the same operations step
 * by step on its fields and is proved to agree.
 */
module TokenManagement {
  import opened Wrappers
  import opened Json
  import opened Http
  import opened Errors

  /** The keys tried, in this order, for the token in a server reply. */
  const TokenAliases: seq<string> := ["token", "access_token", "auth_token", "key"]
  const DefaultExpiryMinutes: int := 60
  const TokenNotFound: string := "Token not found in API response"
  const InvalidTimestamp: string := "Invalid isoformat string"
  const NotAString: string := "fromisoformat: argument must be str"
  const NotANumber: string := "unsupported type for timedelta minutes component"
  const TimedeltaOverflow: string := "days must have magnitude <= 999999999"
  const DateOutOfRange: string := "date value out of range"

  /** The last second `datetime` can represent, 9999-12-31T23:59:59, on this clock. */
  const MaxInstant: int := 3652058 * 86400 + 86399

  /** An instant between `datetime.min` and `datetime.max`. */
  predicate InDatetimeRange(t: int) {
    0 <= t <= MaxInstant
  }

  /** `timedelta(minutes=m)` exists: its whole days have magnitude at most 999999999. */
  predicate MinutesInTimedeltaRange(m: int) {
    -999999999 * 1440 <= m < 1000000000 * 1440
  }

  /** The cached state: `token` (Null for None) and `expires_at` in seconds. */
  datatype Cache = Cache(token: Value, expiresAt: Option<int>)

  /** The outcome of one operation: what it returns or raises, the new cache, the transport calls made. */
  datatype Step<T> = Step(result: Result<T>, cache: Cache, calls: nat)

  /** The dictionary `generate_token` returns. */
  datatype Generated = Generated(token: Value, expiresInMinutes: Value, expiresAt: int)

  /** The dictionary `check_token_status` returns; `error` is present only when the request failed. */
  datatype Status = Status(hasToken: bool, token: Value, expiresInMinutes: int, expiresAt: Option<int>, error: Option<Cause>)

  /** The dictionary `get_token_info` returns. */
  datatype Info = Info(hasToken: bool, token: Value, expiresInMinutes: Value, expiresAt: Option<int>, isNewToken: bool)

  /** Index of the value `d[k0] or d[k1] or ...` evaluates to: the first truthy one, else the last. */
  function FirstTruthyIndex(body: map<string, Value>, keys: seq<string>): (i: nat)
    requires |keys| > 0
    ensures i < |keys|
    ensures forall j :: 0 <= j < i ==> !Truthy(Get(body, keys[j]))
    ensures i < |keys| - 1 ==> Truthy(Get(body, keys[i]))
    decreases |keys|
  {
    if |keys| == 1 || Truthy(Get(body, keys[0])) then 0
    else 1 + FirstTruthyIndex(body, keys[1..])
  }

  /**
   * `data.get("token") or data.get("access_token") or data.get("auth_token")
   * or data.get("key")`.
   */
  function ExtractToken(body: map<string, Value>): (token: Value)
    ensures Truthy(token) <==> exists j :: 0 <= j < |TokenAliases| && Truthy(Get(body, TokenAliases[j]))
    ensures forall j :: 0 <= j < |TokenAliases| && Truthy(Get(body, TokenAliases[j])) &&
                        (forall i :: 0 <= i < j ==> !Truthy(Get(body, TokenAliases[i]))) ==>
                        token == Get(body, TokenAliases[j])
    ensures !Truthy(token) ==> token == Get(body, "key")
  {
    var i := FirstTruthyIndex(body, TokenAliases);
    assert forall j :: 0 <= j < |TokenAliases| && Truthy(Get(body, TokenAliases[j])) ==> i <= j;
    Get(body, TokenAliases[i])
  }

  /** Whichever single alias a reply uses, a truthy value under it is the token. */
  lemma {:induction false} EachAliasAccepted(k: string, v: Value)
    requires k in TokenAliases && Truthy(v)
    ensures ExtractToken(map[k := v]) == v
  {
    var body := map[k := v];
    var j :| 0 <= j < |TokenAliases| && TokenAliases[j] == k;
    forall i | 0 <= i < j ensures !Truthy(Get(body, TokenAliases[i])) {
      assert TokenAliases[i] != k;
    }
  }

  /** `is_token_valid`: a truthy token with a known expiry that lies in the future. */
  function IsTokenValid(c: Cache, now: int): (valid: bool)
    ensures valid ==> Truthy(c.token) && c.expiresAt.Some?
    ensures Truthy(c.token) && c.expiresAt.Some? ==> (valid <==> now < c.expiresAt.value)
  {
    Truthy(c.token) && c.expiresAt.Some? && now < c.expiresAt.value
  }

  /** `int(seconds / 60)` when positive, else 0: the whole minutes in a span, with no minutes in a span already over. */
  function WholeMinutes(seconds: int): (m: nat)
    ensures seconds < 60 ==> m == 0
    ensures seconds >= 0 ==> m * 60 <= seconds < m * 60 + 60
  {
    if seconds <= 0 then 0 else seconds / 60
  }

  /** `get_minutes_until_expiry`. */
  function MinutesUntilExpiry(c: Cache, now: int): (m: Option<nat>)
    ensures m.None? <==> c.expiresAt.None?
    ensures m.Some? && now >= c.expiresAt.value ==> m.value == 0
    ensures m.Some? && now < c.expiresAt.value ==>
              m.value * 60 <= c.expiresAt.value - now < m.value * 60 + 60
  {
    match c.expiresAt
    case None => None
    case Some(t) => Some(WholeMinutes(t - now))
  }

  /** The `expires_in_minutes` value of a reply, 60 when absent; a value present, even null, is kept. */
  function ExpiryMinutesField(body: map<string, Value>): (v: Value)
    ensures "expires_in_minutes" !in body ==> v == Int(60)
    ensures "expires_in_minutes" in body ==> v == body["expires_in_minutes"]
  {
    GetOr(body, "expires_in_minutes", Int(DefaultExpiryMinutes))
  }

  /** The reply is one from which `generate_token` succeeds. */
  predicate TokenIssued(reply: Reply, now: int) {
    && RaiseForStatus(reply).None?
    && Truthy(ExtractToken(reply.body))
    && AsNumber(ExpiryMinutesField(reply.body)).Some?
    && MinutesInTimedeltaRange(AsNumber(ExpiryMinutesField(reply.body)).value)
    && InDatetimeRange(now + 60 * AsNumber(ExpiryMinutesField(reply.body)).value)
  }

  /** `generate_token`. */
  function GenerateSpec(c: Cache, now: int, reply: Reply): (o: Step<Generated>)
    ensures o.calls == 1
    ensures RaiseForStatus(reply).Some? ==>
              o == Step(Err(RequestFailed(RaiseForStatus(reply).value)), c, 1)
    ensures RaiseForStatus(reply).None? && !Truthy(ExtractToken(reply.body)) ==>
              o == Step(Err(ValueError(TokenNotFound)), c, 1)
    ensures o.result.Ok? <==> TokenIssued(reply, now)
    ensures o.result.Ok? ==>
              && Truthy(o.cache.token)
              && o.cache.token == o.result.value.token == ExtractToken(reply.body)
              && o.result.value.expiresInMinutes == ExpiryMinutesField(reply.body)
              && o.cache.expiresAt == Some(o.result.value.expiresAt)
              && o.result.value.expiresAt == now + 60 * AsNumber(o.result.value.expiresInMinutes).value
              && InDatetimeRange(o.result.value.expiresAt)
    ensures o.result.Ok? && "expires_in_minutes" !in reply.body ==>
              o.cache.expiresAt == Some(now + 60 * DefaultExpiryMinutes)
    ensures RaiseForStatus(reply).None? && Truthy(ExtractToken(reply.body)) && AsNumber(ExpiryMinutesField(reply.body)).None? ==>
              o == Step(Err(TypeError(NotANumber)), c.(token := ExtractToken(reply.body)), 1)
    ensures o.result.Err? && o.result.error.OverflowError? <==>
              && RaiseForStatus(reply).None? && Truthy(ExtractToken(reply.body))
              && AsNumber(ExpiryMinutesField(reply.body)).Some? && !TokenIssued(reply, now)
    ensures o.result.Err? && !(o.result.error.TypeError? || o.result.error.OverflowError?) ==> o.cache == c
    ensures o.result.Err? && (o.result.error.TypeError? || o.result.error.OverflowError?) ==>
              reply.Response? && o.cache == c.(token := ExtractToken(reply.body))
  {
    match RaiseForStatus(reply)
    case Some(cause) => Step(Err(RequestFailed(cause)), c, 1)
    case None =>
      var token := ExtractToken(reply.body);
      if !Truthy(token) then Step(Err(ValueError(TokenNotFound)), c, 1)
      else
        var minutes := ExpiryMinutesField(reply.body);
        match AsNumber(minutes)
        case None => Step(Err(TypeError(NotANumber)), c.(token := token), 1)
        case Some(m) =>
          var at := now + 60 * m;
          if !MinutesInTimedeltaRange(m) then Step(Err(OverflowError(TimedeltaOverflow)), c.(token := token), 1)
          else if !InDatetimeRange(at) then Step(Err(OverflowError(DateOutOfRange)), c.(token := token), 1)
          else Step(Ok(Generated(token, minutes, at)), Cache(token, Some(at)), 1)
  }

  /** A freshly generated token with a positive lifetime is valid until it expires. */
  lemma GeneratedTokenValidUntilExpiry(c: Cache, now: int, reply: Reply, t: int)
    requires GenerateSpec(c, now, reply).result.Ok?
    requires now <= t < GenerateSpec(c, now, reply).result.value.expiresAt
    ensures IsTokenValid(GenerateSpec(c, now, reply).cache, t)
  {
  }

  /**
   * `datetime.fromisoformat(s) if s else None`, with the parser supplied by
   * the caller: no expiry for a falsy value, TypeError for a truthy value that
   * is not a string, ValueError for a string the parser rejects.
   */
  function ParseExpiry(raw: Value, parseTime: string -> Option<int>): (r: Result<Option<int>>)
    ensures r == Ok(None) <==> !Truthy(raw)
    ensures r == Err(TypeError(NotAString)) <==> Truthy(raw) && !raw.Str?
    ensures r == Err(ValueError(InvalidTimestamp)) <==> Truthy(raw) && raw.Str? && parseTime(raw.s).None?
    ensures r.Ok? && r.value.Some? <==> Truthy(raw) && raw.Str? && parseTime(raw.s).Some?
    ensures r.Ok? && r.value.Some? ==> parseTime(raw.s) == r.value
  {
    if !Truthy(raw) then Ok(None)
    else match raw
      case Str(s) => (match parseTime(s) case Some(t) => Ok(Some(t)) case None => Err(ValueError(InvalidTimestamp)))
      case _ => Err(TypeError(NotAString))
  }

  /** The server's answer to `/check-token` says a token exists. */
  predicate ServerHasToken(reply: Reply) {
    RaiseForStatus(reply).None? && Truthy(Get(reply.body, "has_token"))
  }

  /** `check_token_status`. */
  function CheckStatusSpec(c: Cache, now: int, parseTime: string -> Option<int>, reply: Reply): (o: Step<Status>)
    ensures o.calls == 1
    ensures RaiseForStatus(reply).Some? ==>
              o.cache == c && o.result == Ok(Status(false, Null, 0, None, RaiseForStatus(reply)))
    ensures RaiseForStatus(reply).None? && !ServerHasToken(reply) ==>
              o.cache == Cache(Null, None) && o.result == Ok(Status(false, Null, 0, None, None))
    ensures ServerHasToken(reply) ==>
              match ParseExpiry(Get(reply.body, "expires_at"), parseTime)
              case Err(e) => o == Step(Err(e), c, 1)
              case Ok(None) =>
                o.cache == c && o.result == Ok(Status(true, ExtractToken(reply.body), 0, None, None))
              case Ok(Some(t)) =>
                && o.cache == Cache(ExtractToken(reply.body), Some(t))
                && o.result == Ok(Status(true, o.cache.token, MinutesUntilExpiry(o.cache, now).value, Some(t), None))
  {
    match RaiseForStatus(reply)
    case Some(cause) => Step(Ok(Status(false, Null, 0, None, Some(cause))), c, 1)
    case None =>
      if Truthy(Get(reply.body, "has_token")) then
        match ParseExpiry(Get(reply.body, "expires_at"), parseTime)
        case Err(e) => Step(Err(e), c, 1)
        case Ok(expiresAt) =>
          var token := ExtractToken(reply.body);
          match expiresAt
          case Some(t) =>
            Step(Ok(Status(true, token, WholeMinutes(t - now), Some(t), None)), Cache(token, Some(t)), 1)
          case None =>
            Step(Ok(Status(true, token, 0, None, None)), c, 1)
      else
        Step(Ok(Status(false, Null, 0, None, None)), Cache(Null, None), 1)
  }

  /** After the server reports no token, the cleared cache is invalid at every instant. */
  lemma ClearedCacheIsInvalid(c: Cache, now: int, parseTime: string -> Option<int>, reply: Reply, t: int)
    requires RaiseForStatus(reply).None? && !ServerHasToken(reply)
    ensures !IsTokenValid(CheckStatusSpec(c, now, parseTime, reply).cache, t)
    ensures MinutesUntilExpiry(CheckStatusSpec(c, now, parseTime, reply).cache, t).None?
  {
  }

  /** The status says the server's token can be used: it exists and has whole minutes left. */
  predicate ServerTokenUsable(s: Step<Status>) {
    s.result.Ok? && s.result.value.hasToken && s.result.value.expiresInMinutes > 0
  }

  /** `get_token_info`. */
  function GetTokenInfoSpec(c: Cache, now: int, parseTime: string -> Option<int>, statusReply: Reply, tokenReply: Reply): (o: Step<Info>)
    ensures var s := CheckStatusSpec(c, now, parseTime, statusReply);
            && (o.calls == 1 <==> s.result.Err? || ServerTokenUsable(s))
            && (o.calls == 2 <==> !(s.result.Err? || ServerTokenUsable(s)))
            && (s.result.Err? ==> o == Step(Err(s.result.error), c, 1))
            && (ServerTokenUsable(s) ==>
                  o == Step(Ok(Info(true, s.result.value.token, Int(s.result.value.expiresInMinutes),
                                    s.result.value.expiresAt, false)), s.cache, 1))
            && (o.calls == 2 ==>
                  var g := GenerateSpec(s.cache, now, tokenReply);
                  && o.cache == g.cache
                  && (o.result.Err? <==> g.result.Err?)
                  && (g.result.Err? ==> o.result.error == g.result.error))
    ensures o.result.Ok? ==> (o.result.value.isNewToken <==> o.calls == 2)
    ensures o.result.Ok? && o.result.value.isNewToken ==>
              && !o.result.value.hasToken
              && Truthy(o.cache.token)
              && o.result.value.token == o.cache.token
              && o.result.value.expiresAt == o.cache.expiresAt
              && o.result.value.expiresInMinutes == ExpiryMinutesField(tokenReply.body)
    ensures o.result.Ok? && !o.result.value.isNewToken ==>
              o.cache.expiresAt.Some? && o.cache.expiresAt.value - now >= 60
  {
    var s := CheckStatusSpec(c, now, parseTime, statusReply);
    match s.result
    case Err(e) => Step(Err(e), s.cache, 1)
    case Ok(status) =>
      if status.hasToken && status.expiresInMinutes > 0 then
        Step(Ok(Info(true, status.token, Int(status.expiresInMinutes), status.expiresAt, false)), s.cache, 1)
      else
        var g := GenerateSpec(s.cache, now, tokenReply);
        match g.result
        case Err(e) => Step(Err(e), g.cache, 2)
        case Ok(gen) =>
          Step(Ok(Info(false, gen.token, gen.expiresInMinutes, Some(gen.expiresAt), true)), g.cache, 2)
  }

  /** The headers of an authenticated call, a bearer credential in the sense of section 2.1 of RFC 6750. */
  function AuthHeaders(token: Value): (h: map<string, string>)
    ensures h.Keys == {"Authorization", "Content-Type"}
    ensures h["Content-Type"] == "application/json"
    ensures |h["Authorization"]| >= 7 && h["Authorization"][..7] == "Bearer "
    ensures h["Authorization"][7..] == PyStr(token)
    ensures token.Str? ==> h["Authorization"] == "Bearer " + token.s
  {
    map["Authorization" := "Bearer " + PyStr(token), "Content-Type" := "application/json"]
  }

  /** `get_auth_headers`. */
  function AuthHeadersSpec(c: Cache, now: int, parseTime: string -> Option<int>, statusReply: Reply, tokenReply: Reply): (o: Step<map<string, string>>)
    ensures o.calls == 0 <==> IsTokenValid(c, now)
    ensures o.calls == 0 ==> o == Step(Ok(AuthHeaders(c.token)), c, 0)
    ensures o.calls > 0 ==>
              var i := GetTokenInfoSpec(c, now, parseTime, statusReply, tokenReply);
              && o.cache == i.cache && o.calls == i.calls
              && (o.result.Err? <==> i.result.Err?)
              && (i.result.Err? ==> o.result.error == i.result.error)
    ensures o.result.Ok? ==>
              o.result.value == AuthHeaders(o.cache.token) &&
              o.result.value["Authorization"] == "Bearer " + PyStr(o.cache.token)
  {
    if IsTokenValid(c, now) then Step(Ok(AuthHeaders(c.token)), c, 0)
    else
      var i := GetTokenInfoSpec(c, now, parseTime, statusReply, tokenReply);
      match i.result
      case Err(e) => Step(Err(e), i.cache, i.calls)
      case Ok(_) => Step(Ok(AuthHeaders(i.cache.token)), i.cache, i.calls)
  }

  /**
   * Once `get_auth_headers` has left a valid token in the cache, a second call
   * at the same instant makes no request and sends the same headers.
   */
  lemma HeadersStableWhileValid(c: Cache, now: int, parseTime: string -> Option<int>,
                                s1: Reply, t1: Reply, s2: Reply, t2: Reply)
    requires AuthHeadersSpec(c, now, parseTime, s1, t1).result.Ok?
    requires IsTokenValid(AuthHeadersSpec(c, now, parseTime, s1, t1).cache, now)
    ensures var first := AuthHeadersSpec(c, now, parseTime, s1, t1);
            var second := AuthHeadersSpec(first.cache, now, parseTime, s2, t2);
            second.calls == 0 && second.cache == first.cache && second.result == first.result
  {
  }

  class TokenManager {
    const username: string
    const password: string
    const apiKey: string
    /** `datetime.fromisoformat`, as a partial map from text to seconds. */
    const parseTime: string -> Option<int>
    var token: Value
    var expiresAt: Option<int>

    function State(): Cache
      reads this
    {
      Cache(token, expiresAt)
    }

    constructor (username: string, password: string, apiKey: string, parseTime: string -> Option<int>)
      ensures this.username == username && this.password == password && this.apiKey == apiKey
      ensures this.parseTime == parseTime
      ensures State() == Cache(Null, None)
    {
      this.username := username;
      this.password := password;
      this.apiKey := apiKey;
      this.parseTime := parseTime;
      token := Null;
      expiresAt := None;
    }

    method GenerateToken(now: int, reply: Reply) returns (r: Result<Generated>)
      modifies this
      ensures var o := GenerateSpec(old(State()), now, reply);
              r == o.result && State() == o.cache
    {
      var failure := RaiseForStatus(reply);
      if failure.Some? {
        return Err(RequestFailed(failure.value));
      }
      var data := reply.body;
      var t := ExtractToken(data);
      if !Truthy(t) {
        return Err(ValueError(TokenNotFound));
      }
      token := t;
      var minutes := ExpiryMinutesField(data);
      var m := AsNumber(minutes);
      if m.None? {
        return Err(TypeError(NotANumber));
      }
      if !MinutesInTimedeltaRange(m.value) {
        return Err(OverflowError(TimedeltaOverflow));
      }
      if !InDatetimeRange(now + 60 * m.value) {
        return Err(OverflowError(DateOutOfRange));
      }
      expiresAt := Some(now + 60 * m.value);
      r := Ok(Generated(token, minutes, now + 60 * m.value));
    }

    method CheckTokenStatus(now: int, reply: Reply) returns (r: Result<Status>)
      modifies this
      ensures var o := CheckStatusSpec(old(State()), now, parseTime, reply);
              r == o.result && State() == o.cache
    {
      var failure := RaiseForStatus(reply);
      if failure.Some? {
        return Ok(Status(false, Null, 0, None, failure));
      }
      var data := reply.body;
      if Truthy(Get(data, "has_token")) {
        var parsed := ParseExpiry(Get(data, "expires_at"), parseTime);
        if parsed.Err? {
          return Err(parsed.error);
        }
        var t := ExtractToken(data);
        if parsed.value.Some? {
          var at := parsed.value.value;
          var minutes := WholeMinutes(at - now);
          token := t;
          expiresAt := Some(at);
          r := Ok(Status(true, token, minutes, Some(at), None));
        } else {
          r := Ok(Status(true, t, 0, None, None));
        }
      } else {
        token := Null;
        expiresAt := None;
        r := Ok(Status(false, Null, 0, None, None));
      }
    }

    method GetTokenInfo(now: int, statusReply: Reply, tokenReply: Reply) returns (r: Result<Info>, calls: nat)
      modifies this
      ensures var o := GetTokenInfoSpec(old(State()), now, parseTime, statusReply, tokenReply);
              r == o.result && State() == o.cache && calls == o.calls
    {
      var status := CheckTokenStatus(now, statusReply);
      calls := 1;
      if status.Err? {
        return Err(status.error), calls;
      }
      var s := status.value;
      if s.hasToken && s.expiresInMinutes > 0 {
        return Ok(Info(true, s.token, Int(s.expiresInMinutes), s.expiresAt, false)), calls;
      }
      var generated := GenerateToken(now, tokenReply);
      calls := 2;
      if generated.Err? {
        return Err(generated.error), calls;
      }
      var g := generated.value;
      r := Ok(Info(false, g.token, g.expiresInMinutes, Some(g.expiresAt), true));
    }

    method GetAuthHeaders(now: int, statusReply: Reply, tokenReply: Reply) returns (r: Result<map<string, string>>, calls: nat)
      modifies this
      ensures var o := AuthHeadersSpec(old(State()), now, parseTime, statusReply, tokenReply);
              r == o.result && State() == o.cache && calls == o.calls
    {
      calls := 0;
      if !IsTokenValid(State(), now) {
        var info;
        info, calls := GetTokenInfo(now, statusReply, tokenReply);
        if info.Err? {
          return Err(info.error), calls;
        }
      }
      r := Ok(AuthHeaders(token));
    }
  }
}
