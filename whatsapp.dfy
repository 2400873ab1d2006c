/**
 * The facade of Whatsapp/whatsapp.py: a `WhatsApp` object owns a small token
 * manager and creates its message sender only once a token has been
 * generated; sending before that is refused.
 */
module Facade {
  import opened Wrappers
  import opened Json
  import opened Http
  import opened Errors
  import Text

  const TokenNotGenerated: string := "Token not generated. Call generate_token() first."
  const NotSet: string := "not set"

  /** The sender is an immutable record of the credentials it authenticates with. */
  datatype MessageSender = MessageSender(username: string, token: Value, apiKey: string)

  /** What the facade holds: its own token copy and, once created, the sender. */
  datatype FacadeState = FacadeState(managerToken: Value, token: Value, sender: Option<MessageSender>)

  /** The state of a freshly constructed facade. */
  const Initial: FacadeState := FacadeState(Null, Null, None)

  /** A POST the facade issues: its JSON payload and, for /send, the basic-auth pair. */
  datatype Post = Post(payload: map<string, Value>, auth: Option<(string, Value)>)

  /** The payload of the nested `TokenManager.generate_token`. */
  function TokenPayload(username: string, password: string, apiKey: string): (p: map<string, Value>)
    ensures p.Keys == {"username", "password", "api_key"}
    ensures p["username"] == Str(username) && p["password"] == Str(password) && p["api_key"] == Str(apiKey)
  {
    map["username" := Str(username), "password" := Str(password), "api_key" := Str(apiKey)]
  }

  /** The payload of `MessageSender.send_message`. */
  function SendPayload(to: string, message: string, apiKey: string): (p: map<string, Value>)
    ensures p.Keys == {"to", "message", "api_key"}
    ensures p["to"] == Str(to) && p["message"] == Str(message) && p["api_key"] == Str(apiKey)
  {
    map["to" := Str(to), "message" := Str(message), "api_key" := Str(apiKey)]
  }

  /**
   * `WhatsApp.generate_token`: on a request failure the exception propagates
   * and nothing changes; otherwise the reply's "token" (None when absent) is
   * stored in both objects and a sender is created with it.
   */
  function GenerateSpec(st: FacadeState, username: string, apiKey: string, reply: Reply): (o: (Result<Value>, FacadeState))
    ensures RaiseForStatus(reply).Some? <==> o.0.Err?
    ensures o.0.Err? ==> o.0.error == RequestFailed(RaiseForStatus(reply).value) && o.1 == st
    ensures o.0.Ok? ==>
              && o.0.value == Get(reply.body, "token")
              && o.1.managerToken == o.1.token == o.0.value
              && o.1.sender == Some(MessageSender(username, o.0.value, apiKey))
  {
    match RaiseForStatus(reply)
    case Some(cause) => (Err(RequestFailed(cause)), st)
    case None =>
      var token := Get(reply.body, "token");
      (Ok(token), FacadeState(token, token, Some(MessageSender(username, token, apiKey))))
  }

  /**
   * `WhatsApp.send_message`: without a sender, a ValueError and no request;
   * otherwise one POST with the sender's credentials, whose failure
   * propagates and whose JSON answer is returned.
   */
  function SendSpec(st: FacadeState, to: string, message: string, reply: Reply): (o: (Result<Value>, Option<Post>))
    ensures st.sender.None? ==> o.0 == Err(ValueError(TokenNotGenerated)) && o.1.None?
    ensures st.sender.Some? ==>
              && o.1 == Some(Post(SendPayload(to, message, st.sender.value.apiKey),
                                  Some((st.sender.value.username, st.sender.value.token))))
              && (o.0.Err? <==> RaiseForStatus(reply).Some?)
              && (o.0.Err? ==> o.0.error == RequestFailed(RaiseForStatus(reply).value))
              && (o.0.Ok? ==> o.0.value == Obj(reply.body))
  {
    match st.sender
    case None => (Err(ValueError(TokenNotGenerated)), None)
    case Some(sender) =>
      var post := Post(SendPayload(to, message, sender.apiKey), Some((sender.username, sender.token)));
      match RaiseForStatus(reply)
      case Some(cause) => (Err(RequestFailed(cause)), Some(post))
      case None => (Ok(Obj(reply.body)), Some(post))
  }

  /** A fresh facade refuses to send whatever the reply would have been. */
  lemma SendBeforeGenerateRefused(to: string, message: string, reply: Reply)
    ensures SendSpec(Initial, to, message, reply) == (Err(ValueError(TokenNotGenerated)), None)
  {
  }

  /**
   * After a successful generation the gate is open, even when the reply
   * carried no token: the sender then authenticates with None.
   */
  lemma SendAfterGenerateNotRefused(st: FacadeState, username: string, apiKey: string, genReply: Reply,
                                    to: string, message: string, reply: Reply)
    requires GenerateSpec(st, username, apiKey, genReply).0.Ok?
    ensures var after := GenerateSpec(st, username, apiKey, genReply).1;
            && SendSpec(after, to, message, reply).0 != Err(ValueError(TokenNotGenerated))
            && SendSpec(after, to, message, reply).1 ==
                 Some(Post(SendPayload(to, message, apiKey), Some((username, Get(genReply.body, "token")))))
  {
  }

  /** A failed generation leaves a closed gate closed and an open one open. */
  lemma FailedGenerateKeepsGate(st: FacadeState, username: string, apiKey: string, genReply: Reply)
    requires RaiseForStatus(genReply).Some?
    ensures GenerateSpec(st, username, apiKey, genReply).1.sender == st.sender
  {
  }

  /** The token as `__str__` shows it. */
  function Display(token: Value): (d: string)
    ensures Truthy(token) ==> d == PyStr(token)
    ensures !Truthy(token) ==> d == NotSet
  {
    if Truthy(token) then PyStr(token) else NotSet
  }

  /** The two lines of `__str__`. */
  function Describe(username: string, token: Value): (r: string)
    ensures |r| > |"username=" + username|
    ensures r[..|"username=" + username|] == "username=" + username
  {
    Text.Join(["username=" + username, "token=" + Display(token)], "\n")
  }

  /** When neither part contains a newline, the description splits back into its two lines. */
  lemma {:induction false} DescribeLines(username: string, token: Value)
    requires '\n' !in username && '\n' !in Display(token)
    ensures Text.Split(Describe(username, token), '\n') == ["username=" + username, "token=" + Display(token)]
  {
    var parts := ["username=" + username, "token=" + Display(token)];
    Text.SplitJoin(parts, '\n');
  }

  /** `WhatsApp.TokenManager`, the nested manager that only remembers the last token. */
  class WhatsAppTokenManager {
    const username: string
    const password: string
    const apiKey: string
    var token: Value

    constructor (username: string, password: string, apiKey: string)
      ensures this.username == username && this.password == password && this.apiKey == apiKey
      ensures token == Null
    {
      this.username := username;
      this.password := password;
      this.apiKey := apiKey;
      token := Null;
    }

    /** `generate_token`: returns the payload it posted and the token or the re-raised failure. */
    method GenerateToken(reply: Reply) returns (payload: map<string, Value>, r: Result<Value>)
      modifies this
      ensures payload == TokenPayload(username, password, apiKey)
      ensures RaiseForStatus(reply).Some? ==>
                r == Err(RequestFailed(RaiseForStatus(reply).value)) && token == old(token)
      ensures RaiseForStatus(reply).None? ==> r == Ok(Get(reply.body, "token")) && token == r.value
    {
      payload := map["username" := Str(username), "password" := Str(password), "api_key" := Str(apiKey)];
      var failure := RaiseForStatus(reply);
      if failure.Some? {
        return payload, Err(RequestFailed(failure.value));
      }
      token := Get(reply.body, "token");
      r := Ok(token);
    }
  }

  class WhatsApp {
    const username: string
    const password: string
    const apiKey: string
    const tokenManager: WhatsAppTokenManager
    var messageSender: Option<MessageSender>
    var token: Value

    function State(): FacadeState
      reads this, tokenManager
    {
      FacadeState(tokenManager.token, token, messageSender)
    }

    constructor (username: string, password: string, apiKey: string)
      ensures this.username == username && this.password == password && this.apiKey == apiKey
      ensures fresh(tokenManager)
      ensures tokenManager.username == username && tokenManager.password == password && tokenManager.apiKey == apiKey
      ensures State() == Initial
    {
      this.username := username;
      this.password := password;
      this.apiKey := apiKey;
      tokenManager := new WhatsAppTokenManager(username, password, apiKey);
      messageSender := None;
      token := Null;
    }

    /** `generate_token`: the nested manager's call, then the sender is (re)created. */
    method GenerateToken(reply: Reply) returns (r: Result<()>)
      modifies this, tokenManager
      ensures var o := GenerateSpec(old(State()), username, apiKey, reply);
              State() == o.1 && (r.Ok? <==> o.0.Ok?) && (r.Err? ==> r.error == o.0.error)
    {
      var _, t := tokenManager.GenerateToken(reply);
      if t.Err? {
        return Err(t.error);
      }
      token := t.value;
      messageSender := Some(MessageSender(username, token, apiKey));
      r := Ok(());
    }

    /** `send_message`: returns the POST it issued, if any, and the answer or the failure. */
    method SendMessage(to: string, message: string, reply: Reply) returns (sent: Option<Post>, r: Result<Value>)
      ensures (r, sent) == SendSpec(State(), to, message, reply)
    {
      if messageSender.None? {
        return None, Err(ValueError(TokenNotGenerated));
      }
      var sender := messageSender.value;
      sent := Some(Post(map["to" := Str(to), "message" := Str(message), "api_key" := Str(sender.apiKey)],
                        Some((sender.username, sender.token))));
      var failure := RaiseForStatus(reply);
      if failure.Some? {
        return sent, Err(RequestFailed(failure.value));
      }
      r := Ok(Obj(reply.body));
    }

    /** `__str__`. */
    function ToString(): (s: string)
      reads this
      ensures s == Describe(username, token)
    {
      var line1, line2 := "username=" + username, "token=" + Display(token);
      assert Text.Join([line1, line2], "\n") == line1 + "\n" + line2;
      "username=" + username + "\ntoken=" + Display(token)
    }
  }
}
