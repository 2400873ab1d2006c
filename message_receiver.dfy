/**
 * The receive side of build/lib/Whatsapp/message_receiver.py. The receiver
 * keeps one cursor, `last_message_id`, sent as `after` so that each fetch
 * asks only for newer messages. Every operation is one GET or POST; a failed
 * call degrades to an error dictionary instead of raising.
 */
module MessageReceiving {
  import opened Json
  import opened Http
  import opened Errors
  import Text

  const NotAMessageList: string := "messages[0].get: unexpected shape of 'messages'"
  const NotSized: string := "object of type 'messages' has no len()"

  /**
   * What an operation returns: the server's dictionary, or the dictionary the
   * code builds on a RequestException. For `receive_messages` that is
   * {"messages": [], "error": text} with text "timeout", "HTTP Error: ..." or
   * the exception's text; for `mark_messages_as_read` it is {"error": text}.
   * `ErrorReport(cause)` stands for the whole dictionary, so the empty
   * "messages" list of `receive_messages` is implied, not stored.
   */
  datatype Answer = Answered(data: map<string, Value>) | ErrorReport(cause: Cause)

  /** The query parameters of `receive_messages`. */
  function ReceiveQuery(apiKey: string, limit: int, cursor: Value, markAsRead: bool): (params: map<string, Value>)
    ensures "api_key" in params && params["api_key"] == Str(apiKey)
    ensures "limit" in params && params["limit"] == Int(limit)
    ensures ("after" in params) <==> Truthy(cursor)
    ensures "after" in params ==> params["after"] == cursor
    ensures ("mark_read" in params) <==> markAsRead
    ensures "mark_read" in params ==> params["mark_read"] == Str("true")
    ensures params.Keys <= {"api_key", "limit", "after", "mark_read"}
  {
    var base := map["api_key" := Str(apiKey), "limit" := Int(limit)];
    var withCursor := if Truthy(cursor) then base["after" := cursor] else base;
    if markAsRead then withCursor["mark_read" := Str("true")] else withCursor
  }

  /** Values `len()` accepts: a string, a list or an object. */
  predicate Sized(v: Value) {
    v.Str? || v.List? || v.Obj?
  }

  /** A batch whose first (newest) entry is an object, so that `messages[0].get('id')` succeeds. */
  predicate HeadIsObject(messages: Value) {
    messages.List? && |messages.items| > 0 && messages.items[0].Obj?
  }

  /**
   * The cursor after a successful fetch: the id of the first (newest)
   * message of a non-empty batch, the old cursor for an empty or absent
   * batch, and an error for a batch `len()` or `messages[0].get` rejects.
   */
  function NextCursor(cursor: Value, data: map<string, Value>): (r: Result<Value>)
    ensures var m := GetOr(data, "messages", List([]));
            && (!Sized(m) ==> r.Err? && r.error.TypeError?)
            && (Sized(m) && !Truthy(m) ==> r == Ok(cursor))
            && (HeadIsObject(m) ==> r == Ok(Get(m.items[0].fields, "id")))
            && (r.Ok? <==> Sized(m) && (Truthy(m) ==> HeadIsObject(m)))
  {
    var messages := GetOr(data, "messages", List([]));
    if !Sized(messages) then Err(TypeError(NotSized))
    else if !Truthy(messages) then Ok(cursor)
    else if HeadIsObject(messages) then Ok(Get(messages.items[0].fields, "id"))
    else Err(ShapeError(NotAMessageList))
  }

  /** A cursor taken from a batch is what the next fetch asks to continue after. */
  lemma CursorFeedsNextQuery(apiKey: string, limit: int, cursor: Value, data: map<string, Value>, markAsRead: bool)
    requires NextCursor(cursor, data).Ok?
    ensures var next := NextCursor(cursor, data).value;
            Truthy(next) ==> ReceiveQuery(apiKey, limit, next, markAsRead)["after"] == next
    ensures !Truthy(GetOr(data, "messages", List([]))) ==>
              ReceiveQuery(apiKey, limit, NextCursor(cursor, data).value, markAsRead) ==
              ReceiveQuery(apiKey, limit, cursor, markAsRead)
  {
  }

  /** The query parameters of `mark_messages_as_read`; None and [] both mean "all unread". */
  function MarkReadQuery(apiKey: string, messageIds: seq<string>): (params: map<string, Value>)
    ensures "api_key" in params && params["api_key"] == Str(apiKey)
    ensures ("message_ids" in params) <==> |messageIds| > 0
    ensures "message_ids" in params ==> params["message_ids"] == Str(Text.Join(messageIds, ","))
    ensures params.Keys <= {"api_key", "message_ids"}
  {
    var base := map["api_key" := Str(apiKey)];
    if |messageIds| > 0 then base["message_ids" := Str(Text.Join(messageIds, ","))] else base
  }

  /** The server can split the `message_ids` parameter back into the ids, when no id contains a comma. */
  lemma MarkedIdsRecoverable(apiKey: string, messageIds: seq<string>)
    requires |messageIds| > 0
    requires forall k :: 0 <= k < |messageIds| ==> ',' !in messageIds[k]
    ensures Text.Split(MarkReadQuery(apiKey, messageIds)["message_ids"].s, ',') == messageIds
  {
    Text.SplitJoin(messageIds, ',');
  }

  /**
   * An id that contains a comma cannot be told apart from two ids: the one
   * id a + "," + b and the two ids a, b are different lists that send the
   * same request.
   */
  lemma CommaInIdIsAmbiguous(apiKey: string, a: string, b: string)
    ensures [a + "," + b] != [a, b]
    ensures MarkReadQuery(apiKey, [a + "," + b]) == MarkReadQuery(apiKey, [a, b])
  {
    assert Text.Join([a, b], ",") == a + "," + Text.Join([b], ",");
  }

  class MessageReceiver {
    const username: string
    const token: Value
    const apiKey: string
    var lastMessageId: Value

    constructor (username: string, token: Value, apiKey: string)
      ensures this.username == username && this.token == token && this.apiKey == apiKey
      ensures lastMessageId == Null
    {
      this.username := username;
      this.token := token;
      this.apiKey := apiKey;
      lastMessageId := Null;
    }

    /** `receive_messages`: returns the query it sent and what it returned or raised. */
    method ReceiveMessages(reply: Reply, limit: int := 10, markAsRead: bool := false) returns (params: map<string, Value>, r: Result<Answer>)
      modifies this
      ensures params == ReceiveQuery(apiKey, limit, old(lastMessageId), markAsRead)
      ensures RaiseForStatus(reply).Some? ==>
                r == Ok(ErrorReport(RaiseForStatus(reply).value)) && lastMessageId == old(lastMessageId)
      ensures RaiseForStatus(reply).None? ==>
                match NextCursor(old(lastMessageId), reply.body)
                case Ok(next) => r == Ok(Answered(reply.body)) && lastMessageId == next
                case Err(e) => r == Err(e) && lastMessageId == old(lastMessageId)
    {
      params := map["api_key" := Str(apiKey), "limit" := Int(limit)];
      if Truthy(lastMessageId) {
        params := params["after" := lastMessageId];
      }
      if markAsRead {
        params := params["mark_read" := Str("true")];
      }
      var failure := RaiseForStatus(reply);
      if failure.Some? {
        return params, Ok(ErrorReport(failure.value));
      }
      var data := reply.body;
      var messages := GetOr(data, "messages", List([]));
      if !Sized(messages) {
        return params, Err(TypeError(NotSized));
      }
      if Truthy(messages) {
        if !HeadIsObject(messages) {
          return params, Err(ShapeError(NotAMessageList));
        }
        lastMessageId := Get(messages.items[0].fields, "id");
      }
      r := Ok(Answered(data));
    }

    /** `get_unread_count`: the reply's `count` (0 when absent), and 0 on any request failure. */
    method GetUnreadCount(reply: Reply) returns (params: map<string, Value>, count: Value)
      ensures params == map["api_key" := Str(apiKey)]
      ensures RaiseForStatus(reply).Some? ==> count == Int(0)
      ensures RaiseForStatus(reply).None? ==> count == GetOr(reply.body, "count", Int(0))
    {
      params := map["api_key" := Str(apiKey)];
      var failure := RaiseForStatus(reply);
      if failure.Some? {
        return params, Int(0);
      }
      count := GetOr(reply.body, "count", Int(0));
    }

    /**
     * `mark_messages_as_read`: returns the query it sent and the dictionary it
     * returned. The default None is the empty list here: both are falsy.
     */
    method MarkMessagesAsRead(reply: Reply, messageIds: seq<string> := []) returns (params: map<string, Value>, r: Answer)
      ensures params == MarkReadQuery(apiKey, messageIds)
      ensures RaiseForStatus(reply).Some? ==> r == ErrorReport(RaiseForStatus(reply).value)
      ensures RaiseForStatus(reply).None? ==> r == Answered(reply.body)
    {
      params := map["api_key" := Str(apiKey)];
      if |messageIds| > 0 {
        params := params["message_ids" := Str(Text.Join(messageIds, ","))];
      }
      var failure := RaiseForStatus(reply);
      if failure.Some? {
        return params, ErrorReport(failure.value);
      }
      r := Answered(reply.body);
    }
  }
}
