/** The JSON-RPC 2.0 side of a bridge: single messages and batches forwarded to the client's server. */
module JsonRpc {
  import opened Wrappers
  import opened Text

  datatype Json =
    | Null
    | Bool(b: bool)
    | Number(n: int)
    | String(s: string)
    | Array(items: seq<Json>)
    | Object(fields: map<string, Json>)

  type Params = Option<map<string, Json>>

  /** A message sent on: a request keeps its id for the response, a notification has none. */
  datatype Forwarded = Forwarded(id: Option<Json>, name: string, params: Params)

  /** What a message is taken for. */
  datatype Meaning =
    | NotObject
    | NoMethod(id: Option<Json>)
    | BadParams(id: Option<Json>)
    | Call(forwarded: Forwarded)

  const INVALID_REQUEST := -32600
  const INVALID_PARAMS := -32602

  function Field(fields: map<string, Json>, name: string): Option<Json> {
    if name in fields then Some(fields[name]) else None
  }

  /** Absent and null parameters are none; anything but an object is refused. */
  function McpParams(params: Option<Json>): Option<Params> {
    match params
    case None => Some(None)
    case Some(Null) => Some(None)
    case Some(Object(fields)) => Some(Some(fields))
    case _ => None
  }

  function MeaningOf(message: Json): Meaning {
    match message
    case Object(fields) =>
      (match (Field(fields, "method"), McpParams(Field(fields, "params")))
       case (Some(String(name)), Some(params)) => Call(Forwarded(Field(fields, "id"), name, params))
       case (Some(String(_)), None) => BadParams(Field(fields, "id"))
       case _ => NoMethod(Field(fields, "id")))
    case _ => NotObject
  }

  function OrNull(id: Option<Json>): Json {
    if id.Some? then id.value else Null
  }

  function ErrorResponse(id: Option<Json>, code: int, message: string): Json {
    Object(map["jsonrpc" := String("2.0"), "id" := OrNull(id),
               "error" := Object(map["code" := Number(code), "message" := String(message)])])
  }

  /** The client's server answers a request with a result or an error. */
  function ReplyResponse(id: Json, reply: Result<Json, Json>): Json {
    match reply
    case Ok(result) => Object(map["jsonrpc" := String("2.0"), "id" := id, "result" := result])
    case Err(error) => Object(map["jsonrpc" := String("2.0"), "id" := id, "error" := error])
  }

  function Response(meaning: Meaning, reply: Result<Json, Json>): Option<Json> {
    match meaning
    case NotObject => Some(ErrorResponse(None, INVALID_REQUEST, "JSON-RPC message must be an object"))
    case NoMethod(id) => Some(ErrorResponse(id, INVALID_REQUEST, "JSON-RPC message method must be a string"))
    case BadParams(id) => Some(ErrorResponse(id, INVALID_PARAMS, "MCP-over-ACP only supports object params"))
    case Call(f) => if f.id.Some? then Some(ReplyResponse(f.id.value, reply)) else None
  }

  /** The messages a run of items sends on, in order. */
  function Forwards(items: seq<Json>): seq<Forwarded> {
    if items == [] then []
    else
      var last := MeaningOf(items[|items| - 1]);
      Forwards(items[..|items| - 1]) + if last.Call? then [last.forwarded] else []
  }

  /** The responses to a run of items; the n-th message sent on gets the n-th reply. */
  function Responses(items: seq<Json>, sent: nat, reply: nat -> Result<Json, Json>): seq<Json> {
    if items == [] then []
    else
      var init := items[..|items| - 1];
      var r := Response(MeaningOf(items[|items| - 1]), reply(sent + |Forwards(init)|));
      Responses(init, sent, reply) + if r.Some? then [r.value] else []
  }

  function EmptyBatch(): Json {
    ErrorResponse(None, INVALID_REQUEST, "JSON-RPC batch must not be empty")
  }

  function PayloadResponse(payload: Json, sent: nat, reply: nat -> Result<Json, Json>): Option<Json> {
    if payload.Array? then
      if payload.items == [] then Some(EmptyBatch())
      else
        var responses := Responses(payload.items, sent, reply);
        if responses == [] then None else Some(Array(responses))
    else Response(MeaningOf(payload), reply(sent))
  }

  function PayloadForwards(payload: Json): seq<Forwarded> {
    Forwards(if payload.Array? then payload.items else [payload])
  }

  /** What was sent on and answered once the given items are handled. */
  ghost predicate Progress(
      before: seq<Forwarded>, items: seq<Json>, sent: seq<Forwarded>, responses: seq<Json>, reply: nat -> Result<Json, Json>)
  {
    sent == before + Forwards(items) && responses == Responses(items, |before|, reply)
  }

  class AcpMcpBridge {
    const reply: nat -> Result<Json, Json>
    var sent: seq<Forwarded>

    constructor (reply: nat -> Result<Json, Json>)
      ensures this.reply == reply && sent == []
    {
      this.reply, sent := reply, [];
    }

    /** Sends a request or notification on; only the request waits for its reply. */
    method Forward(f: Forwarded) returns (r: Option<Json>)
      modifies this
      ensures sent == old(sent) + [f]
      ensures r == Response(Call(f), reply(|old(sent)|))
    {
      sent := sent + [f];
      r := if f.id.Some? then Some(ReplyResponse(f.id.value, reply(|sent| - 1))) else None;
    }

    method HandleMessage(message: Json) returns (r: Option<Json>)
      modifies this
      ensures sent == old(sent) + Forwards([message])
      ensures r == Response(MeaningOf(message), reply(|old(sent)|))
    {
      assert [message][..0] == [];
      if !message.Object? {
        return Some(ErrorResponse(None, INVALID_REQUEST, "JSON-RPC message must be an object"));
      }
      var id, name := Field(message.fields, "id"), Field(message.fields, "method");
      if name.None? || !name.value.String? {
        return Some(ErrorResponse(id, INVALID_REQUEST, "JSON-RPC message method must be a string"));
      }
      var params := McpParams(Field(message.fields, "params"));
      if params.None? {
        return Some(ErrorResponse(id, INVALID_PARAMS, "MCP-over-ACP only supports object params"));
      }
      r := Forward(Forwarded(id, name.value.s, params.value));
    }

    method HandleItems(items: seq<Json>) returns (responses: seq<Json>)
      modifies this
      ensures sent == old(sent) + Forwards(items)
      ensures responses == Responses(items, |old(sent)|, reply)
    {
      responses := [];
      ghost var before := sent;
      for i := 0 to |items|
        invariant Progress(before, items[..i], sent, responses, reply)
      {
        OneMoreItem(before, items[..i], items[i], sent, responses, reply);
        assert items[..i + 1] == items[..i] + [items[i]];
        var response := HandleMessage(items[i]);
        if response.Some? {
          responses := responses + [response.value];
        }
      }
      assert items[..|items|] == items;
    }

    method HandlePayload(payload: Json) returns (r: Option<Json>)
      modifies this
      ensures sent == old(sent) + PayloadForwards(payload)
      ensures r == PayloadResponse(payload, |old(sent)|, reply)
    {
      if !payload.Array? {
        r := HandleMessage(payload);
        return;
      }
      if payload.items == [] {
        return Some(EmptyBatch());
      }
      var responses := HandleItems(payload.items);
      r := if responses == [] then None else Some(Array(responses));
    }
  }

  lemma OneMoreItem(
      before: seq<Forwarded>, items: seq<Json>, item: Json, sent: seq<Forwarded>, responses: seq<Json>,
      reply: nat -> Result<Json, Json>)
    requires Progress(before, items, sent, responses, reply)
    ensures var r := Response(MeaningOf(item), reply(|sent|));
            Progress(before, items + [item], sent + Forwards([item]), responses + (if r.Some? then [r.value] else []), reply)
  {
    assert (items + [item])[..|items|] == items;
    assert [item][..0] == [];
    AppendAssoc(before, Forwards(items), Forwards([item]));
  }

  // ---------------------------------------------------------------------------------------------
  // Section 6 of the JSON-RPC 2.0 specification

  /** A request without an id, with a method name and, if any, structured parameters by name. */
  predicate IsNotification(item: Json) {
    && item.Object? && "id" !in item.fields
    && "method" in item.fields && item.fields["method"].String?
    && ("params" in item.fields ==> item.fields["params"].Object? || item.fields["params"].Null?)
  }

  /** A response: its version, the id, and either a result or an error. */
  predicate IsResponse(r: Json, id: Json) {
    && r.Object?
    && r.fields.Keys <= {"jsonrpc", "id", "result", "error"}
    && Field(r.fields, "jsonrpc") == Some(String("2.0"))
    && Field(r.fields, "id") == Some(id)
    && ("result" in r.fields <==> "error" !in r.fields)
  }

  /** The id a response must carry: the item's own, or null where none can be found. */
  function IdOf(item: Json): Json {
    if item.Object? then OrNull(Field(item.fields, "id")) else Null
  }

  lemma KeysDiffer()
    ensures "jsonrpc" != "id" && "jsonrpc" != "result" && "jsonrpc" != "error"
    ensures "id" != "result" && "id" != "error" && "result" != "error"
  {
    assert "id"[0] == 'i' && "jsonrpc"[0] == 'j' && "result"[0] == 'r' && "error"[0] == 'e';
  }

  lemma RepliesAreResponses(id: Json, reply: Result<Json, Json>)
    ensures IsResponse(ReplyResponse(id, reply), id)
  {
    KeysDiffer();
  }

  lemma ErrorsAreResponses(id: Option<Json>, code: int, message: string)
    ensures IsResponse(ErrorResponse(id, code, message), OrNull(id))
    ensures "error" in ErrorResponse(id, code, message).fields
  {
    KeysDiffer();
  }

  /** The error code of a response, if it is an error. */
  function ErrorCode(r: Json): Option<Json> {
    if r.Object? && "error" in r.fields && r.fields["error"].Object? then Field(r.fields["error"].fields, "code") else None
  }

  function ErrorMessage(r: Json): Option<Json> {
    if r.Object? && "error" in r.fields && r.fields["error"].Object? then Field(r.fields["error"].fields, "message") else None
  }

  predicate HasMethod(item: Json) {
    item.Object? && "method" in item.fields && item.fields["method"].String?
  }

  predicate HasObjectParams(item: Json)
    requires item.Object?
  {
    "params" in item.fields ==> item.fields["params"].Object? || item.fields["params"].Null?
  }

  lemma EachItemIsAnswered(item: Json, reply: Result<Json, Json>)
    ensures Response(MeaningOf(item), reply).None? <==> IsNotification(item)
    ensures !IsNotification(item) ==> IsResponse(Response(MeaningOf(item), reply).value, IdOf(item))
  {
    match MeaningOf(item)
    case NotObject => ErrorsAreResponses(None, INVALID_REQUEST, "JSON-RPC message must be an object");
    case NoMethod(id) => ErrorsAreResponses(id, INVALID_REQUEST, "JSON-RPC message method must be a string");
    case BadParams(id) => ErrorsAreResponses(id, INVALID_PARAMS, "MCP-over-ACP only supports object params");
    case Call(f) =>
      if f.id.Some? {
        RepliesAreResponses(f.id.value, reply);
      }
  }

  lemma CodeOfError(id: Option<Json>, code: int, message: string)
    ensures ErrorCode(ErrorResponse(id, code, message)) == Some(Number(code))
    ensures ErrorMessage(ErrorResponse(id, code, message)) == Some(String(message))
  {
    KeysDiffer();
    assert |"code"| == 4 && |"message"| == 7;
  }

  /** Items that cannot be sent on get the code the specification gives them: -32600, or -32602 for parameters. */
  lemma RefusalsCarryTheirCode(item: Json, reply: Result<Json, Json>)
    requires !HasMethod(item) || !HasObjectParams(item)
    ensures var r := Response(MeaningOf(item), reply);
            && r.Some? && ErrorCode(r.value) == Some(Number(if HasMethod(item) then -32602 else -32600))
            && ErrorMessage(r.value)
               == Some(String(if HasMethod(item) then "MCP-over-ACP only supports object params"
                              else if item.Object? then "JSON-RPC message method must be a string"
                              else "JSON-RPC message must be an object"))
  {
    match MeaningOf(item)
    case NotObject => CodeOfError(None, INVALID_REQUEST, "JSON-RPC message must be an object");
    case NoMethod(id) => CodeOfError(id, INVALID_REQUEST, "JSON-RPC message method must be a string");
    case BadParams(id) => CodeOfError(id, INVALID_PARAMS, "MCP-over-ACP only supports object params");
    case Call(_) => assert false;
  }

  /** A message with a method name and, if any, structured parameters: a request or a notification. */
  predicate IsCall(item: Json) {
    HasMethod(item) && HasObjectParams(item)
  }

  /** The parameters of a call; null stands for none. */
  function ParamsOf(item: Json): Params
    requires IsCall(item)
  {
    if "params" in item.fields && item.fields["params"].Object? then Some(item.fields["params"].fields) else None
  }

  /** A call is sent on as it came: under its own name, with its own id and parameters. */
  lemma CallIsSentOnAsItCame(item: Json)
    ensures MeaningOf(item).Call? <==> IsCall(item)
    ensures IsCall(item) ==>
              MeaningOf(item).forwarded
              == Forwarded(if "id" in item.fields then Some(item.fields["id"]) else None,
                           item.fields["method"].s, ParamsOf(item))
  {}

  /** How many of the first items are sent on, and how many are answered. */
  ghost function CallsBefore(items: seq<Json>, n: nat): nat
    requires n <= |items|
  {
    if n == 0 then 0 else CallsBefore(items, n - 1) + if IsCall(items[n - 1]) then 1 else 0
  }

  ghost function AnswersBefore(items: seq<Json>, n: nat): nat
    requires n <= |items|
  {
    if n == 0 then 0 else AnswersBefore(items, n - 1) + if IsNotification(items[n - 1]) then 0 else 1
  }

  lemma {:induction false} CountsInPrefix(items: seq<Json>, m: nat, n: nat)
    requires n <= m <= |items|
    ensures CallsBefore(items[..m], n) == CallsBefore(items, n)
    ensures AnswersBefore(items[..m], n) == AnswersBefore(items, n)
  {
    if n > 0 {
      CountsInPrefix(items, m, n - 1);
    }
  }

  /** What is sent on for a call: its name, its id and its parameters. */
  predicate IsSentOn(item: Json, f: Forwarded)
    requires IsCall(item)
  {
    && f.id == Field(item.fields, "id") && item.fields["method"] == String(f.name)
    && f.params == ParamsOf(item)
  }

  /**
   What is sent on: each call exactly once, at the place that counts the calls before it, and nothing
   else.
   */
  lemma {:induction false} CallsAreForwardedInOrder(items: seq<Json>)
    ensures |Forwards(items)| == CallsBefore(items, |items|)
    ensures forall i :: 0 <= i < |items| && IsCall(items[i]) ==>
              && CallsBefore(items, i) < |Forwards(items)|
              && IsSentOn(items[i], Forwards(items)[CallsBefore(items, i)])
    decreases |items|
  {
    if items != [] {
      var n := |items| - 1;
      var init := items[..n];
      CallsAreForwardedInOrder(init);
      CountsInPrefix(items, n, n);
      CallIsSentOnAsItCame(items[n]);
      forall i | 0 <= i < |items| && IsCall(items[i])
        ensures CallsBefore(items, i) < |Forwards(items)|
        ensures IsSentOn(items[i], Forwards(items)[CallsBefore(items, i)])
      {
        CountsInPrefix(items, n, i);
        if i < n {
          assert init[i] == items[i];
        }
      }
    }
  }

  /** A response carries what the client's server replied. */
  predicate Carries(r: Json, reply: Result<Json, Json>) {
    && r.Object?
    && match reply
       case Ok(result) => Field(r.fields, "result") == Some(result)
       case Err(error) => Field(r.fields, "error") == Some(error)
  }

  ghost predicate AnswersItem(r: Json, item: Json, reply: Result<Json, Json>) {
    && IsResponse(r, IdOf(item))
    && (IsCall(item) ==> Carries(r, reply))
  }

  lemma ItemIsAnswered(item: Json, reply: Result<Json, Json>)
    requires !IsNotification(item)
    ensures Response(MeaningOf(item), reply).Some? && AnswersItem(Response(MeaningOf(item), reply).value, item, reply)
  {
    EachItemIsAnswered(item, reply);
    CallIsSentOnAsItCame(item);
    KeysDiffer();
  }

  lemma {:induction false} ResponsesCounted(items: seq<Json>, sent: nat, reply: nat -> Result<Json, Json>)
    ensures |Responses(items, sent, reply)| == AnswersBefore(items, |items|)
    decreases |items|
  {
    if items != [] {
      var n := |items| - 1;
      ResponsesCounted(items[..n], sent, reply);
      CountsInPrefix(items, n, n);
      EachItemIsAnswered(items[n], reply(sent + |Forwards(items[..n])|));
    }
  }

  /** The place of an item's response, and what stands there. */
  ghost predicate AnswersAt(
      responses: seq<Json>, items: seq<Json>, i: nat, sent: nat, reply: nat -> Result<Json, Json>)
    requires i < |items|
  {
    var n := AnswersBefore(items, i);
    n < |responses| && AnswersItem(responses[n], items[i], reply(sent + CallsBefore(items, i)))
  }

  lemma PlacesOfLast(items: seq<Json>, sent: nat, reply: nat -> Result<Json, Json>)
    requires items != []
    ensures var n := |items| - 1;
            && |Responses(items[..n], sent, reply)| == AnswersBefore(items, n)
            && |Forwards(items[..n])| == CallsBefore(items, n)
  {
    var n := |items| - 1;
    CountsInPrefix(items, n, n);
    ResponsesCounted(items[..n], sent, reply);
    CallsAreForwardedInOrder(items[..n]);
  }

  lemma LastResponse(items: seq<Json>, sent: nat, reply: nat -> Result<Json, Json>) returns (r: Json)
    requires items != [] && !IsNotification(items[|items| - 1])
    ensures var n := |items| - 1;
            && Responses(items, sent, reply) == Responses(items[..n], sent, reply) + [r]
            && AnswersItem(r, items[n], reply(sent + |Forwards(items[..n])|))
  {
    var item, answer := items[|items| - 1], reply(sent + |Forwards(items[..|items| - 1])|);
    ItemIsAnswered(item, answer);
    r := Response(MeaningOf(item), answer).value;
  }

  lemma LastIsAnsweredAt(items: seq<Json>, sent: nat, reply: nat -> Result<Json, Json>)
    requires items != [] && !IsNotification(items[|items| - 1])
    ensures AnswersAt(Responses(items, sent, reply), items, |items| - 1, sent, reply)
  {
    var r := LastResponse(items, sent, reply);
    PlacesOfLast(items, sent, reply);
  }

  lemma SameAnswersAt(
      responses: seq<Json>, more: seq<Json>, items: seq<Json>, m: nat, i: nat, sent: nat, reply: nat -> Result<Json, Json>)
    requires i < m <= |items| && responses <= more
    requires AnswersAt(responses, items[..m], i, sent, reply)
    ensures AnswersAt(more, items, i, sent, reply)
  {
    CountsInPrefix(items, m, i);
    assert items[..m][i] == items[i];
  }

  lemma {:induction false} EachIsAnsweredAt(items: seq<Json>, sent: nat, reply: nat -> Result<Json, Json>, i: nat)
    requires i < |items| && !IsNotification(items[i])
    ensures AnswersAt(Responses(items, sent, reply), items, i, sent, reply)
    decreases |items|
  {
    var n := |items| - 1;
    if i < n {
      assert items[..n][i] == items[i];
      EachIsAnsweredAt(items[..n], sent, reply, i);
      SameAnswersAt(Responses(items[..n], sent, reply), Responses(items, sent, reply), items, n, i, sent, reply);
    } else {
      LastIsAnsweredAt(items, sent, reply);
    }
  }

  /** One response for each item that must be answered, in order. */
  ghost predicate AnswersAll(responses: seq<Json>, items: seq<Json>, sent: nat, reply: nat -> Result<Json, Json>) {
    && |responses| == AnswersBefore(items, |items|)
    && forall i: nat :: i < |items| && !IsNotification(items[i]) ==> AnswersAt(responses, items, i, sent, reply)
  }

  /**
   A batch gets one response for each item that is not a notification, in order: with the id of the
   item or null, and for a call with the reply to the very message that was sent on for it.
   */
  lemma BatchIsAnsweredInOrder(items: seq<Json>, sent: nat, reply: nat -> Result<Json, Json>)
    ensures AnswersAll(Responses(items, sent, reply), items, sent, reply)
  {
    ResponsesCounted(items, sent, reply);
    forall i: nat | i < |items| && !IsNotification(items[i])
      ensures AnswersAt(Responses(items, sent, reply), items, i, sent, reply)
    {
      EachIsAnsweredAt(items, sent, reply, i);
    }
  }

  lemma {:induction false} NothingToAnswer(items: seq<Json>, n: nat)
    requires n <= |items|
    ensures AnswersBefore(items, n) == 0 <==> forall i :: 0 <= i < n ==> IsNotification(items[i])
  {
    if n > 0 {
      NothingToAnswer(items, n - 1);
    }
  }

  /**
   The answer to a payload: nothing exactly when it consists of notifications only; one error for an
   empty batch; for another batch an array that answers its items in order; else one response.
   */
  lemma PayloadAnswer(payload: Json, sent: nat, reply: nat -> Result<Json, Json>)
    ensures var r := PayloadResponse(payload, sent, reply);
            match payload
            case Array(items) =>
              && (items == [] ==> r.Some? && IsResponse(r.value, Null) && ErrorCode(r.value) == Some(Number(-32600)))
              && (items != [] ==>
                    && (r.None? <==> forall i :: 0 <= i < |items| ==> IsNotification(items[i]))
                    && (r.Some? ==> r.value.Array? && r.value.items != [] && AnswersAll(r.value.items, items, sent, reply)))
            case _ =>
              && (r.None? <==> IsNotification(payload))
              && (r.Some? ==> AnswersItem(r.value, payload, reply(sent)))
  {
    match payload
    case Array(items) =>
      BatchIsAnsweredInOrder(items, sent, reply);
      NothingToAnswer(items, |items|);
      ErrorsAreResponses(None, INVALID_REQUEST, "JSON-RPC batch must not be empty");
      CodeOfError(None, INVALID_REQUEST, "JSON-RPC batch must not be empty");
    case _ =>
      EachItemIsAnswered(payload, reply(sent));
      if !IsNotification(payload) {
        ItemIsAnswered(payload, reply(sent));
      }
  }
}
