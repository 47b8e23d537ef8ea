/**
 The CakePHP datasource that presents an SQS queue as a table: creating a
 record sends a message, reading records receives messages (or measures the
 queue when the ORM counts), and deleting a record deletes a message by its
 receipt handle. Each operation issues at most one request to the queue
 service.
 */
module SqsSource {
  import opened Php
  import opened SqsProvider

  /** The datasource configuration: credentials, region and the queue URL under `sqs.url`. */
  datatype Config = Config(key: string, secret: string, region: string, sqsUrl: string)

  /** The ORM model a datasource call is made for. */
  class Model {
    const alias: string
    /** `$Model->queueURL`: null until `read` assigns it. */
    var queueUrl: Value

    constructor (alias: string)
      ensures this.alias == alias && queueUrl == Null
    {
      this.alias := alias;
      queueUrl := Null;
    }
  }

  /** One row of a read, standing for `[alias => [body, message_id, receipt_handle]]`. */
  datatype Row = Row(alias: string, body: string, messageId: string, receiptHandle: string)

  /** What `read` returns: `[[['count' => n]]]` for a count query, otherwise the list of rows. */
  datatype ReadResult = CountResult(count: int) | RowsResult(rows: seq<Row>)

  /** `rows` holds one row per message, in the same order, each copying the message's three attributes. */
  predicate RowsOf(alias: string, messages: seq<Message>, rows: seq<Row>) {
    && |rows| == |messages|
    && forall i :: 0 <= i < |messages| ==>
         rows[i] == Row(alias, messages[i].body, messages[i].messageId, messages[i].receiptHandle)
  }

  /** The messages a receive answer delivers; an answer without messages delivers none. */
  function Delivered(answer: Option<seq<Message>>): seq<Message> {
    if answer.Some? then answer.value else []
  }

  /** The options array of a `sendMessage` request. */
  function SendOptions(queueUrl: string, body: string): map<string, Value> {
    map["QueueUrl" := Str(queueUrl), "MessageBody" := Str(body)]
  }

  /**
   The options array `read` passes to `receiveMessage`: always the queue URL,
   and the query's limit as `MaxNumberOfMessages` when it is set and not empty.
   */
  function ReceiveOptions(queryData: map<string, Value>, queueUrl: string): (options: map<string, Value>)
    ensures "QueueUrl" in options && options["QueueUrl"] == Str(queueUrl)
    ensures "MaxNumberOfMessages" in options <==> "limit" in queryData && !Empty(queryData["limit"])
    ensures "MaxNumberOfMessages" in options ==> options["MaxNumberOfMessages"] == queryData["limit"]
    ensures options.Keys <= {"MaxNumberOfMessages", "QueueUrl"}
  {
    var limit := Get(queryData, "limit");
    var options := if IsSet(limit) && !Empty(limit) then map["MaxNumberOfMessages" := limit] else map[];
    options["QueueUrl" := Str(queueUrl)]
  }

  /**
   The receipt handle `delete` sends: the `<alias>.receipt_handle` condition
   when it is set and not empty, otherwise the `<alias>.id` condition when
   that is set and not empty, otherwise none.
   */
  function DeleteToken(alias: string, conditions: map<string, Value>): (token: Option<Value>)
    ensures token.Some? ==> !Empty(token.value)
    ensures !Empty(Get(conditions, alias + ".receipt_handle")) ==>
              token == Some(conditions[alias + ".receipt_handle"])
    ensures Empty(Get(conditions, alias + ".receipt_handle")) && !Empty(Get(conditions, alias + ".id")) ==>
              token == Some(conditions[alias + ".id"])
    ensures token.None? <==>
              Empty(Get(conditions, alias + ".receipt_handle")) && Empty(Get(conditions, alias + ".id"))
  {
    var receiptHandle := Get(conditions, alias + ".receipt_handle");
    var id := Get(conditions, alias + ".id");
    if IsSet(receiptHandle) && !Empty(receiptHandle) then Some(receiptHandle)
    else if IsSet(id) && !Empty(id) then Some(id)
    else None
  }

  /** The body of the `foreach` in `read`: one row per received message, appended in order. */
  method CollectRows(alias: string, messages: seq<Message>) returns (rows: seq<Row>)
    ensures RowsOf(alias, messages, rows)
  {
    rows := [];
    for i := 0 to |messages|
      invariant RowsOf(alias, messages[..i], rows)
    {
      var item := messages[i];
      rows := rows + [Row(alias, item.body, item.messageId, item.receiptHandle)];
    }
    assert messages[..|messages|] == messages;
  }

  /** How a call of `create` ends: it returns a flag, or PHP rejects its model argument with a TypeError. */
  datatype CreateOutcome = Returned(ok: bool) | TypeError

  /** Reading a local variable: a name that is not defined reads as null (`None`). */
  function Variable(scope: map<string, Model>, name: string): Option<Model> {
    if name in scope then Some(scope[name]) else None
  }

  class SQSSource {
    const config: Config
    /** The queue service (`sqsClient`, and the ad-hoc clients of `_getQueueSize` and `_deleteMessage`). */
    const provider: Provider
    /** `json_encode`: a string, or `None` where PHP returns false. */
    const json: Value -> Option<string>

    constructor (config: Config, provider: Provider, json: Value -> Option<string>)
      ensures this.config == config && this.provider == provider && this.json == json
    {
      this.config := config;
      this.provider := provider;
      this.json := json;
    }

    /** The ORM's count hook: a value that `read` recognises as a count query. */
    function Calculate(model: Model, func: string, params: map<string, Value>): (query: Value)
      ensures LooselyEqualsCount(query)
      ensures query.Str?
    {
      Str("COUNT")
    }

    /** Sends `fields` paired with `values`, JSON-encoded, as one message to the configured queue. */
    method Create(model: Model, fields: seq<Key>, values: seq<Value>) returns (ok: bool)
      requires |fields| == |values|
      modifies provider
      ensures ok <==> json(Arr(Combine(fields, values))).Some?
      ensures !ok ==> provider.trace == old(provider.trace)
      ensures ok ==> provider.trace == old(provider.trace) +
                       [SendCall(SendOptions(config.sqsUrl, json(Arr(Combine(fields, values))).value))]
    {
      var data := Combine(fields, values);
      ok := SendMessage(config.sqsUrl, json(Arr(data)));
    }

    /**
     A call of `create` as PHP performs it: the argument for the `Model`
     parameter declaration is checked first, and null is rejected with a
     TypeError before the body runs (PHP 7 and later).
     */
    method CallCreate(argument: Option<Model>, fields: seq<Key>, values: seq<Value>) returns (outcome: CreateOutcome)
      requires argument.Some? ==> |fields| == |values|
      modifies provider
      ensures argument.None? ==> outcome == TypeError && provider.trace == old(provider.trace)
      ensures argument.Some? ==> outcome.Returned?
      ensures argument.Some? ==> (outcome.ok <==> json(Arr(Combine(fields, values))).Some?)
      ensures argument.Some? && !outcome.ok ==> provider.trace == old(provider.trace)
      ensures argument.Some? && outcome.ok ==>
                provider.trace == old(provider.trace) +
                  [SendCall(SendOptions(config.sqsUrl, json(Arr(Combine(fields, values))).value))]
    {
      if argument.None? {
        return TypeError;
      }
      var ok := Create(argument.value, fields, values);
      outcome := Returned(ok);
    }

    /** `update` as it was evidently meant: the conditions are ignored and its own model is forwarded to `create`. */
    method Update(model: Model, fields: seq<Key>, values: seq<Value>, conditions: map<string, Value>)
      returns (ok: bool)
      requires |fields| == |values|
      modifies provider
      ensures ok <==> json(Arr(Combine(fields, values))).Some?
      ensures !ok ==> provider.trace == old(provider.trace)
      ensures ok ==> provider.trace == old(provider.trace) +
                       [SendCall(SendOptions(config.sqsUrl, json(Arr(Combine(fields, values))).value))]
    {
      var scope := map["model" := model];
      var outcome := CallCreate(Variable(scope, "model"), fields, values);
      ok := outcome.ok;
    }

    /**
     `update` as written: its parameter is `$model`, but it forwards `$Model`,
     which is not defined in its scope and so reads as null; `create`'s
     `Model` parameter declaration rejects that null.
     */
    method UpdateAsWritten(model: Model, fields: seq<Key>, values: seq<Value>, conditions: map<string, Value>)
      returns (outcome: CreateOutcome)
      modifies provider
      ensures outcome == TypeError && provider.trace == old(provider.trace)
    {
      var scope := map["model" := model];
      outcome := CallCreate(Variable(scope, "Model"), fields, values);
    }

    /**
     The two versions of `update` side by side on the same request: the
     intended one sends exactly when the record encodes to a string, the one
     as written never sends.
     */
    method UpdateVersionsDiffer(model: Model, fields: seq<Key>, values: seq<Value>, conditions: map<string, Value>)
      returns (asWritten: CreateOutcome, intended: bool)
      requires |fields| == |values|
      modifies provider
      ensures asWritten == TypeError
      ensures intended <==> json(Arr(Combine(fields, values))).Some?
      ensures !intended ==> provider.trace == old(provider.trace)
      ensures intended ==>
                provider.trace == old(provider.trace) +
                  [SendCall(SendOptions(config.sqsUrl, json(Arr(Combine(fields, values))).value))]
    {
      asWritten := UpdateAsWritten(model, fields, values, conditions);
      intended := Update(model, fields, values, conditions);
    }

    /**
     Records the configured queue URL on the model, then either measures the
     queue (count query) or receives messages and turns them into rows.
     */
    method Read(model: Model, queryData: map<string, Value>) returns (result: ReadResult, ghost call: Call)
      modifies model, provider
      ensures model.queueUrl == Str(config.sqsUrl)
      ensures provider.trace == old(provider.trace) + [call]
      ensures LooselyEqualsCount(Get(queryData, "fields")) ==>
                && result.CountResult?
                && call == QueueSizeCall(Str(config.sqsUrl), result.count)
      ensures !LooselyEqualsCount(Get(queryData, "fields")) ==>
                && call.ReceiveCall?
                && call.options == ReceiveOptions(queryData, config.sqsUrl)
                && result.RowsResult?
                && RowsOf(model.alias, Delivered(call.messages), result.rows)
      // A corollary of the clause above, spelled out: no delivered message gives no rows, not an error.
      ensures call.ReceiveCall? && Delivered(call.messages) == [] ==> result == RowsResult([])
    {
      model.queueUrl := Str(config.sqsUrl);
      if LooselyEqualsCount(Get(queryData, "fields")) {
        var size := GetQueueSize(model.queueUrl);
        call := QueueSizeCall(model.queueUrl, size);
        return CountResult(size), call;
      }
      var options := ReceiveOptions(queryData, config.sqsUrl);
      var response;
      ghost var answer;
      response, answer := ReceiveMessage(options);
      call := ReceiveCall(options, answer);
      if response.None? {
        return RowsResult([]), call;
      }
      var rows := CollectRows(model.alias, response.value);
      result := RowsResult(rows);
    }

    /**
     A row `read` returned, deleted by passing its receipt handle back as a
     condition: the delete goes to the queue URL that `read` recorded on the
     model, with that row's handle.
     */
    method DeleteAfterRead(model: Model, queryData: map<string, Value>, i: nat)
      returns (result: ReadResult, ok: bool, ghost readCall: Call)
      modifies model, provider
      ensures result.RowsResult? && i < |result.rows| && !Empty(Str(result.rows[i].receiptHandle)) ==>
                provider.trace == old(provider.trace) +
                  [readCall, DeleteCall(Str(config.sqsUrl), Str(result.rows[i].receiptHandle), ok)]
    {
      result, readCall := Read(model, queryData);
      if result.RowsResult? && i < |result.rows| && !Empty(Str(result.rows[i].receiptHandle)) {
        ok := Delete(model, map[model.alias + ".receipt_handle" := Str(result.rows[i].receiptHandle)]);
      } else {
        ok := false;
      }
    }

    /**
     Deletes the message named by the conditions from the queue URL the model
     recorded; without a usable receipt handle nothing is sent.
     */
    method Delete(model: Model, conditions: map<string, Value>) returns (ok: bool)
      modifies provider
      ensures DeleteToken(model.alias, conditions).None? ==> !ok && provider.trace == old(provider.trace)
      ensures DeleteToken(model.alias, conditions).Some? ==>
                provider.trace == old(provider.trace) +
                  [DeleteCall(model.queueUrl, DeleteToken(model.alias, conditions).value, ok)]
    {
      var token := DeleteToken(model.alias, conditions);
      if token.None? {
        return false;
      }
      ok := DeleteMessage(model.queueUrl, token.value);
    }

    /** `_sendMessage`: sends only a string body, and reports whether it did. */
    method SendMessage(queueUrl: string, message: Option<string>) returns (ok: bool)
      modifies provider
      ensures ok <==> message.Some?
      ensures !ok ==> provider.trace == old(provider.trace)
      ensures ok ==> provider.trace == old(provider.trace) + [SendCall(SendOptions(queueUrl, message.value))]
    {
      if message.None? {
        return false;
      }
      provider.SendMessage(SendOptions(queueUrl, message.value));
      ok := true;
    }

    /** `_receiveMessage`: the received messages, or `None` (PHP false) when there are none. */
    method ReceiveMessage(options: map<string, Value>) returns (messages: Option<seq<Message>>, ghost answer: Option<seq<Message>>)
      modifies provider
      ensures provider.trace == old(provider.trace) + [ReceiveCall(options, answer)]
      ensures messages.None? <==> Delivered(answer) == []
      ensures messages.Some? ==> messages.value == Delivered(answer)
    {
      var response := provider.ReceiveMessage(options);
      answer := response;
      if response.Some? && response.value != [] {
        messages := response;
      } else {
        messages := None;
      }
    }

    /** `_getQueueSize`: the depth the queue service reports. */
    method GetQueueSize(queueUrl: Value) returns (size: int)
      modifies provider
      ensures provider.trace == old(provider.trace) + [QueueSizeCall(queueUrl, size)]
    {
      size := provider.GetQueueSize(queueUrl);
    }

    /** `_deleteMessage`: true exactly when the service's response is OK. */
    method DeleteMessage(queueUrl: Value, receiptHandle: Value) returns (ok: bool)
      modifies provider
      ensures provider.trace == old(provider.trace) + [DeleteCall(queueUrl, receiptHandle, ok)]
    {
      ok := provider.DeleteMessage(queueUrl, receiptHandle);
    }
  }
}
