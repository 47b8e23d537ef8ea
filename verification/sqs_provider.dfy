/**
 The Amazon SQS service as the datasource sees it: four requests, each
 answered by the service with a result the datasource cannot predict. The
 provider records every request it receives, together with its answer, in a
 ghost trace, so that the datasource's contracts can say which requests an
 operation issued.
 */
module SqsProvider {
  import opened Php

  /** A received message, with the three attributes the datasource reads. */
  datatype Message = Message(body: string, messageId: string, receiptHandle: string)

  /** One request to the queue service, with the service's answer. */
  datatype Call =
      /** `sendMessage` with its options array (`QueueUrl`, `MessageBody`). */
    | SendCall(options: map<string, Value>)
      /** `receiveMessage` with its options array; `None` when the answer has no `Messages` entry. */
    | ReceiveCall(options: map<string, Value>, messages: Option<seq<Message>>)
      /** `get_queue_size` on a queue URL, answered with the queue depth. */
    | QueueSizeCall(queueUrl: Value, size: int)
      /** `delete_message` on a queue URL and a receipt handle, answered with the response's OK flag. */
    | DeleteCall(queueUrl: Value, receiptHandle: Value, ok: bool)

  class Provider {
    /** Every request received so far, oldest first. */
    ghost var trace: seq<Call>

    constructor ()
      ensures trace == []
    {
      trace := [];
    }

    method SendMessage(options: map<string, Value>)
      modifies this
      ensures trace == old(trace) + [SendCall(options)]
    {
      trace := trace + [SendCall(options)];
    }

    method ReceiveMessage(options: map<string, Value>) returns (messages: Option<seq<Message>>)
      modifies this
      ensures trace == old(trace) + [ReceiveCall(options, messages)]
    {
      messages :| true;
      trace := trace + [ReceiveCall(options, messages)];
    }

    method GetQueueSize(queueUrl: Value) returns (size: int)
      modifies this
      ensures trace == old(trace) + [QueueSizeCall(queueUrl, size)]
    {
      size :| true;
      trace := trace + [QueueSizeCall(queueUrl, size)];
    }

    method DeleteMessage(queueUrl: Value, receiptHandle: Value) returns (ok: bool)
      modifies this
      ensures trace == old(trace) + [DeleteCall(queueUrl, receiptHandle, ok)]
    {
      ok :| true;
      trace := trace + [DeleteCall(queueUrl, receiptHandle, ok)];
    }
  }
}
