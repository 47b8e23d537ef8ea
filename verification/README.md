# SQS datasource model

A Dafny model of `SQSSource`, the CakePHP datasource that presents an Amazon
SQS queue to the ORM as a table:

- `create` sends one message whose body is the JSON encoding of the record.
- `update` is meant to do the same, ignoring its conditions.
- `read` receives messages and turns each one into a row. For a count query
  (the `'COUNT'` value that `calculate` hands to the ORM) it reports the queue
  depth instead.
- `delete` deletes a message by the receipt handle given in its conditions.

The model has three modules:

- `Php` (`php.dfy`) holds the part of PHP's semantics the datasource relies on:
  values, `isset`, `empty`, loose comparison with `'COUNT'`, and ordered arrays
  with `$a[$k] = $v` and `array_combine`.
- `SqsProvider` (`sqs_provider.dfy`) is the queue service as an opaque object.
  Each of its four requests returns an arbitrary answer and records the request
  and the answer in a ghost `trace`. The datasource's contracts are statements
  about that trace: which request an operation issued, with which options, and
  how the answer was turned into the result.
- `SqsSource` (`sqs_source.dfy`) is the datasource itself. It has a class
  `SQSSource` with the four ORM operations and the four SDK wrappers, and a
  class `Model` whose mutable `queueUrl` field is `$Model->queueURL`.
  `read` assigns that field and `delete` reads it.

PHP arrays appear in two forms. Query data, delete conditions and request
options are string-keyed maps (`map<string, Value>`), because only their
lookups matter. The record that `create` builds with `array_combine` is an
ordered list of entries, because its JSON body depends on entry order.

Two behaviours of the code worth noting:

- `delete` sends the queue URL recorded on the model (null until `read` has run
  for that model), not the configured URL.
- `delete` ignores a condition that is present but empty (`""`, `"0"`, `0`,
  `false`), not just a missing one.

## Model

| member | source | states |
|---|---|---|
| `SqsSource.SQSSource.constructor` | Model/Datasource/SQSSource.php:22-33 | keeps the configuration; the SDK client built from it is the injected provider |
| `SqsSource.SQSSource.Calculate` | Model/Datasource/SQSSource.php:52-54 | whatever it is asked, returns a string that `read`'s `== 'COUNT'` test accepts, so counting goes through the count path of `read` |
| `SqsSource.SQSSource.Create` | Model/Datasource/SQSSource.php:57-61 | succeeds exactly when the encoding of the zipped fields and values is a string; then exactly one send request goes out, to `sqs.url`, with that string as the body; otherwise nothing is sent |
| `Php.Combine` | Model/Datasource/SQSSource.php:58 | `array_combine` yields an array whose keys are the given keys, each once, and no more entries than keys |
| `Php.CombineLookup` | Model/Datasource/SQSSource.php:58 | in the combined array, a key maps to the value at its LAST occurrence among the keys, and a key not among them is absent |
| `Php.CombineDistinctIsZip` | Model/Datasource/SQSSource.php:58 | with distinct keys, the combined array is the positional pairing of keys and values, in order |
| `Php.CombineKeyOrder` | Model/Datasource/SQSSource.php:58 | the entries of the combined array (and so of the JSON body) stand in the order in which their keys first occur; a repeated key keeps its first position |
| `Php.Assign` | Model/Datasource/SQSSource.php:58 | `$a[$k] = $v` makes `k` read `v` and leaves every other key's value alone; an existing key keeps its place, a new one is appended |
| `SqsSource.SQSSource.CallCreate` | Model/Datasource/SQSSource.php:57-61 | a call of `create` with null for its `Model` parameter ends in a TypeError and sends nothing, whatever the field and value lists; with a model (and lists of equal length) it behaves as `create` |
| `SqsSource.SQSSource.Update` | Model/Datasource/SQSSource.php:63-65 | (intended behaviour) ignores the conditions and issues exactly the send request `create` issues for the same fields and values, with the same result |
| `SqsSource.SQSSource.UpdateAsWritten` | Model/Datasource/SQSSource.php:63-65 | (as written) reads the undefined `$Model` as null and forwards it to `create`, so the call ends in a TypeError and no request is sent |
| `SqsSource.SQSSource.UpdateVersionsDiffer` | Model/Datasource/SQSSource.php:63-65 | on the same request, `update` as written raises and sends nothing, while the intended `update` sends exactly when the record encodes to a string |
| `Php.LooselyEqualsCount` | Model/Datasource/SQSSource.php:71 | the `== 'COUNT'` test accepts only non-empty values; a string matches exactly when it is `'COUNT'` (no numeric conversion), and null, integers and arrays never match |
| `Php.Empty` | Model/Datasource/SQSSource.php:74 | `empty()` as used at lines 74, 101, 104 and 130: a value that is not empty is always set, so each `isset && !empty` guard is decided by `empty` alone |
| `SqsSource.SQSSource.Read` | Model/Datasource/SQSSource.php:67-96 | records the configured URL on the model and issues exactly one request. For a count query, a queue-size request on that URL, with a single count row holding the reported depth. Otherwise, a receive request with the options below, giving one row per delivered message in delivery order, and no rows (not an error) when none are delivered |
| `SqsSource.ReceiveOptions` | Model/Datasource/SQSSource.php:74-78 | the receive options always carry `QueueUrl` equal to the configured URL; they carry `MaxNumberOfMessages`, equal to the query's `limit`, exactly when that limit is set and not empty; they carry nothing else |
| `SqsSource.CollectRows` | Model/Datasource/SQSSource.php:84-94 | one row per message, in the same order, each under the model's alias, with `body`, `message_id` and `receipt_handle` copied from `Body`, `MessageId` and `ReceiptHandle` |
| `SqsSource.SQSSource.Delete` | Model/Datasource/SQSSource.php:98-110 | without a usable token it returns false and sends nothing. Otherwise it issues exactly one delete request with the model's recorded queue URL and that token, and returns the response's OK flag |
| `SqsSource.DeleteToken` | Model/Datasource/SQSSource.php:99-107 | `<alias>.receipt_handle` is chosen whenever it is set and non-empty, even if `<alias>.id` is present. `<alias>.id` is the fallback. There is no token exactly when both are empty, and a chosen token is never empty |
| `SqsSource.SQSSource.DeleteAfterRead` | Model/Datasource/SQSSource.php:68-109 | after `read`, passing a row's non-empty receipt handle back as the `<alias>.receipt_handle` condition issues exactly one delete request, to the URL `read` recorded on the model (line 68, read at line 109), with that row's handle |
| `SqsSource.SQSSource.SendMessage` | Model/Datasource/SQSSource.php:115-124 | sends only when the message is a string, and then returns true after exactly one send request with `QueueUrl` and `MessageBody`; otherwise returns false and sends nothing |
| `SqsSource.SQSSource.ReceiveMessage` | Model/Datasource/SQSSource.php:126-134 | issues one receive request; returns the messages when the answer has some, and false (`None`) when the answer has no `Messages` entry or an empty one |
| `SqsSource.SQSSource.GetQueueSize` | Model/Datasource/SQSSource.php:136-139 | issues one queue-size request on the given URL and returns the reported depth |
| `SqsSource.SQSSource.DeleteMessage` | Model/Datasource/SQSSource.php:141-151 | issues one delete request and returns true exactly when the response is OK |

## Findings

| source | as written | input that shows it | evidently intended | confidence | as-written member | corrected member |
|---|---|---|---|---|---|---|
| Model/Datasource/SQSSource.php:63-64 | `update` declares its parameter as `$model` but forwards `$Model`. That variable is undefined, so null is passed to `create(Model $Model, …)`, which PHP 7 and later reject with a TypeError. | on PHP 7 or later, any call, e.g. `update($Model, ['name'], ['x'], null)` | forward the model to `create`, so that `update` sends the same message `create` would | not executed | `SqsSource.SQSSource.UpdateAsWritten` | `SqsSource.SQSSource.Update` |

## Left out

- The SDK itself. `SqsClient::factory` and the credentials (lines 26-32) are replaced by an injected provider, and the provider's answers are arbitrary.
- The separate `AmazonSQS` clients. `_getQueueSize` and `_deleteMessage` (lines 137 and 142) each build their own legacy client with default credentials; the model sends their requests to the same provider.
- Network, authentication and malformed-request errors. The SDK raises these and nothing catches them, so the model has no path where a request fails with an exception.
- Logging of a failed delete's response body (line 146).
- `json_encode` internals (line 60). The encoder is a total function fixed at construction, returning a string or `None` for PHP's false.
- `listSources` and `describe` (lines 35-41). They only return null and `$Model->_schema`.
- The `$columns` date-format hints (lines 14-19). No operation uses them.
- Queue semantics: message visibility, redelivery, and whether a message sent by `create` is later received by `read`.
- `Php.Combine`: the caller must pass equally long field and value lists. PHP raises an error or returns false for unequal lengths; that path is not modelled.
- `Php.Combine`: it takes keys that are already array keys. PHP's conversion of key values (a numeric string becoming an integer key) is not modelled.
- `Php.LooselyEqualsCount`: follows PHP 8 comparison rules. Under PHP 7 the integer 0 would also compare equal to `'COUNT'`.
- `SqsSource.SQSSource.UpdateAsWritten`: `update`'s NULL defaults for `$fields` and `$values` (line 63) are not represented, because the model's lists cannot be null. Such calls end in the same TypeError, since the model argument is rejected before `create`'s body runs.
- `SqsSource.SQSSource.UpdateAsWritten`: models PHP 7 and later. Before PHP 7 the rejected null is a recoverable error. If the host's error handler absorbs it, `create` runs with a null model and, since it never reads the model, sends the message. That path is not modelled.
- `Php.Empty`: floats are not modelled, so `0.0` (empty in PHP) has no counterpart.
- The `$row` variable reused across iterations of the `foreach` in `read` (lines 86-90). Every iteration overwrites all three keys, so nothing carries over and the model builds each row afresh.
- A null `$conditions` argument to `delete`. It behaves like the empty map: neither key is set, so the result is false.
