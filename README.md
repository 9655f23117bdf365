# Fire-incident output strategies: a verified model

This project models the core of `patternLab4`, a small command-line tool. The tool loads
fire-incident records from a CSV file, downloading the file first when it is absent. It then
hands the records to one of three interchangeable output strategies (sinks):

- **console**: prints every record.
- **kafka**: publishes one message per record to a Kafka topic.
- **redis**: writes one key per record into Redis through a batched pipeline.

The model covers three parts:

- the sink contract, its three variants and the string-keyed factory (`output_strategy.py`);
- the default-resolving configuration getters (`configuration.py`);
- the driver's chain of early exits, which turns the outcome of each step into an exit code (`main.py`).

Modules, one per concern:

- `Values` (`values.dfy`): record cells and JSON values, and the few Python semantics the core relies on. These are `str()`, truthiness, hashability, `dict.get` with a default, and the decimal text of integers.
- `Config` (`configuration.dfy`): the settings document as an immutable value with its getters. No getter can change the document, because each getter is a function of it.
- `ConsoleOutput`, `KafkaOutput`, `RedisOutput`: each variant is a class whose fields the operations update.
  - The console sink keeps an append-only log of printed lines.
  - The Kafka sink keeps the calls made to the producer and a log of notices.
  - The Redis sink keeps the pipeline buffer (`pending`), the store contents (`store`), an `executes` counter and a log of notices.
  - Each class method is proved against a specification function. The lemmas about those functions carry the properties.
- `Strategies` (`strategies.dfy`): the `Sink` datatype over the three classes, the factory, and dispatch of `output_data` and `close`.
- `Driver` (`driver.dfy`): `main` as a method over an `Args` value and a `World` value. `World` holds the outcome of every I/O step. The method returns the exit code, the ordered trace of effectful calls, and the sink it created.
- `Transport` (`transport.dfy`): the outcome of every network call, given as an oracle. This means the sets of record indices whose send, acknowledgement, write or periodic execute fails, plus flags for the closing execute, the flush and the close.

`json.dumps(record)` is the constructor `Dumps(record)`: the serialized text stays abstract.

Behaviour of the code that the model keeps, and that a reader might not expect:

- **Number of Redis executes.** The pipeline is executed once more, unconditionally, after the loop.
  - Inside the loop it is executed after a record with `(i+1) % 100 == 0`, but only when that record's `json.dumps`/`pipe.set` succeeds. The execute follows the `set` inside the same `try`, so a failing `set` skips it.
  - In general there is one periodic execute per batch-closing record whose write succeeds (`RedisOutput.RunExecutes`).
  - When no batch-closing record's write fails, N records give N/100 + 1 executes (floor division), so 100 records give 2 (`RedisOutput.ExecuteCount`). In that case, when 100 divides N, the closing execute runs on an empty pipeline (`RedisOutput.ClosingExecuteEmpty`).
- **Records with an empty identifier share a key.** An empty `INCIDENT_DISPATCH_ID` cell reaches `item.get` as a present NaN. Every such record therefore writes `<prefix>nan`, and the last one wins (`RedisOutput.EmptyIdCellsShareKey`). The position is used only when the record has no such field at all.
- **Failed connection.** `sys.exit(1)` in a Kafka or Redis constructor becomes `Failure(ConnectionFailed)` from the factory. The driver turns that into exit code 1 before any record is handled.
- **Failed closing execute.** The closing `pipe.execute()` (output_strategy.py:118) is outside the `try`. A failure there propagates out of `output_data`, so `main` returns 1 and `close` is never called.

## Model

| member | source | states |
|---|---|---|
| `Values.Get` | patternLab4/src/output_strategy.py:105 | `Get` returns no value exactly when no field has that name; otherwise it returns the value of a field of that name, which may itself be Python's None (`Null`) |
| `Values.ParseDigitsOfDigits` | patternLab4/src/output_strategy.py:106 | reading back the decimal text of an index gives the index |
| `Values.IntTextInjective` | patternLab4/src/output_strategy.py:106 | two integers with the same `str()` text are equal |
| `Values.ShowInjectiveWithinKind` | patternLab4/src/output_strategy.py:30 | `str()` (the text an f-string prints) of two values of the same kind is equal only when the values are |
| `Values.ShowLosesKind` | patternLab4/src/output_strategy.py:30 | across kinds `str()` loses the type: 1 and `"1"`, -7 and `"-7"`, None and `"None"`, nan and `"nan"`, True and `"True"` print alike |
| `Values.FalsyExactly` | patternLab4/src/configuration.py:28 | the `or` treats exactly None, `''`, 0, False, `[]` and `{}` as false; every other value, NaN included, is kept |
| `Config.Configuration.DatasetUrl` | patternLab4/src/configuration.py:18-19 | the stored `dataset_url`, or `''` when the key is absent |
| `Config.Configuration.MaxRows` | patternLab4/src/configuration.py:21-22 | the stored `max_rows`, or 100 when the key is absent |
| `Config.Configuration.OutputStrategy` | patternLab4/src/configuration.py:24-25 | the stored `output_strategy`, or `'console'` when the key is absent |
| `Config.Configuration.EffectiveStrategy` | patternLab4/src/configuration.py:28 | a truthy argument is kept; a falsy one (None, `''`, 0, False, empty container) becomes the configured strategy |
| `Config.Configuration.OutputConfig` | patternLab4/src/configuration.py:27-30 | the stored entry of `output_config` for the effective strategy, `{}` when `output_config` or the entry is absent; raises exactly when `output_config` is not a dict or the strategy is unhashable |
| `Config.FalsyStrategyUsesConfigured` | patternLab4/src/configuration.py:27-28 | a call with a falsy strategy returns the same as a call with the configured strategy |
| `ConsoleOutput.ConsoleSink.constructor` | patternLab4/src/output_strategy.py:22-23 | options are ignored; nothing has been printed |
| `ConsoleOutput.ConsoleSink.OutputData` | patternLab4/src/output_strategy.py:25-31 | appends exactly `Report(data)`: the banner, then for each record in order a heading numbered i+1, one line per field in field order, and a rule |
| `ConsoleOutput.ConsoleSink.PrintRecord` | patternLab4/src/output_strategy.py:28-31 | one record prints its heading, one line per field in field order, then the rule |
| `ConsoleOutput.FieldLinesAppend` | patternLab4/src/output_strategy.py:29-30 | one more field gives one more field line at the end |
| `ConsoleOutput.BlocksAppend` | patternLab4/src/output_strategy.py:27-31 | one more record gives one more block, numbered after the others, at the end |
| `ConsoleOutput.ParseFieldsOfFieldLines` | patternLab4/src/output_strategy.py:29-31 | a record's field lines followed by the rule read back as that record |
| `ConsoleOutput.ParseBlocksOfBlocks` | patternLab4/src/output_strategy.py:27-31 | consecutive blocks read back as the records, numbered consecutively |
| `ConsoleOutput.ReportRoundTrip` | patternLab4/src/output_strategy.py:25-31 | the structured log (one entry per `print` call, name and value text kept apart) determines the batch as printed: every record, in input order, numbered from 1, with each field's name and the `str()` text of its value, in field order |
| `ConsoleOutput.ReportLosesKind` | patternLab4/src/output_strategy.py:30 | the printed lines do not determine the values' types: a batch holding the int 1 prints like one holding the string `"1"` |
| `ConsoleOutput.ConsoleSink.Close` | patternLab4/src/output_strategy.py:33-34 | `close` prints nothing and changes nothing |
| `KafkaOutput.KafkaSink.constructor` | patternLab4/src/output_strategy.py:39-50 | keeps the servers and topic; no call made; the connection notice printed |
| `KafkaOutput.KafkaSink.OutputData` | patternLab4/src/output_strategy.py:55-69 | appends one send per record to the topic in input order, whatever fails; notices are the banner, one per failing or progress record, and `Total(len(data))` last |
| `KafkaOutput.KafkaSink.Close` | patternLab4/src/output_strategy.py:71-77 | flush before close, no close after a failing flush; a failure is logged and never raised |
| `KafkaOutput.SendsAt` | patternLab4/src/output_strategy.py:58-60 | exactly one send per record, the i-th carrying record i to the configured topic |
| `KafkaOutput.CleanRunProgress` | patternLab4/src/output_strategy.py:63-64 | with no failure, progress follows records 1, 101, 201, … and nothing else is printed by the loop |
| `KafkaOutput.ErrorCountAppend` | patternLab4/src/output_strategy.py:66-67 | error notices of two logs add up |
| `KafkaOutput.EachFailureReported` | patternLab4/src/output_strategy.py:58-67 | the loop prints exactly one error per failing record: a failure does not end the loop |
| `RedisOutput.Key` | patternLab4/src/output_strategy.py:105-106 | the key is the prefix's text followed by the text of the record's `INCIDENT_DISPATCH_ID`, or of its position when it has none |
| `RedisOutput.EmptyIdCellsShareKey` | patternLab4/src/output_strategy.py:105-106 | records whose identifier cell is NaN all get the key `<prefix>nan`, whatever their positions |
| `RedisOutput.IndexKeysDistinct` | patternLab4/src/output_strategy.py:105-106 | two records without `INCIDENT_DISPATCH_ID` at different positions get different keys |
| `RedisOutput.LastWrite` | patternLab4/src/output_strategy.py:109 | the position of the last queued write to a key, or none when no write targets it |
| `RedisOutput.ApplyLastWins` | patternLab4/src/output_strategy.py:109-118 | after a sequence of `SET`s, a key holds its last write, and a key no write targets keeps its value |
| `RedisOutput.ApplyConcat` | patternLab4/src/output_strategy.py:112-118 | executing writes in two batches equals executing them in one |
| `RedisOutput.RunExecutes` | patternLab4/src/output_strategy.py:111-112 | the loop executes once per batch-closing record whose write succeeds |
| `RedisOutput.CleanBoundaries` | patternLab4/src/output_strategy.py:111 | with no failing write on a batch-closing record, N records close N/100 batches |
| `RedisOutput.ExecuteCount` | patternLab4/src/output_strategy.py:102-118 | when no batch-closing record's write fails, N records give N/100 + 1 executes, so 100 records give 2 |
| `RedisOutput.ClosingExecuteEmpty` | patternLab4/src/output_strategy.py:111-118 | when no batch-closing record's write fails and 100 divides the number of records, the pipeline is empty when the closing execute runs |
| `RedisOutput.RunQueued` | patternLab4/src/output_strategy.py:103-114 | with no failing periodic execute, store plus pipeline equals the original store plus every write queued so far |
| `RedisOutput.StoredWrites` | patternLab4/src/output_strategy.py:102-118 | with no failing execute among those that run, the pipeline ends empty and the store holds every successful record's write, in input order, records after a failing one included |
| `RedisOutput.LastStoredIsLast` | patternLab4/src/output_strategy.py:105-109 | the position `LastStored` finds has a successful write under the given key and no later one does; it finds none exactly when no record's successful write uses that key |
| `RedisOutput.LastQueued` | patternLab4/src/output_strategy.py:103-109 | the last queued write to a key is the serialization of the last record that derives it |
| `RedisOutput.LastRecordWins` | patternLab4/src/output_strategy.py:102-118 | with no failing execute among those that run, each derived key maps to `Dumps` of the last record, in input order, that derived it; keys not derived are unchanged |
| `RedisOutput.ApplySound` | patternLab4/src/output_strategy.py:112-118 | executing writes that come from records keeps the store explained by the records |
| `RedisOutput.RunSound` | patternLab4/src/output_strategy.py:103-116 | whatever fails, every pending write and every changed key comes from a record |
| `RedisOutput.OutputSound` | patternLab4/src/output_strategy.py:102-118 | whatever fails, no key is lost and every changed key holds `Dumps` of a record that derives that key |
| `RedisOutput.RedisSink.constructor` | patternLab4/src/output_strategy.py:82-93 | keeps host, port, db and prefix; empty pipeline, no execute, the connection notice printed |
| `RedisOutput.RedisSink.ExecutePipe` | patternLab4/src/output_strategy.py:112 | a successful execute applies the queued writes in order; a failed one applies none; the pipeline ends empty and the counter goes up by one |
| `RedisOutput.RedisSink.StoreRecord` | patternLab4/src/output_strategy.py:105-116 | one loop pass: a failing write logs an error and queues nothing; otherwise the write is queued, and on the 100th record of a batch the pipeline is executed and success or failure is logged |
| `RedisOutput.RedisSink.OutputData` | patternLab4/src/output_strategy.py:98-120 | the new state is `OutputRun` of the old one: the pipeline ends empty, and the call raises exactly when the closing execute fails |
| `RedisOutput.RedisSink.Close` | patternLab4/src/output_strategy.py:122-127 | the store is unchanged; a close failure is logged, never raised |
| `Strategies.KindOf` | patternLab4/src/output_strategy.py:133-141 | a variant exactly when the type is `"console"`, `"kafka"` or `"redis"`, and then the variant of that name; anything else raises |
| `Strategies.KindOfName` | patternLab4/src/output_strategy.py:134-139 | each variant is selected by its own name |
| `Strategies.ExtraOptionAccepted` | patternLab4/src/output_strategy.py:135-139 | `**config` binds whatever other option names it holds: adding an option not named `self` never makes the binding fail |
| `Strategies.KeywordArgsRejects` | patternLab4/src/output_strategy.py:135-139 | `**config` fails when the options are not a dict, and when they name `self` |
| `Strategies.CreateStrategy` | patternLab4/src/output_strategy.py:133-141 | unknown type gives `ValueError`; options that are not keyword arguments give `TypeError`; a Kafka or Redis connection failure gives the exit path; otherwise a fresh sink of the chosen variant with the options or their defaults |
| `Strategies.OutputData` | patternLab4/src/output_strategy.py:11-13 | `output_data` on any variant does what that variant's method promises; only Redis raises, exactly on a failing closing execute |
| `Strategies.Close` | patternLab4/src/output_strategy.py:15-17 | `close` on any variant never raises; console output is unchanged; the Redis store, pipeline and execute count are unchanged |
| `Driver.SelectedStrategy` | patternLab4/src/main.py:30 | the command-line strategy when given, otherwise the configured one |
| `Driver.Deliver` | patternLab4/src/main.py:58-64 | a failing factory call gives exit 1 with nothing written; otherwise `output_data` runs, then `close` unless it raised, with exit 1 exactly when it raised |
| `Driver.Run` | patternLab4/src/main.py:19-67 | exit code and ordered trace for every outcome (see below); the sink receives every record in order |

`Driver.Run` states the following exit codes and traces:

- A missing `--config` path returns 1 with nothing done.
- An unreadable configuration returns 1 after the read only.
- The download happens exactly when the data file is absent. A failed download returns 1 before any load.
- A failed load returns 1.
- `--download-only` returns 0 after the load, with no sink.
- A failure in `get_output_config` or in the factory returns 1 without output. The factory is called only if `get_output_config` succeeded.
- Otherwise `output_data` runs, and then `close` runs unless `output_data` raised. The exit code is 1 exactly when it raised and 0 otherwise.

## Left out

- `data_processor.py`: the HTTP download, CSV parsing through pandas, the `max_rows` limit and `to_dict`. The driver receives their outcome as inputs: whether the download succeeds, and the records or a load failure.
- Reading and parsing the settings file, and the default paths derived from `__file__`. The driver receives the parsed document, or the fact that reading it raised.
- argparse, the wording of printed messages and `sys.exit`.
  - The model keeps the structure of what is printed, not its text. Console field lines keep the field name and the `str()` text of the value.
  - A failed connection becomes a failure result that the driver turns into exit code 1.
- The network clients (`KafkaProducer`, `redis.Redis`, pipeline internals) and the 10-second acknowledgement timeout. Their outcomes are the oracle in `Transport.Faults`.
- What reaches the Kafka broker when a send raises or is not acknowledged. The model records the `send` call and the printed error.
- The text produced by `json.dumps`. The model keeps it abstract as `Dumps(record)`.
- Values.ShowJson: `str()` of a JSON array or object, which could only arise as a configured `key_prefix`, is a fixed placeholder text rather than Python's rendering.
- Floating-point numbers other than NaN. This covers table cells, such as an `INCIDENT_DISPATCH_ID` read as a float, and numbers in the settings document, such as `"db": 0.5` or a float `key_prefix`; `Values.Json` cannot represent them.
- RedisOutput.OutputSound: when a periodic execute fails, the model states only which values the store may hold, not exactly which batches reached it. The exact store contents are proved only when no execute that runs fails (`RedisOutput.StoredWrites`, `RedisOutput.LastRecordWins`).
- The kind of exception a failing execute raises, and any partial application of a transaction by the server. A failed execute applies none of its writes in the model.
