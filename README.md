# eventstream Kafka client core, in Dafny

A model of the sequential core of `kafka.go`, the Kafka client of the
eventstream Go SDK. It covers:

- **Subscriber registry** (`Client.KafkaClient`): a set of subscription
  handles, the `SubscribeBuilder` objects themselves. `registerSubscriber`
  scans the set and then inserts; `unregister` deletes. The dedup rule turns a
  request away only when it has an empty group id and an entry already has its
  topic and event name. Keys are object identities, so two builders with equal
  fields are two entries. The registry is sometimes described as keyed by
  (topic, event name); the code keys it by builder pointer, and the model
  follows the code.
- **Consume loop** (`Consumer`, `Client.KafkaClient.ConsumeLoop`): the
  goroutine that `Register` starts. Reads are abstracted into a finite
  sequence of outcomes: `CancelledAtCheck`, `ReadError` and `Record`.
  `Consumer.Consume` specifies the loop as a function of that sequence.
  `ConsumeLoop` is the imperative loop proved equal to it, and it unregisters
  its own handle on either exit (the deferred `unregister`). If the sequence
  ends before a terminating outcome, the exit is `Running`: the loop would
  still be reading, and the handle stays registered. Only a cancellation seen
  by the `select` (kafka.go:296-297) reaches the callback. A cancellation
  that arrives while `ReadMessage` blocks (kafka.go:300) ends that read with
  the context's error. The loop then takes the read-error exit at
  kafka.go:301-303, logs, and returns without calling the callback. The
  model represents this as `ReadError(ctxErr)` (`Consumer.CancelledDuringRead`).
  So the promise that the callback hears of every cancellation exactly once
  holds only for `CancelledAtCheck`.
- **Publish** (`Publisher.Publish`): the synchronous error ladder (nil
  builder, validation error, construction error), then one delivery job per
  topic, in list order. `CompleteJob` gives a job's error-callback rule once
  its retries have finished.
- **ConstructEvent** (`Events.ConstructEvent`): copies the builder's fields
  into the envelope, sets the generated id and the timestamp, and produces the
  message. The message key is the UTF-8 bytes of the id (`Utf8.Encode`); a
  decoder and its round-trip lemma show that distinct ids give distinct keys.
- **Configuration** (`Config`): `setConfig` mutates the writer and reader
  configurations, modelled as classes. `setLogLevel` is a pure mapping from a
  mode to a log effect. Durations are naturals, and 0 means "not set".

Collaborators defined outside `kafka.go` are parameters of the members that
use them:

- `validatePublishEvent` and `validateSubscribeEvent`: `PublishValidator` and
  `SubscribeValidator`.
- `marshal`: `Marshaller`.
- `json.Unmarshal`: `Decoder`.
- `generateID()` and the clock: the `id` and `timestamp` arguments.
- `ctx.Err()`: the `ctxErr` argument.

## Model

| member | source | states |
|---|---|---|
| `Client.KafkaClient.constructor` | kafka.go:129 | a new client starts with an empty registry |
| `Client.KafkaClient.RegisterSubscriber` | kafka.go:315-332 | the result is true exactly when the request has an empty group id and some entry has its topic and event name; in that case the set is unchanged, otherwise exactly the new handle is added; the error is always nil |
| `Client.IsDuplicate` | kafka.go:321-326 | a duplicate needs an empty group id and an entry with the same topic and event name, and a request without a group id is one exactly when such an entry exists |
| `Client.GroupedNeverDuplicate` | kafka.go:322-326 | a request with a non-empty group id is never a duplicate, even of an entry equal to it in every field |
| `Client.KafkaClient.Unregister` | kafka.go:245-247 | removes exactly the given handle; other entries unchanged; no-op when absent |
| `Client.AnonymousDuplicateRejected` | kafka.go:321-331 | two anonymous requests for the same topic and event: first admitted, second rejected, one entry |
| `Client.GroupedDuplicatesKept` | kafka.go:321-331 | two requests with identical fields and a non-empty group id: both admitted as two distinct entries |
| `Client.KafkaClient.ConsumeLoop` | kafka.go:289-309 | the callback calls and the exit equal the specification `Consumer.Consume`; after a cancellation or read error the handle is gone from the registry and nothing else changed; the outcomes looked at are exactly those up to and including the terminating one |
| `Client.KafkaClient.Register` | kafka.go:250-312 | nil builder gives errSubNilEvent; a validation error is returned as is; a duplicate gives the "already registered" error; in all three no loop starts and the registry is unchanged; otherwise nil is returned, the loop runs as specified, and the handle stays registered exactly while the loop runs |
| `Consumer.RunCallback` | kafka.go:373-394 | the callback gets an event equal in every field to the decoded one, and a nil error |
| `Consumer.ProcessMessage` | kafka.go:338-349 | there is a callback call exactly when the message decodes and the filter is empty or equals the decoded event name; that call carries the decoded event; otherwise the message is skipped |
| `Consumer.FirstTerminal` | kafka.go:294-304 | the index of the first outcome that is not a record, or the length if every outcome is a record |
| `Consumer.Consume` | kafka.go:289-309 | the loop exits only at the first terminating outcome; it is still running exactly when every outcome was a record, and it makes at most one call per outcome it looked at |
| `Consumer.FirstTerminalIs` | kafka.go:294-304 | that index is unique: it is the only index with every earlier outcome a record and a non-record at it |
| `Consumer.Deliveries` | kafka.go:300-306 | a run of records causes no more calls than it has records, each with an event that passed the filter and a nil error |
| `Consumer.DeliveriesUnfold` | kafka.go:300-306 | the calls of a run of records are those of its front followed by those of its last record |
| `Consumer.DeliveredIff` | kafka.go:338-349 | an event is delivered exactly when it passes the filter and some record in the run decodes to it |
| `Consumer.CancelledDuringRead` | kafka.go:300-303 | a cancellation that ends a blocking read, seen as a read error carrying the context's error, exits as Failed with that error; the callback gets only the earlier deliveries and no nil-event call |
| `Consumer.EmptyFilterDeliversEveryDecoded` | kafka.go:344-349 | with an empty filter, every record that decodes is delivered, whatever its event name |
| `Consumer.CallbacksPassFilter` | kafka.go:344-347 | no callback call carries an event that fails the filter |
| `Consumer.CancellationReportedOnce` | kafka.go:296-303 | on cancellation the last call, and only that call, has a nil event and the context's error; every other call has an event and a nil error, so a read error never reaches the callback |
| `Consumer.FirstTerminalOfExtension` | kafka.go:294-304 | outcomes after the first terminating one do not move it |
| `Consumer.NothingAfterTermination` | kafka.go:297-303 | once the loop has exited, appending further outcomes changes neither the calls nor the exit |
| `Publisher.Publish` | kafka.go:134-181 | nil builder gives errPubNilEvent; a validation error is returned as is; a construct error is returned wrapped with the event name; in all three no job is created; otherwise nil and exactly one job per topic, in order, each tagged with its topic and carrying the one constructed message and event |
| `Publisher.CompleteJob` | kafka.go:164-176 | the error callback is called, at most once, with the job's event and the final error, exactly when retries gave up and a callback is present |
| `Publisher.JobCallbacks` | kafka.go:168-172 | a finished job makes at most one error-callback call |
| `Publisher.FanOutAppend` | kafka.go:154-178 | the calls of two job lists run together are those of the first list followed by those of the second |
| `Publisher.FanOutSplitsPerJob` | kafka.go:154-178 | for every job i, the fan-out's calls are those of the jobs before it, then job i's own calls, which depend only on its own result, then those of the jobs after it |
| `Publisher.FanOutOneCallPerFailure` | kafka.go:157-172 | with a callback on every job, there is exactly one call per job that gave up, and every call carries the job's event |
| `Events.ConstructEvent` | kafka.go:207-242 | the event has the generated id and the timestamp and carries every builder field; it is returned even when marshalling fails; on success the key is the UTF-8 bytes of the id and the value is the marshalled event; on failure the error is marshal's and the message is empty |
| `Events.ConstructionsDifferOnlyById` | kafka.go:208-210 | two constructions from one builder at one timestamp give equal events exactly when the ids are equal, and, when both constructions succeed, equal keys exactly when the ids are equal |
| `Utf8.Encode` | kafka.go:239 | the bytes of a string are one to four per character |
| `Utf8.DecodeEncode` | kafka.go:239 | decoding the key bytes of an id gives the id back |
| `Utf8.DecodeEncodeScalar` | kafka.go:239 | a single character's encoding is one well-formed sequence that decodes to it |
| `Utf8.EncodeInjective` | kafka.go:239 | two ids have equal key bytes exactly when they are equal |
| `Config.SetLogLevel` | kafka.go:86-99 | exactly the four named modes select a level, and the level's name is the mode; every other value discards output |
| `Config.SetLogLevelOfModeName` | kafka.go:87-95 | each level is selected by its own name |
| `Config.SetConfig` | kafka.go:66-84 | as written: each writer/reader field is unchanged when its configured value is zero; a non-zero read timeout sets the writer's read timeout to the configured write timeout; a non-zero dial timeout gives both configs one new shared dialer; the log effect is that of the mode |
| `Config.ReadTimeoutLost` | kafka.go:67-69 | with read timeout 5 and no write timeout, SetConfig leaves the writer's read timeout at 0 |
| `Config.SetConfigCorrected` | kafka.go:66-84 | as intended: every non-zero timeout reaches its own field, and all else is as in SetConfig |
| `Config.ReadTimeoutKept` | kafka.go:67-69 | the same configuration under the corrected merge keeps read timeout 5 |

## Findings

| source | as written | input that shows it | evidently intended | confidence | as-written member | corrected member |
|---|---|---|---|---|---|---|
| kafka.go:67-69 | when `config.ReadTimeout` is non-zero, `writerConfig.ReadTimeout` gets `config.WriteTimeout` | ReadTimeout 5, WriteTimeout 0: the writer's read timeout becomes 0 and the requested 5 is lost | `writerConfig.ReadTimeout = config.ReadTimeout` | high; not executed | `Config.SetConfig`, `Config.ReadTimeoutLost` | `Config.SetConfigCorrected`, `Config.ReadTimeoutKept` |

No member that models the client calls `SetConfig`, because `newKafkaClient` is left
out. Both versions are therefore kept side by side.

## Left out

- Kafka I/O: the kafka-go `Writer` and `Reader`, `WriteMessages`, `ReadMessage`, `Close`, and connection set-up with the dialer. They are network operations behind a library; only their outcomes appear, as `RetryResult` and `ReadOutcome` inputs.
- `publishEvent` (kafka.go:184-204): one network write to the prefixed topic. Its effect is part of the abstract `RetryResult`.
- `newKafkaClient` (kafka.go:102-131): it sets up the kafka-go configurations, which belong to the library. Of the client's own fields, `strictValidation` appears only as the `strictValidation` argument of `Publisher.Publish`. In the source it is false unless a configuration is passed (kafka.go:117-122). `prefix` matters only to `constructTopic`, which is left out.
- `constructTopic` and `constructGroupID` are not part of this model. They only name the topics and groups given to the writer and reader, which are left out.
- Concurrency: goroutines, the `sync.RWMutex`, and `select` scheduling. Each registry operation is one atomic step. For `registerSubscriber` the source takes the lock (kafka.go:318-319). `unregister` (kafka.go:245-247) takes no lock, so its atomicity is an assumption of this model, not a property of the source. `Register` runs its goroutine to the end of the given outcomes right after inserting, so interleavings with other registrations are not modelled.
- Publisher.FanOutCallbacks: lists a fan-out's error-callback calls in job order only as a representation. In the source each job makes its call from its own goroutine (kafka.go:157, 168-169), so the calls come in no fixed order and may overlap. `FanOutAppend` and `FanOutSplitsPerJob` are about that list; what they say about the program is which calls happen and that each depends on its own job only, not their order.
- Publisher.CompleteJob: each job sees its own retry result. In the source, all goroutines of one `Publish` assign the same captured `err` variable (kafka.go:158), which is a data race; interleavings in which a job reads another job's error are not modelled.
- Client.SubscribeBuilder: freezes `topic`, `eventName` and `groupID` when the builder is made. The source reads them through the `*SubscribeBuilder` pointer each time: the dedup scan reads every live entry (kafka.go:322), and the running loop reads the filter for every message (kafka.go:344). A builder changed after `Register`, which would change later dedup results and the filter, is not modelled.
- Publisher.Publish: does not model aliasing through the builder pointer. Each goroutine reads `publishBuilder.errorCallback` when it finishes (kafka.go:168-169), so a caller that changes the builder after `Publish` returns changes the outcome. `Job.hasErrorCallback` fixes the callback's presence when `Publish` runs.
- Publisher.Publish: does not model `backoff.RetryNotify` with `WithMaxRetries(..., 3)`, i.e. the exponential timing, jitter, or the attempt count, because it is a foreign library. A job's retries are summarised as `Delivered` or `GaveUp(err)`.
- JSON encoding and decoding, `generateID` and `time.Now().UTC().Format(RFC3339)` are inputs: they are foreign or nondeterministic. No uniqueness of ids is claimed. `Events.ConstructionsDifferOnlyById` says only that distinct ids give distinct events and, when both constructions succeed, distinct keys. No round trip between event and JSON is claimed.
- `unmarshal` (kafka.go:353-362) is the `Decoder` itself. The empty event it returns on error is never used, and the model does not carry it.
- Logging: every logrus call is dropped. Only the mode-to-level mapping of `setLogLevel` is kept, returned as a `LogEffect` value instead of a process-wide change.
- The `context.Context` values appear only as the `CancelledAtCheck` outcome and the `ctxErr` error. The callbacks themselves are represented by the list of their invocations and, for the error callback, by its presence.
- Field types of `Event` and of the builders are not part of this model; the model picks strings, ints, a bool, string lists and maps of opaque JSON values. The log-mode constant values `"debug"`, `"info"`, `"warn"` and `"error"` are also assumed.
- Ids, topics, event names and the other strings are Unicode text (`seq<char>`), and a key's bytes are the UTF-8 encoding of that text. A Go string can hold any bytes, so strings that are not valid UTF-8 cannot be represented.
- The text of each error (`Error()`, kafka.go:40-41, 149, 275-279) is not modelled. Errors are told apart by their case and fields only.
- Durations are naturals. Go's `time.Duration` is a signed 64-bit count, so negative values, which the `!= 0` tests would also accept, are not modelled.
