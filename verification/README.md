# Schema registry — a Dafny model

This project models a small in-process schema registry. A registry maps schema
names to validator definitions. A validation context runs one validation at a
time:

1. it looks the schema up;
2. it runs the validator;
3. it records a `SchemaValidationEvent` in a per-schema, append-only history;
4. it notifies every attached listener in attachment order, isolating each
   listener's failures;
5. it returns the validated record, or fails with the schema name and the
   validator's messages.

Two listeners ship with the library. The metrics listener keeps global and
per-schema success and failure counters. The logging listener picks a log
level and writes a message.

The model is functional. The registry, history, events and counters are
immutable values, and every operation returns the new state.

- `outcomes.dfy` — `Option`, `Result`, and the two caller-visible failures:
  `NotRegistered` and `ValidationFailed`.
- `registry.dfy` — `SchemaRegistry`: register, get and list on a
  `map<string, V>`. `V` is the opaque validator definition.
- `events.dfy` — `Events`: the event record and its constructor defaults.
- `listeners.dfy` — `Listeners`:
  - the metrics listener as a counter state machine, with its consistency
    invariant (global and per-schema totals add up) and an accuracy theorem
    over any sequence of events;
  - the logging listener's level and message choice;
  - the dispatch of one event to one listener.
- `context.dfy` — `ValidationContext`: context creation, `add_listener`,
  `notify_event`, `validate`, `get_validation_history`, plus lemmas on
  isolation, ordering, duplicates and agreement between metrics and history.
- `scenarios.dfy` — `Scenarios`: the repository's test flows replayed with a
  concrete "user" validator. Unlike the tests, each context also attaches a
  listener that always raises, ahead of the metrics listener, so the same
  flows show listener isolation too.

Design choices:

- **The registry is passed to `Validate`.** The source keeps one
  class-level registry, and every context reads it live. So `Validate` takes
  the registry's current contents as a parameter instead of copying it into
  the context. A registration made after `create_context` is therefore seen,
  as in the source.
- **Listeners have identities.** In the source, listeners are objects. If
  the same `MetricsListener` is attached twice, it counts every event twice.
  So a listener here is `Metrics(id)`, `Logging`, or `Raising(reason)`:
  - `Metrics(id)` points into a `Heap` that holds the state of every metrics
    object;
  - `Raising(reason)` is an observer whose `on_event` always raises.

  `Live` requires every attached metrics listener to exist in the heap, just
  as a Python reference always points to an object.
- **The validator is a parameter.** It is a function
  `run: (V, D) -> Verdict<R>`. It returns either `Valid(record)` or
  `Invalid(messages)`, and `messages` is never empty.
- **Log output is a return value.** It is a sequence of `LogRecord`
  (level, message), returned by `Notify` and `Validate`.

The code differs from a plain reading of its interface in two places. This
model follows the code:

- `get_validation_history` tests its argument for truthiness, so the empty
  name returns the whole history, just like no name.
- The lookup's `ValueError` is not caught by `validate`'s
  `except ValidationError`. So an unknown name fails before any event
  exists, and nothing is recorded or notified.

## Model

| member | source | states |
|---|---|---|
| Outcomes.NotRegisteredMessage | schema_registry/registry.py:19 | the not-registered message is "Schema '", then the name, then "' not registered", so its length is the name's plus 24 |
| Outcomes.NotRegisteredMessageInjective | schema_registry/registry.py:18-19 | the not-registered message determines the schema name: two names with the same message are the same name |
| SchemaRegistry.Register | schema_registry/registry.py:11-13 | after registering, the name is bound to the new validator; the key set gains exactly that name; every other binding is unchanged |
| SchemaRegistry.Get | schema_registry/registry.py:15-20 | lookup succeeds exactly when the name is registered and then returns its validator; otherwise it fails with NotRegistered carrying that name |
| SchemaRegistry.ListSchemas | schema_registry/registry.py:22-25 | the listing holds exactly the names `get` resolves, each bound to the validator `get` returns |
| SchemaRegistry.GetAfterRegister | schema_registry/registry.py:11-20 | a registration is visible to the next `get` of that name |
| SchemaRegistry.RegisterLeavesOthers | schema_registry/registry.py:13 | registering one name leaves the lookup of every other name unchanged |
| SchemaRegistry.RegisterLastWins | schema_registry/registry.py:13 | re-registering overwrites (last wins); repeating a registration, or re-registering the current binding, leaves the registry unchanged |
| SchemaRegistry.RegisterAllSize | test_schema_registry.py:29-41 | registering k distinct fresh names adds exactly those names, so the listing grows by k |
| Events.NewEvent | schema_registry/context.py:14-26 | an event is tagged "schema_validation", keeps its name and outcome, and takes the empty error list or empty context when given none |
| Listeners.NewMetrics | schema_registry/listeners.py:21-25 | a fresh metrics listener has all three counters at zero and no per-schema entries |
| Listeners.NewMetricsConsistent | schema_registry/listeners.py:21-25 | a fresh metrics listener satisfies the counter invariant |
| Listeners.MetricsOnEvent | schema_registry/listeners.py:27-45 | a schema-validation event adds one to the total and to exactly one of successful or failed; its schema's entry is created at zero if new and gains the same increments; other entries are unchanged; other event types change nothing |
| Listeners.MetricsOnEventConsistent | schema_registry/listeners.py:27-45 | every event preserves the invariant: total = successful + failed, each entry's total = success + failure, and each column of the per-schema entries sums to the matching global counter |
| Listeners.RepeatCounts | schema_registry/listeners.py:27-45 | receiving one event k times adds k to the total, to the matching outcome counter, and to its schema's entry total |
| Listeners.ReplayConsistent | schema_registry/listeners.py:27-45 | the counter invariant holds after any sequence of events |
| Listeners.FreshMetricsStayConsistent | schema_registry/listeners.py:21-45 | a fresh listener stays consistent whatever events it receives |
| Listeners.ReplayCounters | schema_registry/listeners.py:29-45 | after any event sequence, successful and failed equal the number of successful and failed schema-validation events, and total is their sum |
| Listeners.ReplaySchemas | schema_registry/listeners.py:31-45 | after any event sequence, a schema has an entry exactly when at least one of its events was received (in both directions), and each entry tallies exactly that schema's events |
| Listeners.MetricsAccuracy | schema_registry/listeners.py:47-53 | the statistics reflect every event received: N successes and M failures in any interleaving read N+M, N, M, per-schema entries sum consistently, and each schema is tallied exactly |
| Listeners.JoinAppend | schema_registry/listeners.py:15 | joining one more error appends the separator and that error |
| Listeners.FailureMessageAppend | schema_registry/listeners.py:13-16 | the error-level message for one more error is the shorter message followed by ", " and that error |
| Listeners.LoggingOnEvent | schema_registry/listeners.py:8-16 | a schema-validation event yields one record: info level exactly on success, naming the schema, and on failure ending with the errors joined by ", "; other events yield nothing |
| Listeners.AllocMetrics | schema_registry/listeners.py:21-25 | constructing a metrics listener under a new identity creates zeroed counters and leaves every other listener's state unchanged |
| Listeners.OccurrencesAppend | schema_registry/context.py:38-40 | attachments of a listener in concatenated lists add up |
| Listeners.OnEvent | schema_registry/listeners.py:8-45 | only the raising observer raises; a metrics listener updates its own state and no other; the logging listener changes no state and emits its record |
| ValidationContext.CreateContext | schema_registry/registry.py:27-30 | a new context has the given id (by default "schema_validation"), an empty history map and no listeners |
| ValidationContext.Record | schema_registry/context.py:56-58 | appending an event creates its schema's history if absent and puts the event at the end; the key set gains only that schema and every other schema's history is unchanged |
| ValidationContext.AddListener | schema_registry/context.py:38-40 | the listener is appended at the end with no de-duplication; history and id are unchanged |
| ValidationContext.Notify | schema_registry/context.py:87-93 | each listener is notified in order and a raising one is skipped: every metrics object has counted the event once per attachment, and the log is every listener's output in attachment order, independent of listener state |
| ValidationContext.Validate | schema_registry/context.py:42-85 | an unknown name fails with NotRegistered and changes nothing; otherwise exactly one event is appended to that schema's history and no other history changes; the event reflects the verdict, and every listener saw it once per attachment; the call returns the validator's record, or fails with the schema name and the validator's messages |
| ValidationContext.GetValidationHistory | schema_registry/context.py:95-99 | a non-empty name gives a one-entry map with that schema's events (empty if never validated); no name or the empty name gives the full history |
| ValidationContext.TranscriptAppend | schema_registry/context.py:89-93 | notification output follows attachment order: the log for a concatenated list is the concatenation of the logs |
| ValidationContext.RaisingListenerIsolated | schema_registry/context.py:87-93 | a raising listener anywhere in the list leaves all metrics exactly as if it were absent, adds only its own error line, and listeners after it are still notified |
| ValidationContext.AttachMetrics | schema_registry/context.py:38-40 | attaching an existing metrics listener adds one attachment and keeps every listener live |
| ValidationContext.DuplicateListenerCountsTwice | schema_registry/context.py:38-40 | a metrics listener attached twice more counts each validation of a registered schema twice more |
| ValidationContext.ValidateIgnoresListeners | schema_registry/context.py:42-93 | the outcome and the recorded history are the same whatever listeners are attached and whatever their state |
| ValidationContext.HistoryViewAfterValidate | schema_registry/context.py:95-99 | after validate, the view of the validated schema grows by exactly one event at its end (or is unchanged for an unknown name); every other schema's view is unchanged |
| ValidationContext.FreshContextMirrored | schema_registry/context.py:31-36 | a fresh context and a fresh metrics listener agree |
| ValidationContext.ValidateKeepsMetricsMirrored | schema_registry/context.py:42-82 | validate keeps a once-attached metrics listener in agreement with the history: one entry per validated schema, tallying exactly its recorded successes and failures |
| Scenarios.CheckFields | test_schema_registry.py:11-14 | the stand-in "user" validator accepts exactly the data carrying every required field, and returns it unchanged |
| Scenarios.RegisterAndGetScenario | test_schema_registry.py:24-45 | after registering "user" and "product", both resolve, the listing has two entries, and "nonexistent" fails with NotRegistered, whose message is "Schema 'nonexistent' not registered" |
| Scenarios.NonexistentMessage | schema_registry/registry.py:19 | the not-registered message for "nonexistent" is exactly the text the test matches |
| Scenarios.UserVerdicts | test_schema_registry.py:62-105 | the valid user record is accepted; the record with only a username is rejected for the missing email and age |
| Scenarios.SuccessScenario | test_schema_registry.py:47-87 | with a raising listener ahead of the metrics listener, a valid record is returned; the full history holds "user" with one success event whose schema name is "user"; the statistics read 1, 1, 0 with "user" at 1, 1, 0 |
| Scenarios.FailureScenario | test_schema_registry.py:89-126 | on a fresh context, with a raising listener ahead of the metrics listener, the invalid record fails with the missing email and age; one failure event for "user" with non-empty errors is recorded; the statistics read 1, 0, 1 with "user" at 1, 0, 1 |
| Scenarios.SuccessThenFailureScenario | schema_registry/listeners.py:27-53 | a valid then an invalid record on one context: the second call fails with the missing fields, the history holds a success then a failure, and the statistics read 2, 1, 1 with "user" at 2, 1, 1 |

## Left out

- Pydantic model instantiation and the stringification of its errors are not
  modelled. They become the validator parameter `run`, whose rejection
  carries a non-empty list of messages.
- The re-raise as `ValidationError(message, raw_errors)`, and the text of its
  message (a Python list repr), are not modelled. The failure is the uniform
  `ValidationFailed(schemaName, errors)`.
- Exceptions other than a validation rejection, raised by a validator, simply
  propagate in the source. They are not modelled.
- Event timestamps (`datetime.now()`) and the log time (`get_ist_datetime()`)
  are not modelled, because they read the wall clock.
- Listeners.LoggingOnEvent: the message omits the " at <time>" part. The
  contract states the level, the schema-name prefix and the joined-errors
  suffix, not the whole text.
- Writing log records is I/O. The model returns the records instead.
- The host state-machine framework (`GenericStateMachine`, `StateContext`,
  `InteractionEventListener`) is not modelled. The context keeps only its id
  label.
- The source returns its live internal dictionaries from `list_schemas`,
  `get_validation_history` and `get_stats`, so callers can alias them. Here
  they are values. Calling `get_validation_history` twice is therefore
  trivially idempotent, and reading state never mutates it.
- Metadata values are modelled as strings, because the core never inspects
  them.
- A listener whose `on_event` raises part-way through an update could leave
  partial state in the source. None of the shipped listeners does this. The
  always-raising observer here has no state.
- `schema_registry/__init__.py` only re-exports names, so it is not modelled.
