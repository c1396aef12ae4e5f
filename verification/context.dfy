/**
 * The validation context: one `validate` call looks the schema up, runs its
 * validator, records an event in the per-schema history, notifies every
 * attached listener, and returns the record or fails.
 *
 * Every context is bound to the one schema registry; since the registry is
 * a value here, `Validate` takes its current contents as a parameter. The
 * states of MetricsListener objects live in a `Heap`, so that attaching the
 * same object twice makes it count each event twice, as in the source.
 */
module ValidationContext {
  import opened Outcomes
  import opened Events
  import opened Listeners
  import SchemaRegistry

  /** The context id used when none is given. */
  const DefaultContextId: string := "schema_validation"

  /** Events recorded so far, per schema name, oldest first. */
  type History = map<string, seq<Event>>

  /** A context: its id label, its validation history, its listeners in attachment order. */
  datatype Context = Context(contextId: string, history: History, listeners: seq<Listener>)

  /** The messages of a rejection; a validator always reports at least one. */
  type ErrorList = s: seq<string> | |s| > 0 witness [""]

  /** What a validator says about some data: the validated record, or why it was rejected. */
  datatype Verdict<+R> = Valid(record: R) | Invalid(messages: ErrorList)

  /** The effect of notifying every listener of one event. */
  datatype Notified = Notified(heap: Heap, log: seq<LogRecord>)

  /** The effect of one `validate` call: the new context and listener states, its outcome and its log lines. */
  datatype Step<+R> = Step(context: Context, heap: Heap, outcome: Result<R, Error>, log: seq<LogRecord>)

  /**
   * `create_context`: a context bound to the registry, with the given id
   * (by default "schema_validation"), no history and no listeners.
   */
  function CreateContext(contextId: string := DefaultContextId): (c: Context)
    ensures c.contextId == contextId
    ensures c.history == map[]
    ensures c.listeners == []
  {
    Context(contextId, map[], [])
  }

  /** `add_listener`: attaches at the end, without checking for duplicates. */
  function AddListener(ctx: Context, l: Listener): (c: Context)
    ensures c.listeners == ctx.listeners + [l]
    ensures c.history == ctx.history && c.contextId == ctx.contextId
  {
    ctx.(listeners := ctx.listeners + [l])
  }

  /** The events recorded for `name`; none when the name was never validated. */
  function Recorded(history: History, name: string): seq<Event> {
    if name in history then history[name] else []
  }

  /** Appends `e` to the history of its schema, creating that history if needed. */
  function Record(history: History, e: Event): (h: History)
    ensures h.Keys == history.Keys + {e.schemaName}
    ensures h[e.schemaName] == Recorded(history, e.schemaName) + [e]
    ensures forall n :: n in history && n != e.schemaName ==> h[n] == history[n]
  {
    history[e.schemaName := Recorded(history, e.schemaName) + [e]]
  }

  /** `after` only appends: every schema's old events are a prefix of its new ones. */
  ghost predicate Extends(before: History, after: History) {
    forall n :: n in before ==> n in after && before[n] <= after[n]
  }

  /** The log line written when a listener raises. */
  function ListenerError(reason: string): LogRecord {
    LogRecord(ErrorLevel, "Error in event listener: " + reason)
  }

  /**
   * The log lines one event produces, listener by listener in attachment
   * order, independent of any listener's state.
   */
  function Transcript(listeners: seq<Listener>, e: Event): seq<LogRecord>
    decreases |listeners|
  {
    if listeners == [] then []
    else
      var own := match listeners[0]
        case Metrics(_) => []
        case Logging => Lines(LoggingOnEvent(e))
        case Raising(reason) => [ListenerError(reason)];
      own + Transcript(listeners[1..], e)
  }

  /**
   * `notify_event`: every listener receives the event in attachment order; a
   * listener that raises is logged and skipped. Each MetricsListener object
   * ends up having counted the event once per attachment, and the log is
   * the transcript of all listeners.
   */
  function Notify(listeners: seq<Listener>, heap: Heap, e: Event): (n: Notified)
    requires Live(listeners, heap)
    ensures n.heap.Keys == heap.Keys
    ensures forall id :: id in heap ==> n.heap[id] == Repeat(heap[id], e, Occurrences(listeners, id))
    ensures n.log == Transcript(listeners, e)
    decreases |listeners|
  {
    if listeners == [] then Notified(heap, [])
    else
      match OnEvent(listeners[0], heap, e)
      case Raised(reason) =>
        var rest := Notify(listeners[1..], heap, e);
        Notified(rest.heap, [ListenerError(reason)] + rest.log)
      case Handled(heap', log) =>
        var rest := Notify(listeners[1..], heap', e);
        Notified(rest.heap, log + rest.log)
  }

  /**
   * `validate`. An unknown name fails before anything happens. Otherwise the
   * validator runs, exactly one event is appended to that schema's history
   * and broadcast to every listener, and the call returns the validator's
   * record or fails with the schema name and the validator's messages.
   */
  function Validate<V, D, R>(
    schemas: SchemaRegistry.Schemas<V>, run: (V, D) -> Verdict<R>,
    ctx: Context, heap: Heap, name: string, data: D, metadata: Option<Metadata>): (s: Step<R>)
    requires Live(ctx.listeners, heap)
    // An unregistered name: the lookup error, and nothing else changes.
    ensures name !in schemas ==> s == Step(ctx, heap, Err(NotRegistered(name)), [])
    // The context keeps its id and listeners; its history only grows.
    ensures s.context.contextId == ctx.contextId && s.context.listeners == ctx.listeners
    ensures Extends(ctx.history, s.context.history)
    ensures s.context.history.Keys == ctx.history.Keys + (if name in schemas then {name} else {})
    ensures forall n :: n != name ==> Recorded(s.context.history, n) == Recorded(ctx.history, n)
    // A registered name: one event more, describing the verdict, and the matching outcome.
    ensures name in schemas ==>
      name in s.context.history && |s.context.history[name]| == |Recorded(ctx.history, name)| + 1
    ensures name in schemas ==>
      var h := s.context.history[name];
      var e := h[|h| - 1];
      var verdict := run(schemas[name], data);
      && h == Recorded(ctx.history, name) + [e]
      && e.eventType == SchemaValidationType && e.schemaName == name
      && e.context == metadata.GetOr(map[])
      && (e.success <==> verdict.Valid?)
      && (verdict.Valid? ==> e.errors == [] && s.outcome == Ok(verdict.record))
      && (verdict.Invalid? ==>
            e.errors == verdict.messages && s.outcome == Err(ValidationFailed(name, verdict.messages)))
      // Every listener saw that event, once per attachment.
      && s.heap.Keys == heap.Keys
      && (forall id :: id in heap ==> s.heap[id] == Repeat(heap[id], e, Occurrences(ctx.listeners, id)))
      && s.log == Transcript(ctx.listeners, e)
  {
    match SchemaRegistry.Get(schemas, name)
    case Err(err) => Step(ctx, heap, Err(err), [])
    case Ok(validator) =>
      match run(validator, data)
      case Valid(record) =>
        var e := NewEvent(name, true, None, metadata);
        var n := Notify(ctx.listeners, heap, e);
        Step(ctx.(history := Record(ctx.history, e)), n.heap, Ok(record), n.log)
      case Invalid(messages) =>
        var e := NewEvent(name, false, Some(messages), metadata);
        var n := Notify(ctx.listeners, heap, e);
        Step(ctx.(history := Record(ctx.history, e)), n.heap, Err(ValidationFailed(name, messages)), n.log)
  }

  /**
   * `get_validation_history`: a non-empty name gives a one-entry mapping
   * holding that schema's events (none for a schema never validated); no
   * name, or the empty name, gives the whole history.
   */
  function GetValidationHistory(ctx: Context, name: Option<string>): (r: History)
    ensures (name.None? || name.value == "") ==> r == ctx.history
    ensures name.Some? && name.value != "" ==>
      r.Keys == {name.value} && r[name.value] == Recorded(ctx.history, name.value)
  {
    if name.Some? && name.value != "" then map[name.value := Recorded(ctx.history, name.value)]
    else ctx.history
  }

  /** Listeners are heard in attachment order: the log of a concatenation is the concatenation of the logs. */
  lemma {:induction false} TranscriptAppend(a: seq<Listener>, b: seq<Listener>, e: Event)
    ensures Transcript(a + b, e) == Transcript(a, e) + Transcript(b, e)
    decreases |a|
  {
    if a == [] {
      assert a + b == b;
    } else {
      assert (a + b)[1..] == a[1..] + b;
      TranscriptAppend(a[1..], b, e);
    }
  }

  /**
   * Listener isolation: a listener that raises, wherever it is attached,
   * leaves every MetricsListener exactly as if it were absent and adds only
   * its own error line; the listeners after it are still notified.
   */
  lemma RaisingListenerIsolated(a: seq<Listener>, b: seq<Listener>, reason: string, heap: Heap, e: Event)
    requires Live(a + b, heap)
    ensures Live(a + [Raising(reason)] + b, heap)
    ensures Notify(a + [Raising(reason)] + b, heap, e).heap == Notify(a + b, heap, e).heap
    ensures Notify(a + [Raising(reason)] + b, heap, e).log
         == Transcript(a, e) + [ListenerError(reason)] + Transcript(b, e)
  {
    var ls := a + [Raising(reason)] + b;
    forall i | 0 <= i < |ls| && ls[i].Metrics?
      ensures ls[i].id in heap
    {
      if i < |a| {
        assert ls[i] == (a + b)[i];
      } else {
        assert ls[i] == (a + b)[i - 1];
      }
    }
    forall id | id in heap
      ensures Occurrences(ls, id) == Occurrences(a + b, id)
    {
      OccurrencesAppend(a + [Raising(reason)], b, id);
      OccurrencesAppend(a, [Raising(reason)], id);
      OccurrencesAppend(a, b, id);
    }
    TranscriptAppend(a + [Raising(reason)], b, e);
    TranscriptAppend(a, [Raising(reason)], e);
  }

  /** Attaching a live MetricsListener keeps the listeners live and adds one attachment of it. */
  lemma AttachMetrics(ctx: Context, heap: Heap, id: ListenerId)
    requires Live(ctx.listeners, heap) && id in heap
    ensures Live(AddListener(ctx, Metrics(id)).listeners, heap)
    ensures Occurrences(AddListener(ctx, Metrics(id)).listeners, id) == Occurrences(ctx.listeners, id) + 1
  {
    var ls := AddListener(ctx, Metrics(id)).listeners;
    forall i | 0 <= i < |ls| && ls[i].Metrics?
      ensures ls[i].id in heap
    {
      if i < |ctx.listeners| {
        assert ls[i] == ctx.listeners[i];
      }
    }
    OccurrencesAppend(ctx.listeners, [Metrics(id)], id);
    assert [Metrics(id)][1..] == [];
  }

  /**
   * `add_listener` does not de-duplicate: a MetricsListener attached twice
   * more counts every validation of a registered schema twice more.
   */
  lemma DuplicateListenerCountsTwice<V, D, R>(
    schemas: SchemaRegistry.Schemas<V>, run: (V, D) -> Verdict<R>,
    ctx: Context, heap: Heap, id: ListenerId, name: string, data: D, metadata: Option<Metadata>)
    requires Live(ctx.listeners, heap) && id in heap && name in schemas
    ensures var twice := AddListener(AddListener(ctx, Metrics(id)), Metrics(id));
      Live(twice.listeners, heap)
      && Validate(schemas, run, twice, heap, name, data, metadata).heap[id].total
         == heap[id].total + Occurrences(ctx.listeners, id) + 2
  {
    var once := AddListener(ctx, Metrics(id));
    AttachMetrics(ctx, heap, id);
    AttachMetrics(once, heap, id);
    var twice := AddListener(once, Metrics(id));
    var s := Validate(schemas, run, twice, heap, name, data, metadata);
    var h := s.context.history[name];
    RepeatCounts(heap[id], h[|h| - 1], Occurrences(twice.listeners, id));
  }

  /**
   * Listener isolation for `validate`: its outcome and the history it
   * records are the same whatever listeners are attached and whatever state
   * they are in.
   */
  lemma ValidateIgnoresListeners<V, D, R>(
    schemas: SchemaRegistry.Schemas<V>, run: (V, D) -> Verdict<R>,
    ctx: Context, heap: Heap, others: seq<Listener>, otherHeap: Heap,
    name: string, data: D, metadata: Option<Metadata>)
    requires Live(ctx.listeners, heap) && Live(others, otherHeap)
    ensures var s1 := Validate(schemas, run, ctx, heap, name, data, metadata);
      var s2 := Validate(schemas, run, ctx.(listeners := others), otherHeap, name, data, metadata);
      s1.outcome == s2.outcome && s1.context.history == s2.context.history
  {
  }

  /**
   * Inspecting one schema's history after `validate` shows exactly one more
   * event for the validated schema and the same events for every other one.
   */
  lemma HistoryViewAfterValidate<V, D, R>(
    schemas: SchemaRegistry.Schemas<V>, run: (V, D) -> Verdict<R>,
    ctx: Context, heap: Heap, name: string, data: D, metadata: Option<Metadata>, other: string)
    requires Live(ctx.listeners, heap) && name != "" && other != ""
    ensures var s := Validate(schemas, run, ctx, heap, name, data, metadata);
      var before := GetValidationHistory(ctx, Some(name))[name];
      var after := GetValidationHistory(s.context, Some(name))[name];
      && (name in schemas ==> before <= after && |after| == |before| + 1)
      && (name !in schemas ==> after == before)
      && (other != name ==>
            GetValidationHistory(s.context, Some(other)) == GetValidationHistory(ctx, Some(other)))
  {
  }

  /**
   * A MetricsListener attached once agrees with the history: one entry per
   * validated schema, tallying exactly that schema's recorded events.
   */
  ghost predicate Mirrors(stats: Stats, history: History) {
    && Consistent(stats)
    && stats.schemas.Keys == history.Keys
    && forall n :: n in history ==> stats.schemas[n] == Tally(history[n])
  }

  /** A fresh context and a fresh MetricsListener agree. */
  lemma FreshContextMirrored(contextId: string)
    ensures Mirrors(NewMetrics(), CreateContext(contextId).history)
  {
    NewMetricsConsistent();
  }

  /** `validate` keeps a once-attached MetricsListener in agreement with the history. */
  lemma ValidateKeepsMetricsMirrored<V, D, R>(
    schemas: SchemaRegistry.Schemas<V>, run: (V, D) -> Verdict<R>,
    ctx: Context, heap: Heap, id: ListenerId, name: string, data: D, metadata: Option<Metadata>)
    requires Live(ctx.listeners, heap) && id in heap
    requires Occurrences(ctx.listeners, id) == 1
    requires Mirrors(heap[id], ctx.history)
    ensures var s := Validate(schemas, run, ctx, heap, name, data, metadata);
      id in s.heap && Mirrors(s.heap[id], s.context.history)
  {
    var s := Validate(schemas, run, ctx, heap, name, data, metadata);
    if name in schemas {
      var h := s.context.history[name];
      var e := h[|h| - 1];
      var before := heap[id];
      assert s.heap[id] == MetricsOnEvent(before, e);
      MetricsOnEventConsistent(before, e);
      TallySnoc(Recorded(ctx.history, name), e);
      assert CountsFor(before, name) == Tally(Recorded(ctx.history, name));
      forall n | n in s.context.history
        ensures s.heap[id].schemas[n] == Tally(s.context.history[n])
      {
        if n != name {
          assert Recorded(s.context.history, n) == Recorded(ctx.history, n);
        }
      }
    }
  }
}
