/**
 * The flows of the repository's test suite, replayed on the model with a
 * concrete "user" validator: registering and looking up schemas, a
 * successful and a failed validation each on a fresh context observed by a
 * MetricsListener, and the two chained on one context. Unlike the tests,
 * every context here also attaches a listener that always raises, ahead of
 * the MetricsListener, so each flow shows listener isolation as well.
 */
module Scenarios {
  import opened Outcomes
  import opened Events
  import opened Listeners
  import opened SchemaRegistry
  import opened ValidationContext

  /** Structured input data: field name to field text. */
  type Data = map<string, string>

  /** The field a "user" record must carry. */
  const UserFields: seq<string> := ["username", "email", "age"]

  /** The message for one missing required field. */
  function RequiredMessage(field: string): string {
    "field required: " + field
  }

  /** The messages for the required fields missing from `data`, in field order. */
  function Missing(data: Data, fields: seq<string>): (r: seq<string>)
    ensures |r| <= |fields|
    ensures |r| == 0 <==> forall i :: 0 <= i < |fields| ==> fields[i] in data
    decreases |fields|
  {
    if fields == [] then []
    else (if fields[0] in data then [] else [RequiredMessage(fields[0])]) + Missing(data, fields[1..])
  }

  /**
   * A stand-in for the validator capability: a definition names the fields
   * it requires; data carrying all of them is accepted as is.
   */
  function CheckFields(required: seq<string>, data: Data): (v: Verdict<Data>)
    ensures v.Valid? <==> forall i :: 0 <= i < |required| ==> required[i] in data
    ensures v.Valid? ==> v.record == data
  {
    var missing := Missing(data, required);
    if |missing| == 0 then Valid(data) else Invalid(missing)
  }

  /** Registering "user" and "product" makes both retrievable and lists exactly two schemas. */
  lemma RegisterAndGetScenario()
    ensures var schemas := RegisterAll(map[], [("user", UserFields), ("product", ["id", "name", "price"])]);
      && Get(schemas, "user") == Ok(UserFields)
      && Get(schemas, "product") == Ok(["id", "name", "price"])
      && |ListSchemas(schemas)| == 2
      && "user" in ListSchemas(schemas) && "product" in ListSchemas(schemas)
      && Get(schemas, "nonexistent") == Err(NotRegistered("nonexistent"))
      && NotRegisteredMessage(Get(schemas, "nonexistent").error.name) == "Schema 'nonexistent' not registered"
  {
    var product := ["id", "name", "price"];
    var entries := [("user", UserFields), ("product", product)];
    assert entries[1..] == [("product", product)];
    assert entries[1..][1..] == [];
    var one := Register(map[], "user", UserFields);
    var both := Register(one, "product", product);
    assert RegisterAll(map[], entries) == RegisterAll(one, entries[1..]) == RegisterAll(both, []) == both;
    assert both.Keys == {"user", "product"};
    NonexistentMessage();
  }

  /** The text the test matches for a lookup of "nonexistent". */
  lemma NonexistentMessage()
    ensures NotRegisteredMessage("nonexistent") == "Schema 'nonexistent' not registered"
  {
    var m := NotRegisteredMessage("nonexistent");
    assert |m| == 35;
    forall i | 0 <= i < 35
      ensures m[i] == "Schema 'nonexistent' not registered"[i]
    {
      assert m == "Schema '" + "nonexistent" + "' not registered";
    }
  }

  /** The registry of the validation tests: "user" only. */
  const UserSchemas: Schemas<seq<string>> := Register(map[], "user", UserFields)

  /** A valid and an invalid "user" record. */
  const GoodUser: Data := map["username" := "testuser", "email" := "test@example.com", "age" := "30"]
  const BadUser: Data := map["username" := "testuser"]

  /**
   * A fresh context whose first listener always raises and whose second is
   * MetricsListener 0; the tests attach the MetricsListener only.
   */
  const StartContext: Context := AddListener(AddListener(CreateContext(), Raising("boom")), Metrics(0))
  const StartHeap: Heap := AllocMetrics(map[], 0)

  lemma StartReady()
    ensures StartContext.listeners == [Raising("boom"), Metrics(0)]
    ensures Live(StartContext.listeners, StartHeap)
    ensures Occurrences(StartContext.listeners, 0) == 1
    ensures StartHeap[0] == NewMetrics()
  {
    var ls := StartContext.listeners;
    assert ls == [Raising("boom"), Metrics(0)];
    var tail := [Metrics(0)];
    assert ls[1..] == tail;
    assert tail[1..] == [];
    assert Occurrences(tail, 0) == 1 + Occurrences([], 0);
  }

  /** The "user" validator accepts the valid record and names the two fields missing from the invalid one. */
  lemma UserVerdicts()
    ensures CheckFields(UserFields, GoodUser) == Valid(GoodUser)
    ensures CheckFields(UserFields, BadUser) == Invalid([RequiredMessage("email"), RequiredMessage("age")])
  {
    assert "username" in GoodUser && "email" in GoodUser && "age" in GoodUser;
    var fields := UserFields;
    assert fields[1..] == ["email", "age"];
    assert ["email", "age"][1..] == ["age"];
    assert ["age"][1..] == [];
    assert "email" !in BadUser && "age" !in BadUser && "username" in BadUser;
    assert Missing(BadUser, ["age"]) == [RequiredMessage("age")] + Missing(BadUser, []);
    assert Missing(BadUser, ["email", "age"]) == [RequiredMessage("email")] + Missing(BadUser, ["age"]);
    assert Missing(BadUser, fields) == [] + Missing(BadUser, ["email", "age"]);
  }

  /** The first validation of the test flow: the valid record. */
  function FirstCall(): Step<Data> {
    StartReady();
    Validate(UserSchemas, CheckFields, StartContext, StartHeap, "user", GoodUser, None)
  }

  /** The second validation, from the state the first one left: the invalid record. */
  function SecondCall(): Step<Data> {
    StartReady();
    var first := FirstCall();
    Validate(UserSchemas, CheckFields, first.context, first.heap, "user", BadUser, None)
  }

  /**
   * A valid "user" record: the call returns it despite the raising listener,
   * the history holds one success event, and the statistics read total 1,
   * successful 1, failed 0, with "user" at 1, 1, 0.
   */
  lemma SuccessScenario()
    ensures FirstCall().outcome == Ok(GoodUser)
    ensures FirstCall().context.listeners == StartContext.listeners
    ensures "user" in GetValidationHistory(FirstCall().context, None)
    ensures |GetValidationHistory(FirstCall().context, None)["user"]| == 1
    ensures GetValidationHistory(FirstCall().context, None)["user"][0].success
    ensures GetValidationHistory(FirstCall().context, None)["user"][0].schemaName == "user"
    ensures FirstCall().heap.Keys == {0}
    ensures FirstCall().heap[0] == Stats(1, 1, 0, map["user" := Counts(1, 1, 0)])
  {
    StartReady();
    UserVerdicts();
    var first := FirstCall();
    var h := first.context.history["user"];
    assert first.heap[0] == Repeat(NewMetrics(), h[0], 1) == MetricsOnEvent(NewMetrics(), h[0]);
  }

  /** The single validation of the failure test: the invalid record on a fresh context. */
  function FailureCall(): Step<Data> {
    StartReady();
    Validate(UserSchemas, CheckFields, StartContext, StartHeap, "user", BadUser, None)
  }

  /**
   * An invalid "user" record on a fresh context: the call fails with the
   * missing fields despite the raising listener, the history holds one
   * failure event with non-empty errors, and the statistics read total 1,
   * successful 0, failed 1, with "user" at 1, 0, 1.
   */
  lemma FailureScenario()
    ensures FailureCall().outcome == Err(ValidationFailed("user", [RequiredMessage("email"), RequiredMessage("age")]))
    ensures |GetValidationHistory(FailureCall().context, None)["user"]| == 1
    ensures !GetValidationHistory(FailureCall().context, None)["user"][0].success
    ensures GetValidationHistory(FailureCall().context, None)["user"][0].schemaName == "user"
    ensures |GetValidationHistory(FailureCall().context, None)["user"][0].errors| > 0
    ensures FailureCall().heap[0] == Stats(1, 0, 1, map["user" := Counts(1, 0, 1)])
  {
    StartReady();
    UserVerdicts();
    var s := FailureCall();
    var h := s.context.history["user"];
    assert s.heap[0] == Repeat(NewMetrics(), h[0], 1) == MetricsOnEvent(NewMetrics(), h[0]);
  }

  /**
   * Then an invalid one: the call fails with the two missing fields, the
   * history holds a success and then a failure, and the statistics read
   * total 2, successful 1, failed 1, with "user" at 2, 1, 1.
   */
  lemma SuccessThenFailureScenario()
    ensures SecondCall().outcome == Err(ValidationFailed("user", [RequiredMessage("email"), RequiredMessage("age")]))
    ensures |GetValidationHistory(SecondCall().context, None)["user"]| == 2
    ensures GetValidationHistory(SecondCall().context, None)["user"][0].success
    ensures !GetValidationHistory(SecondCall().context, None)["user"][1].success
    ensures SecondCall().heap[0] == Stats(2, 1, 1, map["user" := Counts(2, 1, 1)])
  {
    StartReady();
    UserVerdicts();
    SuccessScenario();
    var first := FirstCall();
    var second := SecondCall();
    var h := second.context.history["user"];
    assert h[..1] == first.context.history["user"];
    assert second.heap[0] == Repeat(first.heap[0], h[1], 1) == MetricsOnEvent(first.heap[0], h[1]);
  }
}
