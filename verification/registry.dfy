/**
 * The schema registry: a mapping from schema name to validator definition.
 * The source keeps it as one class-level dictionary; here it is a value that
 * each operation takes and returns.
 */
module SchemaRegistry {
  import opened Outcomes

  /** Registered validators by schema name; `V` is the opaque validator definition. */
  type Schemas<V> = map<string, V>

  /** `register`: binds `name` to `validator`, replacing any earlier binding. */
  function Register<V>(schemas: Schemas<V>, name: string, validator: V): (r: Schemas<V>)
    ensures name in r && r[name] == validator
    ensures r.Keys == schemas.Keys + {name}
    ensures forall n :: n in schemas && n != name ==> r[n] == schemas[n]
  {
    schemas[name := validator]
  }

  /** `get`: the validator bound to `name`, or the not-registered error. */
  function Get<V>(schemas: Schemas<V>, name: string): (r: Result<V, Error>)
    ensures r.Ok? <==> name in schemas
    ensures r.Ok? ==> r.value == schemas[name]
    ensures r.Err? ==> r.error == NotRegistered(name)
  {
    if name !in schemas then Err(NotRegistered(name)) else Ok(schemas[name])
  }

  /** `list_schemas`: every registered binding, exactly those `Get` resolves. */
  function ListSchemas<V>(schemas: Schemas<V>): (r: Schemas<V>)
    ensures forall n :: n in r <==> Get(schemas, n).Ok?
    ensures forall n :: n in r ==> Get(schemas, n) == Ok(r[n])
  {
    schemas
  }

  /** Registering several bindings one after the other, first to last. */
  function RegisterAll<V>(schemas: Schemas<V>, entries: seq<(string, V)>): Schemas<V>
    decreases |entries|
  {
    if entries == [] then schemas
    else RegisterAll(Register(schemas, entries[0].0, entries[0].1), entries[1..])
  }

  /** The names bound by a sequence of registrations. */
  function NamesOf<V>(entries: seq<(string, V)>): set<string>
    decreases |entries|
  {
    if entries == [] then {} else {entries[0].0} + NamesOf(entries[1..])
  }

  /** No name is registered twice in `entries`. */
  predicate DistinctNames<V>(entries: seq<(string, V)>) {
    forall i, j :: 0 <= i < j < |entries| ==> entries[i].0 != entries[j].0
  }

  /** A registration is visible to the next lookup of the same name. */
  lemma GetAfterRegister<V>(schemas: Schemas<V>, name: string, validator: V)
    ensures Get(Register(schemas, name, validator), name) == Ok(validator)
  {
  }

  /** A registration leaves the lookup of every other name as it was. */
  lemma RegisterLeavesOthers<V>(schemas: Schemas<V>, name: string, validator: V, other: string)
    requires other != name
    ensures Get(Register(schemas, name, validator), other) == Get(schemas, other)
  {
  }

  /** The last registration of a name wins, and repeating one changes nothing. */
  lemma RegisterLastWins<V>(schemas: Schemas<V>, name: string, first: V, second: V)
    ensures Register(Register(schemas, name, first), name, second) == Register(schemas, name, second)
    ensures Register(Register(schemas, name, second), name, second) == Register(schemas, name, second)
    ensures name in schemas && schemas[name] == second ==> Register(schemas, name, second) == schemas
  {
  }

  /** Registering k fresh, distinct names adds exactly k bindings. */
  lemma {:induction false} RegisterAllSize<V>(schemas: Schemas<V>, entries: seq<(string, V)>)
    requires DistinctNames(entries)
    requires forall i :: 0 <= i < |entries| ==> entries[i].0 !in schemas
    ensures RegisterAll(schemas, entries).Keys == schemas.Keys + NamesOf(entries)
    ensures |RegisterAll(schemas, entries)| == |schemas| + |entries|
    decreases |entries|
  {
    if entries != [] {
      var head := entries[0];
      var rest := entries[1..];
      var next := Register(schemas, head.0, head.1);
      assert |next| == |schemas| + 1 by {
        assert next.Keys == schemas.Keys + {head.0};
      }
      assert DistinctNames(rest) by {
        forall i, j | 0 <= i < j < |rest| ensures rest[i].0 != rest[j].0 {
          assert rest[i] == entries[i + 1] && rest[j] == entries[j + 1];
        }
      }
      forall i | 0 <= i < |rest| ensures rest[i].0 !in next {
        assert rest[i] == entries[i + 1];
        assert entries[0].0 != entries[i + 1].0;
      }
      RegisterAllSize(next, rest);
    }
  }
}
