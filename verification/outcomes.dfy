/**
 * Optional values, results, and the two failures a caller of the schema
 * registry can observe.
 */
module Outcomes {

  /** An optional argument: `None` stands for Python's `None`. */
  datatype Option<+T> = None | Some(value: T) {

    /** The value, or `default` when absent (Python's `value or default`). */
    function GetOr(default: T): T {
      match this
      case Some(v) => v
      case None => default
    }
  }

  /** The outcome of an operation that either returns a value or raises. */
  datatype Result<+T, +E> = Ok(value: T) | Err(error: E)

  /**
   * `NotRegistered` is the `ValueError` raised by a lookup of an unknown
   * schema; `ValidationFailed` is the failure `validate` raises once a
   * validator has rejected the data, carrying the schema name and the
   * rejection messages in order.
   */
  datatype Error =
    | NotRegistered(name: string)
    | ValidationFailed(schemaName: string, errors: seq<string>)

  /** The text of the `ValueError` raised for an unknown schema name. */
  function NotRegisteredMessage(name: string): (msg: string)
    ensures |msg| == |name| + 24
    ensures msg[..8] == "Schema '"
    ensures msg[8..8 + |name|] == name
    ensures msg[8 + |name|..] == "' not registered"
  {
    "Schema '" + name + "' not registered"
  }

  /** The message names the schema unambiguously: different names give different messages. */
  lemma NotRegisteredMessageInjective(a: string, b: string)
    ensures NotRegisteredMessage(a) == NotRegisteredMessage(b) ==> a == b
  {
    if NotRegisteredMessage(a) == NotRegisteredMessage(b) {
      var m := NotRegisteredMessage(a);
      assert |a| == |b|;
      assert a == m[8..8 + |a|];
    }
  }
}
