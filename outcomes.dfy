/**
  How the tools fail. A JavaScript `throw` carries either an `Error` instance,
  of which only the message matters here, or some other value. Every tool
  handler ends in one of two ways: it returns a value or it throws.
*/
module Outcomes {
  import opened Json
  import Text

  /** What a `throw` carries: an `Error` with its message, or any other value. */
  datatype Thrown = ErrorValue(message: string) | OtherValue(value: Json)

  /** The settled result of one awaited handler call. */
  datatype Outcome<+T> = Returned(value: T) | Threw(thrown: Thrown)

  /** `error instanceof Error ? error.message : fallback`. */
  function MessageOr(t: Thrown, fallback: string): string {
    match t
    case ErrorValue(m) => m
    case OtherValue(_) => fallback
  }

  /**
    The tools' catch blocks: `throw new Error(`${prefix}: ${msg}`)`, with
    `'Unknown error'` as the message of a thrown value that is not an `Error`.
  */
  function Rethrow(prefix: string, t: Thrown): (r: Thrown)
    ensures r.ErrorValue? && Text.StartsWith(r.message, prefix + ": ")
    ensures t.ErrorValue? ==> r.message == prefix + ": " + t.message
    ensures t.OtherValue? ==> r.message == prefix + ": Unknown error"
  {
    var r := ErrorValue(prefix + ": " + MessageOr(t, "Unknown error"));
    assert r.message[..|prefix + ": "|] == prefix + ": ";
    r
  }

  /**
    The `TypeError` thrown by reading property `key` of `null`, with the
    message the V8 engine gives it.
  */
  function NullRead(key: string): (r: Thrown)
    ensures r.ErrorValue? && Text.StartsWith(r.message, "Cannot read properties of null")
  {
    var r := ErrorValue("Cannot read properties of null (reading '" + key + "')");
    assert r.message[..|"Cannot read properties of null"|] == "Cannot read properties of null";
    r
  }

  /** A handler body wrapped in `try { ... } catch (error) { throw Rethrow(prefix, error) }`. */
  function Guarded<T>(prefix: string, o: Outcome<T>): (r: Outcome<T>)
    ensures o.Returned? ==> r == o
    ensures o.Threw? ==> r == Threw(Rethrow(prefix, o.thrown))
  {
    match o
    case Returned(_) => o
    case Threw(t) => Threw(Rethrow(prefix, t))
  }
}
