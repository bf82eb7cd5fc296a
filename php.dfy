/**
 * The PHP values the builder handles, and PHP's truthiness tests on them.
 *
 * PHP arrays are ordered maps whose keys are integers or strings; the model
 * keeps one as a sequence of (key, value) pairs in insertion order.
 */
module Php {

  datatype Option<+T> = None | Some(value: T) {
    function GetOr(default: T): T {
      match this
      case Some(v) => v
      case None => default
    }
  }

  datatype Result<+T, +E> = Success(value: T) | Failure(error: E)

  /** A PHP array key: `is_integer($k)` or `is_string($k)`. */
  datatype Key = IntKey(i: int) | StrKey(s: string)

  /** The scalar values stored in the builder's arrays and bound as arguments. */
  datatype Scalar = Str(s: string) | Int(i: int) | Bool(b: bool) | Null

  /** An insertion-ordered PHP array. */
  type PhpArray<V> = seq<(Key, V)>

  /** A key used where PHP expects a value (`$k` passed on after a foreach). */
  function KeyValue(k: Key): Scalar {
    match k
    case IntKey(i) => Int(i)
    case StrKey(s) => Str(s)
  }

  /** `if ($s)` on a string that may be unset: null, "" and "0" are false. */
  predicate TruthyString(s: Option<string>) {
    s.Some? && s.value != "" && s.value != "0"
  }

  /** `if ($v)` on a scalar: null, false, 0, "" and "0" are false. */
  predicate TruthyScalar(v: Scalar) {
    match v
    case Str(s) => s != "" && s != "0"
    case Int(i) => i != 0
    case Bool(b) => b
    case Null => false
  }

  /** `if ($n)` on an integer that may be unset: null and 0 are false. */
  predicate TruthyInt(n: Option<int>) {
    n.Some? && n.value != 0
  }

  /** `array('a', 'b', ...)`: the values under the keys 0, 1, ... */
  function Indexed<V>(values: seq<V>): PhpArray<V> {
    seq(|values|, i requires 0 <= i < |values| => (IntKey(i), values[i]))
  }
}
