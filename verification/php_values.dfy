/** PHP values as the command layer sees them: option values, positional
    arguments and configuration entries, with PHP's truthiness and its
    string interpolation. */
module PhpValues {

  datatype Option<+T> = None | Some(value: T)

  /** A PHP value. `List` is a PHP array used as a list. */
  datatype Value = Null | Bool(b: bool) | Int(i: int) | Str(s: string) | List(items: seq<Value>)

  /** A PHP array keyed by option or config names. */
  type Options = map<string, Value>

  /** PHP's conversion to bool (`(bool)$v`, `!empty($v)`): null, false, 0,
      "", "0" and the empty array are false, everything else is true. */
  predicate Truthy(v: Value)
  {
    match v
    case Null => false
    case Bool(b) => b
    case Int(i) => i != 0
    case Str(s) => s != "" && s != "0"
    case List(items) => |items| > 0
  }

  /** Decimal digits of a natural number, most significant first. */
  function NatToDecimal(n: nat): (s: string)
    ensures |s| >= 1
    ensures forall k :: 0 <= k < |s| ==> '0' <= s[k] <= '9'
    decreases n
  {
    var digit := (('0' as int) + n % 10) as char;
    if n < 10 then [digit] else NatToDecimal(n / 10) + [digit]
  }

  /** The text PHP produces when a value is interpolated into a string
      (`"{$v}"`) or joined by `implode`. */
  function ToStr(v: Value): string
  {
    match v
    case Null => ""
    case Bool(b) => if b then "1" else ""
    case Int(i) => if i < 0 then "-" + NatToDecimal(-i) else NatToDecimal(i)
    case Str(s) => s
    case List(_) => "Array"
  }

  /** The option lookup the command classes use (`$this->opt($key, $opts)`):
      the value stored under `key`, or null when the key is absent. */
  function Opt(key: string, opts: Options): Value
  {
    if key in opts then opts[key] else Null
  }

  /** `$this->opt($key, $opts)` used as a condition. */
  predicate Flag(opts: Options, key: string)
  {
    Truthy(Opt(key, opts))
  }

  /** A flag with a long and a short spelling (`quiet`/`q`, `force`/`f`, ...):
      set when either spelling is. */
  predicate EitherFlag(opts: Options, long: string, short: string)
  {
    Flag(opts, long) || Flag(opts, short)
  }
}
