/** The parsed JSON commands that the agents' apply phases receive. */
module Commands {
  import opened Strings
  import opened Wrappers

  /** A float. Python's JSON reader takes `NaN` and `Infinity`, and reads numbers beyond the float range as
      infinite. */
  datatype Amount = Finite(value: real) | Infinite(negative: bool) | NotANumber

  /** a < bound; every comparison with not-a-number is false. */
  predicate Below(a: Amount, bound: real) {
    match a case Finite(x) => x < bound case Infinite(negative) => negative case NotANumber => false
  }

  predicate AtMost(a: Amount, bound: real) {
    match a case Finite(x) => x <= bound case Infinite(negative) => negative case NotANumber => false
  }

  predicate Above(a: Amount, bound: real) {
    match a case Finite(x) => x > bound case Infinite(negative) => !negative case NotANumber => false
  }

  /** A JSON value, as far as the programs tell values apart. */
  datatype Json = Null | Bool(flag: bool) | Int(number: int) | Float(value: Amount) | Text(text: string) | OtherJson

  /** A JSON object; None stands for any other top-level value. */
  type Raw = Option<map<string, Json>>

  /** dict.get */
  function Get(fields: map<string, Json>, key: string): Json {
    if key in fields then fields[key] else Null
  }

  /** A string with something other than white space in it, kept as it is. */
  function NonBlank(value: Json): Option<string> {
    if value.Text? && Strip(value.text) != "" then Some(value.text) else None
  }

  /** isinstance(value, int) and not isinstance(value, bool) */
  function WholeNumber(value: Json): Option<int> {
    if value.Int? then Some(value.number) else None
  }

  /** isinstance(value, (int, float)) and not isinstance(value, bool), as a float. */
  function Number(value: Json): Option<Amount> {
    match value
    case Int(n) => Some(Finite(n as real))
    case Float(x) => Some(x)
    case _ => None
  }
}
