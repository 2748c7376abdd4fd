/** The PHP associative arrays that entities are converted to and from.
    A cell holds a string, a date-time, null, or a decoded string-keyed
    document. A date-time cell stands for the text a date-time is formatted
    to or parsed from; it is modelled by the instant it denotes. Instants are
    whole microseconds since the epoch. */
module Records {
  import opened Wrappers

  datatype Value = Text(s: string) | Stamp(micros: int) | Null | Fields(m: map<string, string>)

  type Record = map<string, Value>

  const MicrosPerSecond: int := 1_000_000

  /** Formatting with `Y-m-d H:i:s` keeps the whole second and drops the fraction. */
  function WholeSecond(t: int): (r: int)
    ensures r <= t < r + MicrosPerSecond
    ensures r % MicrosPerSecond == 0
  {
    t - t % MicrosPerSecond
  }

  predicate IsWholeSecond(t: int) {
    t % MicrosPerSecond == 0
  }

  /** The fixed parts of the runtime's error messages. */
  const UndefinedKeyPrefix: string := "Undefined array key \""
  const NotAString: string := " must be of type string"
  const NotANullableString: string := " must be of type ?string"
  const NotADateTime: string := " must be a date-time string"
  const UnparsableTimePrefix: string := "Failed to parse time string ("

  function UndefinedKey(key: string): string {
    UndefinedKeyPrefix + key + "\""
  }

  function UnparsableTime(s: string): string {
    UnparsableTimePrefix + s + ")"
  }

  /** `$data[key]` passed where a string is declared. */
  function RequireText(d: Record, key: string): (r: Result<string>)
    ensures r.Ok? <==> key in d && d[key].Text?
    ensures r.Ok? ==> r.value == d[key].s
  {
    if key !in d then Err(UndefinedKey(key))
    else if d[key].Text? then Ok(d[key].s)
    else Err(key + NotAString)
  }

  /** `new DateTimeImmutable($data[key])`. */
  function RequireStamp(d: Record, key: string): (r: Result<int>)
    ensures r.Ok? <==> key in d && d[key].Stamp?
    ensures r.Ok? ==> r.value == d[key].micros
  {
    if key !in d then Err(UndefinedKey(key))
    else match d[key]
      case Stamp(t) => Ok(t)
      case Text(s) => Err(UnparsableTime(s))
      case _ => Err(key + NotADateTime)
  }

  /** `$data[key] ?? null` passed where a nullable string is declared. */
  function OptionalText(d: Record, key: string): (r: Result<Option<string>>)
    ensures r.Ok? <==> key !in d || d[key].Null? || d[key].Text?
    ensures r == Ok(None) <==> key !in d || d[key].Null?
    ensures r.Ok? && r.value.Some? ==> d[key] == Text(r.value.value)
  {
    if key !in d then Ok(None)
    else match d[key]
      case Null => Ok(None)
      case Text(s) => Ok(Some(s))
      case _ => Err(key + NotANullableString)
  }

  /** `isset($data[key]) ? new DateTimeImmutable($data[key]) : null`. */
  function OptionalStamp(d: Record, key: string): (r: Result<Option<int>>)
    ensures r.Ok? <==> key !in d || d[key].Null? || d[key].Stamp?
    ensures r == Ok(None) <==> key !in d || d[key].Null?
    ensures r.Ok? && r.value.Some? ==> d[key] == Stamp(r.value.value)
  {
    if key !in d then Ok(None)
    else match d[key]
      case Null => Ok(None)
      case Stamp(t) => Ok(Some(t))
      case Text(s) => Err(UnparsableTime(s))
      case Fields(_) => Err(key + NotADateTime)
  }

  function TextOrNull(o: Option<string>): Value {
    match o
    case None => Null
    case Some(s) => Text(s)
  }

  /** `?->format('Y-m-d H:i:s')`: null stays null. */
  function StampOrNull(o: Option<int>): Value {
    match o
    case None => Null
    case Some(t) => Stamp(WholeSecond(t))
  }

  predicate IsWholeSecondOrNull(o: Option<int>) {
    o.None? || IsWholeSecond(o.value)
  }
}
