/** Small shared vocabulary: optional values, form fields holding numbers, clamps. */
module Common {

  /** A value that may be absent (a TypeScript `T | undefined`). */
  datatype Option<+T> = None | Some(value: T) {
    function GetOr(default: T): T {
      match this
      case Some(v) => v
      case None => default
    }
  }

  /** The value of an operation that can throw: its result, or the error. */
  datatype Result<+T, +E> = Success(value: T) | Failure(error: E)

  /** A text input that holds a number: either left empty, or holding text that
      `parseFloat`/`parseInt` reads as `value`. */
  datatype NumberField = Empty | Entered(value: real)

  /** `Number.parseFloat(field || '0')`: an empty field reads as zero. */
  function OrZero(f: NumberField): (r: real)
    ensures f.Empty? ==> r == 0.0
    ensures f.Entered? ==> r == f.value
  {
    match f
    case Empty => 0.0
    case Entered(v) => v
  }

  /** `Math.max` on integers. */
  function MaxInt(a: int, b: int): (r: int)
    ensures r >= a && r >= b
    ensures r == a || r == b
  {
    if a >= b then a else b
  }

  /** `Math.max` on amounts of money. */
  function MaxReal(a: real, b: real): (r: real)
    ensures r >= a && r >= b
    ensures r == a || r == b
  {
    if a >= b then a else b
  }

  /** JavaScript truthiness of an optional string: present and not ''. */
  predicate Truthy(s: Option<string>)
  {
    s.Some? && s.value != ""
  }

  /** `text || undefined`: the empty string is sent as `undefined`. */
  function NonEmpty(text: string): (r: Option<string>)
    ensures r.None? <==> text == ""
    ensures r.Some? ==> r.value == text
  {
    if text == "" then None else Some(text)
  }

  /** `opt || ''`: an absent value is shown as the empty string. */
  function OrBlank(o: Option<string>): (r: string)
    ensures o.None? ==> r == ""
    ensures o.Some? ==> r == o.value
  {
    match o
    case None => ""
    case Some(s) => s
  }

  /** Showing an optional text in an input and sending it back restores it,
      unless it was present but empty. */
  lemma BlankRoundTrip(o: Option<string>)
    requires o != Some("")
    ensures NonEmpty(OrBlank(o)) == o
  {
  }
}
