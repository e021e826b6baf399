/** Values shared by every part of the wizard: optional and failing results,
    the JavaScript values a JSON request field can hold, and the decimal text
    of an HTTP status code. */
module Common {

  datatype Option<+T> = None | Some(value: T)

  /** A computation that either yields a value or throws an Error whose
      message is `error`. */
  datatype Result<+T> = Success(value: T) | Failure(error: string)

  /** A property read out of a parsed JSON request body. Only string values
      are modelled; `Undefined` is a property that is not present. */
  datatype Field = Undefined | Null | Str(value: string)

  /** JavaScript truthiness of a field: `!x` is false exactly for a non-empty string. */
  predicate Truthy(f: Field)
  {
    f.Str? && f.value != ""
  }

  /** The text a field contributes to a template literal `${x}`. */
  function TemplateText(f: Field): (s: string)
    ensures f.Str? ==> s == f.value
    ensures f.Undefined? ==> s == "undefined"
    ensures f.Null? ==> s == "null"
  {
    match f
    case Undefined => "undefined"
    case Null => "null"
    case Str(v) => v
  }

  /** The answer to one `fetch`: the `ok` flag, the numeric status, the body
      read as text and the body read as JSON. */
  datatype HttpResponse<T> = HttpResponse(ok: bool, status: nat, text: string, json: T)

  /** The response of a route handler: the JSON value with status 200, or
      an `{error}` object with the given status. */
  datatype RouteResponse<T> = Ok(value: T) | ErrorJson(status: nat, error: string)

  /** What a route handler did: the calls it made to the provider, in order,
      and the response it returned. */
  datatype Handled<Call, T> = Handled(calls: seq<Call>, response: RouteResponse<T>)

  /** `part` occurs in `whole` starting at index `i`. */
  predicate OccursAt(part: string, whole: string, i: nat)
  {
    i + |part| <= |whole| && whole[i..i + |part|] == part
  }

  predicate Occurs(part: string, whole: string)
  {
    exists i: nat | i <= |whole| :: OccursAt(part, whole, i)
  }

  predicate IsDigit(c: char)
  {
    '0' <= c <= '9'
  }

  predicate AllDigits(s: string)
  {
    forall i :: 0 <= i < |s| ==> IsDigit(s[i])
  }

  function DigitChar(d: nat): (c: char)
    requires d < 10
    ensures IsDigit(c) && c as int - '0' as int == d
  {
    ('0' as int + d) as char
  }

  /** Decimal text of a number, as JavaScript renders a status code in a template literal. */
  function DecimalString(n: nat): (s: string)
    ensures |s| >= 1 && AllDigits(s)
    ensures n > 0 ==> s[0] != '0'
  {
    if n < 10 then [DigitChar(n)] else DecimalString(n / 10) + [DigitChar(n % 10)]
  }

  /** The number a string of decimal digits denotes. */
  function DecimalValue(s: string): nat
    requires AllDigits(s)
  {
    if s == [] then 0
    else DecimalValue(s[..|s| - 1]) * 10 + (s[|s| - 1] as int - '0' as int)
  }

  /** Reading the decimal text back gives the number it was written from. */
  lemma {:induction false} DecimalRoundTrip(n: nat)
    ensures DecimalValue(DecimalString(n)) == n
  {
    var s := DecimalString(n);
    if n >= 10 {
      DecimalRoundTrip(n / 10);
      assert s[..|s| - 1] == DecimalString(n / 10);
    }
  }

  /** Distinct numbers have distinct decimal texts. */
  lemma DecimalStringInjective(m: nat, n: nat)
    requires DecimalString(m) == DecimalString(n)
    ensures m == n
  {
    DecimalRoundTrip(m);
    DecimalRoundTrip(n);
  }
}
