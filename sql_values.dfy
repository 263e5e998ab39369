/** Values that flow between callers, the filter compiler, the table mapper and
    the database connection: filter values and statement parameters, the
    parameterized statement itself, and the failures a call can end in. */
module SqlValues {

  /** A non-array, non-null JavaScript value as a filter value or a statement
      parameter. Numbers are modelled as integers. */
  datatype Scalar = Num(n: int) | Str(s: string) | Bool(b: bool)

  /** A filter value or statement parameter: `null`/`undefined` (both are
      `Null`, since every `isNullOrUndefined` check in the source treats them
      alike), a scalar, or an array of values. */
  datatype Value = Null | Scalar(scalar: Scalar) | Arr(items: seq<Value>)

  /** A parameterized SQL text: positional `?` placeholders in `sqlExpression`
      and their values, in order, in `params`. */
  datatype SqlTemplate = SqlTemplate(sqlExpression: string, params: seq<Value>)

  /** The template a builder returns without filling it in, as IN / NOT IN do
      for no values. The model assumes no text and no params; the class that
      defines the source's defaults is not part of this model. */
  const EmptyTemplate := SqlTemplate("", [])

  /** What a rejected call carries: a `TypeError` or a plain `Error` thrown by
      the code modelled here, or a failure raised by a collaborator that is not
      part of this model (statement provider, database driver), passed through. */
  datatype Error = TypeError(message: string) | PlainError(message: string) | External(reason: string)

  datatype Result<T> = Ok(value: T) | Err(error: Error)

  datatype Option<T> = None | Some(value: T)

  /** The positional placeholder of a statement text. */
  const Mark := "?"

  /** Number of positional placeholders in a statement text. */
  function Placeholders(s: string): nat
  {
    if s == [] then 0
    else (if s[0] == '?' then 1 else 0) + Placeholders(s[1..])
  }

  lemma {:induction false} PlaceholdersAppend(a: string, b: string)
    ensures Placeholders(a + b) == Placeholders(a) + Placeholders(b)
  {
    if a == [] {
      assert a + b == b;
    } else {
      assert (a + b)[1..] == a[1..] + b;
      PlaceholdersAppend(a[1..], b);
    }
  }

  lemma {:induction false} NoPlaceholders(s: string)
    requires '?' !in s
    ensures Placeholders(s) == 0
  {
    if s != [] {
      NoPlaceholders(s[1..]);
    }
  }

  /** Appending text without a `?` keeps the count. */
  lemma AppendText(a: string, w: string)
    requires '?' !in w
    ensures Placeholders(a + w) == Placeholders(a)
  {
    PlaceholdersAppend(a, w);
    NoPlaceholders(w);
  }

  /** Appending Mark adds one placeholder. */
  lemma AppendMark(a: string)
    ensures Placeholders(a + Mark) == Placeholders(a) + 1
  {
    PlaceholdersAppend(a, Mark);
  }

  /** The decimal digits of a natural number, written out in full. JavaScript
      writes the same digits below 10^21 and switches to exponent form
      (`1e+21`) from there; that form is not modelled. */
  function NatText(n: nat): (r: string)
    ensures |r| > 0
    ensures forall i :: 0 <= i < |r| ==> '0' <= r[i] <= '9'
    decreases n
  {
    var d := ['0' + (n % 10) as char];
    if n < 10 then d else NatText(n / 10) + d
  }

  /** The text JavaScript's `+` gives a scalar when the other operand is a
      string, for numbers of magnitude below 10^21 (larger ones are written in
      full here, where JavaScript uses exponent form). */
  function ScalarText(v: Scalar): string
  {
    match v
    case Str(s) => s
    case Num(n) => if n < 0 then "-" + NatText(-n) else NatText(n)
    case Bool(b) => if b then "true" else "false"
  }

  /** JavaScript's `Array.prototype.join`. */
  function Join(parts: seq<string>, sep: string): string
  {
    if |parts| == 0 then ""
    else if |parts| == 1 then parts[0]
    else parts[0] + sep + Join(parts[1..], sep)
  }
}
