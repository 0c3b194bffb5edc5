/** Values shared by every part of the model: optional values, thrown
    JavaScript errors, JavaScript truthiness and decimal numerals. */
module Common {

  datatype Option<+T> = None | Some(value: T) {
    function GetOr(default: T): T {
      match this
      case Some(v) => v
      case None => default
    }
  }

  /** An `Error` object thrown somewhere in the backend: its `name` and `message`. */
  datatype Thrown = Thrown(name: string, message: string)

  /** What a call that may throw gives back: a value, or the error it threw. */
  datatype Result<+T> = Ok(value: T) | Err(error: Thrown)

  /** `Error('...')`: the error the services themselves throw. */
  function Error(message: string): Thrown {
    Thrown("Error", message)
  }

  /** The text `String(err?.message || err)` (equally `err?.message || String(err)`)
      yields for an Error: its message, or, when the message is empty, what
      `Error.prototype.toString` gives, which is then the name. */
  function Describe(e: Thrown): (r: string)
    ensures e.message != "" ==> r == e.message
    ensures e.message == "" ==> r == e.name
  {
    if e.message != "" then e.message else e.name
  }

  /** `String(err)` (and `${err}`) for an Error: `Error.prototype.toString`,
      which joins a non-empty name and message with `: `. */
  function ErrorToString(e: Thrown): (r: string)
    ensures e.name == "" ==> r == e.message
    ensures e.name != "" && e.message == "" ==> r == e.name
    ensures e.name != "" && e.message != "" ==> r == e.name + ": " + e.message
  {
    if e.name == "" then e.message
    else if e.message == "" then e.name
    else e.name + ": " + e.message
  }

  /** JavaScript truthiness of an optional string: present and non-empty. */
  predicate TruthyText(s: Option<string>) {
    s.Some? && s.value != ""
  }

  /** JavaScript truthiness of an optional number: present and non-zero. */
  predicate TruthyNumber(n: Option<int>) {
    n.Some? && n.value != 0
  }

  predicate IsDigit(c: char) {
    '0' <= c <= '9'
  }

  predicate AllDigits(s: string) {
    forall i :: 0 <= i < |s| ==> IsDigit(s[i])
  }

  /** `parseInt(s, 10)` of a string of decimal digits (unbounded). */
  function DigitsValue(s: string): (n: nat)
    requires AllDigits(s)
  {
    if s == [] then 0
    else 10 * DigitsValue(s[..|s| - 1]) + (s[|s| - 1] as int - '0' as int)
  }

  /** The decimal numeral JavaScript prints for a non-negative integer. */
  function NatToString(n: nat): (s: string)
    ensures |s| > 0 && AllDigits(s)
    ensures DigitsValue(s) == n
    ensures n == 0 ==> s == "0"
    ensures n > 0 ==> s[0] != '0'
    decreases n
  {
    var last := [('0' as int + n % 10) as char];
    if n < 10 then last
    else
      var prefix := NatToString(n / 10);
      assert (prefix + last)[..|prefix + last| - 1] == prefix;
      assert (prefix + last)[0] == prefix[0];
      prefix + last
  }

  /** Template-literal rendering of an integer, `${n}`. */
  function IntToString(n: int): string {
    if n >= 0 then NatToString(n) else "-" + NatToString(-n)
  }

  /** Template-literal rendering of an optional number: `undefined` when absent. */
  function OptionalIntToString(n: Option<int>): string {
    match n
    case Some(v) => IntToString(v)
    case None => "undefined"
  }

  /** `Math.round(p / q)` for a positive `q`: the nearest integer, halves
      rounded up. */
  function RoundDiv(p: int, q: int): (r: int)
    requires q > 0
    ensures 2 * q * r - q <= 2 * p < 2 * q * r + q
  {
    var r := (2 * p + q) / (2 * q);
    assert 2 * p + q == 2 * q * r + (2 * p + q) % (2 * q);
    r
  }

  /** Concatenation regroups freely. */
  lemma Assoc<T>(a: seq<T>, b: seq<T>, c: seq<T>)
    ensures (a + b) + c == a + (b + c)
  {
  }

  /** Multiplying by a positive number keeps the order. */
  lemma MulMonotone(q: int, a: int, b: int)
    requires q > 0 && a <= b
    ensures q * a <= q * b
  {
    assert q * b - q * a == q * (b - a);
  }

  /** A quotient of a value between `q * lo` and `q * hi` rounds to a value
      between `lo` and `hi`. */
  lemma RoundDivWithin(p: int, q: int, lo: int, hi: int)
    requires q > 0 && q * lo <= p <= q * hi
    ensures lo <= RoundDiv(p, q) <= hi
  {
    var r := RoundDiv(p, q);
    if r > hi {
      MulMonotone(2 * q, hi + 1, r);
    }
    if r < lo {
      MulMonotone(2 * q, r + 1, lo);
    }
  }

  /** An exact quotient is its own rounding. */
  lemma RoundDivExact(q: int, k: int)
    requires q > 0
    ensures RoundDiv(q * k, q) == k
  {
    RoundDivWithin(q * k, q, k, k);
  }
}
