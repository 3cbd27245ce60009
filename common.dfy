/** Values shared by every part of the model: optional values, results, JavaScript
    truthiness of optional strings, parsed dates and upper-casing of strings. */
module Common {

  datatype Option<T> = None | Some(value: T)

  datatype Result<T, E> = Success(value: T) | Failure(error: E)

  /** JavaScript truthiness of a string that may be `undefined` or `null`
      (both modelled as `None`): the empty string is falsy too. */
  predicate Truthy(s: Option<string>) {
    s.Some? && s.value != ""
  }

  /** What `new Date(x)` yields: an invalid date holds NaN, and every comparison
      with NaN is false; a valid date is a count of milliseconds. */
  datatype Instant = Invalid | At(ms: int)

  const MsPerMinute: int := 60000
  const MsPerHour: int := 3600000

  /** `String.prototype.toUpperCase` on one character: the ASCII letters, and the
      non-ASCII characters whose upper case consists of ASCII letters only:
      sharp s (U+00DF) becomes "SS", dotless i (U+0131) becomes "I", long s
      (U+017F) becomes "S", and the Latin ligatures U+FB00 to U+FB06 become "FF",
      "FI", "FL", "FFI", "FFL", "ST" and "ST". Every other character is kept as
      it is. */
  function UpperChar(c: char): (u: string)
    ensures |u| >= 1
  {
    if 'a' <= c <= 'z' then [(c as int - 32) as char]
    else if c == '\U{DF}' then "SS"
    else if c == '\U{131}' then "I"
    else if c == '\U{17F}' then "S"
    else if c == '\U{FB00}' then "FF"
    else if c == '\U{FB01}' then "FI"
    else if c == '\U{FB02}' then "FL"
    else if c == '\U{FB03}' then "FFI"
    else if c == '\U{FB04}' then "FFL"
    else if c == '\U{FB05}' || c == '\U{FB06}' then "ST"
    else [c]
  }

  function ToUpper(s: string): string
  {
    if s == [] then [] else UpperChar(s[0]) + ToUpper(s[1..])
  }

  lemma {:induction false} ToUpperAppend(a: string, b: string)
    ensures ToUpper(a + b) == ToUpper(a) + ToUpper(b)
  {
    if a != [] {
      assert (a + b)[0] == a[0] && (a + b)[1..] == a[1..] + b;
      ToUpperAppend(a[1..], b);
      calc {
        ToUpper(a + b);
        UpperChar(a[0]) + ToUpper(a[1..] + b);
        UpperChar(a[0]) + (ToUpper(a[1..]) + ToUpper(b));
        (UpperChar(a[0]) + ToUpper(a[1..])) + ToUpper(b);
      }
    } else {
      assert a + b == b;
    }
  }

  /** Upper-casing a string of ASCII capitals changes nothing. */
  lemma {:induction false} CapitalsFixed(u: string)
    requires forall i :: 0 <= i < |u| ==> 'A' <= u[i] <= 'Z'
    ensures ToUpper(u) == u
  {
    if u != [] {
      CapitalsFixed(u[1..]);
      assert UpperChar(u[0]) == [u[0]];
    }
  }

  /** Upper-casing the upper case of a character changes nothing. */
  lemma UpperCharFixed(c: char)
    ensures ToUpper(UpperChar(c)) == UpperChar(c)
  {
    var u := UpperChar(c);
    if u == [c] {
      assert ToUpper(u) == UpperChar(c) + ToUpper(u[1..]);
    } else {
      CapitalsFixed(u);
    }
  }

  /** Upper-casing is idempotent, so a comparison of upper-cased strings is
      insensitive to upper-casing its argument first. */
  lemma {:induction false} ToUpperIdempotent(s: string)
    ensures ToUpper(ToUpper(s)) == ToUpper(s)
  {
    if s != [] {
      ToUpperAppend(UpperChar(s[0]), ToUpper(s[1..]));
      UpperCharFixed(s[0]);
      ToUpperIdempotent(s[1..]);
    }
  }

  /** The upper case of an optional status string: `status?.toUpperCase()`. */
  function UpperOpt(s: Option<string>): Option<string>
  {
    if s.None? then None else Some(ToUpper(s.value))
  }
}
