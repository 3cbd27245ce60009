/** The input validators used by the booking and pod services: e-mail and phone
    number shapes, coordinate ranges and check-in/check-out date ranges. */
module Validation {
  import opened Common

  /** The characters matched by the regular-expression class `\s`: the
      ECMAScript white space and line terminator characters. */
  predicate IsWhitespace(c: char) {
    c == '\t' || c == '\n' || c == '\U{B}' || c == '\U{C}' || c == '\r' || c == ' '
    || c == '\U{A0}' || c == '\U{1680}' || ('\U{2000}' <= c <= '\U{200A}')
    || c == '\U{2028}' || c == '\U{2029}' || c == '\U{202F}' || c == '\U{205F}'
    || c == '\U{3000}' || c == '\U{FEFF}'
  }

  /** A character of the class `[^\s@]`. */
  predicate EmailChar(c: char) {
    c != '@' && !IsWhitespace(c)
  }

  /** A match of `[^\s@]+`. */
  predicate EmailPart(s: string) {
    |s| > 0 && forall k :: 0 <= k < |s| ==> EmailChar(s[k])
  }

  /** The position of the first occurrence of `c` in `s`. */
  function IndexOf(s: string, c: char): (r: Option<nat>)
    ensures r.Some? ==> r.value < |s| && s[r.value] == c
                        && forall k :: 0 <= k < r.value ==> s[k] != c
    ensures r.None? ==> forall k :: 0 <= k < |s| ==> s[k] != c
  {
    if s == [] then None
    else if s[0] == c then Some(0)
    else match IndexOf(s[1..], c)
      case None => None
      case Some(i) => Some(i + 1)
  }

  /** The part after the `@`: `[^\s@]+\.[^\s@]+`, that is characters of the
      class with a dot that is neither first nor last. */
  predicate DomainPart(r: string) {
    (forall k :: 0 <= k < |r| ==> EmailChar(r[k]))
    && exists j :: 1 <= j < |r| - 1 && r[j] == '.'
  }

  /** `isValidEmail`: the text before the first `@` and the text after it are
      checked separately. */
  predicate IsValidEmail(s: string) {
    match IndexOf(s, '@')
      case None => false
      case Some(at) => EmailPart(s[..at]) && DomainPart(s[at + 1..])
  }

  /** The regular expression `^[^\s@]+@[^\s@]+\.[^\s@]+$`, read as a split of the
      whole string at an `@` and at a later dot into three non-empty parts. */
  ghost predicate MatchesEmailPattern(s: string) {
    exists i, j :: 0 < i && i + 1 < j < |s| - 1 && s[i] == '@' && s[j] == '.'
                   && EmailPart(s[..i]) && EmailPart(s[i + 1..j]) && EmailPart(s[j + 1..])
  }

  /** When the text before position `i` holds no `@` and `s[i]` is one, the
      first `@` of `s` is at `i`. */
  lemma FirstAt(s: string, i: nat)
    requires i < |s| && s[i] == '@'
    requires forall k :: 0 <= k < i ==> s[k] != '@'
    ensures IndexOf(s, '@') == Some(i)
  {
  }

  lemma ValidEmailHasPattern(s: string)
    requires IsValidEmail(s)
    ensures MatchesEmailPattern(s)
  {
    var i := IndexOf(s, '@').value;
    var r := s[i + 1..];
    var j :| 1 <= j < |r| - 1 && r[j] == '.';
    var a, b, c := s[..i], s[i + 1..i + 1 + j], s[i + 1 + j + 1..];
    assert b == r[..j] && c == r[j + 1..];
    assert EmailPart(a) && EmailPart(b) && EmailPart(c);
    assert s[i + 1 + j] == '.';
  }

  predicate AllEmailChars(s: string) {
    forall k :: 0 <= k < |s| ==> EmailChar(s[k])
  }

  lemma {:induction false} AllEmailCharsAppend(a: string, b: string)
    requires AllEmailChars(a) && AllEmailChars(b)
    ensures AllEmailChars(a + b)
  {
    forall k | 0 <= k < |a + b|
      ensures EmailChar((a + b)[k])
    {
      if k < |a| {
        assert (a + b)[k] == a[k];
      } else {
        assert (a + b)[k] == b[k - |a|];
      }
    }
  }

  lemma DomainFromParts(b: string, c: string)
    requires EmailPart(b) && EmailPart(c)
    ensures DomainPart(b + "." + c)
  {
    AllEmailCharsAppend(b, ".");
    AllEmailCharsAppend(b + ".", c);
    assert (b + "." + c)[|b|] == '.';
  }

  lemma NoAtBefore(s: string, i: nat)
    requires i <= |s| && EmailPart(s[..i])
    ensures forall k :: 0 <= k < i ==> s[k] != '@'
  {
    forall k | 0 <= k < i
      ensures s[k] != '@'
    {
      assert s[k] == s[..i][k];
    }
  }

  lemma SplitIsValidEmail(s: string, i: nat, j: nat)
    requires 0 < i && i + 1 < j < |s| - 1 && s[i] == '@' && s[j] == '.'
    requires EmailPart(s[..i]) && EmailPart(s[i + 1..j]) && EmailPart(s[j + 1..])
    ensures IsValidEmail(s)
  {
    NoAtBefore(s, i);
    FirstAt(s, i);
    assert s[i + 1..] == s[i + 1..j] + "." + s[j + 1..];
    DomainFromParts(s[i + 1..j], s[j + 1..]);
  }

  lemma PatternIsValidEmail(s: string)
    requires MatchesEmailPattern(s)
    ensures IsValidEmail(s)
  {
    var i, j :| 0 < i && i + 1 < j < |s| - 1 && s[i] == '@' && s[j] == '.'
                && EmailPart(s[..i]) && EmailPart(s[i + 1..j]) && EmailPart(s[j + 1..]);
    SplitIsValidEmail(s, i, j);
  }

  /** The validator accepts exactly the strings the regular expression matches. */
  lemma IsValidEmailMatchesPattern(s: string)
    ensures IsValidEmail(s) <==> MatchesEmailPattern(s)
  {
    if IsValidEmail(s) {
      ValidEmailHasPattern(s);
    }
    if MatchesEmailPattern(s) {
      PatternIsValidEmail(s);
    }
  }

  /** A character of the class `[\d\s-()]`: a decimal digit, white space, `-`,
      `(` or `)` (the `-` after a class escape is an ordinary character). */
  predicate PhoneChar(c: char) {
    ('0' <= c <= '9') || IsWhitespace(c) || c == '-' || c == '(' || c == ')'
  }

  predicate AllPhoneChars(s: string) {
    forall k :: 0 <= k < |s| ==> PhoneChar(s[k])
  }

  /** `isValidPhoneNumber`: an optional leading `+`, at least one character of
      the phone class, and at least ten characters in all. Every character the
      pattern accepts is a single UTF-16 code unit, so `|s|` is the JavaScript
      length whenever the pattern matches. */
  predicate IsValidPhoneNumber(s: string) {
    var body := if |s| > 0 && s[0] == '+' then s[1..] else s;
    |body| > 0 && AllPhoneChars(body) && |s| >= 10
  }

  /** The regular expression `^\+?[\d\s-()]+$` together with the length test. */
  ghost predicate MatchesPhonePattern(s: string) {
    |s| >= 10 && exists p: string, body: string ::
      (p == "" || p == "+") && s == p + body && |body| > 0 && AllPhoneChars(body)
  }

  lemma PhoneNumberMatchesPattern(s: string)
    requires IsValidPhoneNumber(s)
    ensures MatchesPhonePattern(s)
  {
    if |s| > 0 && s[0] == '+' {
      assert s == "+" + s[1..];
    } else {
      assert s == "" + s;
    }
  }

  lemma PatternIsValidPhoneNumber(s: string)
    requires MatchesPhonePattern(s)
    ensures IsValidPhoneNumber(s)
  {
    var p: string, body: string :| (p == "" || p == "+") && s == p + body
                                   && |body| > 0 && AllPhoneChars(body);
    if p == "" {
      assert s == body;
      assert !PhoneChar('+');
      assert s[0] == body[0];
    } else {
      assert s[1..] == body;
    }
  }

  lemma IsValidPhoneNumberMatchesPattern(s: string)
    ensures IsValidPhoneNumber(s) <==> MatchesPhonePattern(s)
  {
    if IsValidPhoneNumber(s) {
      PhoneNumberMatchesPattern(s);
    }
    if MatchesPhonePattern(s) {
      PatternIsValidPhoneNumber(s);
    }
  }

  /** A phone number never has fewer than ten characters, and one that starts
      with `+` has at least nine further phone characters. */
  lemma PhoneNumberLength(s: string)
    requires IsValidPhoneNumber(s)
    ensures |s| >= 10
    ensures s[0] == '+' ==> AllPhoneChars(s[1..]) && |s[1..]| >= 9
    ensures s[0] != '+' ==> AllPhoneChars(s)
  {
  }

  /** `isValidCoordinates`: latitude within [-90, 90] and longitude within
      [-180, 180], bounds included. */
  predicate IsValidCoordinates(lat: real, lng: real) {
    -90.0 <= lat <= 90.0 && -180.0 <= lng <= 180.0
  }

  /** `isValidDateRange`: check-in no earlier than `now` and check-out strictly
      later than check-in. Either date being invalid makes every comparison
      false. The clock reading `now` is a parameter. */
  function IsValidDateRange(checkIn: Instant, checkOut: Instant, now: int): (ok: bool)
    ensures ok <==> (checkIn.At? && checkOut.At?
                     && now <= checkIn.ms < checkOut.ms)
    ensures ok ==> checkOut.ms - checkIn.ms >= 1
  {
    match (checkIn, checkOut)
      case (At(i), At(o)) => i >= now && o > i
      case _ => false
  }
}
