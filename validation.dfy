/**
 * Request validation shared by the four registration handlers: the e-mail
 * regular expression `/^[^\s@]+@[^\s@]+\.[^\s@]+$/`, the gender whitelist and
 * JavaScript truthiness of request fields.
 */
module Validation {
  import opened Wrappers

  /** The characters JavaScript's `\s` class matches: ECMAScript WhiteSpace and LineTerminator. */
  predicate IsJsWhitespace(c: char) {
    || c == '\t' || c == '\n' || c == '\U{000B}' || c == '\U{000C}' || c == '\r' || c == ' '
    || c == '\U{00A0}' || c == '\U{1680}' || ('\U{2000}' <= c <= '\U{200A}')
    || c == '\U{2028}' || c == '\U{2029}' || c == '\U{202F}' || c == '\U{205F}'
    || c == '\U{3000}' || c == '\U{FEFF}'
  }

  /** One character of the class `[^\s@]`. */
  predicate IsPlainChar(c: char) {
    !IsJsWhitespace(c) && c != '@'
  }

  /** The group `[^\s@]+` matches exactly `s[lo..hi]`. */
  predicate PlainRun(s: string, lo: int, hi: int)
    requires 0 <= lo <= hi <= |s|
  {
    lo < hi && forall k :: lo <= k < hi ==> IsPlainChar(s[k])
  }

  /**
   * `emailRegex.test(s)`: the whole of `s` is `a@b.c` where `a`, `b` and `c`
   * are non-empty runs of `[^\s@]` (a run may itself contain dots).
   */
  predicate IsValidEmail(s: string) {
    exists at, dot :: 0 <= at < dot < |s| && s[at] == '@' && s[dot] == '.' &&
      PlainRun(s, 0, at) && PlainRun(s, at + 1, dot) && PlainRun(s, dot + 1, |s|)
  }

  /** Number of `@` characters in `s`. */
  function AtCount(s: string): nat {
    if s == [] then 0 else (if s[0] == '@' then 1 else 0) + AtCount(s[1..])
  }

  predicate NoWhitespace(s: string) {
    forall k :: 0 <= k < |s| ==> !IsJsWhitespace(s[k])
  }

  lemma {:induction false} AtCountAppend(a: string, b: string)
    ensures AtCount(a + b) == AtCount(a) + AtCount(b)
  {
    if a == [] {
      assert a + b == b;
    } else {
      assert (a + b)[0] == a[0];
      assert (a + b)[1..] == a[1..] + b;
      AtCountAppend(a[1..], b);
    }
  }

  lemma {:induction false} AtCountZero(s: string)
    ensures AtCount(s) == 0 <==> forall k :: 0 <= k < |s| ==> s[k] != '@'
  {
    if s != [] {
      AtCountZero(s[1..]);
      assert forall k :: 1 <= k < |s| ==> s[k] == s[1..][k - 1];
    }
  }

  /** Splits `s` around position `i`, for counting. */
  lemma AtCountAround(s: string, i: int)
    requires 0 <= i < |s|
    ensures AtCount(s) == AtCount(s[..i]) + (if s[i] == '@' then 1 else 0) + AtCount(s[i + 1..])
  {
    assert s == s[..i] + ([s[i]] + s[i + 1..]);
    AtCountAppend(s[..i], [s[i]] + s[i + 1..]);
    AtCountAppend([s[i]], s[i + 1..]);
    assert [s[i]][1..] == [];
  }

  /** The right-hand side of `EmailMeaning`, spelled out. */
  predicate EmailShape(s: string) {
    && NoWhitespace(s)
    && AtCount(s) == 1
    && exists at, dot :: 0 < at && at + 1 < dot < |s| - 1 && s[at] == '@' && s[dot] == '.'
  }

  /** The three runs of a match exclude whitespace, so the whole string does. */
  lemma MatchHasNoWhitespace(s: string, at: int, dot: int)
    requires 0 <= at < dot < |s| && s[at] == '@' && s[dot] == '.'
    requires PlainRun(s, 0, at) && PlainRun(s, at + 1, dot) && PlainRun(s, dot + 1, |s|)
    ensures NoWhitespace(s)
  {
    forall k | 0 <= k < |s| ensures !IsJsWhitespace(s[k]) {
      if k < at {
        assert IsPlainChar(s[k]);
      } else if at < k < dot {
        assert IsPlainChar(s[k]);
      } else if dot < k {
        assert IsPlainChar(s[k]);
      }
    }
  }

  /** The three runs of a match exclude `@`, so the one at `at` is the only one. */
  lemma MatchHasOneAt(s: string, at: int, dot: int)
    requires 0 <= at < dot < |s| && s[at] == '@' && s[dot] == '.'
    requires PlainRun(s, 0, at) && PlainRun(s, at + 1, dot) && PlainRun(s, dot + 1, |s|)
    ensures AtCount(s) == 1
  {
    AtCountAround(s, at);
    forall k | 0 <= k < |s[..at]| ensures s[..at][k] != '@' {
      assert IsPlainChar(s[k]);
    }
    var rest := s[at + 1..];
    forall k | 0 <= k < |rest| ensures rest[k] != '@' {
      var j := at + 1 + k;
      assert rest[k] == s[j];
      if j != dot {
        assert IsPlainChar(s[j]);
      }
    }
    AtCountZero(s[..at]);
    AtCountZero(s[at + 1..]);
  }

  lemma EmailRegexHasShape(s: string)
    requires IsValidEmail(s)
    ensures EmailShape(s)
  {
    var at, dot :| 0 <= at < dot < |s| && s[at] == '@' && s[dot] == '.' &&
      PlainRun(s, 0, at) && PlainRun(s, at + 1, dot) && PlainRun(s, dot + 1, |s|);
    MatchHasNoWhitespace(s, at, dot);
    MatchHasOneAt(s, at, dot);
    assert 0 < at && at + 1 < dot < |s| - 1;
  }

  lemma EmailShapeMatchesRegex(s: string)
    requires EmailShape(s)
    ensures IsValidEmail(s)
  {
    var at, dot :| 0 < at && at + 1 < dot < |s| - 1 && s[at] == '@' && s[dot] == '.';
    AtCountAround(s, at);
    AtCountZero(s[..at]);
    AtCountZero(s[at + 1..]);
    forall k | 0 <= k < |s| && k != at ensures s[k] != '@' {
      if k < at {
        assert s[..at][k] == s[k];
      } else {
        assert s[at + 1..][k - at - 1] == s[k];
      }
    }
    assert PlainRun(s, 0, at) && PlainRun(s, at + 1, dot) && PlainRun(s, dot + 1, |s|);
  }

  /**
   * What the regular expression means: no whitespace anywhere, exactly one
   * `@`, a non-empty part before it, and somewhere after it a `.` with at
   * least one character on each side.
   */
  lemma EmailMeaning(s: string)
    ensures IsValidEmail(s) <==> EmailShape(s)
  {
    if IsValidEmail(s) {
      EmailRegexHasShape(s);
    }
    if EmailShape(s) {
      EmailShapeMatchesRegex(s);
    }
  }

  /** A few inputs and the regular expression's verdict on them. */
  lemma EmailExamples()
    ensures IsValidEmail("a@b.c")
    ensures IsValidEmail("a@.b.c")
    ensures !IsValidEmail("a@b")
    ensures !IsValidEmail("@b.c")
    ensures !IsValidEmail("a@@b.c")
    ensures !IsValidEmail("a b@c.d")
  {
    var s := "a@b.c";
    assert s[1] == '@' && s[3] == '.' && PlainRun(s, 0, 1) && PlainRun(s, 2, 3) && PlainRun(s, 4, 5);
    var u := "a@.b.c";
    assert u[1] == '@' && u[4] == '.' && PlainRun(u, 0, 1) && PlainRun(u, 2, 4) && PlainRun(u, 5, 6);
    var w := "a@@b.c";
    assert AtCount(w) == 2;
    EmailMeaning(w);
    var v := "a b@c.d";
    assert !IsPlainChar(v[1]);
  }

  /** `['Male', 'Female', 'Other'].includes(gender)`. */
  predicate IsValidGender(gender: string) {
    gender in ["Male", "Female", "Other"]
  }

  /** JavaScript truthiness of a text field: an absent field is modelled as "", and both are falsy. */
  predicate Given(s: string) {
    s != ""
  }

  /** JavaScript truthiness of a numeric field: absent (`None`) and `0` are falsy. */
  predicate GivenNumber(n: Option<int>) {
    n.Some? && n.value != 0
  }

  /** JavaScript truthiness of an optional string (a cookie, a stored token): absent and "" are both falsy. */
  predicate Truthy(o: Option<string>) {
    o.Some? && o.value != ""
  }
}
