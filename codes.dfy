/**
 * The two random codes of the system, as functions of the draws of
 * `Math.random()` they consume: the 6-digit verification OTP (`generateotp`,
 * identical in the doctor, laboratory and medical controllers) and the
 * patient's 2-letter + 4-digit `uniqueId` (`generateUniqueId`).
 */
module Codes {

  /** A value `Math.random()` can return. */
  predicate IsDraw(r: real) {
    0.0 <= r < 1.0
  }

  predicate AreDraws(draws: seq<real>) {
    forall i :: 0 <= i < |draws| ==> IsDraw(draws[i])
  }

  /** `Math.floor(r * n)`: an index below `n`. */
  function Scale(r: real, n: nat): (k: nat)
    requires IsDraw(r) && n > 0
    ensures k < n
    ensures k as real <= r * n as real < k as real + 1.0
  {
    assert 0.0 <= r * n as real < n as real;
    (r * n as real).Floor
  }

  const Digits: string := "0123456789"
  const OtpLength: nat := 6

  predicate IsDigit(c: char) {
    '0' <= c <= '9'
  }

  predicate IsUpper(c: char) {
    'A' <= c <= 'Z'
  }

  /** `Digits[d]`, the decimal digit for `d`; also what `(d).toString()` gives for `d < 10`. */
  function DigitChar(d: nat): (c: char)
    requires d < 10
    ensures IsDigit(c) && c as int - '0' as int == d
  {
    Digits[d]
  }

  /** A verification code: exactly six decimal digits, leading zeros allowed. */
  predicate IsOtp(s: string) {
    |s| == OtpLength && forall i :: 0 <= i < |s| ==> IsDigit(s[i])
  }

  /** The code `generateotp` builds from its six draws, character by character. */
  function OtpFromDraws(draws: seq<real>): string
    requires |draws| == OtpLength && AreDraws(draws)
  {
    seq(OtpLength, i requires 0 <= i < OtpLength => DigitChar(Scale(draws[i], |Digits|)))
  }

  /** `generateotp`: six times, pick `characters[Math.floor(Math.random() * 10)]` and append it. */
  method GenerateOtp(draws: seq<real>) returns (otp: string)
    requires |draws| == OtpLength && AreDraws(draws)
    ensures IsOtp(otp)
    ensures otp == OtpFromDraws(draws)
  {
    var characters := Digits;
    otp := "";
    for i := 0 to OtpLength
      invariant |otp| == i
      invariant forall k :: 0 <= k < i ==> otp[k] == DigitChar(Scale(draws[k], 10))
    {
      var randomIndex := Scale(draws[i], |characters|);
      otp := otp + [characters[randomIndex]];
    }
  }

  /** A draw that `Math.floor(r * n)` maps to `k`. */
  function DrawFor(k: nat, n: nat): (r: real)
    requires k < n
    ensures IsDraw(r) && Scale(r, n) == k
  {
    var r := k as real / n as real;
    assert r * n as real == k as real;
    r
  }

  /** Every 6-digit code, leading zeros included, is one `generateotp` can produce. */
  lemma EveryOtpIsReachable(code: string)
    requires IsOtp(code)
    ensures exists draws :: |draws| == OtpLength && AreDraws(draws) && OtpFromDraws(draws) == code
  {
    var draws := seq(OtpLength, i requires 0 <= i < OtpLength => DrawFor(code[i] as int - '0' as int, 10));
    assert AreDraws(draws);
    forall i | 0 <= i < OtpLength ensures OtpFromDraws(draws)[i] == code[i] {
      var d := code[i] as int - '0' as int;
      assert Scale(draws[i], 10) == d;
      assert Digits[d] as int - '0' as int == d;
    }
    assert OtpFromDraws(draws) == code;
  }

  /** A patient id: two upper-case letters `A..Z` followed by four decimal digits. */
  predicate IsPatientCode(s: string) {
    && |s| == 6
    && (forall i :: 0 <= i < 2 ==> IsUpper(s[i]))
    && (forall i :: 2 <= i < 6 ==> IsDigit(s[i]))
  }

  /** `String.fromCharCode(65 + k)` for `k < 26`. */
  function LetterChar(k: nat): (c: char)
    requires k < 26
    ensures IsUpper(c) && c as int - 'A' as int == k
  {
    (65 + k) as char
  }

  /**
   * `generateUniqueId`: two letters `String.fromCharCode(65 + floor(r * 26))`
   * from the first two draws, then four digits `floor(r * 10)` from the next four.
   */
  function UniqueIdFromDraws(draws: seq<real>): (id: string)
    requires |draws| == 6 && AreDraws(draws)
    ensures IsPatientCode(id)
  {
    var letters := seq(2, i requires 0 <= i < 2 => LetterChar(Scale(draws[i], 26)));
    var numbers := seq(4, i requires 0 <= i < 4 => DigitChar(Scale(draws[2 + i], 10)));
    letters + numbers
  }

  /** Every id of that shape is one `generateUniqueId` can produce. */
  lemma EveryPatientCodeIsReachable(code: string)
    requires IsPatientCode(code)
    ensures exists draws :: |draws| == 6 && AreDraws(draws) && UniqueIdFromDraws(draws) == code
  {
    var draws := seq(6, i requires 0 <= i < 6 =>
      if i < 2 then DrawFor(code[i] as int - 'A' as int, 26) else DrawFor(code[i] as int - '0' as int, 10));
    assert AreDraws(draws);
    var id := UniqueIdFromDraws(draws);
    forall i | 0 <= i < 6 ensures id[i] == code[i] {
      if i < 2 {
        assert Scale(draws[i], 26) == code[i] as int - 'A' as int;
        assert LetterChar(Scale(draws[i], 26)) == code[i];
      } else {
        var d := code[i] as int - '0' as int;
        assert Scale(draws[i], 10) == d;
        assert Digits[d] as int - '0' as int == d;
      }
    }
    assert id == code;
  }
}
