/**
 * `checkCardNumber` (src/middlewares/checkCardNumber.js): remove every
 * whitespace character and every `-`, then accept a Visa number
 * (`/^4\d{15}$/`) or a MasterCard number (`/^5[1-5]\d{14}$/`).
 */
module CardNumber {

  /**
   * The characters removed by `replace(/[\s-]/g, '')`: `-` and what
   * JavaScript's `\s` matches (white space and line terminators).
   */
  predicate IsSeparator(c: char) {
    || c == '-'
    || c == ' ' || c == '\t' || c == '\n' || c == '\r' || c == '\U{000B}' || c == '\U{000C}'
    || c == '\U{00A0}' || c == '\U{1680}' || ('\U{2000}' <= c <= '\U{200A}')
    || c == '\U{2028}' || c == '\U{2029}' || c == '\U{202F}' || c == '\U{205F}'
    || c == '\U{3000}' || c == '\U{FEFF}'
  }

  /** `\d`: an ASCII digit. */
  predicate IsDigit(c: char) {
    '0' <= c <= '9'
  }

  predicate AllDigits(s: string) {
    forall i | 0 <= i < |s| :: IsDigit(s[i])
  }

  /** The card number with its separators removed, other characters kept in order. */
  function Cleaned(s: string): (r: string)
    ensures |r| <= |s|
    ensures forall i | 0 <= i < |r| :: !IsSeparator(r[i])
  {
    if s == [] then []
    else (if IsSeparator(s[0]) then [] else [s[0]]) + Cleaned(s[1..])
  }

  /** `/^4\d{15}$/` */
  predicate IsVisa(t: string) {
    |t| == 16 && t[0] == '4' && AllDigits(t[1..])
  }

  /** `/^5[1-5]\d{14}$/` */
  predicate IsMasterCard(t: string) {
    |t| == 16 && t[0] == '5' && '1' <= t[1] <= '5' && AllDigits(t[2..])
  }

  /** `checkCardNumber`. */
  function CheckCardNumber(cardNumber: string): (valid: bool)
    ensures valid <==>
      var t := Cleaned(cardNumber);
      |t| == 16 && AllDigits(t) && (t[0] == '4' || (t[0] == '5' && '1' <= t[1] <= '5'))
  {
    var cleanedCardNumber := Cleaned(cardNumber);
    DigitsAfterPrefix(cleanedCardNumber);
    if IsVisa(cleanedCardNumber) then true
    else if IsMasterCard(cleanedCardNumber) then true
    else false
  }

  /** A string is all digits exactly when its head is a digit and its tails are. */
  lemma DigitsAfterPrefix(t: string)
    ensures |t| >= 2 ==>
      (AllDigits(t) <==> IsDigit(t[0]) && AllDigits(t[1..]))
      && (AllDigits(t) <==> IsDigit(t[0]) && IsDigit(t[1]) && AllDigits(t[2..]))
  {
    if |t| >= 2 {
      if IsDigit(t[0]) && AllDigits(t[1..]) {
        forall i | 0 < i < |t| ensures IsDigit(t[i]) {
          assert t[i] == t[1..][i - 1];
        }
      }
      if IsDigit(t[0]) && IsDigit(t[1]) && AllDigits(t[2..]) {
        forall i | 1 < i < |t| ensures IsDigit(t[i]) {
          assert t[i] == t[2..][i - 2];
        }
      }
    }
  }

  /** A string without separators is left as it is. */
  lemma {:induction false} CleanedNoSeparators(s: string)
    requires forall i | 0 <= i < |s| :: !IsSeparator(s[i])
    ensures Cleaned(s) == s
  {
    if s != [] {
      assert !IsSeparator(s[0]);
      CleanedNoSeparators(s[1..]);
    }
  }

  /** Cleaning works character by character. */
  lemma {:induction false} CleanedAppend(a: string, b: string)
    ensures Cleaned(a + b) == Cleaned(a) + Cleaned(b)
  {
    if a == [] {
      assert a + b == b;
    } else {
      assert (a + b)[0] == a[0] && (a + b)[1..] == a[1..] + b;
      CleanedAppend(a[1..], b);
    }
  }

  /** Inserting a space or a `-` anywhere never changes the verdict. */
  lemma SeparatorIgnored(a: string, b: string, c: char)
    requires IsSeparator(c)
    ensures CheckCardNumber(a + [c] + b) == CheckCardNumber(a + b)
  {
    CleanedAppend(a + [c], b);
    CleanedAppend(a, [c]);
    CleanedAppend(a, b);
    assert Cleaned([c]) == [];
    calc {
      Cleaned(a + [c] + b);
      Cleaned(a + [c]) + Cleaned(b);
      Cleaned(a) + [] + Cleaned(b);
      { assert Cleaned(a) + [] == Cleaned(a); }
      Cleaned(a) + Cleaned(b);
      Cleaned(a + b);
    }
  }

  /** Every `4` followed by fifteen digits is accepted. */
  lemma VisaAccepted(digits: string)
    requires |digits| == 15 && AllDigits(digits)
    ensures CheckCardNumber(['4'] + digits)
  {
    var t := ['4'] + digits;
    assert forall i | 0 <= i < |t| :: IsDigit(t[i]) by {
      forall i | 0 <= i < |t| ensures IsDigit(t[i]) {
        if i > 0 { assert t[i] == digits[i - 1]; }
      }
    }
    CleanedNoSeparators(t);
  }

  /** Every `5`, a digit from 1 to 5 and fourteen digits is accepted. */
  lemma MasterCardAccepted(second: char, digits: string)
    requires '1' <= second <= '5' && |digits| == 14 && AllDigits(digits)
    ensures CheckCardNumber(['5', second] + digits)
  {
    var t := ['5', second] + digits;
    assert forall i | 0 <= i < |t| :: IsDigit(t[i]) by {
      forall i | 0 <= i < |t| ensures IsDigit(t[i]) {
        if i > 1 { assert t[i] == digits[i - 2]; }
      }
    }
    CleanedNoSeparators(t);
  }

  /**
   * No checksum is computed: two numbers that clean to sixteen digits with
   * the same first two digits get the same verdict, whatever the rest.
   */
  lemma OnlyPrefixAndLengthMatter(a: string, b: string)
    requires |Cleaned(a)| == 16 && AllDigits(Cleaned(a))
    requires |Cleaned(b)| == 16 && AllDigits(Cleaned(b))
    requires Cleaned(a)[..2] == Cleaned(b)[..2]
    ensures CheckCardNumber(a) == CheckCardNumber(b)
  {
    assert Cleaned(a)[0] == Cleaned(a)[..2][0] && Cleaned(a)[1] == Cleaned(a)[..2][1];
    assert Cleaned(b)[0] == Cleaned(b)[..2][0] && Cleaned(b)[1] == Cleaned(b)[..2][1];
  }

  /** A number whose first non-separator character is not 4 or 5 is rejected. */
  lemma WrongFirstDigitRejected(s: string)
    requires s != [] && !IsSeparator(s[0]) && s[0] != '4' && s[0] != '5'
    ensures !CheckCardNumber(s)
  {
    assert Cleaned(s) == [s[0]] + Cleaned(s[1..]);
  }

  /** The example of the function's own documentation is in fact rejected. */
  lemma DocumentedExampleRejected()
    ensures !CheckCardNumber("1234-5678-9012-3456")
  {
    WrongFirstDigitRejected("1234-5678-9012-3456");
  }
}
