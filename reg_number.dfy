/**
 * The payload-variant selector of App.java: a registration number selects
 * the placeholder query when its last two decimal digits form an odd number.
 */
module RegNumber {
  import opened Optional

  /** The characters Java's regular-expression class \d matches by default. */
  predicate IsAsciiDigit(c: char) {
    '0' <= c <= '9'
  }

  function DigitValue(c: char): (v: nat)
    requires IsAsciiDigit(c)
    ensures v < 10
  {
    c as int - '0' as int
  }

  predicate AllDigits(d: string) {
    forall i :: 0 <= i < |d| ==> IsAsciiDigit(d[i])
  }

  /** How many ASCII digits s holds, counted from the front. */
  function DigitCount(s: string): nat {
    if s == [] then 0
    else (if IsAsciiDigit(s[0]) then 1 else 0) + DigitCount(s[1..])
  }

  /** The last ASCII digit of s, found by scanning backwards; None when s has no digit. */
  function FinalDigit(s: string): (r: Option<char>)
    ensures r.Some? ==> IsAsciiDigit(r.value) && r.value in s
  {
    if s == [] then None
    else if IsAsciiDigit(s[|s| - 1]) then Some(s[|s| - 1])
    else FinalDigit(s[..|s| - 1])
  }

  /** regNo.replaceAll("\\D+", ""): every character outside 0-9 removed, the digits kept in order. */
  function StripNonDigits(s: string): (d: string)
    ensures AllDigits(d)
    ensures |d| <= |s|
  {
    if s == [] then []
    else
      var init, last := s[..|s| - 1], s[|s| - 1];
      assert s == init + [last];
      StripNonDigits(init) + (if IsAsciiDigit(last) then [last] else [])
  }

  /** Integer.parseInt on a string of exactly two ASCII digits. */
  function ParseTwoDigits(d: string): (n: nat)
    requires |d| == 2 && AllDigits(d)
    ensures n < 100
    ensures n % 2 == DigitValue(d[1]) % 2
  {
    var tens, ones := DigitValue(d[0]), DigitValue(d[1]);
    assert 10 * tens + ones == 2 * (5 * tens) + ones;
    10 * tens + ones
  }

  /**
   * lastTwoDigitsOdd: false with fewer than two digits, else the parity of the
   * last two digits read as a number. That parity is the parity of the
   * input's final digit.
   */
  function LastTwoDigitsOdd(regNo: string): (r: bool)
    ensures r <==> DigitCount(regNo) >= 2 && FinalDigit(regNo).Some? && DigitValue(FinalDigit(regNo).value) % 2 == 1
  {
    StripNonDigitsLength(regNo);
    FinalDigitIsLastStripped(regNo);
    var digits := StripNonDigits(regNo);
    if |digits| < 2 then false
    else
      assert digits[|digits| - 2..][1] == digits[|digits| - 1];
      ParseTwoDigits(digits[|digits| - 2..]) % 2 == 1
  }

  lemma {:induction false} DigitCountConcat(a: string, b: string)
    ensures DigitCount(a + b) == DigitCount(a) + DigitCount(b)
  {
    if a != [] {
      assert (a + b)[0] == a[0] && (a + b)[1..] == a[1..] + b;
      DigitCountConcat(a[1..], b);
    } else {
      assert a + b == b;
    }
  }

  /** Stripping drops exactly the non-digits: as many characters remain as s has digits. */
  lemma {:induction false} StripNonDigitsLength(s: string)
    ensures |StripNonDigits(s)| == DigitCount(s)
  {
    if s != [] {
      var init, last := s[..|s| - 1], s[|s| - 1];
      assert s == init + [last];
      StripNonDigitsLength(init);
      DigitCountConcat(init, [last]);
      assert [last][1..] == [];
    }
  }

  /** Stripping distributes over concatenation. */
  lemma {:induction false} StripNonDigitsConcat(a: string, b: string)
    ensures StripNonDigits(a + b) == StripNonDigits(a) + StripNonDigits(b)
  {
    if b == [] {
      assert a + b == a;
    } else {
      var init, last := b[..|b| - 1], b[|b| - 1];
      assert a + b == (a + init) + [last];
      assert (a + b)[..|a + b| - 1] == a + init;
      StripNonDigitsConcat(a, init);
    }
  }

  /** The last stripped digit is the input's final digit. */
  lemma {:induction false} FinalDigitIsLastStripped(s: string)
    ensures var d := StripNonDigits(s);
      if d == [] then FinalDigit(s) == None else FinalDigit(s) == Some(d[|d| - 1])
  {
    if s != [] && !IsAsciiDigit(s[|s| - 1]) {
      FinalDigitIsLastStripped(s[..|s| - 1]);
    }
  }

  /** Fewer than two ASCII digits: the registration number counts as even. */
  lemma FewerThanTwoDigitsIsEven(regNo: string)
    requires DigitCount(regNo) < 2
    ensures !LastTwoDigitsOdd(regNo)
  {
  }

  /**
   * With at least two digits, the result is the parity of the input's final
   * digit; the tens digit never matters.
   */
  lemma OddIffFinalDigitOdd(regNo: string)
    requires DigitCount(regNo) >= 2
    ensures FinalDigit(regNo).Some?
    ensures LastTwoDigitsOdd(regNo) <==> DigitValue(FinalDigit(regNo).value) % 2 == 1
  {
    FinalDigitIsLastStripped(regNo);
    StripNonDigitsLength(regNo);
  }

  /** Inserting (or, read backwards, removing) a non-digit anywhere never changes the result. */
  lemma NonDigitIrrelevant(a: string, c: char, b: string)
    requires !IsAsciiDigit(c)
    ensures LastTwoDigitsOdd(a + [c] + b) == LastTwoDigitsOdd(a + b)
  {
    StripNonDigitsConcat(a + [c], b);
    StripNonDigitsConcat(a, [c]);
    StripNonDigitsConcat(a, b);
    assert [c][..0] == [];
  }

  /** Any digit followed by at least one more digit can be replaced by any other digit. */
  lemma OnlyFinalDigitMatters(a: string, x: char, y: char, b: string)
    requires IsAsciiDigit(x) && IsAsciiDigit(y)
    requires DigitCount(b) >= 1
    ensures LastTwoDigitsOdd(a + [x] + b) == LastTwoDigitsOdd(a + [y] + b)
  {
    DigitBeforeDigits(a, x, b);
    DigitBeforeDigits(a, y, b);
    OddIffFinalDigitOdd(a + [x] + b);
    OddIffFinalDigitOdd(a + [y] + b);
  }

  /** A digit followed by more digits is not the final one. */
  lemma DigitBeforeDigits(a: string, z: char, b: string)
    requires IsAsciiDigit(z) && DigitCount(b) >= 1
    ensures DigitCount(a + [z] + b) >= 2
    ensures FinalDigit(a + [z] + b) == FinalDigit(b)
  {
    DigitCountConcat(a + [z], b);
    DigitCountConcat(a, [z]);
    assert [z][1..] == [];
    StripNonDigitsConcat(a + [z], b);
    StripNonDigitsLength(b);
    FinalDigitIsLastStripped(a + [z] + b);
    FinalDigitIsLastStripped(b);
  }

  /** A string of digits only is left as it is. */
  lemma {:induction false} StripKeepsDigits(s: string)
    requires AllDigits(s)
    ensures StripNonDigits(s) == s
  {
    if s != [] {
      StripKeepsDigits(s[..|s| - 1]);
    }
  }

  /** A string without digits strips to nothing. */
  lemma {:induction false} StripDropsNonDigits(s: string)
    requires forall i :: 0 <= i < |s| ==> !IsAsciiDigit(s[i])
    ensures StripNonDigits(s) == []
  {
    if s != [] {
      StripDropsNonDigits(s[..|s| - 1]);
    }
  }

  /** A letters-then-digits registration number strips to its digit part. */
  lemma Split(letters: string, digits: string)
    requires forall i :: 0 <= i < |letters| ==> !IsAsciiDigit(letters[i])
    requires AllDigits(digits)
    ensures StripNonDigits(letters + digits) == digits
  {
    StripNonDigitsConcat(letters, digits);
    StripKeepsDigits(digits);
    StripDropsNonDigits(letters);
  }

  /**
   * A letters-then-digits registration number with at least two digits is odd
   * exactly when its last character is an odd digit.
   */
  lemma LettersThenDigits(letters: string, digits: string)
    requires forall i :: 0 <= i < |letters| ==> !IsAsciiDigit(letters[i])
    requires AllDigits(digits) && |digits| >= 2
    ensures LastTwoDigitsOdd(letters + digits) <==> DigitValue(digits[|digits| - 1]) % 2 == 1
  {
    var s := letters + digits;
    Split(letters, digits);
    StripNonDigitsLength(s);
    FinalDigitIsLastStripped(s);
  }

  // The examples write each registration number as its letters + its digits,
  // which spares the verifier from unfolding the whole string literal.

  /** "ABCD1234": digits "1234", last two 34, even. */
  lemma ExampleEven()
    ensures !LastTwoDigitsOdd("ABCD" + "1234")
  {
    LettersThenDigits("ABCD", "1234");
  }

  /** "REG12345": digits "12345", last two 45, odd. */
  lemma ExampleOdd()
    ensures LastTwoDigitsOdd("REG" + "12345")
  {
    LettersThenDigits("REG", "12345");
  }

  /** "ABC": no digits, so even. */
  lemma ExampleNoDigits()
    ensures !LastTwoDigitsOdd("ABC")
  {
    FewerThanTwoDigitsIsEven("ABC");
  }

  /** The default registration number "YOURREGNO1234" is even. */
  lemma ExampleDefault()
    ensures !LastTwoDigitsOdd("YOURREGNO" + "1234")
  {
    LettersThenDigits("YOURREGNO", "1234");
  }
}
