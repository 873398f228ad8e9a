// The Luhn check of card numbers (app/privacy/masking.py), and which errors it
// catches. The sum is that of Annex B of ISO/IEC 7812-1.

module Luhn {
  import opened Options

  type Digit = d: nat | d < 10

  // Every second digit from the right counts as the digits of its double.
  function Weight(d: Digit, fromRight: nat): nat {
    if fromRight % 2 == 1 then 2 * d / 10 + 2 * d % 10 else d
  }

  lemma WeightByParity(d: Digit, fromRight: nat)
    ensures fromRight % 2 == 1 ==> Weight(d, fromRight) == if d < 5 then 2 * d else 2 * d - 9
    ensures fromRight % 2 == 0 ==> Weight(d, fromRight) == d
  {
  }

  function LuhnSum(digits: seq<Digit>): nat {
    if digits == [] then 0 else Weight(digits[0], |digits| - 1) + LuhnSum(digits[1..])
  }

  predicate Valid(digits: seq<Digit>) {
    LuhnSum(digits) % 10 == 0
  }

  // The loop subtracts 9 where the standard adds up the digits of the double.
  method LuhnValid(digits: seq<Digit>) returns (valid: bool)
    ensures valid <==> Valid(digits)
  {
    hide Weight;
    var total := 0;
    var i := 0;
    while i < |digits|
      invariant 0 <= i <= |digits|
      invariant total == LuhnSum(digits[|digits| - i..])
    {
      var d: nat := digits[|digits| - 1 - i];
      if i % 2 == 1 {
        d := d * 2;
        if d > 9 {
          d := d - 9;
        }
      }
      assert digits[|digits| - 1 - i..][1..] == digits[|digits| - i..];
      WeightByParity(digits[|digits| - 1 - i], i);
      total := total + d;
      i := i + 1;
    }
    assert digits[0..] == digits;
    return total % 10 == 0;
  }

  // ----- The sum, place by place -----

  // The last n digits: the first from the right counts as it is, the second
  // twice, and so on; `shift` is 1 when one more digit is to follow.
  function FromRight(digits: seq<Digit>, n: nat, shift: nat): nat
    requires n <= |digits|
  {
    if n == 0 then 0
    else
      var d: nat := digits[|digits| - n];
      var place := n + shift;
      FromRight(digits, n - 1, shift) + if place % 2 == 1 then d else if d < 5 then 2 * d else 2 * d - 9
  }

  lemma {:induction false} FromRightOfTail(digits: seq<Digit>, n: nat, shift: nat)
    requires n < |digits|
    ensures FromRight(digits[1..], n, shift) == FromRight(digits, n, shift)
  {
    if n > 0 {
      FromRightOfTail(digits, n - 1, shift);
    }
  }

  lemma {:induction false} SumIsFromRight(digits: seq<Digit>)
    ensures LuhnSum(digits) == FromRight(digits, |digits|, 0)
    ensures Valid(digits) <==> FromRight(digits, |digits|, 0) % 10 == 0
  {
    if digits != [] {
      SumIsFromRight(digits[1..]);
      FromRightOfTail(digits, |digits| - 1, 0);
      WeightByParity(digits[0], |digits| - 1);
      hide Weight;
    }
  }

  lemma {:induction false} FromRightShifted(payload: seq<Digit>, n: nat)
    requires n <= |payload|
    ensures FromRight(payload + [0], n + 1, 0) == FromRight(payload, n, 1)
  {
    if n > 0 {
      FromRightShifted(payload, n - 1);
    }
  }

  lemma {:induction false} ZerosFromRight(digits: seq<Digit>, n: nat)
    requires n <= |digits| && forall i | 0 <= i < |digits| :: digits[i] == 0
    ensures FromRight(digits, n, 0) == 0
  {
    if n > 0 {
      ZerosFromRight(digits, n - 1);
    }
  }

  // A number of zeros is valid, however long.
  lemma {:induction false} ZerosAreValid(digits: seq<Digit>)
    requires forall i | 0 <= i < |digits| :: digits[i] == 0
    ensures LuhnSum(digits) == 0 && Valid(digits)
  {
    ZerosFromRight(digits, |digits|);
    SumIsFromRight(digits);
  }

  // ----- Which errors are caught -----

  lemma {:induction false} SumOfUpdate(digits: seq<Digit>, i: nat, c: Digit)
    requires i < |digits|
    ensures LuhnSum(digits[i := c]) + Weight(digits[i], |digits| - 1 - i)
         == LuhnSum(digits) + Weight(c, |digits| - 1 - i)
  {
    hide Weight;
    var changed := digits[i := c];
    if i == 0 {
      assert changed[1..] == digits[1..];
    } else {
      assert changed[1..] == digits[1..][i - 1 := c];
      SumOfUpdate(digits[1..], i - 1, c);
    }
  }

  lemma WeightIsInjective(a: Digit, b: Digit, fromRight: nat)
    ensures Weight(a, fromRight) < 10
    ensures Weight(a, fromRight) == Weight(b, fromRight) <==> a == b
  {
    WeightByParity(a, fromRight);
    WeightByParity(b, fromRight);
    hide Weight;
  }

  // Two sums that differ by less than 10 are not both multiples of 10.
  lemma CloseMultiples(x: nat, y: nat)
    requires x % 10 == 0 && -10 < x - y < 10
    ensures y % 10 == 0 <==> x == y
  {
  }

  // One wrong digit is always noticed.
  lemma {:induction false} SubstitutionIsCaught(digits: seq<Digit>, i: nat, c: Digit)
    requires Valid(digits) && i < |digits| && c != digits[i]
    ensures !Valid(digits[i := c])
  {
    SumOfUpdate(digits, i, c);
    WeightIsInjective(digits[i], c, |digits| - 1 - i);
    WeightIsInjective(c, digits[i], |digits| - 1 - i);
    CloseMultiples(LuhnSum(digits), LuhnSum(digits[i := c]));
  }

  function Swapped(digits: seq<Digit>, i: nat): seq<Digit>
    requires i + 1 < |digits|
  {
    digits[i := digits[i + 1]][i + 1 := digits[i]]
  }

  // What the double of a digit counts more than the digit.
  function Excess(d: Digit): int {
    if d < 5 then d else d - 9
  }

  predicate ZeroAndNine(a: Digit, b: Digit) {
    (a == 0 && b == 9) || (a == 9 && b == 0)
  }

  lemma ExcessTellsDigits(a: Digit, b: Digit)
    ensures -10 < Excess(a) - Excess(b) < 10
    ensures Excess(a) == Excess(b) <==> a == b || ZeroAndNine(a, b)
  {
  }

  // Two digits that change places, one from an odd place and one from an even one.
  lemma WeightsOfSwap(a: Digit, b: Digit, fromRight: nat)
    requires fromRight > 0
    ensures Weight(b, fromRight) + Weight(a, fromRight - 1) - Weight(a, fromRight) - Weight(b, fromRight - 1)
         == if fromRight % 2 == 1 then Excess(b) - Excess(a) else Excess(a) - Excess(b)
  {
    WeightByParity(a, fromRight);
    WeightByParity(b, fromRight);
    WeightByParity(a, fromRight - 1);
    WeightByParity(b, fromRight - 1);
    hide Weight;
  }

  lemma SumOfSwap(digits: seq<Digit>, i: nat)
    requires i + 1 < |digits|
    ensures var change := Excess(digits[i + 1]) - Excess(digits[i]);
      LuhnSum(Swapped(digits, i)) - LuhnSum(digits) == if (|digits| - 1 - i) % 2 == 1 then change else -change
  {
    hide Weight, LuhnSum, Excess;
    var once := digits[i := digits[i + 1]];
    SumOfUpdate(digits, i, digits[i + 1]);
    SumOfUpdate(once, i + 1, digits[i]);
    WeightsOfSwap(digits[i], digits[i + 1], |digits| - 1 - i);
  }

  // Swapping two unequal adjacent digits is noticed unless they are 0 and 9.
  lemma SwapIsCaughtUnless09(digits: seq<Digit>, i: nat)
    requires Valid(digits) && i + 1 < |digits| && digits[i] != digits[i + 1]
    ensures Valid(Swapped(digits, i)) <==> ZeroAndNine(digits[i], digits[i + 1])
  {
    SumOfSwap(digits, i);
    ExcessTellsDigits(digits[i], digits[i + 1]);
    hide Excess, LuhnSum, Swapped, ZeroAndNine;
    CloseMultiples(LuhnSum(digits), LuhnSum(Swapped(digits, i)));
  }

  // ----- The check digit -----

  function CheckDigit(payload: seq<Digit>): Digit {
    (10 - FromRight(payload, |payload|, 1) % 10) % 10
  }

  lemma SumOfLast(payload: seq<Digit>, c: Digit)
    ensures LuhnSum(payload + [c]) == FromRight(payload, |payload|, 1) + c
  {
    hide LuhnSum, FromRight, Weight;
    WeightByParity(0, 0);
    WeightByParity(c, 0);
    SumOfUpdate(payload + [0], |payload|, c);
    assert (payload + [0])[|payload| := c] == payload + [c];
    SumIsFromRight(payload + [0]);
    FromRightShifted(payload, |payload|);
  }

  // Every payload has exactly one check digit: what its places, the last one
  // doubled, lack to a multiple of ten.
  lemma CheckDigitIsUnique(payload: seq<Digit>, c: Digit)
    ensures Valid(payload + [c]) <==> c == CheckDigit(payload)
    ensures Valid(payload + [c]) <==> (FromRight(payload, |payload|, 1) + c) % 10 == 0
  {
    SumOfLast(payload, c);
    hide LuhnSum, FromRight;
    RoundUp(FromRight(payload, |payload|, 1), c);
  }

  lemma RoundUp(x: nat, c: Digit)
    ensures (x + c) % 10 == 0 <==> c == (10 - x % 10) % 10
  {
    var r := x % 10;
    assert x + c == 10 * (x / 10) + (r + c);
    assert (x + c) % 10 == 0 <==> r + c == 0 || r + c == 10;
  }

  // ----- Masking a candidate -----

  const MASK := "<CREDIT_CARD>"

  predicate IsSeparator(ch: char) {
    ch == ' ' || ch == '-'
  }

  // What the card pattern matches: decimal digits, spaces and hyphens. Which
  // characters are digits, and of which value, is up to the Unicode tables.
  predicate Candidate(value: char -> Option<Digit>, text: string) {
    forall ch | ch in text :: IsSeparator(ch) || value(ch).Some?
  }

  // The digits without separators.
  function Digits(value: char -> Option<Digit>, text: string): seq<Digit>
    requires Candidate(value, text)
  {
    if text == [] then []
    else
      assert text == [text[0]] + text[1..];
      if IsSeparator(text[0]) then Digits(value, text[1..])
      else [value(text[0]).value] + Digits(value, text[1..])
  }

  // The digits in order, one for each character that is no separator.
  lemma {:induction false} DigitsOfConcat(value: char -> Option<Digit>, a: string, b: string, ch: char)
    requires Candidate(value, a) && Candidate(value, b) && Candidate(value, [ch])
    ensures Candidate(value, a + b) && Digits(value, a + b) == Digits(value, a) + Digits(value, b)
    ensures Digits(value, [ch]) == if ch == ' ' || ch == '-' then [] else [value(ch).value]
  {
    assert ch in [ch] && [ch][1..] == [];
    assert forall c | c in a + b :: c in a || c in b;
    if a == [] {
      assert a + b == b;
    } else {
      assert a == [a[0]] + a[1..];
      DigitsOfConcat(value, a[1..], b, ch);
      assert (a + b)[0] == a[0] && (a + b)[1..] == a[1..] + b;
    }
  }

  ghost predicate IsCard(value: char -> Option<Digit>, text: string)
    requires Candidate(value, text)
  {
    13 <= |Digits(value, text)| <= 19 && Valid(Digits(value, text))
  }

  method Card(value: char -> Option<Digit>, text: string) returns (masked: string)
    requires Candidate(value, text)
    ensures masked == if IsCard(value, text) then MASK else text
  {
    var digits := Digits(value, text);
    if 13 <= |digits| <= 19 {
      var valid := LuhnValid(digits);
      if valid {
        return MASK;
      }
    }
    return text;
  }

  lemma CandidateOfUpdate(value: char -> Option<Digit>, text: string, i: nat, ch: char)
    requires Candidate(value, text) && i < |text| && value(ch).Some?
    ensures Candidate(value, text[i := ch])
  {
    assert forall c | c in text[i := ch] :: c in text || c == ch;
  }

  lemma {:induction false} DigitsOfUpdate(value: char -> Option<Digit>, text: string, i: nat, ch: char) returns (k: nat)
    requires i < |text| && Candidate(value, text) && Candidate(value, text[i := ch])
    requires !IsSeparator(text[i]) && !IsSeparator(ch) && value(ch).Some?
    ensures k < |Digits(value, text)| && value(text[i]) == Some(Digits(value, text)[k])
    ensures Digits(value, text[i := ch]) == Digits(value, text)[k := value(ch).value]
  {
    var changed := text[i := ch];
    assert text == [text[0]] + text[1..];
    if i == 0 {
      k := 0;
      assert changed[1..] == text[1..];
    } else {
      assert changed[1..] == text[1..][i - 1 := ch];
      CandidateOfUpdate(value, text[1..], i - 1, ch);
      k := DigitsOfUpdate(value, text[1..], i - 1, ch);
      if !IsSeparator(text[0]) {
        k := k + 1;
      }
    }
  }

  // A card number with one mistyped digit is no card number, however it is spaced.
  lemma MistypedCardIsNotMasked(value: char -> Option<Digit>, text: string, i: nat, ch: char)
    requires Candidate(value, text) && IsCard(value, text) && i < |text| && !IsSeparator(text[i])
    requires !IsSeparator(ch) && value(ch).Some? && value(ch) != value(text[i])
    ensures Candidate(value, text[i := ch]) && !IsCard(value, text[i := ch])
  {
    CandidateOfUpdate(value, text, i, ch);
    var k := DigitsOfUpdate(value, text, i, ch);
    SubstitutionIsCaught(Digits(value, text), k, value(ch).value);
  }
}
