/** The card-number checksum of services/guardrails.py: the Luhn formula
    (ISO/IEC 7812-1, Annex B) as the gateway computes it, and the errors it detects. */
module Guardrails {

  type Digit = d: int | 0 <= d <= 9

  /** What one digit adds to the checksum; `doubled` digits are doubled and cast out nines. */
  function Contribution(d: Digit, doubled: bool): (c: Digit) {
    if !doubled then d else if 2 * d > 9 then 2 * d - 9 else 2 * d
  }

  /** Reference checksum, read from the right: the last digit counts as it is and every
      second digit from there is doubled, so a digit's weight depends only on its suffix. */
  function LuhnSum(ds: seq<Digit>): nat {
    if ds == [] then 0 else Contribution(ds[0], |ds| % 2 == 0) + LuhnSum(ds[1..])
  }

  predicate Passes(ds: seq<Digit>) {
    LuhnSum(ds) % 10 == 0
  }

  // ---- The same by positions ------------------------------------------------------

  function Total(terms: seq<nat>): nat {
    if terms == [] then 0 else terms[0] + Total(terms[1..])
  }

  /** What the standard counts for each position: counted from the right, the digits at odd
      places as they are, those at even places as the digit sum of their double. */
  function Weighed(ds: seq<Digit>): (terms: seq<nat>)
    ensures |terms| == |ds|
    ensures forall i :: 0 <= i < |ds| ==> var d: int := ds[i]; terms[i] == if (|ds| - i) % 2 == 1 then d else 2 * d / 10 + 2 * d % 10
  {
    seq(|ds|, i requires 0 <= i < |ds| => var d: int := ds[i]; if (|ds| - i) % 2 == 1 then d else 2 * d / 10 + 2 * d % 10)
  }

  lemma DigitSum(d: Digit)
    ensures Contribution(d, true) == 2 * d / 10 + 2 * d % 10 && Contribution(d, false) == d
  {
  }

  /** The checksum is the sum of any list of terms that counts each position so. */
  lemma {:induction false} SumOfTerms(ds: seq<Digit>, terms: seq<nat>)
    requires |terms| == |ds|
    requires forall i :: 0 <= i < |ds| ==> var d: int := ds[i]; terms[i] == if (|ds| - i) % 2 == 1 then d else 2 * d / 10 + 2 * d % 10
    ensures LuhnSum(ds) == Total(terms)
  {
    hide Contribution;
    if ds != [] {
      SumOfTerms(ds[1..], terms[1..]);
      DigitSum(ds[0]);
    }
  }

  lemma SumByPosition(ds: seq<Digit>)
    ensures LuhnSum(ds) == Total(Weighed(ds))
  {
    SumOfTerms(ds, Weighed(ds));
  }

  predicate IsDigit(ch: char) {
    '0' <= ch <= '9'
  }

  function DigitOf(ch: char): Digit
    requires IsDigit(ch)
  {
    ch as int - '0' as int
  }

  function Kept(ch: char): seq<Digit> {
    if IsDigit(ch) then [DigitOf(ch)] else []
  }

  /** The digits of a card number, separators dropped. */
  function DigitsOf(card: string): seq<Digit> {
    if card == [] then [] else Kept(card[0]) + DigitsOf(card[1..])
  }

  ghost predicate ValidCard(card: string) {
    13 <= |DigitsOf(card)| <= 19 && Passes(DigitsOf(card))
  }

  lemma {:induction false} DigitsOfJoined(a: string, b: string)
    ensures DigitsOf(a + b) == DigitsOf(a) + DigitsOf(b)
  {
    hide Kept;
    if a == [] {
      assert a + b == b;
      assert DigitsOf(a) == [];
    } else {
      FirstKept(a);
      FirstKept(a + b);
      hide DigitsOf;
      assert (a + b)[1..] == a[1..] + b;
      DigitsOfJoined(a[1..], b);
    }
  }

  /** Read from the left, each character `0` to `9` adds its digit and any other nothing. */
  lemma {:induction false} DigitsRead(card: string, ch: char)
    ensures DigitsOf("") == []
    ensures DigitsOf(card + [ch]) == DigitsOf(card) + if '0' <= ch <= '9' then [ch as int - 48] else []
  {
    DigitsOfJoined(card, [ch]);
  }

  lemma {:induction false} AllDigits(card: string, ds: seq<Digit>)
    requires |card| == |ds| && forall i :: 0 <= i < |card| ==> IsDigit(card[i]) && ds[i] == DigitOf(card[i])
    ensures DigitsOf(card) == ds
  {
    if card != [] {
      AllDigits(card[1..], ds[1..]);
    }
  }

  lemma {:induction false} SumOfOnes(ds: seq<Digit>)
    requires forall i :: 0 <= i < |ds| ==> ds[i] == 1
    ensures LuhnSum(ds) == |ds| + |ds| / 2
  {
    if ds != [] {
      SumOfOnes(ds[1..]);
    }
  }

  lemma KnownSum(ds: seq<Digit>)
    requires |ds| == 16 && ds[0] == 4 && forall i :: 0 < i < 16 ==> ds[i] == 1
    ensures LuhnSum(ds) == 30
  {
    SumOfOnes(ds[1..]);
  }

  /** A known card number passes, with checksum 30. */
  lemma KnownCard()
    ensures DigitsOf("4111111111111111") == [4, 1, 1, 1, 1, 1, 1, 1, 1, 1, 1, 1, 1, 1, 1, 1]
    ensures LuhnSum(DigitsOf("4111111111111111")) == 30
    ensures ValidCard("4111111111111111")
  {
    hide DigitsOf, LuhnSum;
    var ds: seq<Digit> := [4, 1, 1, 1, 1, 1, 1, 1, 1, 1, 1, 1, 1, 1, 1, 1];
    AllDigits("4111111111111111", ds);
    KnownSum(ds);
  }

  lemma NextKept(card: string, i: nat)
    requires i < |card|
    ensures DigitsOf(card[i..]) == (if IsDigit(card[i]) then [DigitOf(card[i])] else []) + DigitsOf(card[i + 1..])
  {
    assert card[i..][0] == card[i] && card[i..][1..] == card[i + 1..];
  }

  lemma NoDigitsLeft(card: string)
    ensures DigitsOf(card[|card|..]) == []
  {
  }

  method DigitList(card: string) returns (digits: seq<Digit>)
    ensures digits == DigitsOf(card)
  {
    hide DigitsOf, Kept;
    digits := [];
    assert card[0..] == card;
    for i := 0 to |card|
      invariant digits + DigitsOf(card[i..]) == DigitsOf(card)
    {
      NextKept(card, i);
      if IsDigit(card[i]) {
        digits := digits + [DigitOf(card[i])];
      }
    }
    NoDigitsLeft(card);
  }

  lemma EmptySum()
    ensures LuhnSum([]) == 0
  {
  }

  lemma SumFrom(digits: seq<Digit>, idx: nat)
    requires idx < |digits|
    ensures LuhnSum(digits[idx..]) == Contribution(digits[idx], (|digits| - idx) % 2 == 0) + LuhnSum(digits[idx + 1..])
  {
    hide Contribution;
    assert digits[idx..][1..] == digits[idx + 1..];
  }

  /** Counting from the left, the doubled digits are those of the length's parity. */
  lemma Parity(n: nat, idx: nat)
    requires idx <= n
    ensures (n - idx) % 2 == 0 <==> idx % 2 == n % 2
  {
  }

  /** The loop of `_luhn_checksum_is_valid`, with its left-to-right parity. */
  method Checksum(digits: seq<Digit>) returns (checksum: nat)
    ensures checksum == LuhnSum(digits)
  {
    hide LuhnSum;
    checksum := 0;
    EmptySum();
    assert digits[0..] == digits;
    var parity := |digits| % 2;
    for idx := 0 to |digits|
      invariant checksum + LuhnSum(digits[idx..]) == LuhnSum(digits)
    {
      var digit: int := digits[idx];
      if idx % 2 == parity {
        digit := digit * 2;
        if digit > 9 {
          digit := digit - 9;
        }
      }
      SumFrom(digits, idx);
      Parity(|digits|, idx);
      checksum := checksum + digit;
    }
    assert digits[|digits|..] == [];
  }

  method LuhnChecksumIsValid(card: string) returns (valid: bool)
    ensures valid <==> 13 <= |DigitsOf(card)| <= 19 && Total(Weighed(DigitsOf(card))) % 10 == 0
    ensures valid <==> ValidCard(card)
  {
    SumByPosition(DigitsOf(card));
    var digits := DigitList(card);
    if |digits| < 13 || |digits| > 19 {
      return false;
    }
    var checksum := Checksum(digits);
    return checksum % 10 == 0;
  }

  // ---- What the checksum detects ------------------------------------------------

  /** Replacing one digit moves the checksum by the change of that digit's contribution. */
  lemma {:induction false} SumOfUpdate(ds: seq<Digit>, k: nat, d: Digit)
    requires k < |ds|
    ensures LuhnSum(ds[k := d]) - LuhnSum(ds)
         == Contribution(d, (|ds| - k) % 2 == 0) - Contribution(ds[k], (|ds| - k) % 2 == 0)
  {
    if k == 0 {
      assert ds[0 := d][1..] == ds[1..];
    } else {
      assert ds[k := d][1..] == ds[1..][k - 1 := d];
      SumOfUpdate(ds[1..], k - 1, d);
    }
  }

  /** A small change keeps a multiple of ten one only if there is no change. */
  lemma SmallShift(before: int, after: int)
    requires before % 10 == 0 && -10 < after - before < 10
    ensures after % 10 == 0 <==> after == before
  {
  }

  /** Every single-digit error turns a passing string into a failing one. */
  lemma {:induction false} SingleErrorDetected(ds: seq<Digit>, k: nat, d: Digit)
    requires k < |ds| && Passes(ds)
    ensures Passes(ds[k := d]) <==> d == ds[k]
  {
    hide LuhnSum;
    SumOfUpdate(ds, k, d);
    SmallShift(LuhnSum(ds), LuhnSum(ds[k := d]));
  }

  /** Swapping two adjacent digits is detected, except for the pair 0 and 9. */
  lemma {:induction false} TranspositionDetected(ds: seq<Digit>, k: nat)
    requires k + 1 < |ds| && Passes(ds)
    ensures Passes(ds[k := ds[k + 1]][k + 1 := ds[k]])
       <==> ds[k] == ds[k + 1] || {ds[k], ds[k + 1]} == {0, 9}
  {
    hide LuhnSum, Contribution;
    var a, b := ds[k], ds[k + 1];
    var once := ds[k := b];
    var even := (|ds| - k) % 2 == 0;
    SumOfUpdate(ds, k, b);
    SumOfUpdate(once, k + 1, a);
    SwapShift(a, b, even);
    SmallShift(LuhnSum(ds), LuhnSum(once[k + 1 := a]));
    assert {a, b} == {0, 9} <==> (a == 0 && b == 9) || (a == 9 && b == 0) by {
      assert {a, b} == {0, 9} ==> a in {0, 9} && b in {0, 9} && 0 in {a, b} && 9 in {a, b};
    }
  }

  /** What a swap changes: nothing exactly for equal digits and for 0 and 9. */
  lemma SwapShift(a: Digit, b: Digit, even: bool)
    ensures var shift := Contribution(b, even) - Contribution(a, even) + Contribution(a, !even) - Contribution(b, !even);
            -10 < shift < 10 && (shift == 0 <==> a == b || (a == 0 && b == 9) || (a == 9 && b == 0))
  {
  }

  lemma {:induction false} SumOfAppend(ds: seq<Digit>, d: Digit, e: Digit)
    ensures LuhnSum(ds + [d]) - LuhnSum(ds + [e]) == d - e
  {
    SumOfUpdate(ds + [e], |ds|, d);
    assert (ds + [e])[|ds| := d] == ds + [d];
  }

  /** The digit that completes a prefix. */
  function CheckDigit(ds: seq<Digit>): Digit {
    (10 - LuhnSum(ds + [0]) % 10) % 10
  }

  /** Each prefix has exactly one check digit that passes. */
  lemma {:induction false} CheckDigitUnique(ds: seq<Digit>, d: Digit)
    ensures Passes(ds + [d]) <==> d == CheckDigit(ds)
  {
    hide LuhnSum;
    SumOfAppend(ds, d, 0);
    Completes(LuhnSum(ds + [0]), d);
  }

  lemma Completes(sum: nat, d: Digit)
    ensures (sum + d) % 10 == 0 <==> d == (10 - sum % 10) % 10
  {
    var rest := sum % 10;
    assert (sum + d) % 10 == (rest + d) % 10;
  }

  // ---- The same for the strings the detector sees ---------------------------------

  lemma {:induction false} DigitsOfSplit(card: string, i: nat)
    requires i < |card|
    ensures DigitsOf(card) == DigitsOf(card[..i]) + Kept(card[i]) + DigitsOf(card[i + 1..])
  {
    hide DigitsOf, Kept;
    FirstKept(card);
    if i == 0 {
      NoDigitsYet(card);
    } else {
      DigitsOfSplit(card[1..], i - 1);
      TailSlices(card, i);
      FirstKept(card[..i]);
      Regroup(Kept(card[0]), DigitsOf(card[1..][..i - 1]), Kept(card[i]), DigitsOf(card[i + 1..]));
    }
  }

  lemma FirstKept(card: string)
    requires card != ""
    ensures DigitsOf(card) == Kept(card[0]) + DigitsOf(card[1..])
  {
  }

  lemma NoDigitsYet(card: string)
    ensures DigitsOf(card[..0]) == []
  {
  }

  lemma Regroup(a: seq<Digit>, b: seq<Digit>, c: seq<Digit>, d: seq<Digit>)
    ensures a + (b + c + d) == a + b + c + d
  {
  }

  lemma TailSlices(card: string, i: nat)
    requires 0 < i < |card|
    ensures card[1..][..i - 1] == card[..i][1..] && card[1..][i..] == card[i + 1..]
    ensures card[..i][0] == card[0] && card[1..][i - 1] == card[i]
  {
  }

  /** Replacing one digit of the string replaces one digit of the list. */
  lemma {:induction false} DigitsOfUpdate(card: string, i: nat, ch: char) returns (k: nat)
    requires i < |card| && IsDigit(card[i]) && IsDigit(ch)
    ensures k < |DigitsOf(card)| && DigitsOf(card)[k] == DigitOf(card[i])
    ensures DigitsOf(card[i := ch]) == DigitsOf(card)[k := DigitOf(ch)]
  {
    var typed := card[i := ch];
    var before, after := DigitsOf(card[..i]), DigitsOf(card[i + 1..]);
    DigitsOfSplit(card, i);
    DigitsOfSplit(typed, i);
    assert typed[..i] == card[..i] && typed[i + 1..] == card[i + 1..];
    k := |before|;
    assert DigitsOf(card) == before + [DigitOf(card[i])] + after;
    assert DigitsOf(typed) == before + [DigitOf(ch)] + after;
  }

  /** Mistyping one digit of a valid card number, however it is grouped by separators,
      is always caught by the validity check. */
  lemma {:induction false} MistypedCardRejected(card: string, i: nat, ch: char)
    requires i < |card| && IsDigit(card[i]) && IsDigit(ch) && ValidCard(card)
    ensures ValidCard(card[i := ch]) <==> ch == card[i]
  {
    var k := DigitsOfUpdate(card, i, ch);
    SingleErrorDetected(DigitsOf(card), k, DigitOf(ch));
  }
}
