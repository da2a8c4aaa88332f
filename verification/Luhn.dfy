/** IMEI and ICCID numbers: the Luhn check digit of ISO/IEC 7812-1, its error
    detection, and composition. */
module Luhn {
  import opened Text

  function Doubled(d: nat): nat
    requires d < 10
  {
    if 2 * d > 9 then 2 * d - 9 else 2 * d
  }

  function Weight(c: char, double: bool): nat
    requires IsDigit(c)
  {
    if double then Doubled(DigitValue(c)) else DigitValue(c)
  }

  /** The weighted digit sum, alternating from the right; `double` says whether
      the last digit is doubled. */
  function WeightedSum(digits: string, double: bool): nat
    requires AllDigits(digits)
  {
    if digits == "" then 0
    else Weight(digits[|digits| - 1], double) + WeightedSum(digits[..|digits| - 1], !double)
  }

  /** A number with its check digit passes when its weighted sum, the check
      digit itself undoubled, is a multiple of ten. */
  predicate Passes(number: string)
    requires AllDigits(number)
  {
    WeightedSum(number, false) % 10 == 0
  }

  function CheckDigit(digits: string): (check: int)
    ensures -1 <= check <= 9
    ensures check >= 0 <==> digits != "" && AllDigits(digits)
  {
    if digits != "" && AllDigits(digits) then (10 - WeightedSum(digits, true) % 10) % 10 else -1
  }

  /** Walks the digits from the right. */
  method LuhnCheckDigit(digits: string) returns (check: int)
    ensures check == CheckDigit(digits)
    ensures check >= 0 ==> Passes(digits + [DigitChar(check)])
  {
    if digits == "" || !AllDigits(digits) {
      return -1;
    }
    hide WeightedSum;
    var sum, i := 0, 0;
    assert digits[..|digits|] == digits;
    while i < |digits|
      invariant 0 <= i <= |digits| && 0 <= sum
      invariant sum + WeightedSum(digits[..|digits| - i], i % 2 == 0) == WeightedSum(digits, true)
    {
      var d := DigitValue(digits[|digits| - 1 - i]);
      var doubled := if i % 2 == 0 then d * 2 else d;
      SumSplit(digits[..|digits| - i], i % 2 == 0);
      assert digits[..|digits| - i][..|digits| - i - 1] == digits[..|digits| - i - 1];
      sum := sum + if doubled > 9 then doubled - 9 else doubled;
      i := i + 1;
    }
    NoDigits(i % 2 == 0);
    check := (10 - sum % 10) % 10;
    CheckDigitPasses(digits, DigitChar(check));
  }

  lemma NoDigits(double: bool)
    ensures WeightedSum("", double) == 0
  {
  }

  /** Exactly one last digit makes a number pass: the check digit. */
  lemma CheckDigitPasses(digits: string, last: char)
    requires digits != "" && AllDigits(digits) && IsDigit(last)
    ensures Passes(digits + [last]) <==> DigitValue(last) == CheckDigit(digits)
  {
    hide WeightedSum;
    var number := digits + [last];
    SumSplit(number, false);
    assert number[..|number| - 1] == digits;
    ComplementDigit(DigitValue(last), WeightedSum(digits, true));
  }

  lemma ComplementDigit(d: nat, sum: nat)
    requires d < 10
    ensures (d + sum) % 10 == 0 <==> d == (10 - sum % 10) % 10
  {
  }

  lemma WeightsDiffer(a: char, b: char, double: bool)
    requires IsDigit(a) && IsDigit(b) && a != b
    ensures Weight(a, double) % 10 != Weight(b, double) % 10
  {
  }

  // Whether the digit at index i is doubled.
  predicate DoubledAt(length: nat, i: nat, double: bool)
    requires i < length
  {
    (length - 1 - i) % 2 == 0 <==> double
  }

  // The sum without its last digit.
  lemma SumSplit(digits: string, double: bool)
    requires AllDigits(digits) && digits != ""
    ensures var last := |digits| - 1;
      WeightedSum(digits, double) == Weight(digits[last], double) + WeightedSum(digits[..last], !double)
  {
  }

  lemma {:induction false} SumWithDigit(digits: string, i: nat, c: char, double: bool)
    requires AllDigits(digits) && i < |digits| && IsDigit(c)
    ensures WeightedSum(digits[i := c], double)
         == WeightedSum(digits, double)
            - Weight(digits[i], DoubledAt(|digits|, i, double)) + Weight(c, DoubledAt(|digits|, i, double))
  {
    hide WeightedSum, Weight, IsDigit;
    var last, changed := |digits| - 1, digits[i := c];
    SumSplit(digits, double);
    SumSplit(changed, double);
    if i == last {
      assert changed[..last] == digits[..last];
    } else {
      assert changed[..last] == digits[..last][i := c];
      SumWithDigit(digits[..last], i, c, !double);
    }
  }

  lemma Replaced(sum: int, before: int, after: int)
    requires sum % 10 == 0
    ensures (sum - before + after) % 10 == 0 <==> before % 10 == after % 10
  {
  }

  /** Every change of a single digit of a passing number is detected. */
  lemma SingleChangeDetected(number: string, i: nat, c: char)
    requires AllDigits(number) && Passes(number)
    requires i < |number| && IsDigit(c)
    ensures Passes(number[i := c]) <==> c == number[i]
  {
    hide WeightedSum, Weight;
    var double := DoubledAt(|number|, i, false);
    SumWithDigit(number, i, c, false);
    Replaced(WeightedSum(number, false), Weight(number[i], double), Weight(c, double));
    if c != number[i] {
      WeightsDiffer(c, number[i], double);
    }
  }

  function Swapped(number: string, i: nat): (s: string)
    requires i + 1 < |number|
  {
    number[i := number[i + 1]][i + 1 := number[i]]
  }

  predicate ZeroNine(a: char, b: char) {
    (a == '0' && b == '9') || (a == '9' && b == '0')
  }

  /** A swap of neighbours goes undetected exactly when it changes nothing or
      exchanges a 0 and a 9. */
  lemma SwapDetected(number: string, i: nat)
    requires AllDigits(number) && Passes(number)
    requires i + 1 < |number|
    ensures AllDigits(Swapped(number, i))
    ensures Passes(Swapped(number, i)) <==> number[i] == number[i + 1] || ZeroNine(number[i], number[i + 1])
  {
    hide WeightedSum, Weight, ZeroNine, DoubledAt;
    var a, b, n := number[i], number[i + 1], |number|;
    var once := number[i := b];
    var double := DoubledAt(n, i, false);
    Alternates(n, i);
    SumWithDigit(number, i, b, false);
    SumWithDigit(once, i + 1, a, false);
    Replaced(WeightedSum(number, false), Weight(a, double) + Weight(b, !double), Weight(b, double) + Weight(a, !double));
    SwapWeights(a, b, double);
  }

  lemma Alternates(n: nat, i: nat)
    requires i + 1 < n
    ensures DoubledAt(n, i + 1, false) == !DoubledAt(n, i, false)
  {
  }

  lemma SwapWeights(a: char, b: char, double: bool)
    requires IsDigit(a) && IsDigit(b)
    ensures (Weight(a, double) + Weight(b, !double)) % 10 == (Weight(b, double) + Weight(a, !double)) % 10
            <==> a == b || ZeroNine(a, b)
  {
    SwapDigits(DigitValue(a), DigitValue(b));
    assert DigitValue('0') == 0 && DigitValue('9') == 9;
  }

  // What doubling adds to a digit, modulo ten, lies between -4 and 4.
  function Excess(d: nat): int {
    if d < 5 then d else d - 9
  }

  lemma SwapDigits(x: nat, y: nat)
    requires x < 10 && y < 10
    ensures (Doubled(x) + y) % 10 == (Doubled(y) + x) % 10
            <==> x == y || (x == 0 && y == 9) || (x == 9 && y == 0)
  {
    assert Doubled(x) == x + Excess(x) && Doubled(y) == y + Excess(y);
    var d := Excess(x) - Excess(y);
    assert -8 <= d <= 8;
    var p, q := Doubled(x) + y, Doubled(y) + x;
    assert p == q + d;
    assert p % 10 == q % 10 <==> d == 0;
  }

  // ---- IMEI -----------------------------------------------------------

  predicate IsValidImei(imei: string) {
    && |imei| == 15 && AllDigits(imei)
    && CheckDigit(imei[..14]) == DigitValue(imei[14])
  }

  lemma ValidImeiPasses(imei: string)
    ensures IsValidImei(imei) <==> |imei| == 15 && AllDigits(imei) && Passes(imei)
  {
    if |imei| == 15 && AllDigits(imei) {
      assert imei == imei[..14] + [imei[14]];
      CheckDigitPasses(imei[..14], imei[14]);
    }
  }

  function PadStart(s: string, length: nat): (r: string)
    ensures |r| == if |s| < length then length else |s|
    ensures AllDigits(s) ==> AllDigits(r)
    decreases length - |s|
  {
    if |s| < length then PadStart("0" + s, length) else s
  }

  lemma {:induction false} DecimalLength(n: nat, k: nat)
    requires k > 0 && n < Pow10(k)
    ensures |Decimal(n)| <= k
  {
    if n >= 10 {
      DecimalLength(n / 10, k - 1);
    }
  }

  function Pow10(k: nat): nat {
    if k == 0 then 1 else 10 * Pow10(k - 1)
  }

  /** An IMEI from an 8-digit TAC and a serial, rolled when absent (`roll` is
      the random draw below one million). */
  method BuildImei(tac: string, serial: Option<string>, roll: nat) returns (imei: Option<string>)
    requires roll < 1_000_000
    ensures imei.Some? <==> |tac| == 8 && AllDigits(tac) && (serial.Some? ==> |serial.value| == 6 && AllDigits(serial.value))
    ensures imei.Some? ==> IsValidImei(imei.value) && imei.value[..8] == tac
    ensures imei.Some? ==> imei.value[8..14] == if serial.Some? then serial.value else PadStart(Decimal(roll), 6)
  {
    if |tac| != 8 || !AllDigits(tac) {
      return None;
    }
    DecimalLength(roll, 6);
    var s := if serial.Some? then serial.value else PadStart(Decimal(roll), 6);
    if |s| != 6 || !AllDigits(s) {
      return None;
    }
    var base := tac + s;
    var check := LuhnCheckDigit(base);
    imei := Some(base + [DigitChar(check)]);
    assert imei.value[..14] == base;
  }

  // ---- ICCID ----------------------------------------------------------

  predicate IsValidIccid(iccid: string) {
    && 19 <= |iccid| <= 20 && AllDigits(iccid)
    && CheckDigit(iccid[..|iccid| - 1]) == DigitValue(iccid[|iccid| - 1])
  }

  lemma ValidIccidPasses(iccid: string)
    ensures IsValidIccid(iccid) <==> 19 <= |iccid| <= 20 && AllDigits(iccid) && Passes(iccid)
  {
    if 19 <= |iccid| <= 20 && AllDigits(iccid) {
      var n := |iccid| - 1;
      assert iccid == iccid[..n] + [iccid[n]];
      CheckDigitPasses(iccid[..n], iccid[n]);
    }
  }

  /** A 19-digit ICCID from an MCCMNC and a serial, rolled when absent (`roll`
      is the sequence of random digits). */
  method BuildIccid(mccmnc: string, serial: Option<string>, roll: string) returns (iccid: Option<string>)
    requires 5 <= |mccmnc| <= 6 ==> |roll| == 16 - |mccmnc| && AllDigits(roll)
    ensures iccid.Some? <==>
      && 5 <= |mccmnc| <= 6 && AllDigits(mccmnc)
      && (serial.Some? ==> |serial.value| == 16 - |mccmnc| && AllDigits(serial.value))
    ensures iccid.Some? ==> IsValidIccid(iccid.value) && |iccid.value| == 19
    ensures iccid.Some? ==> iccid.value[..18] == "89" + mccmnc + (if serial.Some? then serial.value else roll)
  {
    if |mccmnc| < 5 || |mccmnc| > 6 || !AllDigits(mccmnc) {
      return None;
    }
    var serialLen := 19 - 1 - 2 - |mccmnc|;
    var s := if serial.Some? then serial.value else roll;
    if |s| != serialLen || !AllDigits(s) {
      return None;
    }
    var base := "89" + mccmnc + s;
    var check := LuhnCheckDigit(base);
    iccid := Some(base + [DigitChar(check)]);
    assert iccid.value[..18] == base;
  }
}
