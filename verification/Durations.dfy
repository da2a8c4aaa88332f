/** ISO 8601 time-only durations, parsed in 64-bit arithmetic and printed.
    Durations are nanoseconds. */
module Durations {
  import opened Text

  const SECOND: int := 1_000_000_000
  const MINUTE: int := 60_000_000_000
  const HOUR: int := 3_600_000_000_000

  datatype DurationError = NotTimeOnly | MissingUnit | UnknownUnit | ZeroDuration

  function UnitOf(c: char): (u: Option<int>)
    ensures u.Some? ==> u.value > 0 && !IsDigit(c)
  {
    if c == 'H' then Some(HOUR) else if c == 'M' then Some(MINUTE) else if c == 'S' then Some(SECOND) else None
  }

  function DigitRun(s: string): (n: nat)
    ensures n <= |s| && AllDigits(s[..n])
    ensures n < |s| ==> !IsDigit(s[n])
  {
    if s != "" && IsDigit(s[0]) then
      var n := 1 + DigitRun(s[1..]);
      assert s[..n] == [s[0]] + s[1..][..n - 1];
      n
    else 0
  }

  function Plus(n: int, more: Result<int, DurationError>): Result<int, DurationError> {
    match more case Err(e) => Err(e) case Ok(m) => Ok(n + m)
  }

  /** The exact sum of the number-unit pairs a string consists of. */
  function Total(rest: string): Result<int, DurationError>
    decreases |rest|
  {
    if rest == "" then Ok(0)
    else
      var i := DigitRun(rest);
      if i == |rest| then Err(MissingUnit)
      else match UnitOf(rest[i])
        case None => Err(UnknownUnit)
        case Some(unit) => Plus(Number(rest[..i]) * unit, Total(rest[i + 1..]))
  }

  /** What a duration means: the exact sum, wrapped once to 64 bits. */
  function Duration(s: string): Result<int, DurationError> {
    var t := Upper(TrimSpace(s));
    if !HasPrefix(t, "PT") then Err(NotTimeOnly)
    else match Total(t[2..])
      case Err(e) => Err(e)
      case Ok(exact) => if Wrap64(exact) == 0 then Err(ZeroDuration) else Ok(Wrap64(exact))
  }

  // ---- 64-bit arithmetic ----------------------------------------------

  lemma WrapCongruent(a: int, b: int, k: int)
    requires a == b + k * TWO_64
    ensures Wrap64(a) == Wrap64(b)
  {
    assert a % TWO_64 == b % TWO_64;
  }

  lemma WrapAffine(a: int, m: int, c: int)
    ensures Wrap64(Wrap64(a) * m + c) == Wrap64(a * m + c)
  {
    var k: int :| Wrap64(a) == a + k * TWO_64;
    assert Wrap64(a) * m == a * m + (k * TWO_64) * m;
    assert (k * TWO_64) * m == (k * m) * TWO_64;
    WrapCongruent(Wrap64(a) * m + c, a * m + c, k * m);
  }

  // Adding a wrapped product of a wrapped number to a wrapped sum.
  lemma WrapTerm(exact: int, n: int, unit: int)
    ensures Wrap64(Wrap64(exact) + Wrap64(Wrap64(n) * unit)) == Wrap64(exact + n * unit)
  {
    hide Wrap64;
    WrapAffine(n, unit, 0);
    WrapAffine(exact, 1, Wrap64(n * unit));
    WrapAffine(n * unit, 1, exact);
    assert Wrap64(exact) * 1 == Wrap64(exact) && Wrap64(n * unit) * 1 == Wrap64(n * unit);
    assert exact * 1 == exact && (n * unit) * 1 == n * unit;
  }

  // ---- parsing --------------------------------------------------------

  lemma {:induction false} DigitRunIs(s: string, n: nat)
    requires n <= |s| && AllDigits(s[..n]) && (n < |s| ==> !IsDigit(s[n]))
    ensures DigitRun(s) == n
  {
    if n > 0 {
      assert s[0] == s[..n][0];
      assert s[1..][..n - 1] == s[..n][1..];
      DigitRunIs(s[1..], n - 1);
    }
  }

  lemma TotalStep(rest: string, i: nat)
    requires rest != "" && i <= |rest| && AllDigits(rest[..i]) && (i < |rest| ==> !IsDigit(rest[i]))
    ensures i == |rest| ==> Total(rest) == Err(MissingUnit)
    ensures i < |rest| && UnitOf(rest[i]).None? ==> Total(rest) == Err(UnknownUnit)
    ensures i < |rest| && UnitOf(rest[i]).Some? ==>
      Total(rest) == Plus(Number(rest[..i]) * UnitOf(rest[i]).value, Total(rest[i + 1..]))
  {
    hide Number, UnitOf, IsDigit;
    DigitRunIs(rest, i);
  }

  // The leading number, in 64-bit arithmetic.
  method ReadNumber(rest: string) returns (n: int, i: nat)
    ensures i <= |rest| && AllDigits(rest[..i]) && (i < |rest| ==> !IsDigit(rest[i]))
    ensures n == Wrap64(Number(rest[..i]))
  {
    n, i := 0, 0;
    while i < |rest| && IsDigit(rest[i])
      invariant i <= |rest| && AllDigits(rest[..i])
      invariant n == Wrap64(Number(rest[..i]))
    {
      assert rest[..i + 1][..i] == rest[..i];
      WrapAffine(Number(rest[..i]), 10, DigitValue(rest[i]));
      n := Wrap64(n * 10 + DigitValue(rest[i]));
      i := i + 1;
    }
  }

  /** PTxHyMzS in any order and number, in 64-bit arithmetic. */
  method ParseDuration(s: string) returns (r: Result<int, DurationError>)
    ensures r == Duration(s)
  {
    hide Number, Total, Upper, UnitOf, Wrap64, TrimSpace, IsDigit, AllDigits;
    var t := Upper(TrimSpace(s));
    if !HasPrefix(t, "PT") {
      return Err(NotTimeOnly);
    }
    var rest := t[2..];
    var total := 0;
    ghost var exact := 0;
    PlusZero(Total(rest));
    WrapZero();
    while |rest| > 0
      invariant total == Wrap64(exact)
      invariant Total(t[2..]) == Plus(exact, Total(rest))
      decreases |rest|
    {
      var n, i := ReadNumber(rest);
      TotalStep(rest, i);
      if i == |rest| {
        return Err(MissingUnit);
      }
      var unit := UnitOf(rest[i]);
      if unit.None? {
        return Err(UnknownUnit);
      }
      WrapTerm(exact, Number(rest[..i]), unit.value);
      PlusPlus(exact, Number(rest[..i]) * unit.value, Total(rest[i + 1..]));
      total := Wrap64(total + Wrap64(n * unit.value));
      exact := exact + Number(rest[..i]) * unit.value;
      rest := rest[i + 1..];
    }
    TotalEmpty();
    if total == 0 {
      return Err(ZeroDuration);
    }
    return Ok(total);
  }

  lemma PlusZero(r: Result<int, DurationError>)
    ensures Plus(0, r) == r
  {
  }

  lemma PlusPlus(a: int, b: int, r: Result<int, DurationError>)
    ensures Plus(a, Plus(b, r)) == Plus(a + b, r)
  {
  }

  lemma WrapZero()
    ensures Wrap64(0) == 0
  {
  }

  lemma TotalEmpty()
    ensures Total("") == Ok(0)
  {
  }

  // ---- printing -------------------------------------------------------

  function Part(n: nat, unit: char): string {
    if n > 0 then Decimal(n) + [unit] else ""
  }

  function Parts(d: nat): string {
    Part(d / HOUR, 'H') + (Part((d / MINUTE) % 60, 'M') + Part((d / SECOND) % 60, 'S'))
  }

  function Format(d: nat): string {
    if Parts(d) == "" then "PT0S" else "PT" + Parts(d)
  }

  lemma TotalPart(n: nat, unit: char, rest: string)
    requires UnitOf(unit).Some?
    ensures Total(Part(n, unit) + rest) == Plus(n * UnitOf(unit).value, Total(rest))
  {
    hide Number, UnitOf, IsDigit, Total, Decimal;
    if n == 0 {
      assert Part(n, unit) + rest == rest;
      PlusZero(Total(rest));
    } else {
      var digits := Decimal(n);
      var whole := Part(n, unit) + rest;
      assert whole[..|digits|] == digits && whole[|digits|] == unit;
      assert whole[|digits| + 1..] == rest;
      TotalStep(whole, |digits|);
    }
  }

  predicate Plain(s: string) {
    forall i :: 0 <= i < |s| ==> IsDigit(s[i]) || 'A' <= s[i] <= 'Z'
  }

  lemma PlainUnchanged(s: string)
    requires Plain(s)
    ensures Upper(TrimSpace(s)) == s
  {
    if s != "" {
      assert !IsSpace(s[0]) && !IsSpace(s[|s| - 1]);
    }
    assert TrimLeft(s) == s;
    assert TrimRight(s) == s;
  }

  lemma PartPlain(n: nat, unit: char)
    requires 'A' <= unit <= 'Z'
    ensures Plain(Part(n, unit))
  {
  }

  lemma PlainConcat(a: string, b: string)
    requires Plain(a) && Plain(b)
    ensures Plain(a + b)
  {
  }

  lemma Recomposed(d: nat)
    requires d % SECOND == 0
    ensures d == (d / HOUR) * HOUR + ((d / MINUTE) % 60) * MINUTE + ((d / SECOND) % 60) * SECOND
  {
    var t := d / SECOND;
    assert d == t * SECOND;
    assert d / MINUTE == t / 60;
    assert d / HOUR == t / 3600;
    assert t / 3600 == (t / 60) / 60;
    assert t == 60 * (t / 60) + t % 60;
    assert t / 60 == 60 * ((t / 60) / 60) + (t / 60) % 60;
  }

  lemma PartsPlain(d: nat)
    ensures Plain("PT" + Parts(d))
  {
    hide Part, Plain;
    PartPlain(d / HOUR, 'H');
    PartPlain((d / MINUTE) % 60, 'M');
    PartPlain((d / SECOND) % 60, 'S');
    PlainConcat(Part((d / MINUTE) % 60, 'M'), Part((d / SECOND) % 60, 'S'));
    PlainConcat(Part(d / HOUR, 'H'), Part((d / MINUTE) % 60, 'M') + Part((d / SECOND) % 60, 'S'));
    assert Plain("PT") by {
      PTPlain();
    }
    PlainConcat("PT", Parts(d));
  }

  lemma PTPlain()
    ensures Plain("PT")
  {
  }

  lemma PartsTotal(d: nat)
    requires d % SECOND == 0
    ensures Total(Parts(d)) == Ok(d)
  {
    hide Part, Total;
    var h, m, s := d / HOUR, (d / MINUTE) % 60, (d / SECOND) % 60;
    Recomposed(d);
    TotalEmpty();
    assert Part(s, 'S') + "" == Part(s, 'S');
    TotalPart(s, 'S', "");
    TotalPart(m, 'M', Part(s, 'S'));
    TotalPart(h, 'H', Part(m, 'M') + Part(s, 'S'));
  }

  /** A printed duration of whole seconds parses back to itself, for every
      positive 64-bit duration. */
  lemma FormatParses(d: int)
    requires 0 < d < TWO_63 && d % SECOND == 0
    ensures Duration(Format(d)) == Ok(d)
  {
    hide Parts, Total, Upper, TrimSpace, Plain;
    PartsTotal(d);
    TotalEmpty();
    assert Parts(d) != "";
    PartsPlain(d);
    PlainUnchanged("PT" + Parts(d));
    assert ("PT" + Parts(d))[2..] == Parts(d);
  }

  /** A duration can come out negative: 9223372037 seconds are more than 2^63 nanoseconds. */
  lemma NegativeDuration()
    ensures var d := Duration("PT" + (Decimal(9_223_372_037) + "S")); d.Ok? && d.value < 0
  {
    hide Total, Upper, TrimSpace, Plain, Decimal;
    var body := Part(9_223_372_037, 'S');
    TotalEmpty();
    TotalPart(9_223_372_037, 'S', "");
    assert body + "" == body;
    PartPlain(9_223_372_037, 'S');
    PTPlain();
    PlainConcat("PT", body);
    PlainUnchanged("PT" + body);
    assert ("PT" + body)[2..] == body;
  }
}
