/** Money strings: the `digits.dd` format every tool checks, the comma
    removal the balance extractors do, and the aggregator's addition in
    integer minor units. */
module Money {
  import opened Results
  import opened Text

  /** `^\d+\.\d\d$`: at least one digit, a dot, exactly two digits. */
  predicate IsMoney(s: string) {
    |s| >= 4 && IsDigits(s[..|s| - 3]) && s[|s| - 3] == '.' && IsDigit(s[|s| - 2]) && IsDigit(s[|s| - 1])
  }

  /** A money string is its integer digits, one dot and its two cent digits. */
  lemma MoneyParts(m: string)
    requires IsMoney(m)
    ensures m == m[..|m| - 3] + "." + m[|m| - 2..]
    ensures '.' !in m[..|m| - 3] && '.' !in m[|m| - 2..]
    ensures ',' !in m
  {
    forall i | 0 <= i < |m| ensures m[i] != ',' {
      if i < |m| - 3 { assert m[..|m| - 3][i] == m[i]; }
    }
    var whole := m[..|m| - 3];
    assert forall i :: 0 <= i < |whole| ==> whole[i] != '.';
  }

  /** `_normalize_money`: delete every comma, then insist on `digits.dd`. */
  function NormalizeMoney(human: string): (r: Result<string>)
    ensures r.Ok? <==> IsMoney(RemoveChar(human, ','))
    ensures r.Ok? ==> r.value == RemoveChar(human, ',') && IsMoney(r.value) && ',' !in r.value
    ensures r.Ok? ==> multiset(r.value) == multiset(human)[',' := 0]
    ensures r.Err? ==> r.error == UnexpectedMoneyFormat(human) && !IsMoney(human)
    ensures IsMoney(human) ==> r == Ok(human)
  {
    var plain := RemoveChar(human, ',');
    RemoveCharCounts(human, ',');
    assert IsMoney(human) ==> plain == human by {
      if IsMoney(human) {
        MoneyParts(human);
        RemoveCharAbsent(human, ',');
      }
    }
    if IsMoney(plain) then Ok(plain) else Err(UnexpectedMoneyFormat(human))
  }

  /** A signed amount is refused: a leading minus survives comma removal and
      is not a digit. */
  lemma SignedMoneyRefused(human: string)
    requires |human| > 0 && human[0] == '-'
    ensures NormalizeMoney(human).Err?
  {
    var plain := RemoveChar(human, ',');
    assert plain == ['-'] + RemoveChar(human[1..], ',');
    assert |plain| >= 4 ==> plain[..|plain| - 3][0] == '-';
  }

  /** A thousands separator is dropped and the digits around it are kept in
      order: `1,234.56` normalises to `1234.56`. */
  lemma NormalizeMoneyGrouped(lead: string, group: string, cents: string)
    requires IsDigits(lead) && IsDigits(group) && |cents| == 2 && IsDigit(cents[0]) && IsDigit(cents[1])
    ensures NormalizeMoney(lead + "," + group + "." + cents) == Ok(lead + group + "." + cents)
  {
    var tail := "." + cents;
    assert ',' !in lead && ',' !in group && ',' !in tail;
    RemoveCharAround(lead, group + tail, ',');
    assert lead + "," + group + "." + cents == lead + [','] + (group + tail);
    var plain := lead + group + "." + cents;
    assert lead + (group + tail) == plain;
    assert plain[..|plain| - 3] == lead + group;
  }

  /** `1,234.56` normalises to `1234.56`. */
  lemma NormalizeMoneyExample()
    ensures NormalizeMoney("1" + "," + "234" + "." + "56") == Ok("1" + "234" + "." + "56")
  {
    NormalizeMoneyGrouped("1", "234", "56");
  }

  // ---------------------------------------------------------------- minor units

  function DigitOf(c: char): nat
    requires IsDigit(c)
  {
    c as int - '0' as int
  }

  /** Python's `int()` of a string of ASCII digits (leading zeros allowed). */
  function DigitsValue(s: string): nat
    requires forall i :: 0 <= i < |s| ==> IsDigit(s[i])
  {
    if |s| == 0 then 0
    else DigitsValue(s[..|s| - 1]) * 10 + DigitOf(s[|s| - 1])
  }

  lemma {:induction false} DigitsValueConcat(a: string, b: string)
    requires forall i :: 0 <= i < |a| ==> IsDigit(a[i])
    requires forall i :: 0 <= i < |b| ==> IsDigit(b[i])
    ensures forall i :: 0 <= i < |a + b| ==> IsDigit((a + b)[i])
    ensures |b| == 2 ==> DigitsValue(a + b) == DigitsValue(a) * 100 + DigitsValue(b)
  {
    if |b| == 2 {
      var ab, a1 := a + b, a + b[..1];
      assert ab[..|ab| - 1] == a1;
      assert a1[..|a1| - 1] == a;
      assert b[..1][..0] == [];
      var x, d0, d1 := DigitsValue(a), DigitOf(b[0]), DigitOf(b[1]);
      assert DigitsValue(a1) == x * 10 + d0;
      assert DigitsValue(ab) == (x * 10 + d0) * 10 + d1;
      assert DigitsValue(b[..1]) == d0;
      assert DigitsValue(b) == d0 * 10 + d1;
    }
  }

  function DigitChar(d: nat): char
    requires d < 10
  {
    (d + '0' as int) as char
  }

  /** Python's `str(n)` for a natural number: its decimal digits with no
      leading zero. */
  function DecimalString(n: nat): (r: string)
    ensures IsDigits(r)
    ensures DigitsValue(r) == n
    ensures r[0] == '0' ==> r == "0"
    ensures |r| >= 2 <==> n >= 10
    ensures |r| >= 3 <==> n >= 100
  {
    if n < 10 then [DigitChar(n)]
    else
      var r := DecimalString(n / 10) + [DigitChar(n % 10)];
      assert r[..|r| - 1] == DecimalString(n / 10);
      r
  }

  /** The amount in minor units: `int()` of the string without its dot. */
  function Minor(m: string): nat
    requires IsMoney(m)
  {
    MinorDigits(m);
    DigitsValue(RemoveChar(m, '.'))
  }

  /** Dropping the dot of an amount leaves its digits, cents last. */
  lemma MinorDigits(m: string)
    requires IsMoney(m)
    ensures RemoveChar(m, '.') == m[..|m| - 3] + m[|m| - 2..]
    ensures forall i :: 0 <= i < |RemoveChar(m, '.')| ==> IsDigit(RemoveChar(m, '.')[i])
  {
    MoneyParts(m);
    RemoveCharAround(m[..|m| - 3], m[|m| - 2..], '.');
  }

  /** The minor units of `digits.dd` are the integer digits times 100 plus
      the cents. */
  lemma MinorValue(m: string)
    requires IsMoney(m)
    ensures Minor(m) == DigitsValue(m[..|m| - 3]) * 100 + DigitsValue(m[|m| - 2..])
  {
    MinorDigits(m);
    DigitsValueConcat(m[..|m| - 3], m[|m| - 2..]);
  }

  // ---------------------------------------------------------------- addition

  /** `_add_money`, as written: both operands are checked, their minor units
      are added, and a dot goes before the last two digits of the sum. The
      sum is NOT left-padded, so a sum under 100 minor units has no integer
      digit. */
  function AddMoney(m1: string, m2: string): (r: Result<string>)
    ensures r.Ok? <==> IsMoney(m1) && IsMoney(m2)
    ensures !IsMoney(m1) ==> r == Err(UnexpectedMoneyFormat(m1))
    ensures IsMoney(m1) && !IsMoney(m2) ==> r == Err(UnexpectedMoneyFormat(m2))
  {
    if !IsMoney(m1) then Err(UnexpectedMoneyFormat(m1))
    else if !IsMoney(m2) then Err(UnexpectedMoneyFormat(m2))
    else
      var sum := DecimalString(Minor(m1) + Minor(m2));
      Ok(PySlice(sum, 0, -2) + "." + PySlice(sum, -2, |sum|))
  }

  /** Putting a dot before the last two of at least three digits gives a
      well-formed amount whose minor units are the digits' value. */
  lemma PlaceDot(digits: string)
    requires IsDigits(digits) && |digits| >= 3
    ensures IsMoney(digits[..|digits| - 2] + "." + digits[|digits| - 2..])
    ensures Minor(digits[..|digits| - 2] + "." + digits[|digits| - 2..]) == DigitsValue(digits)
  {
    var n := |digits|;
    var whole, cents := digits[..n - 2], digits[n - 2..];
    var r := whole + "." + cents;
    DotPlaced(whole, cents);
    assert RemoveChar(r, '.') == digits by {
      MinorDigits(r);
      assert whole + cents == digits;
    }
  }

  /** Digits, a dot and two digits form a well-formed amount whose parts are
      those digits. */
  lemma DotPlaced(whole: string, cents: string)
    requires IsDigits(whole) && |cents| == 2 && IsDigit(cents[0]) && IsDigit(cents[1])
    ensures var r := whole + "." + cents; IsMoney(r) && r[..|r| - 3] == whole && r[|r| - 2..] == cents
  {
    var r := whole + "." + cents;
    assert r[..|r| - 3] == whole && r[|r| - 2..] == cents;
  }

  /** From 100 minor units on, the sum is a well-formed amount whose minor
      units are exactly the sum of the operands' minor units. */
  lemma AddMoneyExact(a: string, b: string)
    requires IsMoney(a) && IsMoney(b) && Minor(a) + Minor(b) >= 100
    ensures AddMoney(a, b).Ok?
    ensures IsMoney(AddMoney(a, b).value)
    ensures Minor(AddMoney(a, b).value) == Minor(a) + Minor(b)
    ensures var sum := DecimalString(Minor(a) + Minor(b));
      AddMoney(a, b).value == sum[..|sum| - 2] + "." + sum[|sum| - 2..]
  {
    var sum := DecimalString(Minor(a) + Minor(b));
    var n := |sum|;
    assert PySlice(sum, 0, -2) == sum[..n - 2];
    assert PySlice(sum, -2, n) == sum[n - 2..];
    PlaceDot(sum);
  }

  /** A carry into a new integer digit: `999.99` plus `0.01` is `1000.00`. */
  lemma AddMoneyCarryExample()
    ensures AddMoney("999" + "." + "99", "0" + "." + "01") == Ok("1000" + "." + "00")
  {
    var a, b := "999" + "." + "99", "0" + "." + "01";
    MinorOfLargest();
    MinorOfCent();
    AddMoneyExact(a, b);
    HundredThousand();
  }

  /** `999.99` is 99999 minor units. */
  lemma MinorOfLargest()
    ensures IsMoney("999" + "." + "99") && Minor("999" + "." + "99") == 99999
  {
    var a := "999" + "." + "99";
    DotPlaced("999", "99");
    MinorValue(a);
    assert DigitsValue("999") == 999 by {
      assert "999"[..2] == "99" && "99"[..1] == "9" && "9"[..0] == "";
    }
    assert DigitsValue("99") == 99 by {
      assert "99"[..1] == "9" && "9"[..0] == "";
    }
  }

  /** `0.01` is one minor unit. */
  lemma MinorOfCent()
    ensures IsMoney("0" + "." + "01") && Minor("0" + "." + "01") == 1
  {
    var b := "0" + "." + "01";
    DotPlaced("0", "01");
    MinorValue(b);
    assert DigitsValue("01") == 1 by {
      assert "01"[..1] == "0" && "0"[..0] == "";
    }
    assert DigitsValue("0") == 0 by {
      assert "0"[..0] == "";
    }
  }

  /** `str(100000)` is `1000` followed by `00`. */
  lemma HundredThousand()
    ensures var sum := DecimalString(100000); sum[..|sum| - 2] == "1000" && sum[|sum| - 2..] == "00"
  {
    var s1 := DecimalString(1);
    var s10 := DecimalString(10);
    var s100 := DecimalString(100);
    var s1000 := DecimalString(1000);
    var s10000 := DecimalString(10000);
    var sum := DecimalString(100000);
    assert s1 == "1";
    assert s10 == s1 + "0";
    assert s100 == s10 + "0";
    assert s1000 == s100 + "0";
    assert s10000 == s1000 + "0";
    assert sum == s10000 + "0";
    assert sum == "1000" + "00";
  }

  /** Below 100 minor units the result is the bare sum after a dot, such as
      ".3" or ".12", which is not a well-formed amount. */
  lemma AddMoneyUnpadded(a: string, b: string)
    requires IsMoney(a) && IsMoney(b) && Minor(a) + Minor(b) < 100
    ensures AddMoney(a, b) == Ok("." + DecimalString(Minor(a) + Minor(b)))
    ensures !IsMoney(AddMoney(a, b).value)
  {
    var sum := DecimalString(Minor(a) + Minor(b));
    assert PySlice(sum, 0, -2) == [];
    assert PySlice(sum, -2, |sum|) == sum;
    assert [] + "." + sum == "." + sum;
  }

  /** Once a bucket holds an unpadded sum, every later addition onto it fails. */
  lemma UnpaddedSumPoisons(a: string, b: string, c: string)
    requires IsMoney(a) && IsMoney(b) && Minor(a) + Minor(b) < 100
    ensures AddMoney(AddMoney(a, b).value, c) == Err(UnexpectedMoneyFormat(AddMoney(a, b).value))
  {
    AddMoneyUnpadded(a, b);
  }

  /** Addition does not depend on the order of the operands. */
  lemma AddMoneyCommutes(a: string, b: string)
    requires IsMoney(a) && IsMoney(b)
    ensures AddMoney(a, b) == AddMoney(b, a)
  {
  }

  // ---------------------------------------------------------------- repeated addition

  /** Adding `amounts` one after another onto `start`, as the aggregator does
      for the balances of one month bucket. */
  function AddAll(start: string, amounts: seq<string>): Result<string>
    decreases |amounts|
  {
    if |amounts| == 0 then Ok(start)
    else
      var next :- AddMoney(start, amounts[0]);
      AddAll(next, amounts[1..])
  }

  function TotalMinor(amounts: seq<string>): nat
    requires forall i :: 0 <= i < |amounts| ==> IsMoney(amounts[i])
  {
    if |amounts| == 0 then 0 else Minor(amounts[0]) + TotalMinor(amounts[1..])
  }

  /** Chained addition is exact integer addition of minor units, as long as
      the first partial sum already reaches one whole unit (the later ones
      can only grow). */
  lemma {:induction false} AddAllExact(start: string, amounts: seq<string>)
    decreases |amounts|
    requires IsMoney(start)
    requires forall i :: 0 <= i < |amounts| ==> IsMoney(amounts[i])
    requires |amounts| > 0 ==> Minor(start) + Minor(amounts[0]) >= 100
    ensures AddAll(start, amounts).Ok?
    ensures IsMoney(AddAll(start, amounts).value)
    ensures Minor(AddAll(start, amounts).value) == Minor(start) + TotalMinor(amounts)
  {
    if |amounts| > 0 {
      AddMoneyExact(start, amounts[0]);
      var next := AddMoney(start, amounts[0]).value;
      AddAllExact(next, amounts[1..]);
    }
  }

  /** `0.00` is an amount of zero minor units. */
  lemma ZeroMinor()
    ensures IsMoney("0.00") && Minor("0.00") == 0
  {
    MinorValue("0.00");
    assert DigitsValue("0") == 0 && DigitsValue("00") == 0;
  }

  /** A month bucket starts at "0.00"; its final value is the exact total
      when its first balance is at least 1.00. */
  lemma BucketTotalExact(amounts: seq<string>)
    requires |amounts| > 0
    requires forall i :: 0 <= i < |amounts| ==> IsMoney(amounts[i])
    requires Minor(amounts[0]) >= 100
    ensures AddAll("0.00", amounts).Ok?
    ensures IsMoney(AddAll("0.00", amounts).value)
    ensures Minor(AddAll("0.00", amounts).value) == TotalMinor(amounts)
  {
    ZeroMinor();
    AddAllExact("0.00", amounts);
  }
}
