/**
 * Decimal text of integers, as the programs produce and consume it:
 * `Show` is what a JavaScript template literal or a Python f-string prints
 * for an integer, and `Parse` is Python's `int(text)` on an argument of a
 * chat command (an optional sign, ASCII digits, and single underscores
 * between digits).
 */
module Decimal {
  import opened Wrappers

  predicate IsDigit(c: char) { '0' <= c <= '9' }

  function DigitValue(c: char): (d: nat)
    requires IsDigit(c)
    ensures d < 10
  {
    (c as int - '0' as int) as nat
  }

  function DigitChar(d: nat): (c: char)
    requires d < 10
    ensures IsDigit(c) && DigitValue(c) == d
  {
    ('0' as int + d) as char
  }

  /** The digits of `n`, most significant first, without leading zeros. */
  function ShowNat(n: nat): (s: string)
    ensures |s| > 0
    ensures forall i :: 0 <= i < |s| ==> IsDigit(s[i])
    ensures |s| > 1 ==> s[0] != '0'
    ensures n < 10 ==> |s| == 1
    ensures n < 100 ==> |s| <= 2
  {
    if n < 10 then [DigitChar(n)] else ShowNat(n / 10) + [DigitChar(n % 10)]
  }

  function Show(n: int): (s: string)
    ensures |s| > 0
    ensures n < 0 <==> s[0] == '-'
  {
    if n < 0 then "-" + ShowNat(-n) else ShowNat(n)
  }

  /**
   * A digit string as Python's int() accepts it: digits, where an underscore
   * may stand only between two digits.
   */
  predicate DigitString(s: string) {
    && |s| > 0
    && IsDigit(s[0])
    && IsDigit(s[|s| - 1])
    && (forall i :: 0 <= i < |s| ==> IsDigit(s[i]) || s[i] == '_')
    && (forall i :: 0 <= i < |s| - 1 && s[i] == '_' ==> IsDigit(s[i + 1]))
  }

  /** The value of a digit string, underscores skipped. */
  function DigitsValue(s: string): nat
    requires forall i :: 0 <= i < |s| ==> IsDigit(s[i]) || s[i] == '_'
  {
    if s == [] then 0
    else if s[|s| - 1] == '_' then DigitsValue(s[..|s| - 1])
    else DigitsValue(s[..|s| - 1]) * 10 + DigitValue(s[|s| - 1])
  }

  /** Python's int(s) for base-10 text: Some(value), or None where it raises ValueError. */
  function Parse(s: string): (r: Option<int>)
    ensures r.Some? ==> |s| > 0
  {
    if |s| > 0 && (s[0] == '-' || s[0] == '+') then
      if DigitString(s[1..]) then
        Some(if s[0] == '-' then 0 - DigitsValue(s[1..]) else DigitsValue(s[1..]))
      else None
    else if DigitString(s) then Some(DigitsValue(s))
    else None
  }

  lemma {:induction false} ShowNatValue(n: nat)
    ensures DigitsValue(ShowNat(n)) == n
  {
    var s := ShowNat(n);
    if n >= 10 {
      ShowNatValue(n / 10);
      assert s[..|s| - 1] == ShowNat(n / 10);
    }
  }

  /** Every integer the programs print reads back as itself. */
  lemma ParseShow(n: int)
    ensures Parse(Show(n)) == Some(n)
  {
    var s := Show(n);
    if n < 0 {
      var d := ShowNat(-n);
      ShowNatValue(-n);
      assert s == "-" + d && s[0] == '-';
      assert s[1..] == d;
      assert DigitString(d);
    } else {
      var d := ShowNat(n);
      ShowNatValue(n);
      assert s == d && IsDigit(s[0]);
      assert DigitString(d);
    }
  }

  /** Empty text, a bare sign and a leading or doubled underscore are rejected. */
  lemma ParseRejects()
    ensures Parse("") == None && Parse("-") == None && Parse("+") == None
    ensures Parse("_1") == None && Parse("1__0") == None && Parse("1_") == None
    ensures Parse("12a") == None && Parse("1.5") == None
  {
    assert !DigitString("1__0") by { assert "1__0"[1] == '_' && !IsDigit("1__0"[2]); }
    assert !DigitString("_1") && !DigitString("1_");
    assert !DigitString("12a") by { assert !IsDigit("12a"[2]); }
    assert !DigitString("1.5") by { assert !IsDigit("1.5"[1]) && "1.5"[1] != '_'; }
  }

  lemma ParseAccepts()
    ensures Parse("1_000") == Some(1000) && Parse("+7") == Some(7) && Parse("-25") == Some(-25)
    ensures Parse("007") == Some(7)
  {
    assert "1_"[..1] == "1";
    assert DigitsValue("1_") == 1;
    assert "1_0"[..2] == "1_";
    assert DigitsValue("1_0") == 10;
    assert "1_00"[..3] == "1_0";
    assert DigitsValue("1_00") == 100;
    assert "1_000"[..4] == "1_00";
    assert DigitsValue("1_000") == 1000;
    assert "25"[..1] == "2" && DigitsValue("25") == 25;
    assert "007"[..2] == "00" && "00"[..1] == "0" && DigitsValue("007") == 7;
    assert "+7"[1..] == "7" && "-25"[1..] == "25";
  }
}
