/** Decimal amounts, and the 5% on top that approvals carry. */
module Amounts {
  import opened Types

  predicate IsDigit(c: char) {
    '0' <= c <= '9'
  }

  /** The value of a non-empty string of decimal digits. */
  function Digits(s: string): Option<nat> {
    if s == "" || !IsDigit(s[|s| - 1]) then None
    else
      var d := s[|s| - 1] as nat - '0' as nat;
      if |s| == 1 then Some(d)
      else match Digits(s[..|s| - 1])
           case None => None
           case Some(n) => Some(10 * n + d)
  }

  /** big.Int SetString in base 10: an optional sign, then digits. */
  function Parse(s: string): Option<int> {
    if s == "" then None
    else
      var unsigned := if s[0] in "+-" then s[1..] else s;
      match Digits(unsigned)
      case None => None
      case Some(n) => var value: int := n; Some(if s[0] == '-' then -value else value)
  }

  /** The numerals: an optional sign, then at least one digit, and nothing else. */
  predicate IsNumeral(s: string) {
    var from := if s != "" && (s[0] == '+' || s[0] == '-') then 1 else 0;
    from < |s| && forall i :: from <= i < |s| ==> '0' <= s[i] <= '9'
  }

  lemma {:induction false} DigitsIff(s: string)
    ensures Digits(s).Some? <==> s != "" && forall i :: 0 <= i < |s| ==> '0' <= s[i] <= '9'
    decreases |s|
  {
    if |s| > 1 {
      DigitsIff(s[..|s| - 1]);
      assert s == s[..|s| - 1] + [s[|s| - 1]];
    }
  }

  /** Exactly the numerals are read. */
  lemma ParseIff(s: string)
    ensures Parse(s).Some? <==> IsNumeral(s)
  {
    if s != "" {
      var signed := s[0] == '+' || s[0] == '-';
      var unsigned := if signed then s[1..] else s;
      DigitsIff(unsigned);
      assert signed ==> forall i :: 1 <= i < |s| ==> s[i] == unsigned[i - 1];
      assert signed ==> forall i :: 0 <= i < |unsigned| ==> unsigned[i] == s[i + 1];
    }
  }

  /** Leading zeros count for nothing: the base is ten whatever the numeral begins with. */
  lemma {:induction false} LeadingZero(s: string)
    requires Digits(s).Some?
    ensures Digits("0" + s) == Digits(s)
    decreases |s|
  {
    assert ("0" + s)[..|s|] == "0" + s[..|s| - 1] && ("0" + s)[|s|] == s[|s| - 1];
    if |s| == 1 {
      assert "0" + s[..0] == "0";
    } else {
      LeadingZero(s[..|s| - 1]);
    }
  }

  function Decimal(n: nat): string {
    var d := ['0' + (n % 10) as char];
    if n < 10 then d else Decimal(n / 10) + d
  }

  lemma {:induction false} DecimalDigits(n: nat)
    ensures Decimal(n) != "" && IsDigit(Decimal(n)[0]) && Digits(Decimal(n)) == Some(n)
    decreases n
  {
    var c := '0' + (n % 10) as char;
    assert IsDigit(c) && c as nat - '0' as nat == n % 10;
    if n >= 10 {
      DecimalDigits(n / 10);
      assert Decimal(n)[..|Decimal(n)| - 1] == Decimal(n / 10);
    }
  }

  /** Every amount has a numeral, and reading it gives the amount back. */
  lemma ParseDecimal(n: int)
    ensures n >= 0 ==> Parse(Decimal(n)) == Some(n)
    ensures n < 0 ==> Parse("-" + Decimal(-n)) == Some(n)
  {
    DecimalDigits(if n >= 0 then n else -n);
    if n < 0 {
      assert ("-" + Decimal(-n))[1..] == Decimal(-n);
    }
  }

  /** big.Int Div rounds down for a positive divisor. */
  method StringToBigInt(numberString: string, bump: bool) returns (r: Option<int>)
    ensures r.Some? <==> Parse(numberString).Some?
    ensures r.Some? <==> IsNumeral(numberString)
    ensures r.Some? && !bump ==> r.value == Parse(numberString).value
    ensures r.Some? && bump ==> 100 * r.value <= 105 * Parse(numberString).value < 100 * (r.value + 1)
  {
    ParseIff(numberString);
    var n := Parse(numberString);
    if n.None? {
      return None;
    }
    if bump {
      var bumped := n.value * 105;
      bumped := bumped / 100;
      return Some(bumped);
    }
    return n;
  }

  function Bumped(amount: int): int {
    105 * amount / 100
  }

  /** The approval covers every amount that is not negative, with room to spare exactly from 20 on. */
  lemma HeadroomIff(amount: int)
    ensures amount >= 0 <==> Bumped(amount) >= amount
    ensures amount >= 0 ==> (Bumped(amount) - amount >= 1 <==> amount >= 20)
  {
  }
}
