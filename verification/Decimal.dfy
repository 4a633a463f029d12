/** Decimal printing and parsing of Go's 64-bit int: strconv.Itoa and strconv.Atoi. */
module Decimal {
  import opened Wrappers

  const MIN_INT64: int := -0x8000_0000_0000_0000
  const MAX_INT64: int := 0x7FFF_FFFF_FFFF_FFFF

  predicate IsInt64(n: int) {
    MIN_INT64 <= n <= MAX_INT64
  }

  predicate IsDigit(c: char) {
    '0' <= c <= '9'
  }

  function Digits(n: nat): (s: string)
    ensures s != [] && forall c :: c in s ==> IsDigit(c)
  {
    var last := [(n % 10) as char + '0'];
    if n < 10 then last else Digits(n / 10) + last
  }

  function Itoa(n: int): string {
    if n < 0 then "-" + Digits(-n) else Digits(n)
  }

  function Value(s: string): nat
    requires forall c :: c in s ==> IsDigit(c)
  {
    if s == [] then 0
    else
      var last := s[|s| - 1];
      assert last in s && IsDigit(last);
      Value(s[..|s| - 1]) * 10 + (last as int - '0' as int)
  }

  /** One optional sign, then at least one digit, within the range of int64. */
  function Atoi(s: string): Option<int> {
    var signed := s != [] && (s[0] == '-' || s[0] == '+');
    var body := if signed then s[1..] else s;
    if body == [] || exists c :: c in body && !IsDigit(c) then None
    else
      var v: int := Value(body);
      var n := if signed && s[0] == '-' then -v else v;
      if IsInt64(n) then Some(n) else None
  }

  lemma {:induction false} ValueOfDigits(n: nat)
    ensures Value(Digits(n)) == n
  {
    var s := Digits(n);
    assert s[|s| - 1] as int - '0' as int == n % 10;
    if n >= 10 {
      assert s[..|s| - 1] == Digits(n / 10);
      ValueOfDigits(n / 10);
    } else {
      assert s[..|s| - 1] == [];
    }
  }

  /** Parsing undoes printing, for every value of the type. */
  lemma AtoiItoa(n: int)
    requires IsInt64(n)
    ensures Atoi(Itoa(n)) == Some(n)
  {
    var d := Digits(if n < 0 then -n else n);
    ValueOfDigits(if n < 0 then -n else n);
    assert IsDigit(d[0]);
    if n < 0 {
      assert Itoa(n)[1..] == d;
    }
  }

  /** Printed integers use digits and the minus sign only. */
  lemma ItoaAlphabet(n: int)
    ensures Itoa(n) != []
    ensures forall c :: c in Itoa(n) ==> IsDigit(c) || c == '-'
  {
    var d := Digits(if n < 0 then -n else n);
    if n < 0 {
      assert forall c :: c in "-" + d ==> c == '-' || c in d;
    }
  }

  /** Numbers outside the range do not parse. */
  lemma AtoiOutOfRange(n: int)
    requires !IsInt64(n)
    ensures Atoi(Itoa(n)) == None
  {
    var d := Digits(if n < 0 then -n else n);
    ValueOfDigits(if n < 0 then -n else n);
    assert IsDigit(d[0]);
    if n < 0 {
      assert Itoa(n)[1..] == d;
    }
  }

  /** The digits and their places. */
  lemma ItoaOf(n: nat, d: nat)
    requires d < 10
    ensures Itoa(d) == ["0123456789"[d]]
    ensures n > 0 ==> Itoa(10 * n + d) == Itoa(n) + ["0123456789"[d]]
  {
  }

  /** A minus sign for negative numbers; no sign for others. */
  lemma ItoaSign(n: int)
    requires n > 0
    ensures Itoa(-n) == "-" + Itoa(n)
  {
  }

  /** What parses is one optional sign and at least one digit. */
  lemma AtoiNeedsDigits(s: string)
    requires Atoi(s).Some?
    ensures s != ""
    ensures var body := if s[0] == '-' || s[0] == '+' then s[1..] else s;
      body != "" && forall i :: 0 <= i < |body| ==> '0' <= body[i] <= '9'
  {
    var body := if s != "" && (s[0] == '-' || s[0] == '+') then s[1..] else s;
    forall i | 0 <= i < |body| ensures IsDigit(body[i]) {
      assert body[i] in body;
    }
  }

  /** A plus sign is allowed. */
  lemma AtoiPlus(n: nat)
    requires IsInt64(n)
    ensures Atoi("+" + Itoa(n)) == Some(n)
  {
    ValueOfDigits(n);
    assert ("+" + Itoa(n))[1..] == Itoa(n);
  }
}
