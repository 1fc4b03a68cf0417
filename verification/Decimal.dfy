/** Decimal numerals as strconv.Itoa writes them and strconv.Atoi reads them. */
module Decimal {
  import opened Wrappers

  predicate IsDigit(c: char) { '0' <= c <= '9' }

  function Digits(n: nat): string {
    if n < 10 then [(n as char) + '0'] else Digits(n / 10) + [((n % 10) as char) + '0']
  }

  function Itoa(n: int): string { if n < 0 then "-" + Digits(-n) else Digits(n) }

  function Value(s: string): Option<nat> {
    if s == "" || !IsDigit(s[|s| - 1]) then None
    else
      var last := (s[|s| - 1] - '0') as nat;
      if |s| == 1 then Some(last)
      else
        var before := Value(s[..|s| - 1]);
        if before.None? then None else Some(before.value * 10 + last)
  }

  /** Both signs are accepted. The range of Go's int is left out. */
  function Atoi(s: string): Option<int> {
    if s == "" then None
    else
      var v := Value(if s[0] == '-' || s[0] == '+' then s[1..] else s);
      if v.None? then None else Some(if s[0] == '-' then 0 - v.value else v.value)
  }

  lemma DigitValue(d: nat)
    requires d < 10
    ensures IsDigit((d as char) + '0') && (((d as char) + '0') - '0') as nat == d
  {}

  lemma {:induction false} ValueOfDigits(n: nat)
    ensures Digits(n) != "" && Value(Digits(n)) == Some(n)
    ensures forall c :: c in Digits(n) ==> IsDigit(c)
    decreases n
  {
    DigitValue(n % 10);
    if n >= 10 {
      ValueOfDigits(n / 10);
      var s := Digits(n);
      assert s[..|s| - 1] == Digits(n / 10);
    }
  }

  /** The reader takes a plus sign, too. */
  lemma AtoiOfSigned(n: nat)
    ensures Atoi("+" + Digits(n)) == Some(n) && Atoi("-" + Digits(n)) == Some(0 - n) && Atoi("") == None
  {
    ValueOfDigits(n);
    assert ("+" + Digits(n))[1..] == Digits(n) && ("-" + Digits(n))[1..] == Digits(n);
  }

  lemma AtoiOfItoa(n: int)
    ensures Atoi(Itoa(n)) == Some(n) && Itoa(n) != ""
    ensures forall c :: c in Itoa(n) ==> IsDigit(c) || c == '-'
  {
    hide Value, Digits;
    if n < 0 {
      ValueOfDigits(-n);
      assert ("-" + Digits(-n))[1..] == Digits(-n);
    } else {
      ValueOfDigits(n);
      assert Digits(n)[0] in Digits(n);
    }
  }
}
