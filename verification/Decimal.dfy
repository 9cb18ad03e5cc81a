/** Go's strconv.Itoa, and fmt's %d. */
module Decimal {

  function Digit(d: nat): char
    requires d < 10
  {
    '0' + d as char
  }

  function Digits(n: nat): (s: string)
    ensures s != [] && forall c :: c in s ==> '0' <= c <= '9'
  {
    if n < 10 then [Digit(n)] else Digits(n / 10) + [Digit(n % 10)]
  }

  function Itoa(n: int): (s: string)
    ensures s != [] && forall c :: c in s ==> c == '-' || '0' <= c <= '9'
  {
    if n < 0 then "-" + Digits(-n) else Digits(n)
  }

  /** The number a digit string stands for. */
  function Value(s: string): int {
    if s == [] then 0 else 10 * Value(s[..|s| - 1]) + (s[|s| - 1] as int - '0' as int)
  }

  lemma {:induction false} ValueOfDigits(n: nat)
    ensures Value(Digits(n)) == n
  {
    if n < 10 {
      assert Value([Digit(n)][..0]) == 0;
    } else {
      ValueOfDigits(n / 10);
      assert Digits(n)[..|Digits(n)| - 1] == Digits(n / 10);
    }
  }

  /** The rendering is the usual one: a sign for negative numbers only, no leading zero, and digits that
      stand for the number. */
  lemma ItoaMeaning(n: int)
    ensures n >= 0 ==> Value(Itoa(n)) == n
    ensures n < 0 ==> Itoa(n)[0] == '-' && Value(Itoa(n)[1..]) == -n
    ensures n > 0 ==> Itoa(n)[0] != '0'
    ensures n < 0 ==> Itoa(n)[1..] == Itoa(-n)
    ensures Itoa(0) == "0"
  {
    if n >= 0 { ValueOfDigits(n); } else { ValueOfDigits(-n); }
    if n > 0 { NoLeadingZero(n); }
  }

  lemma {:induction false} NoLeadingZero(n: nat)
    requires n > 0
    ensures Digits(n)[0] != '0'
  {
    if n < 10 {
    } else {
      NoLeadingZero(n / 10);
      assert Digits(n)[0] == Digits(n / 10)[0];
    }
  }

  lemma DigitsInjective(a: nat, b: nat)
    requires Digits(a) == Digits(b)
    ensures a == b
  {
    ValueOfDigits(a);
    ValueOfDigits(b);
  }

  lemma ItoaSign(n: int)
    ensures Itoa(n)[0] == '-' <==> n < 0
  {
    assert n >= 0 ==> Itoa(n)[0] in Digits(n);
  }

  lemma ItoaInjective(a: int, b: int)
    ensures Itoa(a) == Itoa(b) <==> a == b
  {
    ItoaSign(a);
    ItoaSign(b);
    if Itoa(a) == Itoa(b) {
      if a < 0 {
        assert Digits(-a) == Itoa(a)[1..] && Digits(-b) == Itoa(b)[1..];
        DigitsInjective(-a, -b);
      } else {
        DigitsInjective(a, b);
      }
    }
  }
}
