/** Natural numbers in decimal, and zero-padded as Python's ":03d" prints them. */
module Decimals {
  function Digit(d: nat): char
    requires d < 10
  {
    '0' + d as char
  }

  predicate IsDigit(c: char) {
    '0' <= c <= '9'
  }

  function Decimal(n: nat): string {
    if n < 10 then [Digit(n)] else Decimal(n / 10) + [Digit(n % 10)]
  }

  function Padded(n: nat): string {
    if n < 10 then "00" + Decimal(n) else if n < 100 then "0" + Decimal(n) else Decimal(n)
  }

  function Number(s: string): nat {
    if s == "" then 0
    else
      var c := s[|s| - 1];
      10 * Number(s[..|s| - 1]) + (if IsDigit(c) then (c - '0') as nat else 0)
  }

  lemma {:induction false} DecimalReads(n: nat)
    ensures Number(Decimal(n)) == n
  {
    if n >= 10 {
      DecimalReads(n / 10);
      assert Decimal(n)[..|Decimal(n)| - 1] == Decimal(n / 10);
    } else {
      assert [Digit(n)][..0] == "";
    }
  }

  lemma {:induction false} LeadingZero(s: string)
    ensures Number("0" + s) == Number(s)
  {
    if s == "" {
      assert ("0" + s)[..0] == "";
    } else {
      LeadingZero(s[..|s| - 1]);
      assert ("0" + s)[..|s|] == "0" + s[..|s| - 1];
    }
  }

  // Different numbers never print alike.
  lemma PaddedReads(n: nat)
    ensures Number(Padded(n)) == n
  {
    DecimalReads(n);
    LeadingZero(Decimal(n));
    LeadingZero("0" + Decimal(n));
    assert "00" + Decimal(n) == "0" + ("0" + Decimal(n));
  }

  lemma {:induction false} DecimalDigits(n: nat)
    ensures Decimal(n) != "" && forall i :: 0 <= i < |Decimal(n)| ==> IsDigit(Decimal(n)[i])
  {
    if n >= 10 {
      DecimalDigits(n / 10);
    }
  }

  // No digit too many, and three at least when padded.
  lemma {:induction false} DecimalShape(n: nat)
    ensures Decimal(n)[0] == '0' ==> n == 0 && Decimal(n) == "0"
    ensures n < 10 <==> |Decimal(n)| == 1
    ensures n < 100 <==> |Decimal(n)| <= 2
  {
    if n >= 10 {
      DecimalDigits(n / 10);
      DecimalShape(n / 10);
    }
  }

  lemma PaddedShape(n: nat)
    ensures |Padded(n)| >= 3 && (n < 1000 ==> |Padded(n)| == 3)
    ensures |Padded(n)| > 3 ==> Padded(n)[0] != '0'
  {
    DecimalShape(n);
    DecimalDigits(n);
    if n >= 100 {
      DecimalShape(n / 10);
      DecimalDigits(n / 10);
      if n >= 1000 {
        DecimalShape(n / 10 / 10);
      }
    }
  }
}
