/** Names that no one uses yet: a base, bumped by a numeric suffix until it is free. */
module FreshNames {
  import opened FiniteSets

  function Digit(d: nat): char
    requires d < 10
  {
    "0123456789"[d]
  }

  function Decimal(n: nat): string
  {
    if n < 10 then [Digit(n)] else Decimal(n / 10) + [Digit(n % 10)]
  }

  lemma {:induction false} DecimalInjective(a: nat, b: nat)
    requires Decimal(a) == Decimal(b)
    ensures a == b
  {
    var da, db := Decimal(a), Decimal(b);
    assert da[|da| - 1] == Digit(a % 10) && db[|db| - 1] == Digit(b % 10);
    assert a % 10 == b % 10;
    if a >= 10 && b >= 10 {
      assert da[..|da| - 1] == Decimal(a / 10) && db[..|db| - 1] == Decimal(b / 10);
      DecimalInjective(a / 10, b / 10);
    } else {
      DecimalNonEmpty(a / 10);
      DecimalNonEmpty(b / 10);
    }
  }

  lemma DecimalNonEmpty(n: nat)
    ensures Decimal(n) != []
  {
  }

  // ----- decimal notation -----

  function DigitValue(c: char): nat
  {
    if '0' <= c <= '9' then c as nat - '0' as nat else 0
  }

  /** A digit string read to base ten, the last digit the ones. */
  function ReadDecimal(digits: string): nat
  {
    if digits == [] then 0 else 10 * ReadDecimal(digits[..|digits| - 1]) + DigitValue(digits[|digits| - 1])
  }

  /** Digits without a leading zero that read as the number. */
  predicate Numeral(g: string, n: nat)
  {
    g != [] && (forall k | 0 <= k < |g| :: '0' <= g[k] <= '9') && (|g| > 1 ==> g[0] != '0') && ReadDecimal(g) == n
  }

  lemma DigitReads(d: nat)
    requires d < 10
    ensures '0' <= Digit(d) <= '9' && DigitValue(Digit(d)) == d && (d > 0 ==> Digit(d) != '0')
  {
  }

  lemma OneDigit(g: string)
    requires |g| == 1 && '0' <= g[0] <= '9'
    ensures ReadDecimal(g) == DigitValue(g[0]) < 10 && (DigitValue(g[0]) == 0 ==> g == "0")
  {
    assert g[..0] == [] && ReadDecimal([]) == 0;
  }

  lemma {:induction false} DecimalReads(n: nat)
    ensures Numeral(Decimal(n), n) && (n > 0 ==> Decimal(n)[0] != '0')
  {
    hide Digit;
    if n < 10 {
      DigitReads(n);
      assert Decimal(n) == [Digit(n)];
      OneDigit(Decimal(n));
    } else {
      DecimalReads(n / 10);
      DigitReads(n % 10);
      assert Decimal(n)[..|Decimal(n)| - 1] == Decimal(n / 10);
    }
  }

  lemma {:induction false} NumeralSize(g: string, n: nat)
    requires Numeral(g, n)
    ensures |g| > 1 <==> n >= 10
    ensures n == 0 ==> g == "0"
  {
    var front := g[..|g| - 1];
    if |g| > 1 {
      assert front[0] == g[0] != '0';
      if |g| == 2 {
        OneDigit(front);
      } else {
        NumeralSize(front, ReadDecimal(front));
      }
    } else {
      OneDigit(g);
    }
  }

  lemma TenParts(a: nat, d: nat)
    requires d < 10
    ensures (10 * a + d) / 10 == a && (10 * a + d) % 10 == d
  {
  }

  lemma DigitBack(c: char)
    requires '0' <= c <= '9'
    ensures DigitValue(c) < 10 && Digit(DigitValue(c)) == c
  {
  }

  /** Without its last digit a longer numeral is the tenth's. */
  lemma NumeralFront(g: string, n: nat)
    requires Numeral(g, n) && |g| > 1
    ensures Numeral(g[..|g| - 1], n / 10) && g[|g| - 1] == Digit(n % 10)
  {
    hide Digit, DigitValue;
    var front, last := g[..|g| - 1], g[|g| - 1];
    DigitBack(last);
    TenParts(ReadDecimal(front), DigitValue(last));
  }

  /** There is one numeral for a number. */
  lemma {:induction false} NumeralIsDecimal(g: string, n: nat)
    requires Numeral(g, n)
    ensures g == Decimal(n)
    decreases |g|
  {
    hide Digit, ReadDecimal;
    NumeralSize(g, n);
    if |g| == 1 {
      OneDigit(g);
      DigitBack(g[0]);
    } else {
      NumeralFront(g, n);
      NumeralIsDecimal(g[..|g| - 1], n / 10);
      assert g == g[..|g| - 1] + [g[|g| - 1]];
    }
  }

  function Candidate(base: string, i: nat): string
  {
    base + "_" + Decimal(i)
  }

  lemma CandidateInjective(base: string, i: nat, j: nat)
    requires Candidate(base, i) == Candidate(base, j)
    ensures i == j
  {
    assert Candidate(base, i)[|base| + 1..] == Decimal(i);
    assert Candidate(base, j)[|base| + 1..] == Decimal(j);
    DecimalInjective(i, j);
  }

  /** The base itself when it is free, else its first free candidate. */
  ghost predicate IsFresh(used: set<string>, base: string, name: string)
  {
    && name !in used
    && (name == base
        || (base in used && exists i: nat :: FirstFree(used, base, i) && name == Candidate(base, i)))
  }

  ghost predicate FirstFree(used: set<string>, base: string, i: nat)
  {
    1 <= i && forall j | 1 <= j < i :: Candidate(base, j) in used
  }

  /** Candidates are distinct and `used` is finite, so one is free soon. */
  lemma {:induction false} CandidatesUsed(used: set<string>, base: string, i: nat)
    requires FirstFree(used, base, i)
    ensures i <= |used| + 1
  {
    var seen: set<string> := {};
    for j := 1 to i
      invariant seen <= used && |seen| == j - 1
      invariant forall s | s in seen :: exists m: nat :: m < j && s == Candidate(base, m)
    {
      if Candidate(base, j) in seen {
        var m: nat :| m < j && Candidate(base, j) == Candidate(base, m);
        CandidateInjective(base, j, m);
      }
      seen := seen + {Candidate(base, j)};
    }
    SubsetSize(seen, used);
  }

  /** The first free candidate from the i-th on. */
  function FreeFrom(used: set<string>, base: string, i: nat): (name: string)
    requires base in used && FirstFree(used, base, i)
    ensures IsFresh(used, base, name)
    decreases |used| + 1 - i
  {
    CandidatesUsed(used, base, i);
    if Candidate(base, i) !in used then Candidate(base, i)
    else
      CandidatesUsed(used, base, i + 1);
      FreeFrom(used, base, i + 1)
  }

  function FreshName(used: set<string>, base: string): (name: string)
    ensures IsFresh(used, base, name)
  {
    if base !in used then base else FreeFrom(used, base, 1)
  }

  /** The minter. */
  method Fresh(used: set<string>, base: string) returns (name: string)
    ensures name == FreshName(used, base) && IsFresh(used, base, name)
  {
    if base !in used {
      return base;
    }
    var i := 1;
    name := Candidate(base, 1);
    while name in used
      invariant 1 <= i && name == Candidate(base, i) && FirstFree(used, base, i)
      invariant FreeFrom(used, base, 1) == FreeFrom(used, base, i)
      decreases |used| + 1 - i
    {
      CandidatesUsed(used, base, i + 1);
      i := i + 1;
      name := Candidate(base, i);
    }
  }
}
