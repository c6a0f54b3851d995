/** The human-readable record ids, all of the shape `<prefix>-<year>-<n>` with `n`
    written by `String(n).padStart(3, '0')`: `BILL-`, `FARM-` and `AGNT-` take a random
    `n` in 1..1000, `VC-F-` and `VC-A-` a per-kind sequence number. */
module Ids {
  import opened Wrappers
  import opened Text

  /** `String(n).padStart(3, '0')`. */
  function Seq3(n: nat): string
  {
    PadStart(NatToString(n), 3, '0')
  }

  /** `${prefix}-${year}-${String(n).padStart(3, '0')}`. */
  function YearId(prefix: string, year: nat, n: nat): string
  {
    prefix + "-" + NatToString(year) + "-" + Seq3(n)
  }

  /** A numeral with at most `k` digits is below `10^k`, and conversely. */
  lemma {:induction false} NatToStringLength(n: nat, k: nat)
    requires k >= 1
    ensures |NatToString(n)| <= k <==> n < Pow10(k)
  {
    if n >= 10 && k > 1 {
      NatToStringLength(n / 10, k - 1);
    }
  }

  /** The sequence part is `n` in at least three digits: exactly three below 1000. */
  lemma Seq3Digits(n: nat)
    ensures AllDigits(Seq3(n)) && DigitsValue(Seq3(n)) == n
    ensures ParseInt(Seq3(n)) == Some(n as int)
    ensures |Seq3(n)| == if n < 1000 then 3 else |NatToString(n)|
  {
    PaddedValue(n, 3);
    ParseIntPadded(n, 3);
    NatToStringLength(n, 3);
  }

  lemma Seq3Of1000()
    ensures |Seq3(1000)| == 4
  {
    NatToStringLength(1000, 4);
    NatToStringLength(1000, 3);
    assert Pow10(3) == 1000;
  }

  /** Splitting an id on `-` gives the prefix's own pieces, the year and the sequence part. */
  lemma YearIdSplit(prefix: string, year: nat, n: nat)
    ensures Split(YearId(prefix, year, n), '-') == Split(prefix, '-') + [NatToString(year), Seq3(n)]
  {
    var y := NatToString(year);
    var q := Seq3(n);
    PaddedValue(n, 3);
    DigitsHaveNoDash(y);
    DigitsHaveNoDash(q);
    SplitTwoTrailing(prefix, y, q, '-');
  }

  /** The random suffix `Math.floor(Math.random() * 1000) + 1`. */
  predicate RandomSuffix(n: int) { 1 <= n <= 1000 }

  lemma RandomIdPieces(prefix: string, year: nat, n: nat)
    requires RandomSuffix(n) && '-' !in prefix
    ensures Split(YearId(prefix, year, n), '-') == [prefix, NatToString(year), Seq3(n)]
    ensures ParseInt(Seq3(n)) == Some(n as int)
    ensures |Seq3(n)| == if n == 1000 then 4 else 3
  {
    RandomIdSplit(prefix, year, n);
    RandomSuffixDigits(n);
  }

  lemma RandomIdSplit(prefix: string, year: nat, n: nat)
    requires '-' !in prefix
    ensures Split(YearId(prefix, year, n), '-') == [prefix, NatToString(year), Seq3(n)]
  {
    YearIdSplit(prefix, year, n);
    SplitPlain(prefix, '-');
    assert [prefix] + [NatToString(year), Seq3(n)] == [prefix, NatToString(year), Seq3(n)];
  }

  /** A random suffix reads back, in three digits or four for 1000. */
  lemma RandomSuffixDigits(n: nat)
    requires RandomSuffix(n)
    ensures ParseInt(Seq3(n)) == Some(n as int)
    ensures |Seq3(n)| == if n == 1000 then 4 else 3
  {
    Seq3Digits(n);
    if n == 1000 {
      Seq3Of1000();
    }
  }

  /** The id the bill, farm and agent forms start from: `<prefix>-<year>-<n>`, where the
      random `n` comes back from the last piece in three digits, or four for 1000. */
  function RandomId(prefix: string, year: nat, n: nat): (id: string)
    requires RandomSuffix(n) && '-' !in prefix
    ensures Split(id, '-') == [prefix, NatToString(year), Seq3(n)]
    ensures ParseInt(Split(id, '-')[2]) == Some(n as int)
    ensures |Split(id, '-')[2]| == if n == 1000 then 4 else 3
  {
    RandomIdPieces(prefix, year, n);
    YearId(prefix, year, n)
  }
}
