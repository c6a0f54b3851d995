/** The string operations of the JavaScript runtime that the pages rely on:
    `String(n)`, `padStart`, `split`, `startsWith`, `parseInt` and `parseFloat`,
    plus the `yyyy-MM-dd` date text. */
module Text {
  import opened Wrappers

  predicate IsDigit(c: char) { '0' <= c <= '9' }

  /** The white space `parseInt`/`parseFloat` skip (the ASCII part of it). */
  predicate IsSpace(c: char) { c == ' ' || c == '\t' || c == '\n' || c == '\r' }

  predicate AllDigits(s: string) { forall i :: 0 <= i < |s| ==> IsDigit(s[i]) }

  function DigitValue(c: char): nat
    requires IsDigit(c)
  {
    (c as int) - ('0' as int)
  }

  function DigitChar(d: nat): (c: char)
    requires d < 10
    ensures IsDigit(c) && DigitValue(c) == d
  {
    (('0' as int) + d) as char
  }

  /** The value of a run of decimal digits, most significant first. */
  function DigitsValue(s: string): nat
    requires AllDigits(s)
  {
    if s == [] then 0 else DigitsValue(s[..|s| - 1]) * 10 + DigitValue(s[|s| - 1])
  }

  function Pow10(n: nat): (r: nat)
    ensures r >= 1
  {
    if n == 0 then 1 else 10 * Pow10(n - 1)
  }

  /** `String(n)` for a non-negative integer: its decimal digits, without leading zeros. */
  function NatToString(n: nat): (s: string)
    ensures 1 <= |s| && AllDigits(s) && DigitsValue(s) == n
    ensures |s| > 1 ==> s[0] != '0'
  {
    if n < 10 then [DigitChar(n)]
    else
      var init := NatToString(n / 10);
      assert (init + [DigitChar(n % 10)])[..|init|] == init;
      init + [DigitChar(n % 10)]
  }

  function Repeat(c: char, n: nat): (r: string)
    ensures |r| == n && forall i :: 0 <= i < n ==> r[i] == c
  {
    if n == 0 then [] else [c] + Repeat(c, n - 1)
  }

  /** `s.padStart(width, c)`: `s` preceded by as many `c` as make it `width` long. */
  function PadStart(s: string, width: nat, c: char): (r: string)
    ensures |r| == if |s| >= width then |s| else width
    ensures r[|r| - |s|..] == s
    ensures forall i :: 0 <= i < |r| - |s| ==> r[i] == c
  {
    if |s| >= width then s else Repeat(c, width - |s|) + s
  }

  lemma {:induction false} ZerosValue(z: string)
    requires forall i :: 0 <= i < |z| ==> z[i] == '0'
    ensures AllDigits(z) && DigitsValue(z) == 0
  {
    if z != [] {
      ZerosValue(z[..|z| - 1]);
    }
  }

  /** Leading zeros do not change the value of a digit run. */
  lemma {:induction false} LeadingZeros(z: string, s: string)
    requires forall i :: 0 <= i < |z| ==> z[i] == '0'
    requires AllDigits(s)
    ensures AllDigits(z + s) && DigitsValue(z + s) == DigitsValue(s)
  {
    ZerosValue(z);
    if s == [] {
      assert z + s == z;
    } else {
      var init := s[..|s| - 1];
      assert (z + s)[..|z + s| - 1] == z + init;
      LeadingZeros(z, init);
    }
  }

  /** Zero-padding a decimal numeral keeps it a numeral of the same value. */
  lemma PaddedValue(n: nat, width: nat)
    ensures AllDigits(PadStart(NatToString(n), width, '0'))
    ensures DigitsValue(PadStart(NatToString(n), width, '0')) == n
  {
    var s := NatToString(n);
    var r := PadStart(s, width, '0');
    var z := r[..|r| - |s|];
    assert r == z + s;
    LeadingZeros(z, s);
  }

  /** The longest prefix of `s` made of decimal digits. */
  function DigitPrefix(s: string): (p: string)
    ensures p <= s && AllDigits(p)
    ensures |p| < |s| ==> !IsDigit(s[|p|])
  {
    if s == [] || !IsDigit(s[0]) then [] else [s[0]] + DigitPrefix(s[1..])
  }

  /** A digit run followed by a non-digit (or nothing) is exactly the digit prefix. */
  lemma {:induction false} DigitPrefixOf(d: string, rest: string)
    requires AllDigits(d)
    requires rest == [] || !IsDigit(rest[0])
    ensures DigitPrefix(d + rest) == d
  {
    if d == [] {
      assert d + rest == rest;
    } else {
      assert (d + rest)[0] == d[0];
      assert (d + rest)[1..] == d[1..] + rest;
      DigitPrefixOf(d[1..], rest);
      assert [d[0]] + d[1..] == d;
    }
  }

  /** Leading white space, as `parseInt`/`parseFloat` skip it. */
  function TrimStart(s: string): (t: string)
    ensures |t| <= |s| && t == s[|s| - |t|..]
    ensures forall i :: 0 <= i < |s| - |t| ==> IsSpace(s[i])
    ensures t == [] || !IsSpace(t[0])
  {
    if s != [] && IsSpace(s[0]) then TrimStart(s[1..]) else s
  }

  datatype Signed = Signed(negative: bool, body: string)

  /** An optional leading `-` or `+`. */
  function SplitSign(t: string): Signed
  {
    if |t| > 0 && t[0] == '-' then Signed(true, t[1..])
    else if |t| > 0 && t[0] == '+' then Signed(false, t[1..])
    else Signed(false, t)
  }

  /** After the sign the digit run is non-empty exactly when a digit comes first, or
      second behind a sign. */
  lemma DigitsAfterSign(t: string)
    ensures DigitPrefix(SplitSign(t).body) != [] <==>
              (t != [] && IsDigit(t[0])) || (|t| > 1 && (t[0] == '-' || t[0] == '+') && IsDigit(t[1]))
  {
  }

  /** A digit run after white space and sign comes from a digit of the text itself; for
      all-digit text the run is the whole text. */
  lemma DigitsAnywhere(s: string)
    ensures DigitPrefix(SplitSign(TrimStart(s)).body) != [] ==> exists i :: 0 <= i < |s| && IsDigit(s[i])
  {
    var t := TrimStart(s);
    var b := SplitSign(t).body;
    if DigitPrefix(b) != [] {
      assert IsDigit(b[0]);
      if |t| > 0 && (t[0] == '-' || t[0] == '+') {
        assert s[|s| - |t| + 1] == t[1] == b[0];
      } else {
        assert s[|s| - |t|] == t[0] == b[0];
      }
    }
  }

  /** JavaScript `parseInt(s)` for decimal text: optional white space and sign, then the
      longest run of digits; `None` (NaN) when there is no digit at all. */
  function ParseInt(s: string): Option<int>
  {
    var sg := SplitSign(TrimStart(s));
    var d := DigitPrefix(sg.body);
    if d == [] then None
    else Some(if sg.negative then -(DigitsValue(d) as int) else DigitsValue(d) as int)
  }

  /** `parseInt` is a number exactly when, after the white space, a digit comes first or
      right behind a sign; text without any digit is `NaN`; all-digit text reads as its
      value. */
  lemma ParseIntDefined(s: string)
    ensures var t := TrimStart(s);
            ParseInt(s).Some? <==> (t != [] && IsDigit(t[0]))
                                   || (|t| > 1 && (t[0] == '-' || t[0] == '+') && IsDigit(t[1]))
    ensures (forall i :: 0 <= i < |s| ==> !IsDigit(s[i])) ==> ParseInt(s).None?
    ensures s != [] && AllDigits(s) ==> ParseInt(s) == Some(DigitsValue(s) as int)
  {
    var t := TrimStart(s);
    var d := DigitPrefix(SplitSign(t).body);
    assert ParseInt(s).Some? <==> d != [];
    DigitsAfterSign(t);
    DigitsAnywhere(s);
    if s != [] && AllDigits(s) {
      ParseIntOfDigits(s, []);
      assert s + [] == s;
    }
  }

  /** JavaScript `parseFloat(s)` for plain decimal text: optional white space and sign,
      digits, an optional `.` and fraction digits; the longest such prefix is read and
      `None` (NaN) is the answer when it holds no digit. The text is scanned one character
      at a time. */
  function ParseFloat(s: string): (r: Option<real>)
    ensures (forall i :: 0 <= i < |s| ==> !IsDigit(s[i])) ==> r.None?
    ensures s != [] && AllDigits(s) ==> r == Some(DigitsValue(s) as real)
  {
    ScanWholeAllDigits(s);
    if s != [] && IsSpace(s[0]) then
      assert forall i :: 0 <= i < |s| - 1 ==> s[1..][i] == s[i + 1];
      ParseFloat(s[1..])
    else if s != [] && s[0] == '-' then Negated(ScanWhole(s[1..], 0, false))
    else if s != [] && s[0] == '+' then ScanWhole(s[1..], 0, false)
    else ScanWhole(s, 0, false)
  }

  function Negated(r: Option<real>): Option<real>
  {
    if r.Some? then Some(-r.value) else None
  }

  /** Reads the integer digits after `acc` (the value of those already read; `seen` says
      whether there were any), then an optional fraction. */
  function ScanWhole(s: string, acc: nat, seen: bool): (r: Option<real>)
    ensures r.Some? ==> r.value >= 0.0
    ensures r.Some? ==> seen || exists i :: 0 <= i < |s| && IsDigit(s[i])
  {
    if s != [] && IsDigit(s[0]) then ScanWhole(s[1..], acc * 10 + DigitValue(s[0]), true)
    else if s != [] && s[0] == '.' && (seen || (|s| > 1 && IsDigit(s[1])))
    then Some(acc as real + FractionValue(s[1..]))
    else if seen then Some(acc as real)
    else None
  }

  /** The value `0.d1d2...` of the digits that start `s`. */
  function FractionValue(s: string): (r: real)
    ensures r >= 0.0
  {
    if s != [] && IsDigit(s[0]) then (DigitValue(s[0]) as real + FractionValue(s[1..])) / 10.0
    else 0.0
  }

  /** A numeric form field: text typed by the user, or a number an edit page loaded with
      `toString()`, which `parseFloat` reads back as that number. */
  datatype Amount = Typed(text: string) | Loaded(number: real)

  /** `parseFloat` of the field; `None` is `NaN`. */
  function AmountValue(a: Amount): Option<real>
  {
    match a
    case Typed(t) => ParseFloat(t)
    case Loaded(v) => Some(v)
  }

  /** Text without a minus sign never reads as a negative integer. */
  lemma ParseIntNonNegative(s: string)
    requires '-' !in s
    ensures ParseInt(s).Some? ==> ParseInt(s).value >= 0
  {
    var t := TrimStart(s);
    if |t| > 0 {
      assert t[0] == s[|s| - |t|];
    }
  }

  /** `parseInt` reads back a digit run that is followed by a non-digit. */
  lemma ParseIntOfDigits(d: string, rest: string)
    requires |d| >= 1 && AllDigits(d)
    requires rest == [] || !IsDigit(rest[0])
    ensures ParseInt(d + rest) == Some(DigitsValue(d) as int)
  {
    var s := d + rest;
    assert s[0] == d[0];
    assert IsDigit(s[0]);
    UnsignedText(s);
    DigitPrefixOf(d, rest);
  }

  /** Text that starts with a digit has no white space or sign to skip. */
  lemma UnsignedText(s: string)
    ensures s != [] && IsDigit(s[0]) ==> TrimStart(s) == s && SplitSign(s) == Signed(false, s)
  {
  }

  /** `parseInt(String(n).padStart(w, '0')) == n`. */
  lemma ParseIntPadded(n: nat, width: nat)
    ensures ParseInt(PadStart(NatToString(n), width, '0')) == Some(n as int)
  {
    var p := PadStart(NatToString(n), width, '0');
    PaddedValue(n, width);
    ParseIntOfDigits(p, []);
    assert p + [] == p;
  }

  /** Reading the digit run `d` after `acc`, followed by a non-digit other than `.`. */
  lemma {:induction false} ScanWholeDigits(d: string, rest: string, acc: nat, seen: bool)
    requires AllDigits(d) && (seen || |d| >= 1)
    requires rest == [] || (!IsDigit(rest[0]) && rest[0] != '.')
    ensures ScanWhole(d + rest, acc, seen) == Some((acc * Pow10(|d|) + DigitsValue(d)) as real)
  {
    if d == [] {
      assert d + rest == rest;
    } else {
      var t := d[1..];
      var c := DigitValue(d[0]);
      var p := Pow10(|t|);
      var next := acc * 10 + c;
      ScanOneDigit(d + rest, acc, seen);
      assert (d + rest)[0] == d[0] && (d + rest)[1..] == t + rest;
      ScanWholeDigits(t, rest, next, true);
      DigitsValueHead(d);
      assert Pow10(|d|) == 10 * p;
      ShiftDigit(acc, c, p, DigitsValue(t));
      assert next * p + DigitsValue(t) == acc * Pow10(|d|) + DigitsValue(d);
    }
  }

  /** The value of a digit run, split after its first digit. */
  lemma DigitsValueHead(d: string)
    requires |d| >= 1 && AllDigits(d)
    ensures DigitsValue(d) == DigitValue(d[0]) * Pow10(|d| - 1) + DigitsValue(d[1..])
  {
    DigitsValueCons(d[0], d[1..]);
    assert [d[0]] + d[1..] == d;
  }

  /** A leading digit is added to the value read so far. */
  lemma ScanOneDigit(s: string, acc: nat, seen: bool)
    requires s != [] && IsDigit(s[0])
    ensures ScanWhole(s, acc, seen) == ScanWhole(s[1..], acc * 10 + DigitValue(s[0]), true)
  {
  }

  lemma ShiftDigit(acc: nat, c: nat, p: nat, v: nat)
    ensures (acc * 10 + c) * p + v == acc * (10 * p) + (c * p + v)
  {
  }

  /** A leading digit is worth its value times the power of ten of the digits after it. */
  lemma {:induction false} DigitsValueCons(c: char, t: string)
    requires IsDigit(c) && AllDigits(t)
    ensures AllDigits([c] + t)
    ensures DigitsValue([c] + t) == DigitValue(c) * Pow10(|t|) + DigitsValue(t)
  {
    var s := [c] + t;
    assert forall i :: 1 <= i < |s| ==> s[i] == t[i - 1];
    if t != [] {
      var n := |t| - 1;
      var init := t[..n];
      assert s[..|s| - 1] == [c] + init;
      assert s[|s| - 1] == t[n];
      DigitsValueCons(c, init);
      var last := DigitValue(t[n]);
      assert DigitsValue(s) == DigitsValue([c] + init) * 10 + last;
      assert DigitsValue(t) == DigitsValue(init) * 10 + last;
      assert Pow10(|t|) == 10 * Pow10(n);
      AppendDigit(DigitValue(c), Pow10(n), DigitsValue(init), last);
    }
  }

  lemma AppendDigit(x: nat, p: nat, v: nat, d: nat)
    ensures (x * p + v) * 10 + d == x * (10 * p) + (v * 10 + d)
  {
  }

  /** `parseFloat(String(n)) == n`. */
  lemma ParseFloatOfNat(n: nat)
    ensures ParseFloat(NatToString(n)) == Some(n as real)
  {
    var s := NatToString(n);
    assert IsDigit(s[0]);
    ScanWholeDigits(s, [], 0, false);
    assert s + [] == s;
  }

  /** A whole run of digits scans as its value. */
  lemma ScanWholeAllDigits(s: string)
    ensures s != [] && AllDigits(s) ==> ScanWhole(s, 0, false) == Some(DigitsValue(s) as real)
  {
    if s != [] && AllDigits(s) {
      ScanWholeDigits(s, [], 0, false);
      assert s + [] == s;
    }
  }

  /** Text without a minus sign never reads as a negative number. */
  lemma {:induction false} ParseFloatNonNegative(s: string)
    requires '-' !in s
    ensures ParseFloat(s).Some? ==> ParseFloat(s).value >= 0.0
  {
    if s != [] && IsSpace(s[0]) {
      assert forall i :: 0 <= i < |s| - 1 ==> s[1..][i] == s[i + 1];
      ParseFloatNonNegative(s[1..]);
    } else if s != [] {
      assert s[0] in s;
    }
  }

  /** The pieces joined back together with `sep` between them. */
  function Join(parts: seq<string>, sep: char): string
    requires |parts| >= 1
  {
    if |parts| == 1 then parts[0] else parts[0] + [sep] + Join(parts[1..], sep)
  }

  /** `s.split(sep)`: the maximal `sep`-free pieces, in order; `""` gives `[""]`. */
  function Split(s: string, sep: char): (parts: seq<string>)
    ensures |parts| >= 1
  {
    if s == [] then [""]
    else
      var tail := Split(s[1..], sep);
      if s[0] == sep then [""] + tail
      else [[s[0]] + tail[0]] + tail[1..]
  }

  /** The pieces `split` returns hold no separator and join back into the text. */
  lemma {:induction false} SplitPieces(s: string, sep: char)
    ensures Join(Split(s, sep), sep) == s
    ensures forall i :: 0 <= i < |Split(s, sep)| ==> sep !in Split(s, sep)[i]
  {
    if s != [] {
      var tail := Split(s[1..], sep);
      SplitPieces(s[1..], sep);
      if s[0] == sep {
        assert ([""] + tail)[1..] == tail;
      } else {
        var parts := [[s[0]] + tail[0]] + tail[1..];
        assert parts[1..] == tail[1..];
        assert |tail| > 1 ==> Join(tail, sep) == tail[0] + [sep] + Join(tail[1..], sep);
        assert forall i :: 1 <= i < |parts| ==> parts[i] == tail[i];
        assert [s[0]] + s[1..] == s;
      }
    }
  }

  /** How `split` treats the first character. */
  lemma SplitHead(s: string, sep: char)
    requires s != []
    ensures Split(s, sep) ==
              if s[0] == sep then [""] + Split(s[1..], sep)
              else [[s[0]] + Split(s[1..], sep)[0]] + Split(s[1..], sep)[1..]
  {
  }

  /** Prefixing the first piece of `x + y` is prefixing the first piece of `x`. */
  lemma ExtendFirst<T>(c: T, x: seq<seq<T>>, y: seq<seq<T>>)
    requires |x| >= 1
    ensures [[c] + (x + y)[0]] + (x + y)[1..] == ([[c] + x[0]] + x[1..]) + y
  {
    assert (x + y)[0] == x[0];
    assert (x + y)[1..] == x[1..] + y;
  }

  /** Splitting text that holds a separator splits both sides of it. */
  lemma {:induction false} SplitConcat(a: string, b: string, sep: char)
    ensures Split(a + [sep] + b, sep) == Split(a, sep) + Split(b, sep)
  {
    var s := a + [sep] + b;
    SplitHead(s, sep);
    if a == [] {
      assert s[0] == sep && s[1..] == b;
    } else {
      var t := a[1..] + [sep] + b;
      assert s[0] == a[0] && s[1..] == t;
      var x, y := Split(a[1..], sep), Split(b, sep);
      SplitConcat(a[1..], b, sep);
      SplitHead(a, sep);
      if a[0] == sep {
        assert [""] + (x + y) == ([""] + x) + y;
      } else {
        ExtendFirst(a[0], x, y);
      }
    }
  }

  /** `(a + "-" + y + "-" + q).split("-")` for separator-free `y` and `q`. */
  lemma SplitTwoTrailing(a: string, y: string, q: string, sep: char)
    requires sep !in y && sep !in q
    ensures Split(a + [sep] + y + [sep] + q, sep) == Split(a, sep) + [y, q]
  {
    assert a + [sep] + y + [sep] + q == a + [sep] + (y + [sep] + q);
    SplitConcat(a, y + [sep] + q, sep);
    SplitConcat(y, q, sep);
    SplitPlain(y, sep);
    SplitPlain(q, sep);
  }

  lemma {:induction false} SplitPlain(a: string, sep: char)
    requires sep !in a
    ensures Split(a, sep) == [a]
  {
    if a != [] {
      SplitPlain(a[1..], sep);
      assert [a[0]] + a[1..] == a;
    }
  }

  /** `split` undoes `Join` on separator-free pieces. */
  lemma {:induction false} SplitJoin(parts: seq<string>, sep: char)
    requires |parts| >= 1
    requires forall i :: 0 <= i < |parts| ==> sep !in parts[i]
    ensures Split(Join(parts, sep), sep) == parts
  {
    if |parts| == 1 {
      SplitPlain(parts[0], sep);
    } else {
      SplitJoin(parts[1..], sep);
      SplitConcat(parts[0], Join(parts[1..], sep), sep);
      SplitPlain(parts[0], sep);
      assert [parts[0]] + parts[1..] == parts;
    }
  }

  lemma DigitsHaveNoDash(s: string)
    requires AllDigits(s)
    ensures '-' !in s
  {
    assert forall i :: 0 <= i < |s| ==> s[i] != '-';
  }

  /** A calendar date, as the pages use it (no time of day, no time zone). */
  datatype Date = Date(year: nat, month: nat, day: nat)

  /** The three zero-padded numerals of a date: four digits of year, two of month and day. */
  function IsoFields(d: Date): seq<string>
  {
    [PadStart(NatToString(d.year), 4, '0'), PadStart(NatToString(d.month), 2, '0'),
     PadStart(NatToString(d.day), 2, '0')]
  }

  /** `yyyy-MM-dd`: `toISOString().split('T')[0]` and date-fns `format(d, "yyyy-MM-dd")`. */
  function IsoDate(d: Date): string
  {
    Join(IsoFields(d), '-')
  }

  /** A zero-padded numeral holds no dash. */
  lemma PaddedDashFree(n: nat, w: nat)
    ensures '-' !in PadStart(NatToString(n), w, '0')
  {
    PaddedValue(n, w);
    DigitsHaveNoDash(PadStart(NatToString(n), w, '0'));
  }

  lemma IsoFieldsDashFree(d: Date)
    ensures forall i :: 0 <= i < |IsoFields(d)| ==> '-' !in IsoFields(d)[i]
  {
    PaddedDashFree(d.year, 4);
    PaddedDashFree(d.month, 2);
    PaddedDashFree(d.day, 2);
  }

  /** The date text splits back into its three numerals, which read as the year, month, day. */
  lemma IsoDateFields(d: Date)
    ensures Split(IsoDate(d), '-') == IsoFields(d)
    ensures ParseInt(IsoFields(d)[0]) == Some(d.year as int)
    ensures ParseInt(IsoFields(d)[1]) == Some(d.month as int)
    ensures ParseInt(IsoFields(d)[2]) == Some(d.day as int)
  {
    IsoDateSplit(d);
    IsoFieldsParse(d);
  }

  lemma IsoDateSplit(d: Date)
    ensures Split(IsoDate(d), '-') == IsoFields(d)
  {
    IsoFieldsDashFree(d);
    SplitJoin(IsoFields(d), '-');
  }

  lemma IsoFieldsParse(d: Date)
    ensures ParseInt(IsoFields(d)[0]) == Some(d.year as int)
    ensures ParseInt(IsoFields(d)[1]) == Some(d.month as int)
    ensures ParseInt(IsoFields(d)[2]) == Some(d.day as int)
  {
    ParseIntPadded(d.year, 4);
    ParseIntPadded(d.month, 2);
    ParseIntPadded(d.day, 2);
  }
}
