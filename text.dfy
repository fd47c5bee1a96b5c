/** The string handling of the client and the mock server: Python's `str(int)`
    and `int(str)` on decimal numerals, `sep.join(parts)` and `s.split(sep)`, and
    ASCII `lower()`/`upper()`. */
module Text {
  import opened Wrappers

  predicate IsDigit(c: char) { '0' <= c <= '9' }

  predicate AllDigits(s: string) { forall k :: 0 <= k < |s| ==> IsDigit(s[k]) }

  function DigitChar(d: nat): (c: char)
    requires d < 10
    ensures IsDigit(c) && c as int - '0' as int == d
  {
    ('0' as int + d) as char
  }

  /** `str(n)` for a non-negative integer: no sign, no leading zeros. */
  function NatToDecimal(n: nat): (s: string)
    ensures |s| >= 1 && AllDigits(s)
    decreases n
  {
    if n < 10 then [DigitChar(n)] else NatToDecimal(n / 10) + [DigitChar(n % 10)]
  }

  /** `str(i)` for any integer. */
  function IntToDecimal(i: int): (s: string)
    ensures |s| >= 1
  {
    if i < 0 then "-" + NatToDecimal(-i) else NatToDecimal(i)
  }

  /** The value of a string of decimal digits, most significant first. */
  function DigitsValue(s: string): nat
    requires AllDigits(s)
  {
    if |s| == 0 then 0
    else DigitsValue(s[..|s| - 1]) * 10 + (s[|s| - 1] as int - '0' as int)
  }

  /** `int(s)` restricted to an optional '-' followed by decimal digits;
      `None` stands for the ValueError Python raises on anything else. */
  function ParseInt(s: string): Option<int>
  {
    if |s| > 1 && s[0] == '-' && AllDigits(s[1..]) then Some(0 - DigitsValue(s[1..]) as int)
    else if |s| > 0 && AllDigits(s) then Some(DigitsValue(s))
    else None
  }

  lemma {:induction false} NatToDecimalValue(n: nat)
    ensures DigitsValue(NatToDecimal(n)) == n
    decreases n
  {
    if n >= 10 {
      var s := NatToDecimal(n);
      NatToDecimalValue(n / 10);
      assert s[..|s| - 1] == NatToDecimal(n / 10);
    }
  }

  /** `int(str(i)) == i` for every integer. */
  lemma ParseIntOfDecimal(i: int)
    ensures ParseInt(IntToDecimal(i)) == Some(i)
  {
    if i < 0 {
      var d := NatToDecimal(-i);
      var s := "-" + d;
      assert s == IntToDecimal(i);
      assert s[0] == '-' && s[1..] == d;
      NatToDecimalValue(-i);
    } else {
      var d := NatToDecimal(i);
      assert IsDigit(d[0]);
      NatToDecimalValue(i);
    }
  }

  /** `sep.join(parts)`. */
  function Join(parts: seq<string>, sep: char): string
  {
    if |parts| == 0 then ""
    else if |parts| == 1 then parts[0]
    else parts[0] + [sep] + Join(parts[1..], sep)
  }

  /** `s.split(sep)`: every occurrence of `sep` ends a part; "" splits to [""]. */
  function Split(s: string, sep: char): (parts: seq<string>)
    ensures |parts| >= 1
  {
    if |s| == 0 then [""]
    else if s[0] == sep then [""] + Split(s[1..], sep)
    else var rest := Split(s[1..], sep); [[s[0]] + rest[0]] + rest[1..]
  }

  lemma {:induction false} SplitNoSep(a: string, sep: char)
    requires sep !in a
    ensures Split(a, sep) == [a]
  {
    if |a| > 0 {
      SplitNoSep(a[1..], sep);
      assert [a[0]] + a[1..] == a;
    }
  }

  lemma {:induction false} SplitAfterPart(a: string, sep: char, b: string)
    requires sep !in a
    ensures Split(a + [sep] + b, sep) == [a] + Split(b, sep)
  {
    if |a| == 0 {
      assert (a + [sep] + b)[1..] == b;
    } else {
      assert (a + [sep] + b)[1..] == a[1..] + [sep] + b;
      SplitAfterPart(a[1..], sep, b);
      assert [a[0]] + a[1..] == a;
    }
  }

  /** No part of a split holds the separator. */
  lemma {:induction false} SplitPartsAvoid(s: string, sep: char)
    ensures forall k :: 0 <= k < |Split(s, sep)| ==> sep !in Split(s, sep)[k]
  {
    if |s| > 0 {
      SplitPartsAvoid(s[1..], sep);
      if s[0] != sep {
        var rest := Split(s[1..], sep);
        assert sep !in [s[0]] + rest[0];
      }
    }
  }

  /** A separator between two strings splits them apart. */
  lemma {:induction false} SplitConcat(a: string, sep: char, b: string)
    ensures Split(a + [sep] + b, sep) == Split(a, sep) + Split(b, sep)
  {
    if |a| == 0 {
      assert (a + [sep] + b)[1..] == b;
    } else {
      assert (a + [sep] + b)[1..] == a[1..] + [sep] + b;
      SplitConcat(a[1..], sep, b);
    }
  }

  /** Splitting undoes joining when no part holds the separator. */
  lemma {:induction false} SplitOfJoin(parts: seq<string>, sep: char)
    requires |parts| >= 1
    requires forall k :: 0 <= k < |parts| ==> sep !in parts[k]
    ensures Split(Join(parts, sep), sep) == parts
  {
    if |parts| == 1 {
      SplitNoSep(parts[0], sep);
    } else {
      SplitOfJoin(parts[1..], sep);
      SplitAfterPart(parts[0], sep, Join(parts[1..], sep));
      assert [parts[0]] + parts[1..] == parts;
    }
  }

  /** `map(str, xs)`. */
  function Decimals(xs: seq<int>): (r: seq<string>)
    ensures |r| == |xs|
  {
    seq(|xs|, k requires 0 <= k < |xs| => IntToDecimal(xs[k]))
  }

  /** `"_".join(map(str, xs))`, the coordinate-list grammar of the REST paths. */
  function JoinInts(xs: seq<int>): string
  {
    Join(Decimals(xs), '_')
  }

  /** `"_".join` peels off its first number. */
  lemma JoinIntsCons(x: int, xs: seq<int>)
    requires |xs| >= 1
    ensures JoinInts([x] + xs) == IntToDecimal(x) + "_" + JoinInts(xs)
  {
    assert Decimals([x] + xs) == [IntToDecimal(x)] + Decimals(xs);
    assert Decimals([x] + xs)[1..] == Decimals(xs);
  }

  /** `[int(x) for x in parts]`, failing on the first part that is not a numeral. */
  function ParseAll(parts: seq<string>): Option<seq<int>>
  {
    if |parts| == 0 then Some([])
    else match (ParseInt(parts[0]), ParseAll(parts[1..]))
      case (Some(x), Some(rest)) => Some([x] + rest)
      case _ => None
  }

  /** `tuple(int(x) for x in s.split('_'))`. */
  function ParseInts(s: string): Option<seq<int>>
  {
    ParseAll(Split(s, '_'))
  }

  lemma {:induction false} ParseAllDecimals(xs: seq<int>)
    ensures ParseAll(Decimals(xs)) == Some(xs)
  {
    if |xs| > 0 {
      var ds := Decimals(xs);
      assert ds[0] == IntToDecimal(xs[0]) && ds[1..] == Decimals(xs[1..]);
      ParseIntOfDecimal(xs[0]);
      ParseAllDecimals(xs[1..]);
      ParseAllCons(ds, xs[0], xs[1..]);
      assert [xs[0]] + xs[1..] == xs;
    }
  }

  lemma ParseAllCons(parts: seq<string>, x: int, rest: seq<int>)
    requires |parts| > 0 && ParseInt(parts[0]) == Some(x) && ParseAll(parts[1..]) == Some(rest)
    ensures ParseAll(parts) == Some([x] + rest)
  {
  }

  lemma DecimalHasNoSep(i: int, sep: char)
    requires sep != '-' && !IsDigit(sep)
    ensures sep !in IntToDecimal(i)
  {
    var s := IntToDecimal(i);
    if i < 0 {
      assert forall k :: 1 <= k < |s| ==> s[k] == NatToDecimal(-i)[k - 1];
    }
  }

  /** The mock server's coordinate parser inverts the client's coordinate formatter
      on every non-empty integer vector. */
  lemma ParseIntsOfJoinInts(xs: seq<int>)
    requires |xs| >= 1
    ensures ParseInts(JoinInts(xs)) == Some(xs)
  {
    forall k | 0 <= k < |xs| ensures '_' !in Decimals(xs)[k] {
      DecimalHasNoSep(xs[k], '_');
    }
    SplitOfJoin(Decimals(xs), '_');
    ParseAllDecimals(xs);
  }

  /** A character that is neither the separator nor in any part is not in
      their join. */
  lemma {:induction false} JoinAvoids(parts: seq<string>, sep: char, c: char)
    requires c != sep && forall k :: 0 <= k < |parts| ==> c !in parts[k]
    ensures c !in Join(parts, sep)
  {
    if |parts| > 1 {
      JoinAvoids(parts[1..], sep, c);
      assert c !in parts[0];
    } else if |parts| == 1 {
      assert c !in parts[0];
    }
  }

  /** A coordinate list holds only digits, minus signs and underscores. */
  lemma JoinIntsAvoids(xs: seq<int>, c: char)
    requires c != '_' && c != '-' && !IsDigit(c)
    ensures c !in JoinInts(xs)
  {
    forall k | 0 <= k < |xs| ensures c !in Decimals(xs)[k] {
      DecimalHasNoSep(xs[k], c);
    }
    JoinAvoids(Decimals(xs), '_', c);
  }

  /** `range(n)`. */
  function Range(n: nat): (r: seq<int>)
    ensures |r| == n && forall k :: 0 <= k < n ==> r[k] == k
  {
    seq(n, k => k)
  }

  predicate IsUpper(c: char) { 'A' <= c <= 'Z' }
  predicate IsLower(c: char) { 'a' <= c <= 'z' }

  function ToLower(c: char): char
  {
    if IsUpper(c) then (c as int + 32) as char else c
  }

  function ToUpper(c: char): char
  {
    if IsLower(c) then (c as int - 32) as char else c
  }

  /** `s.lower()` on ASCII letters. */
  function Lower(s: string): (r: string)
    ensures |r| == |s| && forall k :: 0 <= k < |s| ==> r[k] == ToLower(s[k])
  {
    seq(|s|, k requires 0 <= k < |s| => ToLower(s[k]))
  }

  /** `s.upper()` on ASCII letters. */
  function Upper(s: string): (r: string)
    ensures |r| == |s| && forall k :: 0 <= k < |s| ==> r[k] == ToUpper(s[k])
  {
    seq(|s|, k requires 0 <= k < |s| => ToUpper(s[k]))
  }

  /** Lower-casing after upper-casing is the same as lower-casing. */
  lemma LowerOfUpper(s: string)
    ensures Lower(Upper(s)) == Lower(s)
  {
  }

  predicate NoUpper(s: string) { forall k :: 0 <= k < |s| ==> !IsUpper(s[k]) }

  lemma LowerOfLowercase(s: string)
    requires NoUpper(s)
    ensures Lower(s) == s
  {
  }
}
