/** The parts of Go's `strings` and `strconv` packages the plugins rely on,
    written out on `string`. A Go string is a sequence of bytes; here each char
    stands for one byte. */
module GoStrings {
  import opened Wrappers

  predicate HasPrefix(s: string, prefix: string) {
    |prefix| <= |s| && s[..|prefix|] == prefix
  }

  predicate HasSuffix(s: string, suffix: string) {
    |suffix| <= |s| && s[|s| - |suffix|..] == suffix
  }

  /** strings.IndexByte: the first position of `c` in `s`, or -1. */
  function IndexByte(s: string, c: char): (i: int)
    ensures -1 <= i < |s|
    ensures 0 <= i ==> s[i] == c && c !in s[..i]
    ensures i == -1 <==> c !in s
  {
    if s == [] then -1
    else if s[0] == c then 0
    else
      var j := IndexByte(s[1..], c);
      assert s == [s[0]] + s[1..];
      if j < 0 then -1
      else
        assert s[..j + 1] == [s[0]] + s[1..][..j];
        j + 1
  }

  lemma IndexByteOfJoin(a: string, c: char, b: string)
    requires c !in a
    ensures IndexByte(a + [c] + b, c) == |a|
  {
    var s := a + [c] + b;
    assert s[|a|] == c;
    assert s[..|a|] == a;
  }

  /** strings.Join with a one-character separator. */
  function JoinWith(parts: seq<string>, sep: char): string
  {
    if parts == [] then ""
    else if |parts| == 1 then parts[0]
    else parts[0] + [sep] + JoinWith(parts[1..], sep)
  }

  /** strings.Split with a one-character separator: every piece between
      separators, so an empty input gives one empty piece. */
  function Split(s: string, sep: char): (parts: seq<string>)
    ensures |parts| >= 1
    ensures forall i :: 0 <= i < |parts| ==> sep !in parts[i]
    decreases |s|
  {
    var i := IndexByte(s, sep);
    if i < 0 then [s]
    else [s[..i]] + Split(s[i + 1..], sep)
  }

  /** Joining the pieces with the separator gives the string back. */
  lemma {:induction false} JoinSplit(s: string, sep: char)
    ensures JoinWith(Split(s, sep), sep) == s
    decreases |s|
  {
    var i := IndexByte(s, sep);
    if i >= 0 {
      var head, tail := s[..i], s[i + 1..];
      var rest := Split(tail, sep);
      JoinSplit(tail, sep);
      JoinCons(head, rest, sep);
      assert s == head + [sep] + tail;
    }
  }

  lemma JoinCons(head: string, rest: seq<string>, sep: char)
    requires |rest| >= 1
    ensures JoinWith([head] + rest, sep) == head + [sep] + JoinWith(rest, sep)
  {
    assert ([head] + rest)[1..] == rest;
  }

  /** strings.SplitN with n >= 1: at most n pieces, the last one the
      unsplit remainder. */
  function SplitN(s: string, sep: char, n: nat): (parts: seq<string>)
    requires n >= 1
    ensures 1 <= |parts| <= n
    ensures forall i :: 0 <= i < |parts| - 1 ==> sep !in parts[i]
    decreases n
  {
    if n == 1 then [s]
    else
      var i := IndexByte(s, sep);
      if i < 0 then [s]
      else [s[..i]] + SplitN(s[i + 1..], sep, n - 1)
  }

  lemma {:induction false} JoinSplitN(s: string, sep: char, n: nat)
    requires n >= 1
    ensures JoinWith(SplitN(s, sep, n), sep) == s
    decreases n
  {
    var i := IndexByte(s, sep);
    if n > 1 && i >= 0 {
      JoinSplitN(s[i + 1..], sep, n - 1);
      var rest := SplitN(s[i + 1..], sep, n - 1);
      assert JoinWith([s[..i]] + rest, sep) == s[..i] + [sep] + JoinWith(rest, sep);
      assert s == s[..i] + [sep] + s[i + 1..];
    }
  }

  lemma SplitNOfJoin(a: string, sep: char, b: string, n: nat)
    requires n >= 2 && sep !in a
    ensures SplitN(a + [sep] + b, sep, n) == [a] + SplitN(b, sep, n - 1)
  {
    var s := a + [sep] + b;
    IndexByteOfJoin(a, sep, b);
    assert s[..|a|] == a;
    assert s[|a| + 1..] == b;
  }

  lemma SplitOfJoin(a: string, sep: char, b: string)
    requires sep !in a
    ensures Split(a + [sep] + b, sep) == [a] + Split(b, sep)
  {
    var s := a + [sep] + b;
    IndexByteOfJoin(a, sep, b);
    assert s[..|a|] == a;
    assert s[|a| + 1..] == b;
  }

  /** Splitting a joined list of separator-free pieces gives the pieces back. */
  lemma {:induction false} SplitJoinWith(parts: seq<string>, sep: char)
    requires |parts| >= 1
    requires forall i :: 0 <= i < |parts| ==> sep !in parts[i]
    ensures Split(JoinWith(parts, sep), sep) == parts
    decreases |parts|
  {
    if |parts| == 1 {
      assert IndexByte(parts[0], sep) == -1;
    } else {
      var rest := parts[1..];
      forall i | 0 <= i < |rest| ensures sep !in rest[i] {
        assert rest[i] == parts[i + 1];
      }
      SplitJoinWith(rest, sep);
      assert [parts[0]] + rest == parts;
      JoinCons(parts[0], rest, sep);
      SplitOfJoin(parts[0], sep, JoinWith(rest, sep));
    }
  }

  /** Splitting a joined list into as many pieces as it has gives the
      pieces back, as long as no piece but the last holds the separator. */
  lemma {:induction false} SplitNJoinWith(parts: seq<string>, sep: char)
    requires |parts| >= 1
    requires forall i :: 0 <= i < |parts| - 1 ==> sep !in parts[i]
    ensures SplitN(JoinWith(parts, sep), sep, |parts|) == parts
    decreases |parts|
  {
    if |parts| > 1 {
      var rest := parts[1..];
      forall i | 0 <= i < |rest| - 1 ensures sep !in rest[i] {
        assert rest[i] == parts[i + 1];
      }
      SplitNJoinWith(rest, sep);
      var tail := JoinWith(rest, sep);
      assert [parts[0]] + rest == parts;
      JoinCons(parts[0], rest, sep);
      SplitNOfJoin(parts[0], sep, tail, |parts|);
    }
  }

  /** Two lists of the same length whose pieces, all but the last, are
      free of the separator are equal when their joins are. */
  lemma JoinWithInjective(l1: seq<string>, l2: seq<string>, sep: char)
    requires |l1| == |l2| >= 1
    requires forall i :: 0 <= i < |l1| - 1 ==> sep !in l1[i]
    requires forall i :: 0 <= i < |l2| - 1 ==> sep !in l2[i]
    requires JoinWith(l1, sep) == JoinWith(l2, sep)
    ensures l1 == l2
  {
    SplitNJoinWith(l1, sep);
    SplitNJoinWith(l2, sep);
  }

  /** Joining two non-empty lists puts one separator between the halves. */
  lemma {:induction false} JoinWithAppend(a: seq<string>, b: seq<string>, sep: char)
    requires |a| >= 1 && |b| >= 1
    ensures JoinWith(a + b, sep) == JoinWith(a, sep) + [sep] + JoinWith(b, sep)
    decreases |a|
  {
    if |a| == 1 {
      assert (a + b)[1..] == b;
    } else {
      assert (a + b)[1..] == a[1..] + b;
      JoinWithAppend(a[1..], b, sep);
    }
  }

  /** Joining a list that extends `a` gives a string that extends the
      join of `a` with a separator. */
  lemma JoinExtends(a: seq<string>, m: seq<string>, sep: char)
    requires 1 <= |a| < |m| && m[..|a|] == a
    ensures HasPrefix(JoinWith(m, sep), JoinWith(a, sep) + [sep])
    ensures HasPrefix(JoinWith(m, sep), JoinWith(a, sep))
  {
    var rest := m[|a|..];
    assert m == a + rest;
    JoinWithAppend(a, rest, sep);
    var j := JoinWith(a, sep) + [sep];
    assert JoinWith(m, sep) == j + JoinWith(rest, sep);
    assert JoinWith(m, sep)[..|j|] == j;
    assert JoinWith(m, sep)[..|JoinWith(a, sep)|] == j[..|JoinWith(a, sep)|] == JoinWith(a, sep);
  }

  /** Split is one-to-one: equal piece lists come from equal strings. */
  lemma SplitInjective(s: string, t: string, sep: char)
    requires Split(s, sep) == Split(t, sep)
    ensures s == t
  {
    JoinSplit(s, sep);
    JoinSplit(t, sep);
  }

  function Repeat(s: string, n: nat): (r: string)
    ensures |r| == n * |s|
  {
    if n == 0 then "" else s + Repeat(s, n - 1)
  }

  // ---------------------------------------------------------------------
  // Decimal integers (strconv.Itoa / FormatInt / ParseInt / Atoi)

  const MinInt64: int := -0x8000_0000_0000_0000
  const MaxInt64: int := 0x7fff_ffff_ffff_ffff

  predicate IsInt64(x: int) { MinInt64 <= x <= MaxInt64 }

  predicate IsDigit(c: char) { '0' <= c <= '9' }

  predicate AllDigits(s: string) { forall i :: 0 <= i < |s| ==> IsDigit(s[i]) }

  function DigitChar(d: nat): (c: char)
    requires d < 10
    ensures IsDigit(c) && c as int - '0' as int == d
  {
    ('0' as int + d) as char
  }

  /** The decimal digits of a natural number, without leading zeros. */
  function NatToDecimal(n: nat): (s: string)
    ensures |s| >= 1 && AllDigits(s)
  {
    if n < 10 then [DigitChar(n)] else NatToDecimal(n / 10) + [DigitChar(n % 10)]
  }

  /** strconv.Itoa / FormatInt(x, 10). */
  function FormatInt(x: int): (s: string)
    ensures |s| >= 1
    ensures forall i :: 0 <= i < |s| ==> IsDigit(s[i]) || (i == 0 && s[i] == '-')
  {
    if x < 0 then "-" + NatToDecimal(-x) else NatToDecimal(x)
  }

  function DecimalValue(s: string): nat
    requires AllDigits(s)
  {
    if s == [] then 0
    else DecimalValue(s[..|s| - 1]) * 10 + (s[|s| - 1] as int - '0' as int)
  }

  lemma {:induction false} DecimalValueOfNat(n: nat)
    ensures DecimalValue(NatToDecimal(n)) == n
  {
    if n >= 10 {
      DecimalValueOfNat(n / 10);
      var s := NatToDecimal(n);
      assert s[..|s| - 1] == NatToDecimal(n / 10);
    }
  }

  /** strconv.ParseInt(s, 10, 64): an optional sign, at least one decimal
      digit and nothing else, and a value that fits in 64 bits. */
  function ParseInt(s: string): (r: Option<int>)
    ensures r.Some? ==> IsInt64(r.value)
    ensures r.Some? ==> |s| >= 1 && (IsDigit(s[0]) || s[0] == '+' || s[0] == '-')
  {
    if s == [] then None
    else
      var signed := s[0] == '+' || s[0] == '-';
      var digits := if signed then s[1..] else s;
      if digits == [] || !AllDigits(digits) then None
      else
        var v: int := if s[0] == '-' then -(DecimalValue(digits) as int) else DecimalValue(digits);
        if IsInt64(v) then Some(v) else None
  }

  /** Formatting then parsing a 64-bit integer gives it back. */
  lemma ParseFormatInt(x: int)
    requires IsInt64(x)
    ensures ParseInt(FormatInt(x)) == Some(x)
  {
    if x < 0 {
      DecimalValueOfNat(-x);
      assert FormatInt(x)[1..] == NatToDecimal(-x);
    } else {
      DecimalValueOfNat(x);
    }
  }

  /** The decimal form starts with '-' exactly for a negative number. */
  lemma FormatIntSign(x: int)
    ensures FormatInt(x)[0] == '-' <==> x < 0
  {
    if x >= 0 {
      assert IsDigit(FormatInt(x)[0]);
    }
  }

  /** Different integers have different decimal forms. */
  lemma FormatIntInjective(x: int, y: int)
    requires FormatInt(x) == FormatInt(y)
    ensures x == y
  {
    FormatIntSign(x);
    FormatIntSign(y);
    if x < 0 {
      assert ("-" + NatToDecimal(-x))[1..] == NatToDecimal(-x);
      assert ("-" + NatToDecimal(-y))[1..] == NatToDecimal(-y);
      NatToDecimalInjective(-x, -y);
    } else {
      NatToDecimalInjective(x, y);
    }
  }

  lemma NatToDecimalInjective(m: nat, n: nat)
    requires NatToDecimal(m) == NatToDecimal(n)
    ensures m == n
  {
    DecimalValueOfNat(m);
    DecimalValueOfNat(n);
  }

  /** strconv.ParseBool. */
  function ParseBool(s: string): (r: Option<bool>)
    ensures r == Some(true) <==> s in {"1", "t", "T", "TRUE", "true", "True"}
    ensures r == Some(false) <==> s in {"0", "f", "F", "FALSE", "false", "False"}
  {
    if s in {"1", "t", "T", "TRUE", "true", "True"} then Some(true)
    else if s in {"0", "f", "F", "FALSE", "false", "False"} then Some(false)
    else None
  }

  /** strings.ToLower on the ASCII letters. */
  function ToLower(s: string): (r: string)
    ensures |r| == |s|
    ensures forall i :: 0 <= i < |s| ==> !('A' <= r[i] <= 'Z')
    ensures forall i :: 0 <= i < |s| && !('A' <= s[i] <= 'Z') ==> r[i] == s[i]
  {
    if s == [] then ""
    else
      var c := s[0];
      var l := if 'A' <= c <= 'Z' then (c as int - 'A' as int + 'a' as int) as char else c;
      [l] + ToLower(s[1..])
  }
}
