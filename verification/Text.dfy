/** Strings as the Go sources cut and glue them: splitting on one separator,
    joining with it, and decimal rendering of integers. */
module Text {
  import opened Outcomes

  lemma Assoc(a: string, b: string, c: string)
    ensures a + (b + c) == (a + b) + c
  {
  }

  /** `t` stands in `f` from position `p` on. */
  predicate OccursAt(f: string, t: string, p: nat) { p + |t| <= |f| && f[p..p + |t|] == t }

  /** Only characters that are one byte long in UTF-8. */
  predicate Ascii(s: string) { forall i :: 0 <= i < |s| ==> s[i] < '\U{80}' }

  lemma AsciiConcat(a: string, b: string)
    requires Ascii(a) && Ascii(b)
    ensures Ascii(a + b)
  {
  }

  /** `strings.Join` with a one-character separator. */
  function Join(parts: seq<string>, sep: char): string
  {
    if |parts| == 0 then ""
    else if |parts| == 1 then parts[0]
    else parts[0] + [sep] + Join(parts[1..], sep)
  }

  /** `strings.Split` on a one-character separator; never the empty list. */
  function Split(s: string, sep: char): (parts: seq<string>)
    ensures |parts| > 0
  {
    if s == "" then [""]
    else if s[0] == sep then [""] + Split(s[1..], sep)
    else
      var rest := Split(s[1..], sep);
      [[s[0]] + rest[0]] + rest[1..]
  }

  predicate Free(s: string, c: char) { c !in s }

  predicate AllFree(parts: seq<string>, c: char) { forall i :: 0 <= i < |parts| ==> Free(parts[i], c) }

  lemma {:induction false} JoinOfSplit(s: string, sep: char)
    ensures Join(Split(s, sep), sep) == s
  {
    if s != "" {
      JoinOfSplit(s[1..], sep);
      var rest := Split(s[1..], sep);
      if s[0] == sep {
        assert ([""] + rest)[1..] == rest;
      } else {
        var parts := [[s[0]] + rest[0]] + rest[1..];
        assert parts[1..] == rest[1..];
        assert Join(parts, sep) == [s[0]] + Join(rest, sep);
      }
    }
  }

  /** The split of `a`, a separator and `s` is the separator-free `a` before the split of `s`. */
  lemma {:induction false} SplitAtSeparator(a: string, s: string, sep: char)
    requires Free(a, sep)
    ensures Split(a + [sep] + s, sep) == [a] + Split(s, sep)
  {
    var whole := a + [sep] + s;
    if a == "" {
      assert whole[0] == sep && whole[1..] == s;
    } else {
      assert a[0] in a;
      assert whole[0] == a[0] && whole[1..] == a[1..] + [sep] + s;
      SplitAtSeparator(a[1..], s, sep);
      assert [a[0]] + a[1..] == a;
      assert ([a[1..]] + Split(s, sep))[1..] == Split(s, sep);
    }
  }

  lemma {:induction false} SplitOfFree(a: string, sep: char)
    requires Free(a, sep)
    ensures Split(a, sep) == [a]
  {
    if a != "" {
      assert a[0] in a;
      SplitOfFree(a[1..], sep);
      assert [a[0]] + a[1..] == a;
    }
  }

  lemma {:induction false} SplitOfJoin(parts: seq<string>, sep: char)
    requires |parts| > 0 && AllFree(parts, sep)
    ensures Split(Join(parts, sep), sep) == parts
  {
    if |parts| == 1 {
      SplitOfFree(parts[0], sep);
    } else {
      SplitOfJoin(parts[1..], sep);
      SplitAtSeparator(parts[0], Join(parts[1..], sep), sep);
    }
  }

  /** Separator-free lists with the same join are the same list, their lengths included. */
  lemma {:induction false} JoinInjective(a: seq<string>, b: seq<string>, sep: char)
    requires |a| > 0 && AllFree(a, sep) && |b| > 0 && AllFree(b, sep)
    requires Join(a, sep) == Join(b, sep)
    ensures a == b
  {
    SplitOfJoin(a, sep);
    SplitOfJoin(b, sep);
  }

  /** The text up to the first `sep` decides how a two-part key was put together. */
  lemma {:induction false} CutInjective(a: string, x: string, b: string, y: string, sep: char)
    requires Free(a, sep) && Free(b, sep)
    requires a + [sep] + x == b + [sep] + y
    ensures a == b && x == y
  {
    SplitAtSeparator(a, x, sep);
    SplitAtSeparator(b, y, sep);
    assert ([a] + Split(x, sep))[1..] == Split(x, sep);
    assert ([b] + Split(y, sep))[1..] == Split(y, sep);
    assert ([a] + Split(x, sep))[0] == ([b] + Split(y, sep))[0];
    JoinOfSplit(x, sep);
    JoinOfSplit(y, sep);
  }

  /** The text after the last `sep` decides as well. */
  lemma LastCutInjective(a: string, x: string, b: string, y: string, sep: char)
    requires Free(x, sep) && Free(y, sep)
    requires a + [sep] + x == b + [sep] + y
    ensures a == b && x == y
  {
    var (s, t) := (a + [sep] + x, b + [sep] + y);
    NoSeparatorAfter(a, x, b, y, sep);
    NoSeparatorAfter(b, y, a, x, sep);
    assert s[..|a|] == a && t[..|b|] == b && s[|a| + 1..] == x && t[|b| + 1..] == y;
  }

  lemma NoSeparatorAfter(a: string, x: string, b: string, y: string, sep: char)
    requires Free(x, sep) && a + [sep] + x == b + [sep] + y
    ensures |b| <= |a|
  {
    var (s, k) := (a + [sep] + x, |b|);
    assert s[k] == (b + [sep] + y)[k] == sep;
    forall i | |a| < i < |s| ensures s[i] != sep {
      assert s[i] == x[i - |a| - 1];
    }
  }

  predicate IsDigit(c: char) { '0' <= c <= '9' }

  predicate AllDigits(s: string) { forall i :: 0 <= i < |s| ==> IsDigit(s[i]) }

  function DigitChar(d: nat): (c: char)
    requires d < 10
    ensures IsDigit(c)
  {
    '0' + (d as char)
  }

  function DigitValue(c: char): nat
    requires IsDigit(c)
  {
    c as int - '0' as int
  }

  /** Base-ten rendering of a natural number, without leading zeros. */
  function Decimal(n: nat): (s: string)
    ensures |s| > 0 && forall i :: 0 <= i < |s| ==> IsDigit(s[i])
  {
    if n < 10 then [DigitChar(n)] else Decimal(n / 10) + [DigitChar(n % 10)]
  }

  function ParseDecimal(s: string): nat
    requires forall i :: 0 <= i < |s| ==> IsDigit(s[i])
  {
    if s == "" then 0
    else 10 * ParseDecimal(s[..|s| - 1]) + DigitValue(s[|s| - 1])
  }

  const INT_LIMIT := 0x8000_0000_0000_0000

  predicate IsSigned(text: string) { text != "" && (text[0] == '-' || text[0] == '+') }

  function Unsigned(text: string): string { if IsSigned(text) then text[1..] else text }

  /** `strconv.Atoi`: a decimal integer of at most 64 bits, with an optional sign. */
  function Atoi(text: string): Option<int>
  {
    if Unsigned(text) == "" || !AllDigits(Unsigned(text)) then None
    else
      var n := ParseDecimal(Unsigned(text));
      var signed := if text[0] == '-' then -(n as int) else n;
      if -INT_LIMIT <= signed < INT_LIMIT then Some(signed) else None
  }

  lemma {:induction false} DecimalRoundTrip(n: nat)
    ensures ParseDecimal(Decimal(n)) == n
  {
    var s := Decimal(n);
    if n < 10 {
      assert s[..0] == "";
    } else {
      assert s[..|s| - 1] == Decimal(n / 10);
      DecimalRoundTrip(n / 10);
    }
  }

  /** `strconv.FormatInt(n, 10)`. */
  function FormatInt(n: int): (s: string)
    ensures |s| > 0
    ensures forall i :: 0 <= i < |s| ==> IsDigit(s[i]) || s[i] == '-'
  {
    if n < 0 then "-" + Decimal(-n) else Decimal(n)
  }

  lemma FormatIntShape(n: int)
    ensures n < 0 ==> FormatInt(n)[0] == '-' && FormatInt(n)[1..] == Decimal(-n)
    ensures n >= 0 ==> FormatInt(n)[0] != '-' && FormatInt(n) == Decimal(n)
  {
  }

  lemma FormatIntInjective(m: int, n: int)
    requires FormatInt(m) == FormatInt(n)
    ensures m == n
  {
    DecimalRoundTrip(if m < 0 then -m else m);
    DecimalRoundTrip(if n < 0 then -n else n);
    FormatIntShape(m);
    FormatIntShape(n);
  }

  /** A rendered integer reads back while it fits in 64 bits, and is refused otherwise. */
  lemma AtoiReadsBack(n: int)
    ensures Atoi(FormatInt(n))
            == if -0x8000_0000_0000_0000 <= n <= 0x7FFF_FFFF_FFFF_FFFF then Some(n) else None
  {
    var d := Decimal(if n < 0 then -n else n);
    DecimalRoundTrip(if n < 0 then -n else n);
    FormatIntShape(n);
    assert n < 0 ==> ("-" + d)[1..] == d;
  }

  /** A leading plus changes nothing; without digits there is no number. */
  lemma AtoiOfPlus(d: string)
    requires d != "" && AllDigits(d)
    ensures Atoi("+" + d) == Atoi(d) && Atoi("") == Atoi("+") == Atoi("-") == None
  {
    assert ("+" + d)[1..] == d;
  }
}
