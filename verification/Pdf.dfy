/** The one-page PDF the seeder writes: its text, its cross-reference table and
    the reading rules of ISO 32000-1 that recover both. What is written is ASCII,
    so that its characters are its bytes. */
module Pdf {
  import opened Outcomes
  import opened Text

  // ----- literal strings --------------------------------------------------

  predicate IsPrintable(r: char) { ' ' <= r < '\U{7F}' }

  function EscapeRune(r: char): string
  {
    if r == '\\' || r == '(' || r == ')' then ['\\', r] else if IsPrintable(r) then [r] else "?"
  }

  function Escaped(s: string): string
  {
    if s == "" then "" else EscapeRune(s[0]) + Escaped(s[1..])
  }

  lemma {:induction false} EscapedAppend(s: string, r: char)
    ensures Escaped(s + [r]) == Escaped(s) + EscapeRune(r)
  {
    if s == "" {
      assert [r][1..] == "";
    } else {
      assert (s + [r])[1..] == s[1..] + [r];
      EscapedAppend(s[1..], r);
    }
  }

  method PdfEscape(s: string) returns (b: string)
    ensures b == Escaped(s)
  {
    b := "";
    for i := 0 to |s|
      invariant b == Escaped(s[..i])
    {
      assert s[..i + 1] == s[..i] + [s[i]];
      EscapedAppend(s[..i], s[i]);
      if s[i] == '\\' || s[i] == '(' || s[i] == ')' {
        b := b + ['\\', s[i]];
      } else if ' ' <= s[i] < '\U{7F}' {
        b := b + [s[i]];
      } else {
        b := b + "?";
      }
    }
    assert s[..|s|] == s;
  }

  /** The text with everything that is not printable ASCII replaced. */
  function Printable(s: string): string
  {
    seq(|s|, i requires 0 <= i < |s| => if IsPrintable(s[i]) then s[i] else '?')
  }

  datatype Read = Unfinished | Done(text: string, rest: string)

  function Prepend(c: string, r: Read): Read { if r.Done? then r.(text := c + r.text) else r }

  predicate IsOctal(c: char) { '0' <= c <= '7' }

  /** How many octal digits, at most three, stand at the start. */
  function OctalDigits(s: string): nat
  {
    if |s| < 1 || !IsOctal(s[0]) then 0
    else if |s| < 2 || !IsOctal(s[1]) then 1
    else if |s| < 3 || !IsOctal(s[2]) then 2 else 3
  }

  function OctalValue(s: string, n: nat): nat
    requires n <= OctalDigits(s)
  {
    if n == 0 then 0 else 8 * OctalValue(s, n - 1) + (s[n - 1] as int - '0' as int)
  }

  /** What an escape sequence stands for, the backslash already read, and its length. */
  function ReadEscape(s: string): (string, nat)
    requires s != ""
  {
    match s[0]
    case 'n' => ("\n", 1)
    case 'r' => ("\r", 1)
    case 't' => ("\t", 1)
    case 'b' => ("\U{8}", 1)
    case 'f' => ("\U{C}", 1)
    case '\n' => ("", 1)
    case '\r' => ("", if |s| > 1 && s[1] == '\n' then 2 else 1)
    case c =>
      if IsOctal(c) then ([(OctalValue(s, OctalDigits(s)) % 256) as char], OctalDigits(s)) else ([c], 1)
  }

  /** Reads a literal string (section 7.3.4.2), its opening parenthesis already
      read and `depth` balanced ones open. */
  function ReadLiteral(s: string, depth: nat): Read
    decreases |s|
  {
    if s == "" then Unfinished
    else if s[0] == ')' then
      if depth == 0 then Done("", s[1..]) else Prepend(")", ReadLiteral(s[1..], depth - 1))
    else if s[0] == '(' then Prepend("(", ReadLiteral(s[1..], depth + 1))
    else if s[0] == '\\' then
      if |s| == 1 then Unfinished
      else Prepend(ReadEscape(s[1..]).0, ReadLiteral(s[1..][ReadEscape(s[1..]).1..], depth))
    else if s[0] == '\r' then Prepend("\n", ReadLiteral(if |s| > 1 && s[1] == '\n' then s[2..] else s[1..], depth))
    else Prepend([s[0]], ReadLiteral(s[1..], depth))
  }

  function Shadow(r: char): char { if IsPrintable(r) then r else '?' }

  lemma {:induction false} RuneReadsBack(r: char, tail: string)
    ensures ReadLiteral(EscapeRune(r) + tail, 0) == Prepend([Shadow(r)], ReadLiteral(tail, 0))
  {
    var s := EscapeRune(r) + tail;
    if r == '\\' || r == '(' || r == ')' {
      assert s[1..] == [r] + tail && s[1..][1..] == tail;
    } else {
      assert s[1..] == tail;
    }
  }

  /** An escaped string reads back as its printable text, whatever follows it. */
  lemma {:induction false} EscapedReadsBack(s: string, rest: string)
    ensures ReadLiteral(Escaped(s) + (")" + rest), 0) == Done(Printable(s), rest)
  {
    if s == "" {
      assert "" + (")" + rest) == ")" + rest && (")" + rest)[1..] == rest;
    } else {
      EscapedReadsBack(s[1..], rest);
      Assoc(EscapeRune(s[0]), Escaped(s[1..]), ")" + rest);
      RuneReadsBack(s[0], Escaped(s[1..]) + (")" + rest));
      assert Printable(s) == [Shadow(s[0])] + Printable(s[1..]);
    }
  }

  // ----- the content stream -----------------------------------------------

  /** A line of syntax: words with single spaces between them. */
  function Spaced(words: seq<string>): string { Join(words, ' ') }

  const SELECT_FONT := ["/F1", "14", "Tf"]
  const LEADING := ["16", "TL"]
  const POSITION := ["60", "780", "Td"]

  const OPENING := "BT\n" + (Spaced(SELECT_FONT) + ("\n" + (Spaced(LEADING) + ("\n" + (Spaced(POSITION) + "\n")))))
  const SHOW := " Tj\nT*\n"
  const CLOSING := "ET\n"

  function Shown(line: string): string { "(" + Escaped(line) + ")" + SHOW }

  function ShownLines(lines: seq<string>): string
  {
    if lines == [] then "" else Shown(lines[0]) + ShownLines(lines[1..])
  }

  lemma {:induction false} ShownAppend(lines: seq<string>, line: string)
    ensures ShownLines(lines + [line]) == ShownLines(lines) + Shown(line)
  {
    if lines == [] {
      assert [line][1..] == [];
    } else {
      assert (lines + [line])[1..] == lines[1..] + [line];
      ShownAppend(lines[1..], line);
    }
  }

  function ContentOf(lines: seq<string>): string { OPENING + (ShownLines(lines) + CLOSING) }

  method PdfContentStream(lines: seq<string>) returns (b: string)
    ensures b == ContentOf(lines)
  {
    b := OPENING;
    for i := 0 to |lines|
      invariant b == OPENING + ShownLines(lines[..i])
    {
      assert lines[..i + 1] == lines[..i] + [lines[i]];
      ShownAppend(lines[..i], lines[i]);
      var escaped := PdfEscape(lines[i]);
      var shown := "(" + escaped + ")" + SHOW;
      Assoc(OPENING, ShownLines(lines[..i]), shown);
      b := b + shown;
    }
    assert lines[..|lines|] == lines;
    Assoc(OPENING, ShownLines(lines), CLOSING);
    b := b + CLOSING;
  }

  /** The strings a content stream shows, each followed by the operators that show
      it and go to the next line, up to the end of the text object. */
  function ReadShown(s: string): Option<seq<string>>
    decreases |s|
  {
    if s == "ET\n" then Some([])
    else if s == "" || s[0] != '(' then None
    else
      var r := ReadLiteral(s[1..], 0);
      if r.Done? && " Tj\nT*\n" <= r.rest && |r.rest| < |s| then
        match ReadShown(r.rest[7..])
        case Some(more) => Some([r.text] + more)
        case None => None
      else None
  }

  function PrintableLines(lines: seq<string>): seq<string>
  {
    seq(|lines|, i requires 0 <= i < |lines| => Printable(lines[i]))
  }

  lemma {:induction false} ReadOneShown(line: string, tail: string)
    requires ReadShown(tail).Some?
    ensures ReadShown(Shown(line) + tail) == Some([Printable(line)] + ReadShown(tail).value)
  {
    var (s, after) := (Shown(line) + tail, SHOW + tail);
    assert s[1..] == Escaped(line) + (")" + after);
    EscapedReadsBack(line, after);
    ShowStep(s, Printable(line), tail);
  }

  lemma {:induction false} ShowStep(s: string, text: string, tail: string)
    requires s != "" && s[0] == '(' && ReadLiteral(s[1..], 0) == Done(text, SHOW + tail) && |SHOW + tail| < |s|
    requires ReadShown(tail).Some?
    ensures ReadShown(s) == Some([text] + ReadShown(tail).value)
  {
    assert (SHOW + tail)[|SHOW|..] == tail;
  }

  /** Reading the shown strings gives the printable lines back. */
  lemma {:induction false} ContentReadsBack(lines: seq<string>)
    ensures ReadShown(ShownLines(lines) + CLOSING) == Some(PrintableLines(lines))
  {
    if lines == [] {
      assert "" + CLOSING == "ET\n";
    } else {
      var tail := ShownLines(lines[1..]) + CLOSING;
      assert ShownLines(lines) + CLOSING == Shown(lines[0]) + tail;
      ContentReadsBack(lines[1..]);
      ReadOneShown(lines[0], tail);
      assert PrintableLines(lines) == [Printable(lines[0])] + PrintableLines(lines[1..]);
    }
  }

  lemma {:induction false} EscapedIsAscii(s: string)
    ensures Ascii(Escaped(s))
  {
    if s != "" {
      EscapedIsAscii(s[1..]);
      AsciiConcat(EscapeRune(s[0]), Escaped(s[1..]));
    }
  }

  /** However the lines are spelled, their content stream is ASCII. */
  lemma {:induction false} ShownLinesAreAscii(lines: seq<string>)
    ensures Ascii(ShownLines(lines))
  {
    if lines != [] {
      EscapedIsAscii(lines[0]);
      Assoc("(", Escaped(lines[0]), ")");
      AsciiConcat("(" + Escaped(lines[0]) + ")", SHOW);
      ShownLinesAreAscii(lines[1..]);
      AsciiConcat(Shown(lines[0]), ShownLines(lines[1..]));
    }
  }

  lemma {:induction false} SpacedIsAscii(words: seq<string>)
    requires forall i :: 0 <= i < |words| ==> Ascii(words[i])
    ensures Ascii(Spaced(words))
  {
    if |words| > 1 {
      SpacedIsAscii(words[1..]);
    }
  }

  lemma OpeningIsAscii()
    ensures Ascii(OPENING)
  {
    SpacedIsAscii(SELECT_FONT);
    SpacedIsAscii(LEADING);
    SpacedIsAscii(POSITION);
  }

  lemma ContentIsAscii(lines: seq<string>)
    ensures Ascii(ContentOf(lines))
  {
    ShownLinesAreAscii(lines);
    OpeningIsAscii();
  }

  // ----- numbers in the table ---------------------------------------------

  function Zeros(n: nat): string { if n == 0 then "" else "0" + Zeros(n - 1) }

  /** `%010d`: at least ten digits, padded with zeros. */
  function TenDigits(n: nat): (s: string)
    ensures forall i :: 0 <= i < |s| ==> IsDigit(s[i])
    ensures |s| >= 10
  {
    var d := Decimal(n);
    ZerosAreDigits(10 - |d|);
    if |d| >= 10 then d else Zeros(10 - |d|) + d
  }

  lemma {:induction false} ZerosAreDigits(n: int)
    ensures n >= 0 ==> |Zeros(n)| == n && forall i :: 0 <= i < n ==> IsDigit(Zeros(n)[i])
  {
    if n > 0 {
      ZerosAreDigits(n - 1);
    }
  }

  function Power(k: nat): nat { if k == 0 then 1 else 10 * Power(k - 1) }

  lemma {:induction false} DecimalLength(n: nat, k: nat)
    requires k > 0
    ensures |Decimal(n)| <= k <==> n < Power(k)
  {
    if k > 1 {
      DecimalLength(n / 10, k - 1);
      assert n / 10 < Power(k - 1) <==> n < 10 * Power(k - 1);
    }
  }

  /** An entry has the ten digits the format wants exactly for offsets below ten to the tenth. */
  lemma TenDigitsIffSmall(n: nat)
    ensures |TenDigits(n)| == 10 <==> n < 1_00000_00000
  {
    DecimalLength(n, 10);
    ZerosAreDigits(10 - |Decimal(n)|);
    assert Power(10) == 1_00000_00000 by { PowersOfTen(); }
  }

  lemma PowersOfTen()
    ensures Power(10) == 1_00000_00000
  {
    assert Power(2) == 100;
    assert Power(4) == 10000;
    assert Power(6) == 1000000;
    assert Power(8) == 100000000;
  }

  lemma {:induction false} ZerosDoNotCount(k: nat, d: string)
    requires forall i :: 0 <= i < |d| ==> IsDigit(d[i])
    ensures forall i :: 0 <= i < |Zeros(k) + d| ==> IsDigit((Zeros(k) + d)[i])
    ensures ParseDecimal(Zeros(k) + d) == ParseDecimal(d)
    decreases |d| + k
  {
    ZerosAreDigits(k);
    if d != "" {
      ZerosDoNotCount(k, d[..|d| - 1]);
      assert (Zeros(k) + d)[..|Zeros(k) + d| - 1] == Zeros(k) + d[..|d| - 1];
    } else {
      assert Zeros(k) + d == Zeros(k);
      ZerosAreZero(k);
    }
  }

  lemma {:induction false} ZerosAreZero(k: nat)
    ensures forall i :: 0 <= i < |Zeros(k)| ==> Zeros(k)[i] == '0'
    ensures ParseDecimal(Zeros(k)) == 0
  {
    if k > 0 {
      ZerosAreZero(k - 1);
      ZerosAreDigits(k);
      ZerosAreDigits(k - 1);
      assert Zeros(k)[..|Zeros(k)| - 1] == Zeros(k - 1);
    }
  }

  lemma TenDigitsReadBack(n: nat)
    ensures ParseDecimal(TenDigits(n)) == n
  {
    DecimalRoundTrip(n);
    if |Decimal(n)| < 10 {
      ZerosDoNotCount(10 - |Decimal(n)|, Decimal(n));
    }
  }
}
