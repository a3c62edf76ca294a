/** The PDF file as a whole: numbered objects, a table of where each begins, and
    a reader that finds them again from the file's last lines alone. */
module PdfDocument {
  import opened Outcomes
  import opened Text
  import opened Pdf

  const HEADER := "%PDF-1.4\n"
  const ENDOBJ := "\nendobj\n"
  const XREF := "xref\n"
  const FREE_ENTRY := "0000000000 65535 f \n"
  const IN_USE := " 00000 n \n"
  const STREAM := "\nstream\n"
  const ENDSTREAM := "endstream"
  const EOF := "\n%%EOF\n"

  const CATALOG := ["<<", "/Type", "/Catalog", "/Pages", "2", "0", "R", ">>"]
  const PAGES := ["<<", "/Type", "/Pages", "/Kids", "[3", "0", "R]", "/Count", "1", ">>"]
  const PAGE := ["<<", "/Type", "/Page", "/Parent", "2", "0", "R", "/MediaBox", "[0", "0", "595", "842]"]
  const RESOURCES := ["/Resources", "<<", "/Font", "<<", "/F1", "4", "0", "R", ">>", ">>"]
  const CONTENTS := ["/Contents", "5", "0", "R", ">>"]
  const FONT := ["<<", "/Type", "/Font", "/Subtype", "/Type1", "/BaseFont", "/Helvetica", ">>"]

  const TRAILER := "trailer\n"
  const STARTXREF := "\nstartxref\n"

  /** The first four objects: the catalog, the page tree, the page and its font. */
  function Dictionary(n: nat): seq<string>
  {
    match n
    case 1 => CATALOG
    case 2 => PAGES
    case 3 => PAGE + RESOURCES + CONTENTS
    case _ => FONT
  }

  lemma FirstFour(content: string, i: nat)
    requires i < 4
    ensures Objects(content)[i] == Spaced(Dictionary(i + 1))
  {
  }

  /** The trailer's dictionary over `n` objects. */
  function TrailerWords(n: nat): seq<string> { ["<<", "/Size", Decimal(n + 1), "/Root", "1", "0", "R", ">>"] }

  function DocumentLines(title: string, fileName: string, version: int): seq<string>
  {
    [
      "ZenTax demo document",
      "Title: " + title,
      "File: " + fileName,
      "Version: " + FormatInt(version),
      "Generated by cmd/seed-demo from seed/demo/dataset.json.",
      "Sample content only - not a real filing."
    ]
  }

  function StreamWords(length: nat): seq<string> { ["<<", "/Length", Decimal(length), ">>"] }

  function StreamObject(content: string): string
  {
    Spaced(StreamWords(|content|)) + (STREAM + (content + ENDSTREAM))
  }

  function Objects(content: string): (objects: seq<string>)
    ensures |objects| == 5 && objects[4] == StreamObject(content)
  {
    [
      Spaced(Dictionary(1)),
      Spaced(Dictionary(2)),
      Spaced(Dictionary(3)),
      Spaced(Dictionary(4)),
      StreamObject(content)
    ]
  }

  function ObjectHeader(n: nat): string { Decimal(n) + " 0 obj\n" }

  function ObjectRest(obj: string): string { obj + ENDOBJ }

  function ObjectText(n: nat, obj: string): string { ObjectHeader(n) + ObjectRest(obj) }

  /** Everything before the cross-reference table. */
  function Body(objects: seq<string>): string
  {
    if objects == [] then HEADER
    else Body(objects[..|objects| - 1]) + ObjectText(|objects|, objects[|objects| - 1])
  }

  function Start(objects: seq<string>, i: nat): nat
    requires i <= |objects|
  {
    |Body(objects[..i])|
  }

  function Entry(offset: nat): string { TenDigits(offset) + IN_USE }

  function Entries(objects: seq<string>, k: nat): string
    requires k <= |objects|
  {
    if k == 0 then "" else Entries(objects, k - 1) + Entry(Start(objects, k - 1))
  }

  function TableSize(n: nat): string { "0 " + (Decimal(n + 1) + "\n") }

  function TableHeader(n: nat): string { XREF + TableSize(n) }

  function TrailerStart(n: nat): string { TRAILER + (Spaced(TrailerWords(n)) + STARTXREF) }

  /** The table and the trailer, up to the number that says where the table is. */
  function Table(objects: seq<string>): string
  {
    TableHeader(|objects|) + (FREE_ENTRY + (Entries(objects, |objects|) + TrailerStart(|objects|)))
  }

  function FileOf(objects: seq<string>): string { (Body(objects) + Table(objects)) + (Decimal(|Body(objects)|) + EOF) }

  // One growing buffer, the offsets noted on the way.

  method WriteObjects(objects: seq<string>) returns (buf: string, offsets: array<nat>)
    ensures buf == Body(objects) && fresh(offsets) && offsets.Length == |objects|
    ensures forall j :: 0 <= j < |objects| ==> offsets[j] == Start(objects, j)
  {
    buf := HEADER;
    offsets := new nat[|objects|];
    for i := 0 to |objects|
      invariant buf == Body(objects[..i])
      invariant forall j :: 0 <= j < i ==> offsets[j] == Start(objects, j)
    {
      BodyStep(objects, i);
      offsets[i] := |buf|;
      var header := ObjectHeader(i + 1);
      var rest := ObjectRest(objects[i]);
      Assoc(buf, header, rest);
      buf := buf + header;
      buf := buf + rest;
    }
    assert objects[..|objects|] == objects;
  }

  lemma BodyStep(objects: seq<string>, i: nat)
    requires i < |objects|
    ensures Body(objects[..i + 1]) == Body(objects[..i]) + (ObjectHeader(i + 1) + ObjectRest(objects[i]))
  {
    assert objects[..i + 1][..i] == objects[..i];
  }

  method WriteEntries(objects: seq<string>, offsets: array<nat>) returns (table: string)
    requires offsets.Length == |objects| && forall j :: 0 <= j < |objects| ==> offsets[j] == Start(objects, j)
    ensures table == Entries(objects, |objects|)
  {
    table := "";
    for i := 0 to offsets.Length
      invariant table == Entries(objects, i)
    {
      table := table + Entry(offsets[i]);
    }
  }

  method WriteFile(objects: seq<string>) returns (buf: string)
    ensures buf == FileOf(objects)
  {
    var offsets;
    buf, offsets := WriteObjects(objects);
    var xref := |buf|;
    var table := WriteEntries(objects, offsets);
    buf := buf + (TableHeader(|objects|) + (FREE_ENTRY + (table + TrailerStart(|objects|))));
    buf := buf + (Decimal(xref) + EOF);
  }

  method WritePdf(title: string, fileName: string, version: int) returns (buf: string)
    ensures buf == FileOf(Objects(ContentOf(DocumentLines(title, fileName, version))))
    ensures Ascii(buf)
  {
    var content := PdfContentStream(DocumentLines(title, fileName, version));
    buf := WriteFile(Objects(content));
    DocumentIsAscii(title, fileName, version);
  }

  // Every character written is one byte, so positions and lengths count bytes.

  predicate AllAscii(objects: seq<string>) { forall i :: 0 <= i < |objects| ==> Ascii(objects[i]) }

  lemma StreamIsAscii(content: string)
    requires Ascii(content)
    ensures Ascii(StreamObject(content))
  {
    SpacedIsAscii(StreamWords(|content|));
    AsciiConcat(content, ENDSTREAM);
    AsciiConcat(STREAM, content + ENDSTREAM);
    AsciiConcat(Spaced(StreamWords(|content|)), STREAM + (content + ENDSTREAM));
  }

  predicate AsciiWords(words: seq<string>) { forall i :: 0 <= i < |words| ==> Ascii(words[i]) }

  lemma CatalogIsAscii()
    ensures AsciiWords(CATALOG)
  {
  }

  lemma PagesAreAscii()
    ensures AsciiWords(PAGES)
  {
  }

  lemma PageIsAscii()
    ensures AsciiWords(PAGE)
  {
  }

  lemma ResourcesAreAscii()
    ensures AsciiWords(RESOURCES) && AsciiWords(CONTENTS)
  {
  }

  lemma FontIsAscii()
    ensures AsciiWords(FONT)
  {
  }

  lemma AsciiWordsConcat(a: seq<string>, b: seq<string>)
    requires AsciiWords(a) && AsciiWords(b)
    ensures AsciiWords(a + b)
  {
  }

  lemma PageEntriesAreAscii()
    ensures AsciiWords(PAGE + RESOURCES + CONTENTS)
  {
    PageIsAscii();
    ResourcesAreAscii();
    AsciiWordsConcat(PAGE, RESOURCES);
    AsciiWordsConcat(PAGE + RESOURCES, CONTENTS);
  }

  lemma DictionaryIsAscii(n: nat)
    ensures AsciiWords(Dictionary(n))
  {
    match n
    case 1 => CatalogIsAscii();
    case 2 => PagesAreAscii();
    case 3 => PageEntriesAreAscii();
    case _ => FontIsAscii();
  }

  lemma ObjectIsAscii(content: string, i: nat)
    requires Ascii(content) && i < 5
    ensures Ascii(Objects(content)[i])
  {
    if i < 4 {
      FirstFour(content, i);
      DictionaryIsAscii(i + 1);
      SpacedIsAscii(Dictionary(i + 1));
    } else {
      StreamIsAscii(content);
    }
  }

  lemma ObjectsAreAscii(content: string)
    requires Ascii(content)
    ensures AllAscii(Objects(content))
  {
    forall i | 0 <= i < 5 ensures Ascii(Objects(content)[i]) {
      ObjectIsAscii(content, i);
    }
  }

  lemma {:induction false} BodyIsAscii(objects: seq<string>)
    requires AllAscii(objects)
    ensures Ascii(Body(objects))
  {
    if objects != [] {
      var (init, last) := (objects[..|objects| - 1], objects[|objects| - 1]);
      BodyIsAscii(init);
      AsciiConcat(Body(init), ObjectText(|objects|, last));
    }
  }

  lemma EntryIsAscii(offset: nat)
    ensures Ascii(Entry(offset))
  {
    AsciiConcat(TenDigits(offset), IN_USE);
  }

  lemma {:induction false} EntriesAreAscii(objects: seq<string>, k: nat)
    requires k <= |objects|
    ensures Ascii(Entries(objects, k))
  {
    if k > 0 {
      EntriesAreAscii(objects, k - 1);
      EntryIsAscii(Start(objects, k - 1));
      AsciiConcat(Entries(objects, k - 1), Entry(Start(objects, k - 1)));
    }
  }

  lemma TableIsAscii(objects: seq<string>)
    ensures Ascii(Table(objects))
  {
    var n := |objects|;
    TableHeaderIsAscii(n);
    TrailerIsAscii(n);
    EntriesAreAscii(objects, n);
    AsciiConcat(TableHeader(n), FREE_ENTRY + (Entries(objects, n) + TrailerStart(n)));
  }

  lemma TableHeaderIsAscii(n: nat)
    ensures Ascii(TableHeader(n))
  {
    AsciiConcat(XREF, TableSize(n));
  }

  lemma TrailerIsAscii(n: nat)
    ensures Ascii(TrailerStart(n))
  {
    SpacedIsAscii(TrailerWords(n));
    AsciiConcat(Spaced(TrailerWords(n)), STARTXREF);
    AsciiConcat(TRAILER, Spaced(TrailerWords(n)) + STARTXREF);
  }

  lemma FileIsAscii(objects: seq<string>)
    requires AllAscii(objects)
    ensures Ascii(FileOf(objects))
  {
    BodyIsAscii(objects);
    TableIsAscii(objects);
    AsciiConcat(Body(objects), Table(objects));
    AsciiConcat(Decimal(|Body(objects)|), EOF);
    AsciiConcat(Body(objects) + Table(objects), Decimal(|Body(objects)|) + EOF);
  }

  /** Whatever characters the title and the file name hold. */
  lemma DocumentIsAscii(title: string, fileName: string, version: int)
    ensures Ascii(FileOf(Objects(ContentOf(DocumentLines(title, fileName, version)))))
  {
    var content := ContentOf(DocumentLines(title, fileName, version));
    ContentIsAscii(DocumentLines(title, fileName, version));
    ObjectsAreAscii(content);
    FileIsAscii(Objects(content));
  }

  // ----- where things are -------------------------------------------------

  /** What stands from byte `p` on. */
  function From(f: string, p: nat): string { if p <= |f| then f[p..] else "" }

  /** The objects after the first `i`. */
  lemma {:induction false} BodySplits(objects: seq<string>, i: nat) returns (rest: string)
    requires i < |objects|
    ensures Body(objects) == Body(objects[..i]) + (ObjectText(i + 1, objects[i]) + rest)
  {
    var (init, last) := (objects[..|objects| - 1], ObjectText(|objects|, objects[|objects| - 1]));
    var text := ObjectText(i + 1, objects[i]);
    assert init[..i] == objects[..i];
    if i == |objects| - 1 {
      rest := "";
      assert text + rest == text;
    } else {
      var r := BodySplits(init, i);
      rest := r + last;
      Assoc(Body(objects[..i]), text + r, last);
      Assoc(text, r, last);
    }
  }

  /** Object `i + 1` stands, header and all, at its noted offset. */
  lemma ObjectIsAtItsOffset(objects: seq<string>, i: nat) returns (rest: string)
    requires i < |objects|
    ensures From(FileOf(objects), Start(objects, i)) == ObjectHeader(i + 1) + (ObjectRest(objects[i]) + rest)
    ensures OccursAt(FileOf(objects), ObjectHeader(i + 1), Start(objects, i))
  {
    var r := BodySplits(objects, i);
    var (front, end) := (Body(objects[..i]), Decimal(|Body(objects)|) + EOF);
    rest := r + (Table(objects) + end);
    PutTogether(front, ObjectHeader(i + 1), ObjectRest(objects[i]), r, Table(objects), end);
  }

  lemma PutTogether(front: string, header: string, obj: string, r: string, table: string, end: string)
    ensures ((front + ((header + obj) + r)) + table) + end == front + (header + (obj + (r + (table + end))))
  {
    Assoc(front + ((header + obj) + r), table, end);
    Assoc(front, (header + obj) + r, table + end);
    Assoc(header + obj, r, table + end);
    Assoc(header, obj, r + (table + end));
  }

  // ----- the last lines ---------------------------------------------------

  function TrailingDigits(s: string): (d: string)
    ensures forall i :: 0 <= i < |d| ==> IsDigit(d[i])
  {
    if s == "" || !IsDigit(s[|s| - 1]) then "" else TrailingDigits(s[..|s| - 1]) + [s[|s| - 1]]
  }

  lemma {:induction false} TrailingDigitsOf(a: string, d: string)
    requires a != "" && !IsDigit(a[|a| - 1]) && forall i :: 0 <= i < |d| ==> IsDigit(d[i])
    ensures TrailingDigits(a + d) == d
  {
    if d == "" {
      assert a + d == a;
    } else {
      TrailingDigitsOf(a, d[..|d| - 1]);
      assert (a + d)[..|a + d| - 1] == a + d[..|d| - 1];
    }
  }

  predicate EndsWith(s: string, t: string) { |t| <= |s| && s[|s| - |t|..] == t }

  /** The number a text ends in, when the keyword stands before it. */
  function NumberAfter(s: string, key: string): nat
  {
    var digits := TrailingDigits(s);
    if |digits| <= |s| && EndsWith(s[..|s| - |digits|], key) then ParseDecimal(digits) else 0
  }

  /** Where the last three lines of a file say its table is: a keyword, a number and the end mark. */
  function ReadStartXref(f: string): nat
  {
    if EndsWith(f, "\n%%EOF\n") then NumberAfter(f[..|f| - 7], "\nstartxref\n") else 0
  }

  lemma EndsStill(a: string, b: string, t: string)
    requires EndsWith(b, t)
    ensures EndsWith(a + b, t)
  {
    assert (a + b)[|a + b| - |t|..] == b[|b| - |t|..];
  }

  lemma TableEndsInKeyword(objects: seq<string>)
    ensures EndsWith(Table(objects), STARTXREF)
  {
    var n := |objects|;
    EndsStill(Spaced(TrailerWords(n)), STARTXREF, STARTXREF);
    EndsStill(TRAILER, Spaced(TrailerWords(n)) + STARTXREF, STARTXREF);
    EndsStill(Entries(objects, n), TrailerStart(n), STARTXREF);
    EndsStill(FREE_ENTRY, Entries(objects, n) + TrailerStart(n), STARTXREF);
    EndsStill(TableHeader(n), FREE_ENTRY + (Entries(objects, n) + TrailerStart(n)), STARTXREF);
  }

  lemma CutEnd(a: string, end: string)
    ensures EndsWith(a + end, end) && (a + end)[..|a + end| - |end|] == a
  {
  }

  lemma {:induction false} NumberReadsBack(a: string, n: nat, key: string)
    requires EndsWith(a, key) && a != "" && !IsDigit(a[|a| - 1])
    ensures NumberAfter(a + Decimal(n), key) == n
  {
    TrailingDigitsOf(a, Decimal(n));
    CutEnd(a, Decimal(n));
    DecimalRoundTrip(n);
  }

  lemma {:induction false} ReadsTrailing(a: string, n: nat)
    requires EndsWith(a, STARTXREF)
    ensures ReadStartXref(a + (Decimal(n) + EOF)) == n
  {
    Assoc(a, Decimal(n), EOF);
    CutEnd(a + Decimal(n), EOF);
    EndsALine(a);
    NumberReadsBack(a, n, STARTXREF);
  }

  lemma EndsALine(a: string)
    requires EndsWith(a, STARTXREF)
    ensures a != "" && !IsDigit(a[|a| - 1])
  {
    assert a[|a| - |STARTXREF|..][|STARTXREF| - 1] == '\n';
  }

  lemma {:induction false} StartXrefReadsBack(objects: seq<string>)
    ensures ReadStartXref(FileOf(objects)) == |Body(objects)|
  {
    TableEndsInKeyword(objects);
    EndsStill(Body(objects), Table(objects), STARTXREF);
    ReadsTrailing(Body(objects) + Table(objects), |Body(objects)|);
  }

  /** startxref names the byte at which the table begins. */
  lemma {:induction false} StartXrefPointsAtTable(objects: seq<string>)
    ensures OccursAt(FileOf(objects), XREF, ReadStartXref(FileOf(objects)))
    ensures From(FileOf(objects), ReadStartXref(FileOf(objects))) == Table(objects) + (Decimal(|Body(objects)|) + EOF)
  {
    StartXrefReadsBack(objects);
    TableFollowsBody(Body(objects), TableSize(|objects|),
                     FREE_ENTRY + (Entries(objects, |objects|) + TrailerStart(|objects|)),
                     Decimal(|Body(objects)|) + EOF);
  }

  lemma TableFollowsBody(body: string, size: string, more: string, end: string)
    ensures var f := (body + ((XREF + size) + more)) + end;
            OccursAt(f, XREF, |body|) && From(f, |body|) == ((XREF + size) + more) + end
  {
    Assoc(body, (XREF + size) + more, end);
    Assoc(XREF + size, more, end);
    Assoc(XREF, size, more + end);
  }

  // ----- reading the table ------------------------------------------------

  /** The bytes of `k` entries. */
  function EntryBytes(k: int): int { 20 * k }

  /** Every offset in the table has ten digits. */
  predicate FitsTenDigits(objects: seq<string>) { forall i :: 0 <= i < |objects| ==> Start(objects, i) < 1_00000_00000 }

  const SHORT := 1000

  predicate ShortWords(words: seq<string>) { forall i :: 0 <= i < |words| ==> |words[i]| < 20 }

  lemma {:induction false} SpacedIsShort(words: seq<string>)
    requires ShortWords(words)
    ensures |Spaced(words)| <= 20 * |words|
  {
    if |words| > 1 {
      SpacedIsShort(words[1..]);
    }
  }

  lemma WordsAreShort(n: nat)
    ensures ShortWords(Dictionary(n)) && |Dictionary(n)| < 40
  {
  }

  lemma FirstFourAreShort(content: string, i: nat)
    requires i < 4
    ensures |Objects(content)[i]| <= SHORT
  {
    FirstFour(content, i);
    WordsAreShort(i + 1);
    SpacedIsShort(Dictionary(i + 1));
  }

  /** Before the stream stand four short objects, whatever is in the stream. */
  lemma FourAreShort(content: string)
    ensures forall i :: 0 <= i < 4 ==> |Objects(content)[i]| <= SHORT
  {
    forall i | 0 <= i < 4 ensures |Objects(content)[i]| <= SHORT {
      FirstFourAreShort(content, i);
    }
  }

  lemma {:induction false} StartIsSmall(objects: seq<string>, i: nat)
    requires i < 9 && i <= |objects| && forall j :: 0 <= j < i ==> |objects[j]| <= SHORT
    ensures Start(objects, i) <= |HEADER| + (SHORT + 20) * i
  {
    if i == 0 {
      assert objects[..0] == [];
    } else {
      StartIsSmall(objects, i - 1);
      BodyStep(objects, i - 1);
    }
  }

  /** So the table of the document always has ten digits for an offset. */
  lemma DocumentFits(content: string)
    ensures FitsTenDigits(Objects(content))
  {
    FourAreShort(content);
    forall i | 0 <= i < 5 ensures Start(Objects(content), i) < 1_00000_00000 {
      StartIsSmall(Objects(content), i);
    }
  }

  /** Entries have the twenty bytes of section 7.5.4 exactly while offsets fit in ten digits. */
  lemma EntryHasTwentyBytes(offset: nat)
    ensures |Entry(offset)| == EntryBytes(1) <==> offset < 1_00000_00000
  {
    TenDigitsIffSmall(offset);
  }

  lemma {:induction false} EntriesAreInPlace(objects: seq<string>, k: nat, i: nat)
    requires i < k <= |objects| && forall j :: 0 <= j < k ==> Start(objects, j) < 1_00000_00000
    ensures |Entries(objects, k)| == EntryBytes(k)
    ensures OccursAt(Entries(objects, k), Entry(Start(objects, i)), EntryBytes(i))
  {
    var (was, last) := (Entries(objects, k - 1), Entry(Start(objects, k - 1)));
    EntryHasTwentyBytes(Start(objects, k - 1));
    if k > 1 {
      EntriesAreInPlace(objects, k - 1, if i < k - 1 then i else 0);
    }
    if i < k - 1 {
      OccursInLonger(was, last, Entry(Start(objects, i)), EntryBytes(i));
    } else {
      OccursAtEnd(was, last, EntryBytes(i));
    }
  }

  lemma OccursInLonger(a: string, b: string, t: string, p: nat)
    requires OccursAt(a, t, p)
    ensures OccursAt(a + b, t, p)
  {
  }

  lemma OccursAtEnd(a: string, b: string, p: nat)
    requires p == |a|
    ensures OccursAt(a + b, b, p)
  {
  }

  function LeadingDigits(s: string): (d: string)
    ensures AllDigits(d) && |d| <= |s|
  {
    if s == "" || !IsDigit(s[0]) then "" else [s[0]] + LeadingDigits(s[1..])
  }

  lemma {:induction false} LeadingDigitsOf(d: string, rest: string)
    requires AllDigits(d) && rest != "" && !IsDigit(rest[0])
    ensures LeadingDigits(d + rest) == d
  {
    if d == "" {
      assert d + rest == rest;
    } else {
      LeadingDigitsOf(d[1..], rest);
      assert (d + rest)[1..] == d[1..] + rest && d == [d[0]] + d[1..];
    }
  }

  function Skip(s: string, t: string): string { if t <= s then s[|t|..] else "" }

  lemma SkipsOver(t: string, rest: string)
    ensures Skip(t + rest, t) == rest
  {
  }

  /** The line that heads a table: the first object's number, how many entries follow, and its own length. */
  datatype Subsection = Subsection(first: nat, count: nat, length: nat)

  function LineLength(s: string): nat { if s == "" then 0 else if s[0] == '\n' then 1 else 1 + LineLength(s[1..]) }

  function ReadSubsection(s: string): Subsection
  {
    var first := LeadingDigits(s);
    var count := LeadingDigits(Skip(s[|first|..], " "));
    Subsection(ParseDecimal(first), ParseDecimal(count), LineLength(s))
  }

  lemma {:induction false} LineLengthOf(s: string, rest: string)
    requires Free(s, '\n')
    ensures LineLength(s + ("\n" + rest)) == |s| + 1
  {
    if s == "" {
      assert "" + ("\n" + rest) == "\n" + rest;
    } else {
      assert s[0] in s;
      assert (s + ("\n" + rest))[1..] == s[1..] + ("\n" + rest);
      LineLengthOf(s[1..], rest);
    }
  }

  lemma SubsectionReadsBack(n: nat, rest: string)
    ensures ReadSubsection(TableSize(n) + rest) == Subsection(0, n + 1, |TableSize(n)|)
  {
    var count := Decimal(n + 1);
    HeadingApart(count, rest);
    HeadingReadsBack("0", count, rest);
    HeadingLength(count, rest);
    DecimalRoundTrip(n + 1);
    assert ParseDecimal("0") == 0;
  }

  lemma HeadingApart(count: string, rest: string)
    ensures ("0 " + (count + "\n")) + rest == "0" + (" " + (count + ("\n" + rest)))
  {
    Assoc("0 ", count + "\n", rest);
    Assoc(count, "\n", rest);
    Assoc("0", " ", count + ("\n" + rest));
    assert "0 " == "0" + " ";
  }

  lemma {:induction false} HeadingLength(count: string, rest: string)
    requires AllDigits(count)
    ensures LineLength(("0 " + (count + "\n")) + rest) == |"0 " + (count + "\n")|
  {
    Assoc("0 ", count, "\n");
    Assoc("0 " + count, "\n", rest);
    assert Free("0 " + count, '\n');
    LineLengthOf("0 " + count, rest);
  }

  lemma {:induction false} HeadingReadsBack(first: string, count: string, rest: string)
    requires AllDigits(first) && AllDigits(count)
    ensures var r := ReadSubsection(first + (" " + (count + ("\n" + rest))));
            r.first == ParseDecimal(first) && r.count == ParseDecimal(count)
  {
    var tail := count + ("\n" + rest);
    LeadingDigitsOf(first, " " + tail);
    assert (first + (" " + tail))[|first|..] == " " + tail;
    SkipsOver(" ", tail);
    LeadingDigitsOf(count, "\n" + rest);
  }

  /** The twenty characters at a position, if there are that many. */
  function TwentyAt(f: string, p: int): string { if 0 <= p <= |f| - 20 then f[p..p + 20] else "" }

  /** Object `n`'s entry under the heading `line`, whose text starts at `p`. */
  function EntryUnder(f: string, line: Subsection, p: nat, n: nat): string
  {
    if line.first <= n < line.first + line.count then TwentyAt(f, p + line.length + EntryBytes(n - line.first)) else ""
  }

  /** The offset in the entry of an object that is in use (section 7.5.4). */
  function OffsetIn(entry: string): Option<nat>
  {
    if |entry| == 20 && AllDigits(entry[..10]) && entry[10..] == " 00000 n \n" then Some(ParseDecimal(entry[..10]))
    else None
  }

  lemma OffsetReadsBack(offset: nat)
    requires offset < 1_00000_00000
    ensures OffsetIn(Entry(offset)) == Some(offset)
  {
    TenDigitsIffSmall(offset);
    TenDigitsReadBack(offset);
    assert Entry(offset)[..10] == TenDigits(offset) && Entry(offset)[10..] == IN_USE;
  }

  /** Where the line that heads the table stands, and what it says. */
  function HeadingStart(f: string): nat { ReadStartXref(f) + |XREF| }

  function ReadHeading(f: string): Subsection { ReadSubsection(From(f, HeadingStart(f))) }

  /** The entry the table has for object `n`: after the line that heads the
      table, twenty bytes an entry. */
  function ReadEntry(f: string, n: nat): string { EntryUnder(f, ReadHeading(f), HeadingStart(f), n) }

  lemma ReadsUnder(f: string, line: Subsection, p: nat, n: nat)
    requires ReadHeading(f) == line && HeadingStart(f) == p
    ensures ReadEntry(f, n) == EntryUnder(f, line, p, n)
  {
  }

  lemma EntryFound(f: string, line: Subsection, p: nat, entry: string, n: nat)
    requires line.first == 0 && n < line.count && |entry| == 20
    requires OccursAt(f, entry, p + line.length + EntryBytes(n))
    ensures EntryUnder(f, line, p, n) == entry
  {
  }

  lemma EntryInFile(f: string, a: string, h: string, line: Subsection, p: nat, entries: string, end: string,
                    entry: string, i: nat)
    requires f == a + (h + (FREE_ENTRY + (entries + end))) && p == |a| + |XREF|
    requires |h| >= |XREF| && line.first == 0 && i + 1 < line.count && line.length == |h| - |XREF|
    requires OccursAt(entries, entry, EntryBytes(i)) && |entry| == 20
    ensures EntryUnder(f, line, p, i + 1) == entry && EntryUnder(f, line, p, 0) == FREE_ENTRY
  {
    EntryInPlace(a, h, entries, end, entry, i);
    EntryFound(f, line, p, entry, i + 1);
    FreeEntryInPlace(a, h, entries + end);
    EntryFound(f, line, p, FREE_ENTRY, 0);
  }

  lemma OccursInside(a: string, e: string, b: string, t: string, q: nat)
    requires OccursAt(e, t, q)
    ensures OccursAt(a + (e + b), t, |a| + q)
  {
    var (f, p) := (a + (e + b), |a| + q);
    assert f[|a|..|a| + |e|] == e;
    assert f[p..p + |t|] == f[|a|..|a| + |e|][q..q + |t|];
  }

  lemma EntryInPlace(a: string, h: string, entries: string, end: string, entry: string, i: nat)
    requires OccursAt(entries, entry, EntryBytes(i))
    ensures OccursAt(a + (h + (FREE_ENTRY + (entries + end))), entry, |a| + |h| + EntryBytes(i + 1))
  {
    var more := FREE_ENTRY + (entries + end);
    OccursInside(FREE_ENTRY, entries, end, entry, EntryBytes(i));
    AppendNothing(more);
    OccursInside(h, more, "", entry, EntryBytes(i + 1));
    AppendNothing(h + more);
    OccursInside(a, h + more, "", entry, |h| + EntryBytes(i + 1));
  }

  lemma FreeEntryInPlace(a: string, h: string, more: string)
    ensures OccursAt(a + (h + (FREE_ENTRY + more)), FREE_ENTRY, |a| + |h| + EntryBytes(0))
  {
    OccursInside(h, FREE_ENTRY, more, FREE_ENTRY, 0);
    AppendNothing(h + (FREE_ENTRY + more));
    OccursInside(a, h + (FREE_ENTRY + more), "", FREE_ENTRY, |h|);
  }

  lemma AppendNothing(s: string)
    ensures s + "" == s
  {
  }

  lemma HeaderRead(a: string, n: nat, more: string)
    ensures ReadSubsection(From(a + (TableHeader(n) + more), |a| + |XREF|)) == Subsection(0, n + 1, |TableSize(n)|)
  {
    Assoc(XREF, TableSize(n), more);
    Assoc(a, XREF, TableSize(n) + more);
    SubsectionReadsBack(n, more);
  }

  lemma {:induction false} FileIsLaidOut(objects: seq<string>)
    ensures var n := |objects|;
            FileOf(objects)
            == Body(objects)
               + (TableHeader(n)
                  + (FREE_ENTRY
                     + (Entries(objects, n) + (TrailerStart(n) + (Decimal(|Body(objects)|) + EOF)))))
  {
    var n := |objects|;
    var end := Decimal(|Body(objects)|) + EOF;
    LayOut(Body(objects), TableHeader(n), FREE_ENTRY, Entries(objects, n), TrailerStart(n), end);
  }

  lemma {:induction false} HeadingOfFile(objects: seq<string>)
    ensures HeadingStart(FileOf(objects)) == |Body(objects)| + |XREF|
    ensures ReadHeading(FileOf(objects)) == Subsection(0, |objects| + 1, |TableSize(|objects|)|)
  {
    var n := |objects|;
    StartXrefReadsBack(objects);
    FileIsLaidOut(objects);
    HeaderRead(Body(objects), n,
               FREE_ENTRY + (Entries(objects, n) + (TrailerStart(n) + (Decimal(|Body(objects)|) + EOF))));
  }

  lemma HeaderLength(n: nat)
    ensures |TableHeader(n)| - |XREF| == |TableSize(n)|
  {
  }

  lemma {:induction false} OffsetInEntries(objects: seq<string>, i: nat)
    requires i < |objects| && FitsTenDigits(objects)
    ensures |Entry(Start(objects, i))| == 20
    ensures OccursAt(Entries(objects, |objects|), Entry(Start(objects, i)), EntryBytes(i))
  {
    EntriesAreInPlace(objects, |objects|, i);
    TenDigitsIffSmall(Start(objects, i));
  }

  lemma {:induction false} EntryOfFile(objects: seq<string>, i: nat, line: Subsection, p: nat)
    requires i < |objects| && FitsTenDigits(objects) && p == |Body(objects)| + |XREF|
    requires line == Subsection(0, |objects| + 1, |TableHeader(|objects|)| - |XREF|)
    ensures EntryUnder(FileOf(objects), line, p, i + 1) == Entry(Start(objects, i))
    ensures EntryUnder(FileOf(objects), line, p, 0) == FREE_ENTRY
  {
    var n := |objects|;
    var end := TrailerStart(n) + (Decimal(|Body(objects)|) + EOF);
    OffsetInEntries(objects, i);
    FileIsLaidOut(objects);
    EntryInFile(FileOf(objects), Body(objects), TableHeader(n), line, p, Entries(objects, n), end,
                Entry(Start(objects, i)), i);
  }

  lemma TableHoldsOffset(objects: seq<string>, i: nat)
    requires i < |objects| && FitsTenDigits(objects)
    ensures ReadEntry(FileOf(objects), i + 1) == Entry(Start(objects, i)) && ReadEntry(FileOf(objects), 0) == FREE_ENTRY
  {
    HeadingOfFile(objects);
    HeaderLength(|objects|);
    var line := Subsection(0, |objects| + 1, |TableSize(|objects|)|);
    var p := HeadingStart(FileOf(objects));
    EntryOfFile(objects, i, line, p);
    ReadsUnder(FileOf(objects), line, p, i + 1);
    ReadsUnder(FileOf(objects), line, p, 0);
  }

  /** A reader that starts from the file's last lines finds every object of the
      document where the table says it is. */
  lemma TableLeadsToObjects(content: string, i: nat)
    requires i < 5
    ensures var f := FileOf(Objects(content));
            && OffsetIn(ReadEntry(f, i + 1)) == Some(Start(Objects(content), i))
            && OccursAt(f, ObjectHeader(i + 1), Start(Objects(content), i))
            && ReadEntry(f, 0) == "0000000000 65535 f \n"
  {
    DocumentFits(content);
    FittingTableLeads(Objects(content), i);
  }

  lemma FittingTableLeads(objects: seq<string>, i: nat)
    requires i < |objects| && FitsTenDigits(objects)
    ensures OffsetIn(ReadEntry(FileOf(objects), i + 1)) == Some(Start(objects, i))
    ensures OccursAt(FileOf(objects), ObjectHeader(i + 1), Start(objects, i))
    ensures ReadEntry(FileOf(objects), 0) == FREE_ENTRY
  {
    var rest := ObjectIsAtItsOffset(objects, i);
    TableHoldsOffset(objects, i);
    OffsetReadsBack(Start(objects, i));
  }

  lemma LayOut(b: string, h: string, fr: string, e: string, t: string, end: string)
    ensures (b + (h + (fr + (e + t)))) + end == b + (h + (fr + (e + (t + end))))
  {
    Assoc(b, h + (fr + (e + t)), end);
    Assoc(h, fr + (e + t), end);
    Assoc(fr, e + t, end);
    Assoc(e, t, end);
  }
}
