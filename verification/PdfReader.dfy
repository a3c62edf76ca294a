/** A reader of PDF files by the rules of ISO 32000-1 that knows nothing but the
    file: from its last lines to the table, the trailer, the catalog, the page
    tree, the page, its font and its stream, each by the reference to it. */
module PdfReader {
  import opened Outcomes
  import opened Text
  import opened Pdf
  import opened PdfDocument

  // ----- lines and words --------------------------------------------------

  datatype Line = Line(text: string, rest: string)

  /** The first line, and what follows it. */
  function TakeLine(s: string): Line
  {
    if s == "" then Line("", "")
    else if s[0] == '\n' then Line("", s[1..])
    else var l := TakeLine(s[1..]); Line([s[0]] + l.text, l.rest)
  }

  lemma {:induction false} TakesLine(a: string, rest: string)
    requires Free(a, '\n')
    ensures TakeLine(a + ("\n" + rest)) == Line(a, rest)
  {
    if a == "" {
      assert "" + ("\n" + rest) == "\n" + rest && ("\n" + rest)[1..] == rest;
    } else {
      assert a[0] in a;
      assert (a + ("\n" + rest))[1..] == a[1..] + ("\n" + rest);
      TakesLine(a[1..], rest);
    }
  }

  function Words(line: string): seq<string> { Split(line, ' ') }

  /** Words that neither a space nor a line break cuts. */
  predicate AreWords(words: seq<string>) { words != [] && AllFree(words, ' ') && AllFree(words, '\n') }

  lemma {:induction false} SpacedIsALine(words: seq<string>)
    requires AllFree(words, '\n')
    ensures Free(Spaced(words), '\n')
  {
    if |words| > 1 {
      SpacedIsALine(words[1..]);
    }
  }

  lemma {:induction false} LineReadsBack(words: seq<string>, rest: string)
    requires AreWords(words)
    ensures TakeLine(Spaced(words) + ("\n" + rest)) == Line(Spaced(words), rest) && Words(Spaced(words)) == words
  {
    SpacedIsALine(words);
    TakesLine(Spaced(words), rest);
    SplitOfJoin(words, ' ');
  }

  // ----- dictionaries -----------------------------------------------------

  /** What follows the first occurrence of a name. */
  function After(words: seq<string>, name: string): seq<string>
  {
    if words == [] then [] else if words[0] == name then words[1..] else After(words[1..], name)
  }

  lemma {:induction false} FoundAt(words: seq<string>, name: string, i: nat)
    requires i < |words| && words[i] == name && name !in words[..i]
    ensures After(words, name) == words[i + 1..]
  {
    if i > 0 {
      assert words[0] in words[..i] && words[1..][..i - 1] == words[..i][1..];
      FoundAt(words[1..], name, i - 1);
    }
  }

  function First(words: seq<string>): string { if words == [] then "" else words[0] }

  /** The number of the object that an indirect reference (section 7.3.10) names; 0, the
      head of the free list, when there is no reference. */
  function Referred(words: seq<string>): nat
  {
    if |words| >= 3 && AllDigits(words[0]) && words[1] == "0" && words[2] == "R" then ParseDecimal(words[0]) else 0
  }

  /** The same for an array of one reference. */
  function ReferredOnce(words: seq<string>): nat
  {
    if |words| >= 3 && "[" <= words[0] && words[2] == "R]" then Referred([words[0][1..], words[1], "R"]) else 0
  }

  /** The object the table leads to, behind the line with its number. */
  function ReadObject(f: string, n: nat): string
  {
    match OffsetIn(ReadEntry(f, n))
    case None => ""
    case Some(offset) => Skip(From(f, offset), Decimal(n) + " 0 obj\n")
  }

  predicate IsDictionary(words: seq<string>) { |words| > 1 && words[0] == "<<" && words[|words| - 1] == ">>" }

  /** The words of a dictionary of the given type that stands on one line, or none. */
  function DictionaryIn(obj: string, kind: string): seq<string>
  {
    var line := TakeLine(obj);
    var words := Words(line.text);
    if IsDictionary(words) && "endobj\n" <= line.rest && First(After(words, "/Type")) == kind then words else []
  }

  function ReadDictionary(f: string, n: nat, kind: string): seq<string> { DictionaryIn(ReadObject(f, n), kind) }

  /** A stream by its declared length (section 7.3.8), and what follows it. */
  function ReadStream(obj: string): (string, string)
  {
    var line := TakeLine(obj);
    var words := Words(line.text);
    var length := First(After(words, "/Length"));
    var data := TakeLine(line.rest);
    if IsDictionary(words) && data.text == "stream" && AllDigits(length) && ParseDecimal(length) <= |data.rest| then
      (data.rest[..ParseDecimal(length)], data.rest[ParseDecimal(length)..])
    else ("", "")
  }

  /** The words of a trailer that tells `size` entries. */
  function TrailerIn(s: string, size: nat): seq<string>
  {
    var keyword := TakeLine(s);
    var line := TakeLine(keyword.rest);
    var words := Words(line.text);
    if keyword.text == "trailer" && IsDictionary(words) && "startxref\n" <= line.rest
       && First(After(words, "/Size")) == Decimal(size)
    then words else []
  }

  /** What follows the table's last entry. */
  function BehindTable(f: string): string
  {
    From(f, HeadingStart(f) + ReadHeading(f).length + EntryBytes(ReadHeading(f).count))
  }

  function ReadTrailer(f: string): seq<string> { TrailerIn(BehindTable(f), ReadHeading(f).count) }

  lemma ObjectRead(objects: seq<string>, i: nat) returns (rest: string)
    requires i < |objects| && FitsTenDigits(objects)
    ensures ReadObject(FileOf(objects), i + 1) == objects[i] + (ENDOBJ + rest)
  {
    FittingTableLeads(objects, i);
    rest := ObjectIsAtItsOffset(objects, i);
    SkipsOver(ObjectHeader(i + 1), ObjectRest(objects[i]) + rest);
    Assoc(objects[i], ENDOBJ, rest);
  }

  predicate HasType(words: seq<string>, kind: string)
  {
    AreWords(words) && IsDictionary(words) && First(After(words, "/Type")) == kind
  }

  lemma DictionaryReadsBack(obj: string, words: seq<string>, kind: string, rest: string)
    requires obj == Spaced(words) + ("\n" + ("endobj\n" + rest)) && HasType(words, kind)
    ensures DictionaryIn(obj, kind) == words
  {
    LineReadsBack(words, "endobj\n" + rest);
  }

  lemma EndOfObject(obj: string, rest: string)
    ensures obj + (ENDOBJ + rest) == obj + ("\n" + ("endobj\n" + rest))
  {
    assert ENDOBJ == "\n" + "endobj\n";
    Assoc("\n", "endobj\n", rest);
  }

  lemma DictionaryRead(objects: seq<string>, i: nat, words: seq<string>, kind: string)
    requires i < |objects| && FitsTenDigits(objects) && objects[i] == Spaced(words) && HasType(words, kind)
    ensures ReadDictionary(FileOf(objects), i + 1, kind) == words
  {
    var rest := ObjectRead(objects, i);
    EndOfObject(Spaced(words), rest);
    DictionaryReadsBack(ReadObject(FileOf(objects), i + 1), words, kind, rest);
  }

  /** /Length is the number of bytes between "stream" and "endstream". */
  lemma LengthIsStreamLength(content: string, after: string)
    ensures ReadStream(StreamObject(content) + after) == (content, "endstream" + after)
  {
    var words := StreamWords(|content|);
    var tail := content + (ENDSTREAM + after);
    StreamLines(Spaced(words), content, after);
    NumberIsAWord(|content|);
    LineReadsBack(words, "stream" + ("\n" + tail));
    FoundAt(words, "/Length", 1);
    TakesLine("stream", tail);
    DecimalRoundTrip(|content|);
    CutAt(content, ENDSTREAM + after);
  }

  lemma CutAt(a: string, b: string)
    ensures (a + b)[..|a|] == a && (a + b)[|a|..] == b
  {
  }

  lemma NumberIsAWord(n: nat)
    ensures AreWords(StreamWords(n))
  {
  }

  lemma StreamLines(dict: string, content: string, after: string)
    ensures (dict + (STREAM + (content + ENDSTREAM))) + after
            == dict + ("\n" + ("stream" + ("\n" + (content + (ENDSTREAM + after)))))
  {
    Assoc(dict, STREAM + (content + ENDSTREAM), after);
    Assoc(STREAM, content + ENDSTREAM, after);
    Assoc(content, ENDSTREAM, after);
    assert STREAM == "\n" + ("stream" + "\n");
    Assoc("\n", "stream" + "\n", content + (ENDSTREAM + after));
    Assoc("stream", "\n", content + (ENDSTREAM + after));
  }

  // ----- the trailer ------------------------------------------------------

  lemma Past(f: string, p: nat, a: string, h: string, fr: string, e: string, t: string)
    requires f == a + (h + (fr + (e + t))) && p == |a| + |h| + |fr| + |e|
    ensures From(f, p) == t
  {
    Assoc(fr, e, t);
    Assoc(h, fr + e, t);
    Assoc(a, h + (fr + e), t);
    CutAt(a + (h + (fr + e)), t);
  }

  lemma {:induction false} TableIsPassed(objects: seq<string>)
    requires objects != [] && FitsTenDigits(objects)
    ensures BehindTable(FileOf(objects)) == TrailerStart(|objects|) + (Decimal(|Body(objects)|) + EOF)
  {
    var f := FileOf(objects);
    var p := HeadingStart(f) + ReadHeading(f).length + EntryBytes(ReadHeading(f).count);
    TableLength(objects);
    PastTable(objects, p);
    BehindIs(f, p, TrailerStart(|objects|) + (Decimal(|Body(objects)|) + EOF));
  }

  lemma {:induction false} PastTable(objects: seq<string>, p: nat)
    requires p == |Body(objects)| + |TableHeader(|objects|)| + |FREE_ENTRY| + |Entries(objects, |objects|)|
    ensures From(FileOf(objects), p) == TrailerStart(|objects|) + (Decimal(|Body(objects)|) + EOF)
  {
    var n := |objects|;
    FileIsLaidOut(objects);
    Past(FileOf(objects), p, Body(objects), TableHeader(n), FREE_ENTRY, Entries(objects, n),
         TrailerStart(n) + (Decimal(|Body(objects)|) + EOF));
  }

  lemma BehindIs(f: string, p: nat, s: string)
    requires p == HeadingStart(f) + ReadHeading(f).length + EntryBytes(ReadHeading(f).count) && From(f, p) == s
    ensures BehindTable(f) == s
  {
  }

  lemma {:induction false} TableLength(objects: seq<string>)
    requires objects != [] && FitsTenDigits(objects)
    ensures var (f, n) := (FileOf(objects), |objects|);
            HeadingStart(f) + ReadHeading(f).length + EntryBytes(ReadHeading(f).count)
            == |Body(objects)| + |TableHeader(n)| + |FREE_ENTRY| + |Entries(objects, n)|
  {
    EntriesAreInPlace(objects, |objects|, 0);
    HeadingOfFile(objects);
    HeaderLength(|objects|);
  }

  lemma TrailerLines(dict: string, end: string)
    ensures (TRAILER + (dict + STARTXREF)) + end == "trailer" + ("\n" + (dict + ("\n" + ("startxref\n" + end))))
  {
    Assoc(TRAILER, dict + STARTXREF, end);
    Assoc(dict, STARTXREF, end);
    assert TRAILER == "trailer" + "\n" && STARTXREF == "\n" + "startxref\n";
    Assoc("trailer", "\n", dict + (STARTXREF + end));
    Assoc("\n", "startxref\n", end);
  }

  lemma TrailerReadsBack(n: nat, end: string)
    ensures TrailerIn(TrailerStart(n) + end, n + 1) == TrailerWords(n)
  {
    var size := n + 1;
    var words := TrailerWords(n);
    var more := "startxref\n" + end;
    TrailerLines(Spaced(words), end);
    TakesLine("trailer", Spaced(words) + ("\n" + more));
    TrailerIsWords(n);
    LineReadsBack(words, more);
    FoundAt(words, "/Size", 1);
  }

  lemma TrailerIsWords(n: nat)
    ensures AreWords(TrailerWords(n)) && IsDictionary(TrailerWords(n))
  {
    assert AllDigits(Decimal(n + 1));
  }

  lemma RootIsFirst(n: nat)
    ensures Referred(After(TrailerWords(n), "/Root")) == 1
  {
    assert IsDigit(Decimal(n + 1)[0]);
    FoundAt(TrailerWords(n), "/Root", 3);
    OneDigit("1");
  }

  lemma {:induction false} OneDigit(s: string)
    requires |s| == 1 && IsDigit(s[0])
    ensures AllDigits(s) && ParseDecimal(s) == DigitValue(s[0])
  {
    assert s[..0] == "";
  }

  lemma TrailerRead(objects: seq<string>)
    requires objects != [] && FitsTenDigits(objects)
    ensures ReadTrailer(FileOf(objects)) == TrailerWords(|objects|)
  {
    TableIsPassed(objects);
    HeadingOfFile(objects);
    var end := Decimal(|Body(objects)|) + EOF;
    TrailerReadsBack(|objects|, end);
    TrailerBehind(FileOf(objects), TrailerStart(|objects|) + end, |objects| + 1);
  }

  lemma TrailerBehind(f: string, s: string, size: nat)
    requires BehindTable(f) == s && ReadHeading(f).count == size
    ensures ReadTrailer(f) == TrailerIn(s, size)
  {
  }

  // ----- the document -----------------------------------------------------

  /** What a page shows: its size, the font of its text and its lines. */
  datatype Page = Page(box: seq<string>, font: string, lines: seq<string>)

  /** A text object that selects a font, a distance of lines and a place, and then shows strings. */
  datatype TextObject = TextObject(font: string, lines: seq<string>)

  function ReadText(stream: string): Option<TextObject>
  {
    var begin := TakeLine(stream);
    var select := TakeLine(begin.rest);
    var leading := TakeLine(select.rest);
    var position := TakeLine(leading.rest);
    var (font, distance, place) := (Words(select.text), Words(leading.text), Words(position.text));
    if begin.text != "BT" || |font| != 3 || font[2] != "Tf" || |distance| != 2 || distance[1] != "TL"
       || |place| != 3 || place[2] != "Td"
    then None
    else
      match ReadShown(position.rest)
      case None => None
      case Some(lines) => Some(TextObject(font[0], lines))
  }

  /** The catalog, from the file's last lines. */
  function ReadCatalog(f: string): seq<string>
  {
    ReadDictionary(f, Referred(After(ReadTrailer(f), "/Root")), "/Catalog")
  }

  /** The one page of a page tree with a single kid that names the tree as its parent. */
  function ReadPage(f: string): seq<string>
  {
    var n := Referred(After(ReadCatalog(f), "/Pages"));
    var tree := ReadDictionary(f, n, "/Pages");
    var page := ReadDictionary(f, ReferredOnce(After(tree, "/Kids")), "/Page");
    if First(After(tree, "/Count")) == "1" && Referred(After(page, "/Parent")) == n then page else []
  }

  /** An object that is a stream. */
  function StreamIn(obj: string): string
  {
    var (stream, rest) := ReadStream(obj);
    if "endstream\nendobj\n" <= rest then stream else ""
  }

  /** The stream a page shows. */
  function ReadContents(f: string, page: seq<string>): string
  {
    StreamIn(ReadObject(f, Referred(After(page, "/Contents"))))
  }

  /** The font a page's resources have under a name. */
  function ReadFont(f: string, page: seq<string>, name: string): string
  {
    var font := ReadDictionary(f, Referred(After(After(After(page, "/Resources"), "/Font"), name)), "/Font");
    if First(After(font, "/Subtype")) == "/Type1" then First(After(font, "/BaseFont")) else ""
  }

  function FirstFourOf(words: seq<string>): seq<string> { if |words| < 4 then [] else words[..4] }

  function ReadDocument(f: string): Option<Page>
  {
    var page := ReadPage(f);
    if !("%PDF-" <= f) || ReadEntry(f, 0) != "0000000000 65535 f \n" then None
    else
      match ReadText(ReadContents(f, page))
      case None => None
      case Some(text) =>
        Some(Page(FirstFourOf(After(page, "/MediaBox")), ReadFont(f, page, text.font), text.lines))
  }

  // ----- the words of the four dictionaries --------------------------------

  lemma DictionaryWords(n: nat)
    ensures AreWords(Dictionary(n))
  {
    if n == 1 {
      CatalogWords();
    } else if n == 2 {
      PagesWords();
    } else if n == 3 {
      PageWords();
    } else {
      FontWords();
    }
  }

  lemma CatalogWords()
    ensures AreWords(CATALOG)
  {
  }

  lemma PagesWords()
    ensures AreWords(PAGES)
  {
  }

  lemma PageWords()
    ensures AreWords(PAGE + RESOURCES + CONTENTS)
  {
    WordsConcat(PAGE, RESOURCES) by { PageStart(); ResourceWords(); }
    WordsConcat(PAGE + RESOURCES, CONTENTS);
  }

  lemma PageStart()
    ensures AreWords(PAGE)
  {
  }

  lemma ResourceWords()
    ensures AreWords(RESOURCES)
  {
  }

  lemma FontWords()
    ensures AreWords(FONT)
  {
  }

  lemma WordsConcat(a: seq<string>, b: seq<string>)
    requires AreWords(a) && AreWords(b)
    ensures AreWords(a + b)
  {
  }

  lemma BracketsAndType(n: nat)
    ensures IsDictionary(Dictionary(n))
  {
  }

  lemma CatalogRefers()
    ensures First(After(CATALOG, "/Type")) == "/Catalog" && Referred(After(CATALOG, "/Pages")) == 2
  {
    FoundAt(CATALOG, "/Type", 1);
    PagesAfter();
    OneDigit("2");
  }

  lemma PagesAfter()
    ensures After(CATALOG, "/Pages") == CATALOG[4..]
  {
    FoundAt(CATALOG, "/Pages", 3);
  }

  lemma KidAfter()
    ensures After(PAGES, "/Kids") == PAGES[4..]
  {
    FoundAt(PAGES, "/Kids", 3);
  }

  lemma KidRefers()
    ensures ReferredOnce(After(PAGES, "/Kids")) == 3
  {
    KidAfter();
    assert "[3"[1..] == "3";
    OneDigit("3");
  }

  lemma TreeType()
    ensures First(After(PAGES, "/Type")) == "/Pages"
  {
    FoundAt(PAGES, "/Type", 1);
  }

  lemma TreeCount()
    ensures First(After(PAGES, "/Count")) == "1"
  {
    FoundAt(PAGES, "/Count", 7);
  }

  lemma {:induction false} AfterConcat(a: seq<string>, b: seq<string>, name: string)
    ensures After(a + b, name) == if name in a then After(a, name) + b else After(b, name)
  {
    if a == [] {
      assert a + b == b;
    } else {
      assert (a + b)[1..] == a[1..] + b;
      AfterConcat(a[1..], b, name);
      assert a == [a[0]] + a[1..];
      assert [a[0]] + a[1..] + b == [a[0]] + (a[1..] + b);
    }
  }

  lemma {:induction false} ThirdPart(a: seq<string>, b: seq<string>, c: seq<string>, name: string)
    ensures name in a ==> After(a + b + c, name) == After(a, name) + (b + c)
    ensures name !in a && name in b ==> After(a + b + c, name) == After(b, name) + c
    ensures name !in a && name !in b ==> After(a + b + c, name) == After(c, name)
  {
    assert a + b + c == a + (b + c);
    AfterConcat(a, b + c, name);
    AfterConcat(b, c, name);
  }

  lemma InPage()
    ensures After(PAGE, "/Type") == PAGE[2..] && After(PAGE, "/Parent") == PAGE[4..]
    ensures "/Type" in PAGE && "/Parent" in PAGE
  {
    FoundAt(PAGE, "/Type", 1);
    FoundAt(PAGE, "/Parent", 3);
    assert PAGE[1] in PAGE && PAGE[3] in PAGE;
  }

  lemma BoxInPage()
    ensures After(PAGE, "/MediaBox") == PAGE[8..] && "/MediaBox" in PAGE
  {
    FoundAt(PAGE, "/MediaBox", 7);
    assert PAGE[7] in PAGE;
  }

  lemma NotInPage()
    ensures "/Resources" !in PAGE && "/Contents" !in PAGE
  {
  }

  lemma InResources()
    ensures After(RESOURCES, "/Resources") == RESOURCES[1..] && "/Resources" in RESOURCES && "/Contents" !in RESOURCES
  {
    FoundAt(RESOURCES, "/Resources", 0);
    assert RESOURCES[0] in RESOURCES;
  }

  lemma PageType()
    ensures First(After(PAGE + RESOURCES + CONTENTS, "/Type")) == "/Page"
  {
    InPage();
    ThirdPart(PAGE, RESOURCES, CONTENTS, "/Type");
  }

  lemma PageParent()
    ensures Referred(After(PAGE + RESOURCES + CONTENTS, "/Parent")) == 2
  {
    InPage();
    ThirdPart(PAGE, RESOURCES, CONTENTS, "/Parent");
    OneDigit("2");
  }

  lemma PageBox()
    ensures FirstFourOf(After(PAGE + RESOURCES + CONTENTS, "/MediaBox")) == ["[0", "0", "595", "842]"]
  {
    BoxInPage();
    ThirdPart(PAGE, RESOURCES, CONTENTS, "/MediaBox");
  }

  lemma PageContents()
    ensures Referred(After(PAGE + RESOURCES + CONTENTS, "/Contents")) == 5
  {
    NotInPage();
    InResources();
    ThirdPart(PAGE, RESOURCES, CONTENTS, "/Contents");
    FoundAt(CONTENTS, "/Contents", 0);
    OneDigit("5");
  }

  lemma {:induction false} FontInResources(more: seq<string>)
    ensures Referred(After(After(RESOURCES[1..] + more, "/Font"), "/F1")) == 4
  {
    var words := RESOURCES[1..] + more;
    FoundAt(words, "/Font", 1);
    FoundAt(words[2..], "/F1", 1);
    OneDigit("4");
  }

  lemma PageFont()
    ensures Referred(After(After(After(PAGE + RESOURCES + CONTENTS, "/Resources"), "/Font"), "/F1")) == 4
  {
    NotInPage();
    InResources();
    ThirdPart(PAGE, RESOURCES, CONTENTS, "/Resources");
    FontInResources(CONTENTS);
  }

  lemma FontEntries()
    ensures First(After(FONT, "/Type")) == "/Font" && First(After(FONT, "/Subtype")) == "/Type1"
  {
    FoundAt(FONT, "/Type", 1);
    FoundAt(FONT, "/Subtype", 3);
  }

  lemma BaseFont()
    ensures First(After(FONT, "/BaseFont")) == "/Helvetica"
  {
    FoundAt(FONT, "/BaseFont", 5);
  }

  // ----- the document reads back ------------------------------------------

  lemma DictionaryFound(content: string, n: nat, kind: string)
    requires 1 <= n <= 4 && First(After(Dictionary(n), "/Type")) == kind
    ensures ReadDictionary(FileOf(Objects(content)), n, kind) == Dictionary(n)
  {
    DocumentFits(content);
    FirstFour(content, n - 1);
    DictionaryWords(n);
    BracketsAndType(n);
    DictionaryRead(Objects(content), n - 1, Dictionary(n), kind);
  }

  lemma CatalogFound(content: string)
    ensures ReadCatalog(FileOf(Objects(content))) == Dictionary(1)
  {
    DocumentFits(content);
    TrailerRead(Objects(content));
    RootIsFirst(5);
    CatalogRefers();
    DictionaryFound(content, 1, "/Catalog");
  }

  lemma PageFound(content: string)
    ensures ReadPage(FileOf(Objects(content))) == Dictionary(3)
  {
    CatalogFound(content);
    CatalogRefers();
    TreeType();
    DictionaryFound(content, 2, "/Pages");
    KidRefers();
    TreeCount();
    PageType();
    PageParent();
    DictionaryFound(content, 3, "/Page");
  }

  lemma StreamReadsBack(obj: string, content: string, rest: string)
    requires obj == StreamObject(content) + (ENDOBJ + rest)
    ensures StreamIn(obj) == content
  {
    LengthIsStreamLength(content, ENDOBJ + rest);
    EndOfStream(rest);
  }

  lemma EndOfStream(rest: string)
    ensures "endstream\nendobj\n" <= "endstream" + (ENDOBJ + rest)
  {
    assert "endstream\nendobj\n" == "endstream" + ENDOBJ;
    Assoc("endstream", ENDOBJ, rest);
  }

  lemma StreamObjectRead(objects: seq<string>, content: string, n: nat)
    requires 1 <= n <= |objects| && objects[n - 1] == StreamObject(content) && FitsTenDigits(objects)
    ensures StreamIn(ReadObject(FileOf(objects), n)) == content
  {
    var rest := ObjectRead(objects, n - 1);
    StreamReadsBack(ReadObject(FileOf(objects), n), content, rest);
  }

  lemma ContentsRefer(f: string)
    ensures ReadContents(f, Dictionary(3)) == StreamIn(ReadObject(f, 5))
  {
    PageContents();
  }

  lemma ContentsFound(content: string)
    ensures ReadContents(FileOf(Objects(content)), Dictionary(3)) == content
  {
    DocumentFits(content);
    StreamObjectRead(Objects(content), content, 5);
    ContentsRefer(FileOf(Objects(content)));
  }

  lemma FontFound(content: string)
    ensures ReadFont(FileOf(Objects(content)), Dictionary(3), "/F1") == "/Helvetica"
  {
    PageFont();
    FontEntries();
    BaseFont();
    DictionaryFound(content, 4, "/Font");
  }

  lemma OpeningLines(rest: string)
    ensures OPENING + rest
            == "BT" + ("\n" + (Spaced(SELECT_FONT) + ("\n" + (Spaced(LEADING)
               + ("\n" + (Spaced(POSITION) + ("\n" + rest)))))))
  {
    var (a, b, c) := (Spaced(SELECT_FONT), Spaced(LEADING), Spaced(POSITION));
    Nest(a, b, c, rest);
  }

  lemma Nest(a: string, b: string, c: string, rest: string)
    ensures ("BT\n" + (a + ("\n" + (b + ("\n" + (c + "\n")))))) + rest
            == "BT" + ("\n" + (a + ("\n" + (b + ("\n" + (c + ("\n" + rest)))))))
  {
    assert "BT\n" == "BT" + "\n";
    Assoc("BT\n", a + ("\n" + (b + ("\n" + (c + "\n")))), rest);
    Assoc(a, "\n" + (b + ("\n" + (c + "\n"))), rest);
    Assoc("\n", b + ("\n" + (c + "\n")), rest);
    Assoc(b, "\n" + (c + "\n"), rest);
    Assoc("\n", c + "\n", rest);
    Assoc(c, "\n", rest);
    Assoc("BT", "\n", a + ("\n" + (b + ("\n" + (c + ("\n" + rest))))));
  }

  lemma OperatorsAreWords()
    ensures AreWords(SELECT_FONT) && AreWords(LEADING) && AreWords(POSITION)
  {
  }

  lemma TextReadsBack(lines: seq<string>)
    ensures ReadText(ContentOf(lines)) == Some(TextObject("/F1", PrintableLines(lines)))
  {
    var shown := ShownLines(lines) + CLOSING;
    OperatorsAreWords();
    OpeningLines(shown);
    LineReadsBack(POSITION, shown);
    var position := Spaced(POSITION) + ("\n" + shown);
    LineReadsBack(LEADING, position);
    var leading := Spaced(LEADING) + ("\n" + position);
    LineReadsBack(SELECT_FONT, leading);
    TakesLine("BT", Spaced(SELECT_FONT) + ("\n" + leading));
    ContentReadsBack(lines);
  }

  lemma HeaderStarts(objects: seq<string>)
    ensures "%PDF-" <= FileOf(objects)
  {
    BodyStarts(objects);
  }

  lemma {:induction false} BodyStarts(objects: seq<string>)
    ensures HEADER <= Body(objects)
  {
    if objects != [] {
      BodyStarts(objects[..|objects| - 1]);
    }
  }

  lemma {:induction false} ReadsAs(f: string, page: seq<string>, text: TextObject, font: string)
    requires "%PDF-" <= f && ReadEntry(f, 0) == "0000000000 65535 f \n" && ReadPage(f) == page
    requires ReadText(ReadContents(f, page)) == Some(text) && ReadFont(f, page, text.font) == font
    ensures ReadDocument(f) == Some(Page(FirstFourOf(After(page, "/MediaBox")), font, text.lines))
  {
  }

  const A4 := ["[0", "0", "595", "842]"]

  lemma BoxIsA4()
    ensures FirstFourOf(After(Dictionary(3), "/MediaBox")) == A4
  {
    PageBox();
  }

  lemma LinesReadBack(lines: seq<string>)
    ensures ReadDocument(FileOf(Objects(ContentOf(lines)))) == Some(Page(A4, "/Helvetica", PrintableLines(lines)))
  {
    var content := ContentOf(lines);
    var f := FileOf(Objects(content));
    TableLeadsToObjects(content, 0);
    HeaderStarts(Objects(content));
    PageFound(content);
    ContentsFound(content);
    FontFound(content);
    TextReadsBack(lines);
    BoxIsA4();
    ReadsAs(f, Dictionary(3), TextObject("/F1", PrintableLines(lines)), "/Helvetica");
  }

  /** A reader that knows only the file finds one page of the size of a sheet of A4,
      its text in Helvetica, and the document's lines, printable, whatever the title,
      the file name and the version. */
  lemma DocumentReadsBack(title: string, fileName: string, version: int)
    ensures var lines := DocumentLines(title, fileName, version);
            ReadDocument(FileOf(Objects(ContentOf(lines)))) == Some(Page(A4, "/Helvetica", PrintableLines(lines)))
  {
    LinesReadBack(DocumentLines(title, fileName, version));
  }

  /** Lines two to four show the title, the file name and the version. */
  lemma DocumentTells(title: string, fileName: string, version: int)
    ensures var lines := PrintableLines(DocumentLines(title, fileName, version));
            && |lines| == 6 && lines[1] == "Title: " + Printable(title) && lines[2] == "File: " + Printable(fileName)
            && lines[3] == "Version: " + FormatInt(version)
  {
  }
}
