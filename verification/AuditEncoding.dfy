/** Reading the hashed text back: quoted strings end where they say they do, so
    canonical JSON is the text of one value only, and the envelope tells the
    details and the instant of its row. */
module AuditEncoding {
  import opened Text
  import opened AuditHash

  /** What JSON quoting and the layout of an instant keep: a quoted string begins
      with a quote and shows where it ends, different instants have different texts. */
  ghost predicate FaithfulText(h: Primitives)
  {
    && (forall s :: h.quote(s) != "" && h.quote(s)[0] == '"')
    && SelfDelimiting(h.quote)
    && (forall m, n :: h.layout(m) == h.layout(n) ==> m == n)
  }

  ghost predicate SelfDelimiting(quote: string -> string)
  {
    forall a, b, x, y :: quote(a) + x == quote(b) + y ==> a == b && x == y
  }

  /** Strings between quotes, quotes and backslashes escaped. */
  function Quoted(s: string): string { "\"" + EscapedText(s) + "\"" }

  function EscapeMark(c: char): string { if c == '"' || c == '\\' then ['\\', c] else [c] }

  function EscapedText(s: string): string { if s == "" then "" else EscapeMark(s[0]) + EscapedText(s[1..]) }

  lemma {:induction false} EndsAtQuote(a: string, x: string)
    ensures var s := EscapedText(a) + ("\"" + x); s != "" && (s[0] == '"' <==> a == "")
  {
  }

  lemma {:induction false} EscapedCut(a: string, b: string, x: string, y: string)
    requires EscapedText(a) + ("\"" + x) == EscapedText(b) + ("\"" + y)
    ensures a == b && x == y
  {
    EndsAtQuote(a, x);
    EndsAtQuote(b, y);
    if a == "" {
      assert "" + ("\"" + x) == "\"" + x && "" + ("\"" + y) == "\"" + y;
      SameAfter("\"", x, y);
    } else {
      var (more, rest) := (EscapedText(a[1..]) + ("\"" + x), EscapedText(b[1..]) + ("\"" + y));
      Assoc(EscapeMark(a[0]), EscapedText(a[1..]), "\"" + x);
      Assoc(EscapeMark(b[0]), EscapedText(b[1..]), "\"" + y);
      MarkCut(a[0], b[0], more, rest);
      EscapedCut(a[1..], b[1..], x, y);
      assert a == [a[0]] + a[1..] && b == [b[0]] + b[1..];
    }
  }

  lemma MarkCut(c: char, d: char, x: string, y: string)
    requires EscapeMark(c) + x == EscapeMark(d) + y
    ensures c == d && x == y
  {
    var (s, t) := (EscapeMark(c) + x, EscapeMark(d) + y);
    assert s[0] == EscapeMark(c)[0] && t[0] == EscapeMark(d)[0];
    assert |EscapeMark(c)| == 2 ==> s[1] == c;
    assert |EscapeMark(d)| == 2 ==> t[1] == d;
    assert s[|EscapeMark(c)|..] == x && t[|EscapeMark(d)|..] == y;
  }

  /** There is such quoting. */
  lemma QuotedIsFaithful(sha256Hex: string -> string)
    ensures FaithfulText(Primitives(sha256Hex, (n: nat) => Decimal(n), (s: string) => Quoted(s)))
  {
    var quote := (s: string) => Quoted(s);
    forall a, b, x, y | quote(a) + x == quote(b) + y ensures a == b && x == y {
      QuotedCut(a, b, x, y);
    }
    forall m: nat, n: nat | Decimal(m) == Decimal(n) ensures m == n {
      DecimalRoundTrip(m);
      DecimalRoundTrip(n);
    }
  }

  lemma QuotedCut(a: string, b: string, x: string, y: string)
    requires Quoted(a) + x == Quoted(b) + y
    ensures a == b && x == y
  {
    var (s, t) := (EscapedText(a) + ("\"" + x), EscapedText(b) + ("\"" + y));
    assert Quoted(a) + x == "\"" + s && Quoted(b) + y == "\"" + t;
    assert ("\"" + s)[1..] == s && ("\"" + t)[1..] == t;
    EscapedCut(a, b, x, y);
  }

  predicate IsMark(c: char) { c == '"' || c == ',' || c == ':' || c == '[' || c == ']' || c == '{' || c == '}' }

  /** A number, true, false or null. */
  predicate Bare(text: string) { text != "" && forall i :: 0 <= i < |text| ==> !IsMark(text[i]) }

  ghost predicate IsQuoted(h: Primitives, text: string) { exists s :: text == h.quote(s) }

  ghost predicate ScalarText(h: Primitives, text: string) { Bare(text) || IsQuoted(h, text) }

  /** Every scalar of a value is spelled as JSON spells scalars. */
  ghost predicate Spelled(h: Primitives, j: Json) { ScalarsAre(j, text => ScalarText(h, text)) }

  ghost predicate AllSpelled(h: Primitives, items: seq<Json>) { forall i :: 0 <= i < |items| ==> Spelled(h, items[i]) }

  ghost predicate MembersSpelled(h: Primitives, members: seq<(string, Json)>)
  {
    forall i :: 0 <= i < |members| ==> Spelled(h, members[i].1)
  }

  // ----- where a value ends -----------------------------------------------

  /** What may follow a value inside a larger one. */
  predicate Stops(x: string) { x == "" || x[0] == ',' || x[0] == ']' || x[0] == '}' }

  lemma BareCut(t: string, u: string, x: string, y: string)
    requires Bare(t) && Bare(u) && Stops(x) && Stops(y) && t + x == u + y
    ensures t == u && x == y
  {
    NotLonger(t, u, x, y);
    NotLonger(u, t, y, x);
    assert (t + x)[..|t|] == t && (u + y)[..|u|] == u && (t + x)[|t|..] == x && (u + y)[|u|..] == y;
  }

  lemma NotLonger(t: string, u: string, x: string, y: string)
    requires Bare(u) && Stops(x) && t + x == u + y
    ensures |u| <= |t|
  {
    assert x != "" ==> (t + x)[|t|] == x[0];
  }

  /** The text that follows the first part of a list or an object. */
  function Tail(parts: seq<string>, close: string, x: string): string
  {
    if parts == [] then close + x else "," + (parts[0] + Tail(parts[1..], close, x))
  }

  lemma {:induction false} JoinedTail(parts: seq<string>, close: string, x: string)
    requires parts != []
    ensures (Join(parts, ',') + close) + x == parts[0] + Tail(parts[1..], close, x)
  {
    if |parts| == 1 {
      Assoc(parts[0], close, x);
    } else {
      JoinedTail(parts[1..], close, x);
      var more := Join(parts[1..], ',');
      assert Join(parts, ',') == parts[0] + ("," + more);
      Assoc(parts[0] + ("," + more), close, x);
      Assoc(parts[0], "," + more, close + x);
      Assoc(",", more, close + x);
      Assoc(more, close, x);
    }
  }

  function Texts(h: Primitives, items: seq<Json>): seq<string>
  {
    seq(|items|, i requires 0 <= i < |items| => Encode(h, items[i]))
  }

  function MemberText(h: Primitives, m: (string, Json)): string { h.quote(m.0) + ":" + Encode(h, m.1) }

  function MemberTexts(h: Primitives, members: seq<(string, Json)>): seq<string>
  {
    seq(|members|, i requires 0 <= i < |members| => MemberText(h, members[i]))
  }

  /** The first character of a value's text, which tells what kind of value it is. */
  lemma {:induction false} FirstMark(h: Primitives, j: Json)
    requires FaithfulText(h) && Spelled(h, j)
    ensures var s := Encode(h, j);
            && s != "" && s[0] != ']' && s[0] != '}' && s[0] != ','
            && (s[0] == '[' <==> j.List?) && (s[0] == '{' <==> j.Object?)
  {
  }

  /** The text of a list or an object behind its opening bracket. */
  function Opened(parts: seq<string>, close: string, x: string): string
  {
    if parts == [] then close + x else parts[0] + Tail(parts[1..], close, x)
  }

  lemma {:induction false} ListText(h: Primitives, items: seq<Json>, x: string)
    ensures Encode(h, List(items)) + x == "[" + Opened(Texts(h, items), "]", x)
  {
    var parts := Texts(h, items);
    assert Encode(h, List(items)) == "[" + Join(parts, ',') + "]";
    Bracketed("[", parts, "]", x);
  }

  lemma {:induction false} ObjectText(h: Primitives, members: seq<(string, Json)>, x: string)
    ensures EncodeMembers(h, members) + x == "{" + Opened(MemberTexts(h, members), "}", x)
  {
    var parts := MemberTexts(h, members);
    assert parts == seq(|members|, i requires 0 <= i < |members| =>
                          h.quote(members[i].0) + ":" + Encode(h, members[i].1));
    Bracketed("{", parts, "}", x);
  }

  lemma {:induction false} Bracketed(start: string, parts: seq<string>, close: string, x: string)
    ensures (start + Join(parts, ',') + close) + x == start + Opened(parts, close, x)
  {
    Assoc(start, Join(parts, ','), close);
    Assoc(start, Join(parts, ',') + close, x);
    if parts != [] {
      JoinedTail(parts, close, x);
    } else {
      assert "" + close == close;
    }
  }

  lemma SameAfter(c: string, a: string, b: string)
    requires c + a == c + b
    ensures a == b
  {
    assert (c + a)[|c|..] == a && (c + b)[|c|..] == b;
  }

  lemma QuoteCut(h: Primitives, a: string, b: string, x: string, y: string)
    requires FaithfulText(h) && h.quote(a) + x == h.quote(b) + y
    ensures a == b && x == y
  {
  }

  /** A text tells the value it begins with, and where that value ends. */
  lemma {:induction false} EncodeCut(h: Primitives, j: Json, k: Json, x: string, y: string)
    requires FaithfulText(h) && Spelled(h, j) && Spelled(h, k) && Stops(x) && Stops(y)
    requires Encode(h, j) + x == Encode(h, k) + y
    ensures j == k && x == y
    decreases j, 1
  {
    FirstMark(h, j);
    FirstMark(h, k);
    assert (Encode(h, j) + x)[0] == Encode(h, j)[0] && (Encode(h, k) + y)[0] == Encode(h, k)[0];
    match (j, k)
    case (Scalar(t), Scalar(u)) => ScalarCut(h, t, u, x, y);
    case (List(s), List(t)) => ListCut(h, j, s, t, x, y);
    case (Object(s), Object(t)) => ObjectCut(h, j, s, t, x, y);
    case _ =>
  }

  lemma ScalarCut(h: Primitives, t: string, u: string, x: string, y: string)
    requires FaithfulText(h) && ScalarText(h, t) && ScalarText(h, u) && Stops(x) && Stops(y) && t + x == u + y
    ensures t == u && x == y
  {
    assert (t + x)[0] == t[0] && (u + y)[0] == u[0];
    if Bare(t) && Bare(u) {
      BareCut(t, u, x, y);
    } else {
      var a :| t == h.quote(a);
      var b :| u == h.quote(b);
      QuoteCut(h, a, b, x, y);
    }
  }

  lemma {:induction false} ListCut(h: Primitives, parent: Json, s: seq<Json>, t: seq<Json>, x: string, y: string)
    requires FaithfulText(h) && AllSpelled(h, s) && AllSpelled(h, t) && forall i :: 0 <= i < |s| ==> s[i] < parent
    requires Encode(h, List(s)) + x == Encode(h, List(t)) + y
    ensures s == t && x == y
    decreases parent, 0, |s| + 1
  {
    ListText(h, s, x);
    ListText(h, t, y);
    var (after, afterT) := (Opened(Texts(h, s), "]", x), Opened(Texts(h, t), "]", y));
    SameAfter("[", after, afterT);
    if s == [] || t == [] {
      FirstOpened(h, s, x);
      FirstOpened(h, t, y);
      SameAfter("]", x, y);
    } else {
      ItemsCut(h, parent, s, t, x, y);
    }
  }

  lemma FirstOpened(h: Primitives, s: seq<Json>, x: string)
    requires FaithfulText(h) && AllSpelled(h, s)
    ensures Opened(Texts(h, s), "]", x) != "" && (Opened(Texts(h, s), "]", x)[0] == ']' <==> s == [])
  {
    if s != [] {
      FirstMark(h, s[0]);
    }
  }

  lemma {:induction false} TailStops(parts: seq<string>, close: string, x: string)
    requires close == "]" || close == "}"
    ensures Stops(Tail(parts, close, x)) && Tail(parts, close, x) != ""
    ensures Tail(parts, close, x)[0] == ',' <==> parts != []
  {
  }

  lemma {:induction false} ItemsCut(h: Primitives, parent: Json, s: seq<Json>, t: seq<Json>, x: string, y: string)
    requires FaithfulText(h) && AllSpelled(h, s) && AllSpelled(h, t) && forall i :: 0 <= i < |s| ==> s[i] < parent
    requires s != [] && t != [] && Opened(Texts(h, s), "]", x) == Opened(Texts(h, t), "]", y)
    ensures s == t && x == y
    decreases parent, 0, |s|
  {
    var (s', t') := (s[1..], t[1..]);
    var (ps, pt) := (Texts(h, s'), Texts(h, t'));
    assert Texts(h, s)[1..] == ps && Texts(h, t)[1..] == pt;
    var (tail, tailT) := (Tail(ps, "]", x), Tail(pt, "]", y));
    TailStops(ps, "]", x);
    TailStops(pt, "]", y);
    EncodeCut(h, s[0], t[0], tail, tailT);
    assert s == [s[0]] + s' && t == [t[0]] + t';
    if s' == [] {
      SameAfter("]", x, y);
    } else {
      SameAfter(",", Opened(ps, "]", x), Opened(pt, "]", y));
      ItemsCut(h, parent, s', t', x, y);
    }
  }

  lemma {:induction false} ObjectCut(h: Primitives, parent: Json, s: seq<(string, Json)>, t: seq<(string, Json)>,
                                     x: string, y: string)
    requires FaithfulText(h) && MembersSpelled(h, s) && MembersSpelled(h, t)
    requires forall i :: 0 <= i < |s| ==> s[i].1 < parent
    requires EncodeMembers(h, s) + x == EncodeMembers(h, t) + y
    ensures s == t && x == y
    decreases parent, 0, |s| + 1
  {
    ObjectText(h, s, x);
    ObjectText(h, t, y);
    var (after, afterT) := (Opened(MemberTexts(h, s), "}", x), Opened(MemberTexts(h, t), "}", y));
    SameAfter("{", after, afterT);
    if s == [] || t == [] {
      FirstMember(h, s, x);
      FirstMember(h, t, y);
      SameAfter("}", x, y);
    } else {
      MembersCut(h, parent, s, t, x, y);
    }
  }

  lemma FirstMember(h: Primitives, s: seq<(string, Json)>, x: string)
    requires FaithfulText(h)
    ensures Opened(MemberTexts(h, s), "}", x) != "" && (Opened(MemberTexts(h, s), "}", x)[0] == '}' <==> s == [])
  {
    if s != [] {
      assert h.quote(s[0].0)[0] == '"';
    }
  }

  lemma MemberCut(h: Primitives, parent: Json, m: (string, Json), n: (string, Json), x: string, y: string)
    requires FaithfulText(h) && Spelled(h, m.1) && Spelled(h, n.1) && Stops(x) && Stops(y) && m.1 < parent
    requires MemberText(h, m) + x == MemberText(h, n) + y
    ensures m == n && x == y
    decreases parent, 0, 0
  {
    var (v, w) := (Encode(h, m.1), Encode(h, n.1));
    MemberApart(h.quote(m.0), v, x);
    MemberApart(h.quote(n.0), w, y);
    QuoteCut(h, m.0, n.0, ":" + (v + x), ":" + (w + y));
    SameAfter(":", v + x, w + y);
    EncodeCut(h, m.1, n.1, x, y);
  }

  lemma MemberApart(key: string, v: string, x: string)
    ensures (key + ":" + v) + x == key + (":" + (v + x))
  {
    Assoc(key + ":", v, x);
    Assoc(key, ":", v + x);
  }

  lemma {:induction false} MembersCut(h: Primitives, parent: Json, s: seq<(string, Json)>, t: seq<(string, Json)>,
                                      x: string, y: string)
    requires FaithfulText(h) && MembersSpelled(h, s) && MembersSpelled(h, t)
    requires forall i :: 0 <= i < |s| ==> s[i].1 < parent
    requires s != [] && t != [] && Opened(MemberTexts(h, s), "}", x) == Opened(MemberTexts(h, t), "}", y)
    ensures s == t && x == y
    decreases parent, 0, |s|
  {
    var (s', t') := (s[1..], t[1..]);
    var (ps, pt) := (MemberTexts(h, s'), MemberTexts(h, t'));
    assert MemberTexts(h, s)[1..] == ps && MemberTexts(h, t)[1..] == pt;
    var (tail, tailT) := (Tail(ps, "}", x), Tail(pt, "}", y));
    TailStops(ps, "}", x);
    TailStops(pt, "}", y);
    MemberCut(h, parent, s[0], t[0], tail, tailT);
    assert s == [s[0]] + s' && t == [t[0]] + t';
    if s' == [] {
      SameAfter("}", x, y);
    } else {
      SameAfter(",", Opened(ps, "}", x), Opened(pt, "}", y));
      MembersCut(h, parent, s', t', x, y);
    }
  }

  // ----- details ----------------------------------------------------------

  /** Details as a jsonb column gives them: scalars spelled as JSON, and what is no
      object does not begin like one. */
  ghost predicate Readable(h: Primitives, d: Details)
  {
    match d
    case Absent => true
    case Members(members) => MembersSpelled(h, members)
    case NotAnObject(raw) => raw != "" && raw[0] != '{'
  }

  /** The members of an object; an absent value counts as the empty one. */
  function MembersOf(d: Details): seq<(string, Json)>
    requires !d.NotAnObject?
  {
    if d.Members? then d.members else []
  }

  /** Details that denote the same JSON. */
  ghost predicate SameDetails(a: Details, b: Details)
  {
    if a.NotAnObject? || b.NotAnObject? then a == b else SameMembers(MembersOf(a), MembersOf(b))
  }

  lemma {:induction false} CanonicalIsSpelled(h: Primitives, members: seq<(string, Json)>)
    requires MembersSpelled(h, members)
    ensures MembersSpelled(h, CanonicalMembers(members, |members|))
  {
    CanonicalMembersKeepScalars(members, |members|, text => ScalarText(h, text));
  }

  lemma {:induction false} RecanonicalizeOfMembers(h: Primitives, d: Details)
    requires !d.NotAnObject?
    ensures Recanonicalize(h, d) == EncodeMembers(h, CanonicalMembers(MembersOf(d), |MembersOf(d)|))
    ensures Recanonicalize(h, d)[0] == '{'
  {
  }

  /** The hashed text of details is that of others if and only if both denote the
      same JSON: no edit of a value, key or nesting keeps it. */
  lemma HashedDetailsIff(h: Primitives, a: Details, b: Details)
    requires FaithfulText(h) && Readable(h, a) && Readable(h, b)
    ensures Recanonicalize(h, a) == Recanonicalize(h, b) <==> SameDetails(a, b)
  {
    if !a.NotAnObject? && !b.NotAnObject? {
      var (s, t) := (MembersOf(a), MembersOf(b));
      SameIffOneCanonicalList(s, t);
      RecanonicalizeOfMembers(h, a);
      RecanonicalizeOfMembers(h, b);
      if Recanonicalize(h, a) == Recanonicalize(h, b) {
        CanonicalIsSpelled(h, s);
        CanonicalIsSpelled(h, t);
        var (cs, ct) := (CanonicalMembers(s, |s|), CanonicalMembers(t, |t|));
        ObjectCut(h, Object(cs), cs, ct, "", "");
      }
    } else if !a.NotAnObject? {
      RecanonicalizeOfMembers(h, a);
    } else if !b.NotAnObject? {
      RecanonicalizeOfMembers(h, b);
    }
  }
}
