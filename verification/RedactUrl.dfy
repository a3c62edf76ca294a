/** The bounded renderers of a request's query and path. Text is a sequence of
    Unicode characters. */
module RedactUrl {
  import opened Text

  const REDACTED := "[redacted]"
  const ELLIPSIS := "\U{2026}"
  const MAX_QUERY_PAIRS := 24
  const MAX_KEY_RUNES := 64
  const MAX_PATH_SEGMENTS := 16
  const MAX_SEGMENT_RUNES := 96

  predicate IsSegmentRune(r: char)
  {
    'a' <= r <= 'z' || 'A' <= r <= 'Z' || '0' <= r <= '9' || r == '-' || r == '_' || r == '.'
  }

  predicate IsKeyRune(r: char) { r == '[' || r == ']' || IsSegmentRune(r) }

  predicate IsPlainKey(key: string) { 0 < |key| <= MAX_KEY_RUNES && forall i :: 0 <= i < |key| ==> IsKeyRune(key[i]) }

  predicate IsPlainSegment(s: string) { |s| <= MAX_SEGMENT_RUNES && forall i :: 0 <= i < |s| ==> IsSegmentRune(s[i]) }

  method SafeKey(key: string) returns (r: string)
    ensures r == if IsPlainKey(key) then key else REDACTED
  {
    if key == "" {
      return REDACTED;
    }
    var runes := 0;
    for i := 0 to |key|
      invariant runes == i <= MAX_KEY_RUNES && forall j :: 0 <= j < i ==> IsKeyRune(key[j])
    {
      runes := runes + 1;
      if runes > MAX_KEY_RUNES || !IsKeyRune(key[i]) {
        return REDACTED;
      }
    }
    return key;
  }

  method SafeSegment(segment: string) returns (r: string)
    ensures r == if IsPlainSegment(segment) then segment else REDACTED
  {
    var runes := 0;
    for i := 0 to |segment|
      invariant runes == i <= MAX_SEGMENT_RUNES && forall j :: 0 <= j < i ==> IsSegmentRune(segment[j])
    {
      runes := runes + 1;
      if runes > MAX_SEGMENT_RUNES || !IsSegmentRune(segment[i]) {
        return REDACTED;
      }
    }
    return segment;
  }

  // ----- queries ----------------------------------------------------------

  /** The text before the first `c`, or all of it. */
  function Before(s: string, c: char): (r: string)
    ensures Free(r, c) && r <= s
    ensures c in s ==> |r| < |s| && s[|r|] == c
    ensures c !in s ==> r == s
  {
    if s == "" || s[0] == c then ""
    else
      var r := Before(s[1..], c);
      assert s == [s[0]] + s[1..];
      [s[0]] + r
  }

  lemma {:induction false} BeforeSeparator(a: string, b: string, c: char)
    requires Free(a, c)
    ensures Before(a + [c] + b, c) == a
  {
    var s := a + [c] + b;
    if a != "" {
      assert a[0] in a && s[0] == a[0] && s[1..] == a[1..] + [c] + b;
      BeforeSeparator(a[1..], b, c);
    }
  }

  function SafePair(pair: string): string
  {
    if '=' !in pair then REDACTED
    else (if IsPlainKey(Before(pair, '=')) then Before(pair, '=') else REDACTED) + "=" + REDACTED
  }

  /** The rendered pairs of the remaining tokens, `pairs` of them rendered already. */
  function RedactPairs(tokens: seq<string>, pairs: nat): seq<string>
  {
    if tokens == [] then []
    else if tokens[0] == "" then RedactPairs(tokens[1..], pairs)
    else if pairs >= MAX_QUERY_PAIRS then [ELLIPSIS]
    else [SafePair(tokens[0])] + RedactPairs(tokens[1..], pairs + 1)
  }

  function TrimQuestion(raw: string): string { if raw != "" && raw[0] == '?' then raw[1..] else raw }

  function RedactedQuery(raw: string): string { Join(RedactPairs(Split(TrimQuestion(raw), '&'), 0), '&') }

  /** Joining one more part. */
  lemma {:induction false} JoinAppend(parts: seq<string>, part: string, sep: char)
    requires |parts| > 0
    ensures Join(parts + [part], sep) == Join(parts, sep) + [sep] + part
  {
    if |parts| > 1 {
      JoinAppend(parts[1..], part, sep);
      assert (parts + [part])[1..] == parts[1..] + [part];
    } else {
      assert (parts + [part])[1..] == [part];
    }
  }

  lemma Regroup(front: seq<string>, x: string, rest: seq<string>)
    ensures front + ([x] + rest) == (front + [x]) + rest
  {
  }

  method RenderPair(pair: string) returns (r: string)
    ensures r == SafePair(pair)
  {
    if '=' !in pair {
      r := REDACTED;
    } else {
      var key := SafeKey(Before(pair, '='));
      r := key + "=" + REDACTED;
    }
  }

  /** One more rendered pair, after a separator unless it is the first. */
  method WritePair(b: string, pairs: nat, token: string, ghost written: seq<string>) returns (r: string)
    requires b == Join(written, '&') && pairs == |written|
    ensures r == Join(written + [SafePair(token)], '&')
  {
    r := b;
    if pairs > 0 {
      JoinAppend(written, SafePair(token), '&');
      r := r + "&";
    }
    var rendered := RenderPair(token);
    r := r + rendered;
  }

  method RedactQuery(raw: string) returns (b: string)
    ensures b == RedactedQuery(raw)
  {
    var query := TrimQuestion(raw);
    if query == "" {
      assert RedactPairs([""], 0) == [];
      return "";
    }
    b := "";
    var tokens := Split(query, '&');
    var pairs: nat := 0;
    ghost var written: seq<string> := [];
    for i := 0 to |tokens|
      invariant b == Join(written, '&') && pairs == |written|
      invariant written + RedactPairs(tokens[i..], pairs) == RedactPairs(tokens, 0)
    {
      if tokens[i] == "" {
        continue;
      }
      if pairs >= MAX_QUERY_PAIRS {
        JoinAppend(written, ELLIPSIS, '&');
        return b + "&" + ELLIPSIS;
      }
      b := WritePair(b, pairs, tokens[i], written);
      Regroup(written, SafePair(tokens[i]), RedactPairs(tokens[i + 1..], pairs + 1));
      written := written + [SafePair(tokens[i])];
      pairs := pairs + 1;
    }
    assert written + RedactPairs([], pairs) == written;
  }

  /** A rendered pair: the marker alone, or a plain key (which the marker is too) with the marker as its value. */
  ghost predicate IsCleanPair(t: string) { t == REDACTED || exists key :: IsPlainKey(key) && t == key + "=" + REDACTED }

  ghost predicate AllCleanPairs(ts: seq<string>) { forall i :: 0 <= i < |ts| ==> IsCleanPair(ts[i]) }

  /** At most 24 rendered pairs, and after exactly 24 possibly an ellipsis. */
  ghost predicate QueryShape(ts: seq<string>)
  {
    || (|ts| <= MAX_QUERY_PAIRS && AllCleanPairs(ts))
    || (|ts| == MAX_QUERY_PAIRS + 1 && AllCleanPairs(ts[..MAX_QUERY_PAIRS]) && ts[MAX_QUERY_PAIRS] == ELLIPSIS)
  }

  lemma SafePairIsClean(pair: string)
    ensures IsCleanPair(SafePair(pair))
  {
    assert IsPlainKey(REDACTED);
  }

  lemma CleanPairIsFixed(t: string)
    requires IsCleanPair(t)
    ensures t != "" && SafePair(t) == t && Free(t, '&') && t[0] != '?' && t != ELLIPSIS
  {
    if t != REDACTED {
      var key :| IsPlainKey(key) && t == key + "=" + REDACTED;
      assert Free(key, '=') && Free(key, '&') by { PlainKeysAreFree(key); }
      BeforeSeparator(key, REDACTED, '=');
      assert t[0] == key[0] && IsKeyRune(key[0]);
    }
  }

  lemma PlainKeysAreFree(key: string)
    requires IsPlainKey(key)
    ensures Free(key, '=') && Free(key, '&')
  {
  }

  lemma {:induction false} RenderedPairsHaveShape(tokens: seq<string>, pairs: nat, done: seq<string>)
    requires pairs == |done| <= MAX_QUERY_PAIRS && AllCleanPairs(done)
    ensures QueryShape(done + RedactPairs(tokens, pairs))
    decreases |tokens|
  {
    if tokens == [] {
      assert done + [] == done;
    } else if tokens[0] == "" {
      RenderedPairsHaveShape(tokens[1..], pairs, done);
    } else if pairs >= MAX_QUERY_PAIRS {
      assert (done + [ELLIPSIS])[..MAX_QUERY_PAIRS] == done;
    } else {
      SafePairIsClean(tokens[0]);
      RenderedPairsHaveShape(tokens[1..], pairs + 1, done + [SafePair(tokens[0])]);
      Regroup(done, SafePair(tokens[0]), RedactPairs(tokens[1..], pairs + 1));
    }
  }

  /** Rendered tokens pass through unchanged. */
  lemma {:induction false} ShapeIsFixed(ts: seq<string>, n: nat)
    requires QueryShape(ts) && n <= |ts|
    ensures RedactPairs(ts[n..], n) == ts[n..]
    decreases |ts| - n
  {
    if n < |ts| {
      if n < MAX_QUERY_PAIRS {
        CleanPairIsFixed(ts[n]);
        ShapeIsFixed(ts, n + 1);
      }
      assert [ts[n]] + ts[n + 1..] == ts[n..];
    }
  }

  lemma ShapeTokensAreFree(ts: seq<string>)
    requires QueryShape(ts)
    ensures AllFree(ts, '&') && (ts != [] ==> ts[0] != "" && ts[0][0] != '?')
    ensures forall i :: 0 <= i < |ts| ==> ts[i] != ""
  {
    forall i | 0 <= i < |ts| ensures Free(ts[i], '&') && ts[i] != "" && (i == 0 ==> ts[i][0] != '?') {
      if i < MAX_QUERY_PAIRS {
        CleanPairIsFixed(ts[i]);
      }
    }
  }

  lemma {:induction false} JoinStart(ts: seq<string>, sep: char)
    requires ts != [] && ts[0] != ""
    ensures Join(ts, sep) != "" && Join(ts, sep)[0] == ts[0][0]
  {
  }

  /** A query has the rendered shape when it is empty or its tokens do. */
  ghost predicate IsRenderedQuery(q: string) { q == "" || QueryShape(Split(q, '&')) }

  lemma OutputIsRendered(raw: string)
    ensures IsRenderedQuery(RedactedQuery(raw))
  {
    var ts := RedactPairs(Split(TrimQuestion(raw), '&'), 0);
    RenderedPairsHaveShape(Split(TrimQuestion(raw), '&'), 0, []);
    assert [] + ts == ts;
    if ts != [] {
      ShapeTokensAreFree(ts);
      SplitOfJoin(ts, '&');
    }
  }

  lemma RenderedIsFixed(q: string)
    requires IsRenderedQuery(q)
    ensures RedactedQuery(q) == q
  {
    if q == "" {
      assert RedactPairs([""], 0) == [];
    } else {
      var ts := Split(q, '&');
      ShapeTokensAreFree(ts);
      JoinOfSplit(q, '&');
      JoinStart(ts, '&');
      ShapeIsFixed(ts, 0);
      assert ts[0..] == ts;
    }
  }

  /** The renderer leaves exactly the rendered queries alone, every output is
      one, and so rendering twice is rendering once. */
  lemma RedactQueryIsIdempotent(raw: string)
    ensures RedactedQuery(RedactedQuery(raw)) == RedactedQuery(raw)
    ensures RedactedQuery(raw) == raw <==> IsRenderedQuery(raw)
  {
    OutputIsRendered(raw);
    RenderedIsFixed(RedactedQuery(raw));
    if IsRenderedQuery(raw) {
      RenderedIsFixed(raw);
    }
  }

  /** Nothing but the keys of "key=value" tokens reaches the output. */
  ghost predicate SameKeys(a: seq<string>, b: seq<string>)
  {
    && |a| == |b|
    && forall i :: 0 <= i < |a| ==>
                     && (a[i] == "" <==> b[i] == "") && ('=' in a[i] <==> '=' in b[i])
                     && ('=' in a[i] ==> Before(a[i], '=') == Before(b[i], '='))
  }

  lemma {:induction false} PairsHideValues(a: seq<string>, b: seq<string>, pairs: nat)
    requires SameKeys(a, b)
    ensures RedactPairs(a, pairs) == RedactPairs(b, pairs)
    decreases |a|
  {
    if a != [] {
      assert (a[0] == "" <==> b[0] == "") && SafePair(a[0]) == SafePair(b[0]);
      assert forall i :: 0 <= i < |a| - 1 ==> a[1..][i] == a[i + 1] && b[1..][i] == b[i + 1];
      PairsHideValues(a[1..], b[1..], pairs);
      PairsHideValues(a[1..], b[1..], pairs + 1);
    }
  }

  /** Two queries that differ in values only, or in the text of tokens that have
      no "=", are rendered alike. */
  lemma RedactQueryHidesValues(p: string, q: string)
    requires SameKeys(Split(TrimQuestion(p), '&'), Split(TrimQuestion(q), '&'))
    ensures RedactedQuery(p) == RedactedQuery(q)
  {
    PairsHideValues(Split(TrimQuestion(p), '&'), Split(TrimQuestion(q), '&'), 0);
  }

  // ----- paths ------------------------------------------------------------

  /** The path before any query or fragment. */
  function PathOnly(p: string): (r: string)
    ensures Free(r, '?') && Free(r, '#')
  {
    if p == "" || p[0] == '?' || p[0] == '#' then "" else [p[0]] + PathOnly(p[1..])
  }

  lemma {:induction false} PathOnlyOfPath(p: string)
    requires Free(p, '?') && Free(p, '#')
    ensures PathOnly(p) == p
  {
    if p != "" {
      assert p[0] in p;
      PathOnlyOfPath(p[1..]);
      assert p == [p[0]] + p[1..];
    }
  }

  function SafePart(s: string): string { if IsPlainSegment(s) then s else REDACTED }

  function RedactSegments(segments: seq<string>, kept: nat): seq<string>
  {
    if segments == [] then []
    else if segments[0] == "" then [""] + RedactSegments(segments[1..], kept)
    else if kept >= MAX_PATH_SEGMENTS then [ELLIPSIS]
    else [SafePart(segments[0])] + RedactSegments(segments[1..], kept + 1)
  }

  function RedactedPath(p: string): string
  {
    var path := PathOnly(p);
    if path == "" then "/" else Join(RedactSegments(Split(path, '/'), 0), '/')
  }

  lemma {:induction false} SegmentsStep(segments: seq<string>, i: nat, kept: nat)
    requires i < |segments|
    ensures RedactSegments(segments[i..], kept)
            == if segments[i] == "" then [""] + RedactSegments(segments[i + 1..], kept)
               else if kept >= MAX_PATH_SEGMENTS then [ELLIPSIS]
               else [SafePart(segments[i])] + RedactSegments(segments[i + 1..], kept + 1)
  {
    assert segments[i..][1..] == segments[i + 1..];
  }

  method RedactPath(p: string) returns (r: string)
    ensures r == RedactedPath(p)
  {
    var path := PathOnly(p);
    if path == "" {
      return "/";
    }
    var segments := Split(path, '/');
    var out: seq<string> := [];
    var kept: nat := 0;
    for i := 0 to |segments|
      invariant out + RedactSegments(segments[i..], kept) == RedactSegments(segments, 0)
    {
      SegmentsStep(segments, i, kept);
      if segments[i] == "" {
        Regroup(out, "", RedactSegments(segments[i + 1..], kept));
        out := out + [""];
        continue;
      }
      if kept >= MAX_PATH_SEGMENTS {
        out := out + [ELLIPSIS];
        return Join(out, '/');
      }
      var safe := SafeSegment(segments[i]);
      Regroup(out, safe, RedactSegments(segments[i + 1..], kept + 1));
      out := out + [safe];
      kept := kept + 1;
    }
    assert out + RedactSegments([], kept) == out;
    return Join(out, '/');
  }

  function NonEmpty(segments: seq<string>): nat
  {
    if segments == [] then 0
    else NonEmpty(segments[..|segments| - 1]) + (if segments[|segments| - 1] == "" then 0 else 1)
  }

  predicate IsCleanSegment(s: string) { s == REDACTED || IsPlainSegment(s) }

  predicate AllCleanSegments(ss: seq<string>) { forall i :: 0 <= i < |ss| ==> IsCleanSegment(ss[i]) }

  predicate CleanPath(ss: seq<string>) { AllCleanSegments(ss) && NonEmpty(ss) <= MAX_PATH_SEGMENTS }

  predicate CutPath(ss: seq<string>)
  {
    && |ss| > 0 && ss[|ss| - 1] == ELLIPSIS
    && AllCleanSegments(ss[..|ss| - 1]) && NonEmpty(ss[..|ss| - 1]) == MAX_PATH_SEGMENTS
  }

  /** Clean segments, at most 16 of them not empty; after exactly 16 the last may be an ellipsis. */
  predicate PathShape(ss: seq<string>) { CleanPath(ss) || CutPath(ss) }

  lemma {:induction false} NonEmptyAppend(ss: seq<string>, s: string)
    ensures NonEmpty(ss + [s]) == NonEmpty(ss) + (if s == "" then 0 else 1)
  {
    assert (ss + [s])[..|ss|] == ss;
  }

  lemma {:induction false} CutPathAppend(done: seq<string>)
    requires AllCleanSegments(done) && NonEmpty(done) == MAX_PATH_SEGMENTS
    ensures CutPath(done + [ELLIPSIS])
  {
    assert (done + [ELLIPSIS])[..|done|] == done;
  }

  lemma {:induction false} RenderedSegmentsHaveShape(segments: seq<string>, kept: nat, done: seq<string>)
    requires kept == NonEmpty(done) <= MAX_PATH_SEGMENTS && AllCleanSegments(done)
    ensures PathShape(done + RedactSegments(segments, kept))
    decreases |segments|
  {
    if segments == [] {
      assert done + [] == done;
    } else if segments[0] != "" && kept >= MAX_PATH_SEGMENTS {
      CutPathAppend(done);
    } else {
      var s := if segments[0] == "" then "" else SafePart(segments[0]);
      var next := if s == "" then kept else kept + 1;
      NonEmptyAppend(done, s);
      RenderedSegmentsHaveShape(segments[1..], next, done + [s]);
      FirstSegment(segments, kept, done, s, next);
    }
  }

  lemma {:induction false} FirstSegment(segments: seq<string>, kept: nat, done: seq<string>, s: string, next: nat)
    requires segments != [] && (segments[0] == "" || kept < MAX_PATH_SEGMENTS)
    requires s == (if segments[0] == "" then "" else SafePart(segments[0]))
    requires next == if s == "" then kept else kept + 1
    ensures done + RedactSegments(segments, kept) == (done + [s]) + RedactSegments(segments[1..], next)
  {
    Regroup(done, s, RedactSegments(segments[1..], next));
  }

  lemma {:induction false} PathShapeIsFixed(ss: seq<string>, n: nat)
    requires PathShape(ss) && n <= |ss| && NonEmpty(ss[..n]) <= MAX_PATH_SEGMENTS
    ensures RedactSegments(ss[n..], NonEmpty(ss[..n])) == ss[n..]
    decreases |ss| - n
  {
    if n < |ss| {
      var kept := NonEmpty(ss[..n]);
      assert ss[..n + 1] == ss[..n] + [ss[n]];
      NonEmptyAppend(ss[..n], ss[n]);
      CleanOrEllipsis(ss, n);
      if ss[n] == "" || kept < MAX_PATH_SEGMENTS {
        PathShapeIsFixed(ss, n + 1);
      }
      FixedStep(ss, n, kept);
    }
  }

  lemma {:induction false} FixedStep(ss: seq<string>, n: nat, kept: nat)
    requires n < |ss|
    requires if ss[n] == "" then RedactSegments(ss[n + 1..], kept) == ss[n + 1..]
             else if kept >= MAX_PATH_SEGMENTS then n == |ss| - 1 && ss[n] == ELLIPSIS
             else IsCleanSegment(ss[n]) && RedactSegments(ss[n + 1..], kept + 1) == ss[n + 1..]
    ensures RedactSegments(ss[n..], kept) == ss[n..]
  {
    SegmentsStep(ss, n, kept);
    FromHere(ss, n);
    if IsCleanSegment(ss[n]) {
      CleanIsSafe(ss[n]);
    }
  }

  lemma FromHere(ss: seq<string>, n: nat)
    requires n < |ss|
    ensures ss[n..] == [ss[n]] + ss[n + 1..] && (n == |ss| - 1 ==> ss[n..] == [ss[n]])
  {
  }

  lemma CleanIsSafe(s: string)
    requires IsCleanSegment(s)
    ensures SafePart(s) == s
  {
  }

  /** Up to 16 segments in, a segment is clean; past them it is empty or the final ellipsis. */
  lemma CleanOrEllipsis(ss: seq<string>, n: nat)
    requires PathShape(ss) && n < |ss|
    ensures NonEmpty(ss[..n]) < MAX_PATH_SEGMENTS ==> IsCleanSegment(ss[n])
    ensures NonEmpty(ss[..n]) >= MAX_PATH_SEGMENTS && ss[n] != "" ==> n == |ss| - 1 && ss[n] == ELLIPSIS
  {
    var k := if CleanPath(ss) then |ss| else |ss| - 1;
    assert ss[..|ss|] == ss;
    if n < k {
      assert ss[..k][n] == ss[n] && ss[..n + 1][..n] == ss[..n];
      NonEmptyGrows(ss, n + 1, k);
    }
  }

  lemma {:induction false} NonEmptyGrows(ss: seq<string>, m: nat, n: nat)
    requires m <= n <= |ss|
    ensures NonEmpty(ss[..m]) <= NonEmpty(ss[..n])
  {
    if m < n {
      NonEmptyGrows(ss, m, n - 1);
      assert ss[..n][..n - 1] == ss[..n - 1];
    }
  }

  lemma ShapeSegmentsAreFree(ss: seq<string>)
    requires PathShape(ss)
    ensures AllFree(ss, '/') && AllFree(ss, '?') && AllFree(ss, '#')
  {
    forall i | 0 <= i < |ss| ensures Free(ss[i], '/') && Free(ss[i], '?') && Free(ss[i], '#') {
      if ss[i] != ELLIPSIS {
        assert i < |ss| - 1 ==> ss[..|ss| - 1][i] == ss[i];
        assert IsCleanSegment(ss[i]);
      }
    }
  }

  lemma {:induction false} JoinIsFree(parts: seq<string>, sep: char, c: char)
    requires AllFree(parts, c) && c != sep
    ensures Free(Join(parts, sep), c)
  {
    if |parts| > 1 {
      JoinIsFree(parts[1..], sep, c);
      assert Free(parts[0], c);
    }
  }

  /** A rendered path: not empty, and its segments have the shape. */
  predicate IsRenderedPath(p: string) { p != "" && PathShape(Split(p, '/')) }

  lemma {:induction false} SegmentsAreNotLost(segments: seq<string>, kept: nat)
    requires segments != []
    ensures RedactSegments(segments, kept) != []
    ensures RedactSegments(segments, kept) == [""] ==> segments == [""]
  {
    if |segments| > 1 && segments[0] == "" {
      SegmentsAreNotLost(segments[1..], kept);
    }
  }

  lemma PathOutputIsRendered(p: string)
    ensures IsRenderedPath(RedactedPath(p))
  {
    var path := PathOnly(p);
    if path == "" {
      assert Split("/", '/') == ["", ""];
      assert ["", ""][..1] == [""] && [""][..0] == [];
    } else {
      var ss := RedactSegments(Split(path, '/'), 0);
      RenderedSegmentsHaveShape(Split(path, '/'), 0, []);
      assert [] + ss == ss;
      SegmentsAreNotLost(Split(path, '/'), 0);
      ShapeSegmentsAreFree(ss);
      SplitOfJoin(ss, '/');
      JoinOfSplit(path, '/');
      assert Join([""], '/') == "" && Split("", '/') == [""];
    }
  }

  lemma RenderedPathIsFixed(p: string)
    requires IsRenderedPath(p)
    ensures RedactedPath(p) == p
  {
    var ss := Split(p, '/');
    ShapeSegmentsAreFree(ss);
    JoinOfSplit(p, '/');
    JoinIsFree(ss, '/', '?');
    JoinIsFree(ss, '/', '#');
    PathOnlyOfPath(p);
    PathShapeIsFixed(ss, 0);
    assert ss[..0] == [] && ss[0..] == ss;
  }

  /** The renderer leaves exactly the rendered paths alone, every output is one,
      and so rendering twice is rendering once. */
  lemma RedactPathIsIdempotent(p: string)
    ensures RedactedPath(RedactedPath(p)) == RedactedPath(p)
    ensures RedactedPath(p) == p <==> IsRenderedPath(p)
  {
    PathOutputIsRendered(p);
    RenderedPathIsFixed(RedactedPath(p));
    if IsRenderedPath(p) {
      RenderedPathIsFixed(p);
    }
  }
}
