/** What the renderers of queries and paths write for each token and segment, in
    terms of the text a request is put together from. */
module RedactMeaning {
  import opened Text
  import opened RedactUrl

  // ----- alphabets and bounds ---------------------------------------------

  /** Letters, digits and three marks; keys may hold brackets; nothing that separates
      or escapes, and nothing outside ASCII. */
  lemma RunesAreNamed()
    ensures forall r :: 'a' <= r <= 'z' || 'A' <= r <= 'Z' || '0' <= r <= '9' ==> IsSegmentRune(r)
    ensures IsSegmentRune('-') && IsSegmentRune('_') && IsSegmentRune('.') && IsKeyRune('[') && IsKeyRune(']')
    ensures forall r :: IsSegmentRune(r) ==> IsKeyRune(r) && r != '[' && r != ']'
    ensures !IsKeyRune('@') && !IsKeyRune('%') && !IsKeyRune('+') && !IsKeyRune(':') && !IsKeyRune(' ')
    ensures !IsKeyRune('=') && !IsKeyRune('&') && !IsKeyRune('?') && !IsKeyRune('#') && !IsKeyRune('/')
    ensures forall r :: r >= '\U{7F}' ==> !IsKeyRune(r)
  {
  }

  lemma BoundsAreNamed(s: string)
    ensures REDACTED == "[redacted]"
    ensures IsPlainKey(s) <==> 1 <= |s| <= 64 && forall i :: 0 <= i < |s| ==> IsKeyRune(s[i])
    ensures IsPlainSegment(s) <==> |s| <= 96 && forall i :: 0 <= i < |s| ==> IsSegmentRune(s[i])
  {
  }

  // ----- queries ----------------------------------------------------------

  /** A token "key=value" keeps its key when it is plain and never its value; a token
      without "=" keeps nothing. */
  lemma PairMeans(key: string, value: string)
    requires Free(key, '=')
    ensures IsPlainKey(key) ==> SafePair(key + ['='] + value) == key + "=" + REDACTED
    ensures !IsPlainKey(key) ==> SafePair(key + ['='] + value) == REDACTED + "=" + REDACTED
    ensures SafePair(key) == REDACTED
  {
    BeforeSeparator(key, value, '=');
    assert (key + ['='] + value)[|key|] == '=';
  }

  function Rendered(tokens: seq<string>): seq<string>
  {
    seq(|tokens|, i requires 0 <= i < |tokens| => SafePair(tokens[i]))
  }

  /** The tokens that are not empty. */
  function Filled(tokens: seq<string>): seq<string>
  {
    if tokens == [] then [] else (if tokens[0] == "" then [] else [tokens[0]]) + Filled(tokens[1..])
  }

  /** The first `n` of them. */
  function UpTo(tokens: seq<string>, n: nat): seq<string> { if |tokens| <= n then tokens else tokens[..n] }

  /** What `n` more pairs leave of the tokens that are not empty. */
  function Leaves(filled: seq<string>, n: nat): seq<string>
  {
    Rendered(UpTo(filled, n)) + (if |filled| > n then [ELLIPSIS] else [])
  }

  lemma {:induction false} PairsAreRendered(tokens: seq<string>, pairs: nat, n: nat)
    requires pairs + n == 24
    ensures RedactPairs(tokens, pairs) == Leaves(Filled(tokens), n)
    decreases |tokens|
  {
    if tokens == [] {
      NothingLeft(n);
    } else if tokens[0] == "" {
      PairsAreRendered(tokens[1..], pairs, n);
      assert Filled(tokens) == Filled(tokens[1..]);
    } else if n == 0 {
      OnlyEllipsis(Filled(tokens));
    } else {
      PairsAreRendered(tokens[1..], pairs + 1, n - 1);
      OneMoreLeft(tokens[0], Filled(tokens[1..]), n - 1);
    }
  }

  lemma NothingLeft(n: nat)
    ensures Leaves([], n) == []
  {
  }

  lemma OnlyEllipsis(filled: seq<string>)
    requires filled != []
    ensures Leaves(filled, 0) == [ELLIPSIS]
  {
    assert Rendered(UpTo(filled, 0)) == [];
  }

  lemma OneMoreLeft(token: string, more: seq<string>, n: nat)
    ensures Leaves([token] + more, n + 1) == [SafePair(token)] + Leaves(more, n)
  {
    OneMoreRendered(token, more, n);
  }

  lemma OneMoreRendered(token: string, more: seq<string>, n: nat)
    ensures Rendered(UpTo([token] + more, n + 1)) == [SafePair(token)] + Rendered(UpTo(more, n))
  {
    assert UpTo([token] + more, n + 1) == [token] + UpTo(more, n);
  }

  /** A query put together from tokens is rendered token by token: empty ones are
      skipped, after 24 comes an ellipsis, and a leading "?" does not matter. */
  lemma {:induction false} QueryIsRenderedTokenwise(tokens: seq<string>)
    requires tokens != [] && AllFree(tokens, '&') && (tokens[0] != "" ==> tokens[0][0] != '?')
    ensures RedactedQuery(Join(tokens, '&'))
            == Join(Leaves(Filled(tokens), 24), '&')
    ensures RedactedQuery(['?'] + Join(tokens, '&')) == RedactedQuery(Join(tokens, '&'))
  {
    var raw := Join(tokens, '&');
    StartsAsFirst(tokens);
    assert (['?'] + raw)[1..] == raw;
    SplitOfJoin(tokens, '&');
    PairsAreRendered(tokens, 0, 24);
  }

  lemma {:induction false} StartsAsFirst(tokens: seq<string>)
    requires tokens != [] && (tokens[0] != "" ==> tokens[0][0] != '?')
    ensures Join(tokens, '&') != "" ==> Join(tokens, '&')[0] != '?'
  {
  }

  // ----- paths ------------------------------------------------------------

  /** A query or a fragment is cut off, and an empty path is the root. */
  lemma {:induction false} QueryIsCutOff(path: string, mark: char, rest: string)
    requires mark == '?' || mark == '#'
    ensures PathOnly(path + [mark] + rest) == PathOnly(path)
    ensures RedactedPath(path + [mark] + rest) == RedactedPath(path) && RedactedPath("") == "/"
  {
    var s := path + [mark] + rest;
    if path != "" {
      QueryIsCutOff(path[1..], mark, rest);
      assert s[0] == path[0] && s[1..] == path[1..] + [mark] + rest;
    }
  }

  function RenderedSegments(segments: seq<string>): seq<string>
  {
    seq(|segments|, i requires 0 <= i < |segments| => SafePart(segments[i]))
  }

  /** The segments before the seventeenth that is not empty, when `n` are still to come. */
  function Shown(segments: seq<string>, n: nat): seq<string>
  {
    if segments == [] then []
    else if segments[0] == "" then [""] + Shown(segments[1..], n)
    else if n == 0 then []
    else [segments[0]] + Shown(segments[1..], n - 1)
  }

  lemma {:induction false} SegmentsAreRendered(segments: seq<string>, kept: nat)
    requires kept <= 16
    ensures var shown := Shown(segments, 16 - kept);
            && shown <= segments
            && (|shown| < |segments| ==> segments[|shown|] != "")
            && RedactSegments(segments, kept)
               == RenderedSegments(shown) + (if |shown| < |segments| then [ELLIPSIS] else [])
    decreases |segments|
  {
    if segments != [] {
      var (first, rest) := (segments[0], segments[1..]);
      assert segments == [first] + rest;
      if first == "" {
        SegmentsAreRendered(rest, kept);
        OneMoreSegment(first, Shown(rest, 16 - kept));
      } else if kept < 16 {
        SegmentsAreRendered(rest, kept + 1);
        OneMoreSegment(first, Shown(rest, 15 - kept));
      }
    }
  }

  lemma OneMoreSegment(s: string, more: seq<string>)
    ensures RenderedSegments([s] + more) == [SafePart(s)] + RenderedSegments(more)
  {
  }

  /** The number of segments that are not empty. */
  lemma {:induction false} ShownHolds(segments: seq<string>, n: nat)
    ensures |Filled(Shown(segments, n))| <= n
    ensures |Shown(segments, n)| < |segments| ==> |Filled(Shown(segments, n))| == n
  {
    if segments != [] && (segments[0] == "" || n > 0) {
      var m := if segments[0] == "" then n else n - 1;
      ShownHolds(segments[1..], m);
      assert Shown(segments, n) == [segments[0]] + Shown(segments[1..], m);
      assert ([segments[0]] + Shown(segments[1..], m))[1..] == Shown(segments[1..], m);
    }
  }

  /** A path put together from segments is rendered segment by segment: plain ones
      stay, others become the marker, empty ones keep the slashes, and an ellipsis
      stands for the seventeenth that is not empty and all after it. */
  lemma {:induction false} PathIsRenderedSegmentwise(segments: seq<string>)
    requires AllFree(segments, '/') && AllFree(segments, '?') && AllFree(segments, '#') && Join(segments, '/') != ""
    ensures var shown := Shown(segments, 16);
            && shown <= segments && |Filled(shown)| <= 16
            && (|shown| < |segments| ==> |Filled(shown)| == 16 && segments[|shown|] != "")
            && RedactedPath(Join(segments, '/'))
               == Join(RenderedSegments(shown) + (if |shown| < |segments| then ["\U{2026}"] else []), '/')
  {
    var p := Join(segments, '/');
    JoinIsFree(segments, '/', '?');
    JoinIsFree(segments, '/', '#');
    PathOnlyOfPath(p);
    SplitOfJoin(segments, '/');
    SegmentsAreRendered(segments, 0);
    ShownHolds(segments, 16);
  }

  lemma SegmentMeans(s: string)
    ensures IsPlainSegment(s) ==> SafePart(s) == s
    ensures !IsPlainSegment(s) ==> SafePart(s) == "[redacted]"
  {
  }
}
