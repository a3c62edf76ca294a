/** The last pass over a log record's attributes: sensitive keys, and the
    rewrite of an attribute tree with groups and lazily computed values. */
module RedactAttr {
  import opened Text
  import opened RedactUrl

  /** Rune-wise lower-casing and the e-mail scrub, any of them. */
  datatype Env = Env(lower: char -> char, scrub: string -> string)

  // ----- sensitive keys ---------------------------------------------------

  const STEMS: seq<string> := [
    "password", "passwd", "secret", "token", "authorization", "cookie",
    "apikey", "credential", "privatekey", "bearer",
    "email", "phone", "mobile", "search", "postcode", "zipcode",
    "addr",
    "firstname", "lastname", "fullname", "username", "filename", "displayname",
    "taxid", "vatnumber", "nationalid", "passport"
  ]

  const EXACT: set<string> := {"otp", "totp", "mfacode", "pin", "ssn", "dob", "iban", "bic", "name", "mail", "ip"}

  predicate IsPlainRune(r: char) { 'a' <= r <= 'z' || '0' <= r <= '9' }

  /** Lower-casing leaves lower-case letters and digits alone. */
  ghost predicate LowerFixesPlain(lower: char -> char) { forall r :: IsPlainRune(r) ==> lower(r) == r }

  function Normalize(key: string, lower: char -> char): string
  {
    if key == "" then ""
    else
      Normalize(key[..|key| - 1], lower)
      + (if IsPlainRune(lower(key[|key| - 1])) then [lower(key[|key| - 1])] else "")
  }

  method NormalizeKey(key: string, lower: char -> char) returns (b: string)
    ensures b == Normalize(key, lower)
    ensures forall i :: 0 <= i < |b| ==> 'a' <= b[i] <= 'z' || '0' <= b[i] <= '9'
  {
    b := "";
    for i := 0 to |key|
      invariant b == Normalize(key[..i], lower)
    {
      assert key[..i + 1][..i] == key[..i];
      var r := lower(key[i]);
      if IsPlainRune(r) {
        b := b + [r];
      }
    }
    assert key[..|key|] == key;
    NormalizeIsPlain(key, lower);
  }

  predicate Contains(s: string, t: string) { exists i :: 0 <= i <= |s| && OccursAt(s, t, i) }

  predicate Sensitive(key: string, lower: char -> char)
  {
    var n := Normalize(key, lower);
    n != "" && (n in EXACT || exists k :: 0 <= k < |STEMS| && Contains(n, STEMS[k]))
  }

  method IsSensitiveKey(key: string, lower: char -> char) returns (r: bool)
    ensures r == Sensitive(key, lower)
  {
    var normalized := NormalizeKey(key, lower);
    if normalized == "" {
      return false;
    }
    if normalized in EXACT {
      return true;
    }
    for k := 0 to |STEMS|
      invariant forall j :: 0 <= j < k ==> !Contains(normalized, STEMS[j])
    {
      if Contains(normalized, STEMS[k]) {
        return true;
      }
    }
    return false;
  }

  lemma {:induction false} NormalizeIsPlain(key: string, lower: char -> char)
    ensures forall i :: 0 <= i < |Normalize(key, lower)| ==> IsPlainRune(Normalize(key, lower)[i])
  {
    if key != "" {
      NormalizeIsPlain(key[..|key| - 1], lower);
    }
  }

  lemma {:induction false} NormalizeFixesPlain(key: string, lower: char -> char)
    requires LowerFixesPlain(lower) && forall i :: 0 <= i < |key| ==> IsPlainRune(key[i])
    ensures Normalize(key, lower) == key
  {
    if key != "" {
      NormalizeFixesPlain(key[..|key| - 1], lower);
      assert key == key[..|key| - 1] + [key[|key| - 1]];
    }
  }

  /** Lower-casing what is in lower case changes nothing. */
  ghost predicate LowerIsIdempotent(lower: char -> char) { forall r :: lower(lower(r)) == lower(r) }

  function LowerCased(key: string, lower: char -> char): string
  {
    seq(|key|, i requires 0 <= i < |key| => lower(key[i]))
  }

  /** The key without the runes whose lower-case form is no letter or digit. */
  function Undecorated(key: string, lower: char -> char): string
  {
    if key == "" then ""
    else
      var last := key[|key| - 1];
      Undecorated(key[..|key| - 1], lower) + (if IsPlainRune(lower(last)) then [last] else "")
  }

  lemma {:induction false} NormalizeIgnoresCase(key: string, lower: char -> char)
    requires LowerIsIdempotent(lower)
    ensures Normalize(LowerCased(key, lower), lower) == Normalize(key, lower)
  {
    if key != "" {
      NormalizeIgnoresCase(key[..|key| - 1], lower);
      assert LowerCased(key, lower)[..|key| - 1] == LowerCased(key[..|key| - 1], lower);
    }
  }

  lemma {:induction false} NormalizeIgnoresDecoration(key: string, lower: char -> char)
    ensures Normalize(Undecorated(key, lower), lower) == Normalize(key, lower)
  {
    if key != "" {
      var (init, last) := (key[..|key| - 1], key[|key| - 1]);
      NormalizeIgnoresDecoration(init, lower);
      var kept := Undecorated(init, lower);
      if IsPlainRune(lower(last)) {
        assert (kept + [last])[..|kept|] == kept;
      } else {
        assert kept + "" == kept;
      }
    }
  }

  /** Case, separators and decoration of a key do not matter. */
  lemma {:induction false} SpellingIsIgnored(key: string, lower: char -> char)
    requires LowerIsIdempotent(lower)
    ensures Sensitive(LowerCased(key, lower), lower) == Sensitive(key, lower)
    ensures Sensitive(Undecorated(key, lower), lower) == Sensitive(key, lower)
  {
    NormalizeIgnoresCase(key, lower);
    NormalizeIgnoresDecoration(key, lower);
  }

  lemma {:induction false} NormalizeConcat(a: string, b: string, lower: char -> char)
    ensures Normalize(a + b, lower) == Normalize(a, lower) + Normalize(b, lower)
  {
    if b == "" {
      assert a + b == a;
    } else {
      NormalizeConcat(a, b[..|b| - 1], lower);
      assert (a + b)[..|a + b| - 1] == a + b[..|b| - 1];
    }
  }

  /** A key that holds a stem makes every longer key sensitive: "filename", "userEmail". */
  lemma {:induction false} StemCountsAnywhere(a: string, key: string, b: string, k: nat, lower: char -> char)
    requires k < |STEMS| && Contains(Normalize(key, lower), STEMS[k])
    ensures Sensitive(a + key + b, lower)
  {
    NormalizeConcat(a + key, b, lower);
    NormalizeConcat(a, key, lower);
    var (front, n, back) := (Normalize(a, lower), Normalize(key, lower), Normalize(b, lower));
    var p :| 0 <= p <= |n| && OccursAt(n, STEMS[k], p);
    StillOccurs(front, n, back, STEMS[k], p);
    assert STEMS[k] != "";
  }

  lemma StillOccurs(a: string, e: string, b: string, t: string, p: nat)
    requires OccursAt(e, t, p)
    ensures OccursAt(a + e + b, t, |a| + p) && Contains(a + e + b, t)
  {
    var f := a + e + b;
    assert f[|a|..|a| + |e|] == e;
    assert f[|a| + p..|a| + p + |t|] == f[|a|..|a| + |e|][p..p + |t|];
    var q := |a| + p;
    assert q <= |f| && OccursAt(f, t, q);
  }

  /** An exact key counts as the whole key only; no stem is shorter than four runes. */
  lemma {:induction false} ShortKeysAreExact(key: string, lower: char -> char)
    requires |Normalize(key, lower)| < 4
    ensures Sensitive(key, lower) <==> Normalize(key, lower) in EXACT
  {
    StemsAreLong();
  }

  /** Each stem is sensitive as a key of its own. */
  lemma StemIsSensitive(k: nat, lower: char -> char)
    requires k < |STEMS| && LowerFixesPlain(lower) && forall i :: 0 <= i < |STEMS[k]| ==> IsPlainRune(STEMS[k][i])
    ensures Sensitive(STEMS[k], lower)
  {
    NormalizeFixesPlain(STEMS[k], lower);
    StemsAreLong();
    assert OccursAt(STEMS[k], STEMS[k], 0);
  }

  lemma StemsAreLong()
    ensures forall k :: 0 <= k < |STEMS| ==> |STEMS[k]| >= 4
  {
  }

  lemma {:induction false} SensitivityIsNormal(key: string, lower: char -> char)
    requires LowerFixesPlain(lower)
    ensures Sensitive(Normalize(key, lower), lower) == Sensitive(key, lower)
  {
    NormalizeIsPlain(key, lower);
    NormalizeFixesPlain(Normalize(key, lower), lower);
  }

  // ----- attribute trees --------------------------------------------------

  /** A value is text, a group, something that computes another value when asked,
      or of another kind, which stays as it is. */
  datatype Value = Text(text: string) | Group(attrs: seq<Attr>) | Valuer(inner: Value) | Other(payload: int) | TooDeep

  datatype Attr = Attr(key: string, value: Value)

  const MAX_LOG_VALUES := 100

  /** The log package asks at most a hundred times. */
  function ResolveWithin(v: Value, n: nat): (r: Value)
    ensures !r.Valuer?
    ensures r.Group? ==> r == v || r < v
    ensures n > 0 && !v.Valuer? ==> r == v
  {
    if n == 0 then TooDeep else if v.Valuer? then ResolveWithin(v.inner, n - 1) else v
  }

  function Resolve(v: Value): (r: Value)
    ensures !r.Valuer?
    ensures r.Group? ==> r == v || r < v
    ensures !v.Valuer? ==> r == v
  {
    ResolveWithin(v, MAX_LOG_VALUES)
  }

  /** `v` behind `n` values that compute it when asked. */
  function Behind(v: Value, n: nat): Value { if n == 0 then v else Valuer(Behind(v, n - 1)) }

  lemma {:induction false} ResolvesBehind(v: Value, n: nat, within: nat)
    requires !v.Valuer?
    ensures ResolveWithin(Behind(v, n), within) == if n < within then v else TooDeep
  {
    if n > 0 && within > 0 {
      ResolvesBehind(v, n - 1, within - 1);
    }
  }

  /** A computed value is judged as what it computes, through up to 99 levels: a
      text there is withheld or scrubbed, a group there is walked. */
  lemma {:induction false} ComputedValuesAreJudged(e: Env, key: string, v: Value, n: nat)
    requires !v.Valuer? && n < 100
    ensures Resolve(Behind(v, n)) == v
    ensures !v.Group? ==> Redact(e, Attr(key, Behind(v, n))).value == RedactLeaf(e, key, v)
    ensures !v.Group? && Sensitive(key, e.lower)
            ==> Redact(e, Attr(key, Behind(v, n))) == Attr(key, Text(REDACTED))
    ensures v.Text? && !Sensitive(key, e.lower)
            ==> Redact(e, Attr(key, Behind(v, n))) == Attr(key, Text(e.scrub(v.text)))
    ensures v.Other? && !Sensitive(key, e.lower) ==> Redact(e, Attr(key, Behind(v, n))) == Attr(key, v)
  {
    ResolvesBehind(v, n, MAX_LOG_VALUES);
  }

  predicate IsEmptyGroup(a: Attr) { a.value == Group([]) }

  /** A new group leaves out members that are empty groups. */
  function WithoutEmpty(attrs: seq<Attr>): seq<Attr>
  {
    if attrs == [] then []
    else WithoutEmpty(attrs[..|attrs| - 1]) + (if IsEmptyGroup(attrs[|attrs| - 1]) then [] else [attrs[|attrs| - 1]])
  }

  /** What becomes of a leaf: its own key decides, then its text is scrubbed. */
  function RedactLeaf(e: Env, key: string, v: Value): Value
  {
    if Sensitive(key, e.lower) then Text(REDACTED)
    else if v.Text? then Text(e.scrub(v.text))
    else v
  }

  function Redact(e: Env, a: Attr): Attr
    decreases a, 1
  {
    var v := Resolve(a.value);
    if v.Group? then Attr(a.key, Group(WithoutEmpty(RedactEach(e, a, v.attrs))))
    else Attr(a.key, RedactLeaf(e, a.key, v))
  }

  function RedactEach(e: Env, ghost parent: Attr, attrs: seq<Attr>): (r: seq<Attr>)
    requires forall i :: 0 <= i < |attrs| ==> attrs[i] < parent
    ensures |r| == |attrs|
    decreases parent, 0, |attrs|
  {
    if attrs == [] then []
    else RedactEach(e, parent, attrs[..|attrs| - 1]) + [Redact(e, attrs[|attrs| - 1])]
  }

  method RedactAttr(e: Env, a: Attr) returns (r: Attr)
    ensures r == Redact(e, a)
    decreases a
  {
    var v := Resolve(a.value);
    if v.Group? {
      var inner: seq<Attr> := [];
      for i := 0 to |v.attrs|
        invariant inner == RedactEach(e, a, v.attrs[..i])
      {
        assert v.attrs[..i + 1][..i] == v.attrs[..i];
        var g := RedactAttr(e, v.attrs[i]);
        inner := inner + [g];
      }
      assert v.attrs[..|v.attrs|] == v.attrs;
      return Attr(a.key, Group(WithoutEmpty(inner)));
    }
    var sensitive := IsSensitiveKey(a.key, e.lower);
    if sensitive {
      return Attr(a.key, Text(REDACTED));
    }
    if v.Text? {
      var scrubbed := e.scrub(v.text);
      if scrubbed != v.text {
        return Attr(a.key, Text(scrubbed));
      }
    }
    return Attr(a.key, v);
  }

  // ----- what the pass keeps and what it replaces -------------------------

  /** A leaf: the keys on the way to it, its own key and its resolved value. */
  datatype Leaf = Leaf(path: seq<string>, key: string, value: Value)

  function Leaves(a: Attr, path: seq<string>): seq<Leaf>
    decreases a, 1
  {
    var v := Resolve(a.value);
    if v.Group? then LeavesOfEach(a, v.attrs, path + [a.key]) else [Leaf(path, a.key, v)]
  }

  function LeavesOfEach(ghost parent: Attr, attrs: seq<Attr>, path: seq<string>): seq<Leaf>
    requires forall i :: 0 <= i < |attrs| ==> attrs[i] < parent
    decreases parent, 0, |attrs|
  {
    if attrs == [] then []
    else LeavesOfEach(parent, attrs[..|attrs| - 1], path) + Leaves(attrs[|attrs| - 1], path)
  }

  function RedactedLeaf(e: Env, l: Leaf): Leaf { Leaf(l.path, l.key, RedactLeaf(e, l.key, l.value)) }

  function RedactedLeaves(e: Env, ls: seq<Leaf>): seq<Leaf>
  {
    seq(|ls|, i requires 0 <= i < |ls| => RedactedLeaf(e, ls[i]))
  }

  lemma RedactedConcat(e: Env, a: seq<Leaf>, b: seq<Leaf>)
    ensures RedactedLeaves(e, a + b) == RedactedLeaves(e, a) + RedactedLeaves(e, b)
  {
  }

  /** Leaf for leaf, in the same order and under the same keys: a leaf whose own
      key is sensitive becomes the marker at any depth, other text is scrubbed,
      and everything else stays. */
  lemma {:induction false} LeavesOfRedact(e: Env, a: Attr, path: seq<string>)
    ensures Leaves(Redact(e, a), path) == RedactedLeaves(e, Leaves(a, path))
    decreases a, 1
  {
    var v := Resolve(a.value);
    if v.Group? {
      LeavesOfRedactEach(e, a, v.attrs, Redact(e, a), path + [a.key]);
    }
  }

  lemma {:induction false} LeavesOfRedactEach(e: Env, parent: Attr, attrs: seq<Attr>, image: Attr, path: seq<string>)
    requires forall i :: 0 <= i < |attrs| ==> attrs[i] < parent
    requires forall i :: 0 <= i < |WithoutEmpty(RedactEach(e, parent, attrs))| ==>
                           WithoutEmpty(RedactEach(e, parent, attrs))[i] < image
    ensures LeavesOfEach(image, WithoutEmpty(RedactEach(e, parent, attrs)), path)
            == RedactedLeaves(e, LeavesOfEach(parent, attrs, path))
    decreases parent, 0, |attrs|
  {
    if attrs != [] {
      var (init, last) := (attrs[..|attrs| - 1], attrs[|attrs| - 1]);
      var (was, now) := (WithoutEmpty(RedactEach(e, parent, init)), WithoutEmpty(RedactEach(e, parent, attrs)));
      var r := Redact(e, last);
      assert RedactEach(e, parent, attrs)[..|attrs| - 1] == RedactEach(e, parent, init);
      assert now == was + (if IsEmptyGroup(r) then [] else [r]);
      assert forall i :: 0 <= i < |was| ==> was[i] == now[i];
      LeavesOfRedactEach(e, parent, init, image, path);
      LeavesOfRedact(e, last, path);
      RedactedConcat(e, LeavesOfEach(parent, init, path), Leaves(last, path));
      if IsEmptyGroup(r) {
        assert now == was && Leaves(r, path) == [];
      } else {
        assert now[..|now| - 1] == was;
      }
    }
  }

  /** In particular the keys stay, and a sensitive leaf holds the marker however
      deep it is and however its value was computed. */
  lemma {:induction false} SensitiveLeavesAreWithheld(e: Env, a: Attr, i: nat)
    requires i < |Leaves(a, [])|
    ensures |Leaves(Redact(e, a), [])| == |Leaves(a, [])|
    ensures var (was, now) := (Leaves(a, [])[i], Leaves(Redact(e, a), [])[i]);
            && now.path == was.path && now.key == was.key
            && (Sensitive(was.key, e.lower) ==> now.value == Text(REDACTED))
  {
    LeavesOfRedact(e, a, []);
  }

  // ----- keys of groups ---------------------------------------------------

  /** A group on the way to the leaf has a sensitive key. */
  ghost predicate UnderSensitiveKey(e: Env, l: Leaf)
  {
    exists i :: 0 <= i < |l.path| && Sensitive(l.path[i], e.lower)
  }

  /** Nothing that stands under a sensitive group key is emitted. */
  ghost predicate GroupKeysWithhold(e: Env, a: Attr)
  {
    forall l :: l in Leaves(Redact(e, a), []) && UnderSensitiveKey(e, l) ==> l.value == Text(REDACTED)
  }

  /** The key of a group withholds nothing by itself: what stands under a sensitive
      one is never emitted if and only if each leaf there has a sensitive key of its
      own or a text that the scrub turns into the marker anyway. */
  lemma {:induction false} GroupKeysWithholdIff(e: Env, a: Attr)
    ensures GroupKeysWithhold(e, a)
            <==> forall l :: l in Leaves(a, []) && UnderSensitiveKey(e, l)
                             ==> Sensitive(l.key, e.lower) || (l.value.Text? && e.scrub(l.value.text) == REDACTED)
  {
    LeavesOfRedact(e, a, []);
    var was, now := Leaves(a, []), Leaves(Redact(e, a), []);
    forall i | 0 <= i < |was| ensures UnderSensitiveKey(e, now[i]) <==> UnderSensitiveKey(e, was[i]) {
      assert now[i] in now && was[i] in was;
      assert now[i] == RedactedLeaf(e, was[i]);
    }
  }

  /** A text under the key "id" in a group "email" gets out as it is. */
  lemma {:induction false} GroupKeyIsNotEnough(e: Env, text: string)
    requires LowerFixesPlain(e.lower) && e.scrub(text) == text && text != REDACTED
    ensures var a := Attr("email", Group([Attr("id", Text(text))]));
            && Sensitive("email", e.lower) && Leaves(Redact(e, a), []) == [Leaf(["email"], "id", Text(text))]
            && !GroupKeysWithhold(e, a)
  {
    var a := Attr("email", Group([Attr("id", Text(text))]));
    var leaf := Leaf(["email"], "id", Text(text));
    EmailIsSensitive(e.lower);
    IdIsNotSensitive(e.lower);
    OnlyLeaf("email", "id", text);
    LeavesOfRedact(e, a, []);
    assert RedactedLeaves(e, [leaf]) == [leaf];
    assert Sensitive(leaf.path[0], e.lower);
  }

  lemma OnlyLeaf(key: string, member: string, text: string)
    ensures Leaves(Attr(key, Group([Attr(member, Text(text))])), []) == [Leaf([key], member, Text(text))]
  {
    var m := Attr(member, Text(text));
    var a := Attr(key, Group([m]));
    assert [m][..0] == [] && [] + [key] == [key];
    assert LeavesOfEach(a, [m], [key]) == LeavesOfEach(a, [], [key]) + Leaves(m, [key]);
  }

  lemma EmailIsSensitive(lower: char -> char)
    requires LowerFixesPlain(lower)
    ensures Sensitive("email", lower)
  {
    NormalizeFixesPlain("email", lower);
    assert STEMS[10] == "email" && OccursAt("email", STEMS[10], 0);
  }

  lemma IdIsNotSensitive(lower: char -> char)
    requires LowerFixesPlain(lower)
    ensures !Sensitive("id", lower)
  {
    NormalizeFixesPlain("id", lower);
    assert forall k :: 0 <= k < |STEMS| ==> |STEMS[k]| > 2;
  }

  // ----- idempotence ------------------------------------------------------

  ghost predicate ScrubIsIdempotent(e: Env) { forall s :: e.scrub(e.scrub(s)) == e.scrub(s) }

  lemma {:induction false} NoEmptyLeft(attrs: seq<Attr>)
    ensures forall i :: 0 <= i < |WithoutEmpty(attrs)| ==>
                          !IsEmptyGroup(WithoutEmpty(attrs)[i]) && WithoutEmpty(attrs)[i] in attrs
  {
    if attrs != [] {
      NoEmptyLeft(attrs[..|attrs| - 1]);
      assert forall x :: x in attrs[..|attrs| - 1] ==> x in attrs;
    }
  }

  lemma {:induction false} NothingToLeaveOut(attrs: seq<Attr>)
    requires forall i :: 0 <= i < |attrs| ==> !IsEmptyGroup(attrs[i])
    ensures WithoutEmpty(attrs) == attrs
  {
    if attrs != [] {
      NothingToLeaveOut(attrs[..|attrs| - 1]);
      assert attrs == attrs[..|attrs| - 1] + [attrs[|attrs| - 1]];
    }
  }

  /** Members of the parent that the pass leaves alone. */
  ghost predicate AllFixed(e: Env, parent: Attr, attrs: seq<Attr>)
  {
    forall i :: 0 <= i < |attrs| ==> attrs[i] < parent && Redact(e, attrs[i]) == attrs[i]
  }

  lemma {:induction false} FixedInit(e: Env, parent: Attr, init: seq<Attr>, last: Attr)
    requires AllFixed(e, parent, init + [last])
    ensures AllFixed(e, parent, init) && Redact(e, last) == last
    ensures RedactEach(e, parent, init + [last]) == RedactEach(e, parent, init) + [last]
  {
    var attrs := init + [last];
    assert attrs[|init|] == last && forall i :: 0 <= i < |init| ==> attrs[i] == init[i];
    RedactEachStep(e, parent, attrs, init, last);
  }

  lemma {:induction false} RedactEachOfFixed(e: Env, parent: Attr, attrs: seq<Attr>)
    requires AllFixed(e, parent, attrs)
    ensures RedactEach(e, parent, attrs) == attrs
  {
    if attrs != [] {
      var (init, last) := (attrs[..|attrs| - 1], attrs[|attrs| - 1]);
      assert attrs == init + [last];
      FixedInit(e, parent, init, last);
      RedactEachOfFixed(e, parent, init);
    }
  }

  lemma {:induction false} RedactEachStep(e: Env, parent: Attr, attrs: seq<Attr>, init: seq<Attr>, last: Attr)
    requires attrs == init + [last] && forall i :: 0 <= i < |attrs| ==> attrs[i] < parent
    ensures forall i :: 0 <= i < |init| ==> init[i] < parent
    ensures RedactEach(e, parent, attrs) == RedactEach(e, parent, init) + [Redact(e, last)]
  {
    assert attrs[..|attrs| - 1] == init;
    assert forall i :: 0 <= i < |init| ==> init[i] == attrs[i];
  }

  /** A second pass changes nothing. */
  lemma {:induction false} RedactIsIdempotent(e: Env, a: Attr)
    requires ScrubIsIdempotent(e)
    ensures Redact(e, Redact(e, a)) == Redact(e, a)
    decreases a, 1
  {
    var v := Resolve(a.value);
    if v.Group? {
      var each := RedactEach(e, a, v.attrs);
      EachIsFixed(e, a, v.attrs);
      NoEmptyLeft(each);
      var r := Redact(e, a);
      assert forall i :: 0 <= i < |r.value.attrs| ==> r.value.attrs[i] < r;
      forall i | 0 <= i < |r.value.attrs| ensures Redact(e, r.value.attrs[i]) == r.value.attrs[i] {
        assert r.value.attrs[i] in each;
      }
      RedactEachOfFixed(e, r, r.value.attrs);
      NothingToLeaveOut(r.value.attrs);
    }
  }

  lemma {:induction false} EachIsFixed(e: Env, parent: Attr, attrs: seq<Attr>)
    requires ScrubIsIdempotent(e) && forall i :: 0 <= i < |attrs| ==> attrs[i] < parent
    ensures forall i :: 0 <= i < |RedactEach(e, parent, attrs)| ==>
                          Redact(e, RedactEach(e, parent, attrs)[i]) == RedactEach(e, parent, attrs)[i]
    decreases parent, 0, |attrs|
  {
    if attrs != [] {
      EachIsFixed(e, parent, attrs[..|attrs| - 1]);
      RedactIsIdempotent(e, attrs[|attrs| - 1]);
    }
  }
}
