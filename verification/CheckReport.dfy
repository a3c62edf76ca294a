/** Recording differences under a cap, comparing bags of rows, and counting a run. */
module CheckReport {
  import opened Ordering

  datatype Level = FailLevel | InfoLevel

  datatype Outcome = Pass | Fail | Error | Skip

  /** How one side of a difference is shown. */
  datatype Shown = Occurrences(n: int) | Missing | NotExpected | Number(n: int) | Once | Twice

  datatype Diff = Diff(field: string, key: string, expected: Shown, actual: Shown, level: Level)

  const MAX_DIFFS := 25

  /** What a check has recorded. */
  datatype Record = Record(outcome: Outcome, diffs: seq<Diff>, suppressed: nat)

  const CLEAN := Record(Pass, [], 0)

  function Recorded(r: Record, d: Diff): Record
  {
    var outcome := if d.level.FailLevel? && r.outcome.Pass? then Fail else r.outcome;
    if |r.diffs| >= MAX_DIFFS then Record(outcome, r.diffs, r.suppressed + 1)
    else Record(outcome, r.diffs + [d], r.suppressed)
  }

  /** Only a passing check is failed by a difference, and only by a failing one. */
  lemma OnlyAPassFails(r: Record, d: Diff)
    ensures Recorded(r, d).outcome
            == if r.outcome == Pass && d.level == FailLevel then Fail else r.outcome
    ensures |Recorded(r, d).diffs| + Recorded(r, d).suppressed == |r.diffs| + r.suppressed + 1
  {
  }

  function RecordedAll(r: Record, ds: seq<Diff>): Record
  {
    if ds == [] then r else Recorded(RecordedAll(r, ds[..|ds| - 1]), ds[|ds| - 1])
  }

  class Check {
    var outcome: Outcome
    var diffs: seq<Diff>
    var suppressed: nat

    function Value(): Record
      reads this
    {
      Record(outcome, diffs, suppressed)
    }

    constructor ()
      ensures Value() == CLEAN
    {
      outcome, diffs, suppressed := Pass, [], 0;
    }

    method Note(d: Diff)
      modifies this
      ensures Value() == Recorded(old(Value()), d)
    {
      if d.level == FailLevel && outcome == Pass {
        outcome := Fail;
      }
      if |diffs| >= MAX_DIFFS {
        suppressed := suppressed + 1;
        return;
      }
      diffs := diffs + [d];
    }

    method Differ(field: string, key: string, expected: Shown, actual: Shown)
      modifies this
      ensures Value() == Recorded(old(Value()), Diff(field, key, expected, actual, FailLevel))
    {
      Note(Diff(field, key, expected, actual, FailLevel));
    }

    method Equal(field: string, key: string, expected: Shown, actual: Shown) returns (same: bool)
      modifies this
      ensures same <==> expected == actual
      ensures Value()
              == if same then old(Value()) else Recorded(old(Value()), Diff(field, key, expected, actual, FailLevel))
    {
      if expected == actual {
        return true;
      }
      Differ(field, key, expected, actual);
      return false;
    }

    method Erred()
      modifies this
      ensures Value() == old(Value()).(outcome := Error)
    {
      outcome := Error;
    }

    method Skipped()
      modifies this
      ensures Value() == old(Value()).(outcome := if old(outcome).Pass? then Skip else old(outcome))
    {
      if outcome == Pass {
        outcome := Skip;
      }
    }
  }

  // ----- what the cap keeps -----------------------------------------------

  lemma {:induction false} RecordedConcat(r: Record, a: seq<Diff>, b: seq<Diff>)
    ensures RecordedAll(r, a + b) == RecordedAll(RecordedAll(r, a), b)
  {
    if b == [] {
      assert a + b == a;
    } else {
      RecordedConcat(r, a, b[..|b| - 1]);
      assert (a + b)[..|a + b| - 1] == a + b[..|b| - 1];
    }
  }

  /** The first twenty-five. */
  function UpToCap(ds: seq<Diff>): seq<Diff> { if |ds| <= 25 then ds else ds[..25] }

  lemma UpToCapStep(init: seq<Diff>, d: Diff)
    ensures UpToCap(init + [d]) == if |init| < 25 then UpToCap(init) + [d] else UpToCap(init)
    ensures |UpToCap(init)| == if |init| <= 25 then |init| else 25
  {
    if |init| >= 25 {
      assert (init + [d])[..25] == init[..25] && init[..|init|] == init;
    }
  }

  lemma {:induction false} CapKeepsFirst(ds: seq<Diff>)
    ensures var r := RecordedAll(CLEAN, ds); r.diffs == UpToCap(ds) && |r.diffs| + r.suppressed == |ds|
  {
    if ds != [] {
      var (init, d) := (ds[..|ds| - 1], ds[|ds| - 1]);
      CapKeepsFirst(init);
      UpToCapStep(init, d);
      assert ds == init + [d];
    }
  }

  lemma {:induction false} OnlyFailuresFail(ds: seq<Diff>)
    ensures var r := RecordedAll(CLEAN, ds);
            && (r.outcome == Pass || r.outcome == Fail)
            && (r.outcome == Pass <==> forall i :: 0 <= i < |ds| ==> ds[i].level.InfoLevel?)
  {
    if ds != [] {
      var init := ds[..|ds| - 1];
      OnlyFailuresFail(init);
      assert forall i :: 0 <= i < |init| ==> init[i] == ds[i];
    }
  }

  /** The first twenty-five differences are spelled out in order, the rest are
      counted, and none is lost; a failing one fails a check that passed. */
  lemma {:induction false} CapLosesNothing(ds: seq<Diff>)
    ensures var r := RecordedAll(CLEAN, ds);
            && r.diffs == UpToCap(ds) && |r.diffs| + r.suppressed == |ds|
            && (r.outcome == Pass || r.outcome == Fail)
            && (r.outcome == Pass <==> forall i :: 0 <= i < |ds| ==> ds[i].level.InfoLevel?)
  {
    CapKeepsFirst(ds);
    OnlyFailuresFail(ds);
  }

  // ----- bags -------------------------------------------------------------

  function Delta(want: seq<string>, got: seq<string>, key: string): int
  {
    multiset(want)[key] as int - multiset(got)[key] as int
  }

  function CountOf(counts: map<string, int>, key: string): int { if key in counts then counts[key] else 0 }

  /** The keys on which the two bags disagree. */
  function Disagreeing(want: seq<string>, got: seq<string>): set<string>
  {
    set k | k in want + got && Delta(want, got, k) != 0
  }

  function DiffOf(field: string, want: seq<string>, got: seq<string>, key: string): Diff
  {
    DeltaDiff(field, key, Delta(want, got, key))
  }

  function DeltaDiff(field: string, key: string, n: int): Diff
  {
    if n > 0 then Diff(field, key, Occurrences(n), Missing, FailLevel)
    else Diff(field, key, NotExpected, Occurrences(-n), FailLevel)
  }

  function DiffsOf(field: string, want: seq<string>, got: seq<string>, keys: seq<string>): seq<Diff>
  {
    seq(|keys|, i requires 0 <= i < |keys| => DiffOf(field, want, got, keys[i]))
  }

  /** The counts are the surplus of `want` over `got`. */
  ghost predicate Tallied(counts: map<string, int>, want: seq<string>, got: seq<string>)
  {
    counts.Keys == Elements(want + got) && forall k :: CountOf(counts, k) == Delta(want, got, k)
  }

  lemma WantedStep(counts: map<string, int>, want: seq<string>, x: string)
    requires Tallied(counts, want, [])
    ensures Tallied(counts[x := CountOf(counts, x) + 1], want + [x], [])
  {
    var more := counts[x := CountOf(counts, x) + 1];
    assert want + [] == want && (want + [x]) + [] == want + [x];
    forall k ensures CountOf(more, k) == Delta(want + [x], [], k) {
      assert CountOf(counts, k) == Delta(want, [], k);
    }
  }

  lemma GottenStep(counts: map<string, int>, want: seq<string>, got: seq<string>, x: string)
    requires Tallied(counts, want, got)
    ensures Tallied(counts[x := CountOf(counts, x) - 1], want, got + [x])
  {
    var more := counts[x := CountOf(counts, x) - 1];
    assert want + (got + [x]) == (want + got) + [x];
    forall k ensures CountOf(more, k) == Delta(want, got + [x], k) {
      assert CountOf(counts, k) == Delta(want, got, k);
    }
  }

  method Tally(want: seq<string>, got: seq<string>) returns (counts: map<string, int>)
    ensures counts.Keys == Elements(want + got)
    ensures forall k :: CountOf(counts, k) == Delta(want, got, k)
  {
    counts := map[];
    for i := 0 to |want|
      invariant Tallied(counts, want[..i], [])
    {
      WantedStep(counts, want[..i], want[i]);
      assert want[..i + 1] == want[..i] + [want[i]];
      counts := counts[want[i] := CountOf(counts, want[i]) + 1];
    }
    assert want[..|want|] == want;
    for i := 0 to |got|
      invariant Tallied(counts, want, got[..i])
    {
      GottenStep(counts, want, got[..i], got[i]);
      assert got[..i + 1] == got[..i] + [got[i]];
      counts := counts[got[i] := CountOf(counts, got[i]) - 1];
    }
    assert got[..|got|] == got;
  }

  method NoteDelta(c: Check, field: string, key: string, n: int)
    modifies c
    ensures c.Value() == Recorded(old(c.Value()), DeltaDiff(field, key, n))
  {
    if n > 0 {
      c.Differ(field, key, Occurrences(n), Missing);
      return;
    }
    c.Differ(field, key, NotExpected, Occurrences(-n));
  }

  lemma {:induction false} DiffsStep(field: string, want: seq<string>, got: seq<string>, keys: seq<string>, i: nat,
                                     r: Record)
    requires i < |keys|
    ensures RecordedAll(r, DiffsOf(field, want, got, keys[..i + 1]))
            == Recorded(RecordedAll(r, DiffsOf(field, want, got, keys[..i])), DiffOf(field, want, got, keys[i]))
  {
    assert DiffsOf(field, want, got, keys[..i + 1])
      == DiffsOf(field, want, got, keys[..i]) + [DiffOf(field, want, got, keys[i])];
  }

  /** A difference names its key and the side that has more of it, and how many more. */
  lemma DifferencesTellSides(field: string, want: seq<string>, got: seq<string>, keys: seq<string>, i: nat)
    requires i < |keys| && Elements(keys) == Disagreeing(want, got)
    ensures var (d, m, n) := (DiffsOf(field, want, got, keys)[i], multiset(want)[keys[i]], multiset(got)[keys[i]]);
            && d.field == field && d.key == keys[i] && d.level == FailLevel && m != n
            && (m > n ==> d.expected == Occurrences(m - n) && d.actual == Missing)
            && (m < n ==> d.expected == NotExpected && d.actual == Occurrences(n - m))
  {
    assert keys[i] in Elements(keys);
  }

  /** Records one difference per disagreeing key, keys in increasing order. */
  method CompareMultisets(c: Check, field: string, want: seq<string>, got: seq<string>)
    returns (ghost keys: seq<string>)
    modifies c
    ensures Increasing(keys, StringLess) && Elements(keys) == Disagreeing(want, got)
    ensures c.Value() == RecordedAll(old(c.Value()), DiffsOf(field, want, got, keys))
  {
    var counts := Tally(want, got);
    var nonzero := set k | k in counts && counts[k] != 0;
    StringLessIsStrictTotal();
    var sorted := SortedKeys(nonzero, StringLess);
    keys := sorted;
    ghost var start := c.Value();
    for i := 0 to |sorted|
      invariant c.Value() == RecordedAll(start, DiffsOf(field, want, got, sorted[..i]))
    {
      assert sorted[i] in Elements(sorted);
      DiffsStep(field, want, got, sorted, i, start);
      NoteDelta(c, field, sorted[i], counts[sorted[i]]);
    }
    assert sorted[..|sorted|] == sorted;
  }

  lemma DisagreeingIsBagDifference(want: seq<string>, got: seq<string>)
    ensures Disagreeing(want, got) == {} <==> multiset(want) == multiset(got)
  {
    if Disagreeing(want, got) == {} {
      forall k ensures multiset(want)[k] == multiset(got)[k] {
        if k in want + got {
          assert k !in Disagreeing(want, got);
        } else {
          assert k !in multiset(want) && k !in multiset(got);
        }
      }
    }
  }

  /** A comparison started on a clean check records nothing exactly when the
      bags are equal; listed and suppressed differences together are as many as
      the keys that disagree; and the check fails exactly when one does. */
  lemma ComparisonCountsDisagreements(field: string, want: seq<string>, got: seq<string>, keys: seq<string>)
    requires Increasing(keys, StringLess) && Elements(keys) == Disagreeing(want, got)
    ensures var r := RecordedAll(CLEAN, DiffsOf(field, want, got, keys));
            && (r == CLEAN <==> multiset(want) == multiset(got))
            && |r.diffs| + r.suppressed == |Disagreeing(want, got)|
            && (r.outcome == Pass <==> multiset(want) == multiset(got))
  {
    var ds := DiffsOf(field, want, got, keys);
    CapLosesNothing(ds);
    StringLessIsStrictTotal();
    DistinctSize(keys);
    DisagreeingIsBagDifference(want, got);
    assert |keys| == 0 <==> Disagreeing(want, got) == {};
    if |keys| > 0 {
      assert ds[0].level.FailLevel?;
    }
  }

  // ----- the run's figures ------------------------------------------------

  datatype Summary = Summary(checks: nat, passed: nat, failed: nat, skipped: nat, diffs: nat, infoOnly: nat)

  predicate HasFailed(r: Record) { r.outcome.Fail? || r.outcome.Error? }

  function OfLevel(ds: seq<Diff>, level: Level): nat
  {
    if ds == [] then 0 else OfLevel(ds[..|ds| - 1], level) + (if ds[|ds| - 1].level == level then 1 else 0)
  }

  /** What one check adds to the run's figures. */
  function Counted(s: Summary, r: Record): Summary
  {
    Summary(s.checks + 1, s.passed + (if !HasFailed(r) && !r.outcome.Skip? then 1 else 0),
            s.failed + (if HasFailed(r) then 1 else 0), s.skipped + (if r.outcome.Skip? then 1 else 0),
            s.diffs + OfLevel(r.diffs, FailLevel) + r.suppressed, s.infoOnly + OfLevel(r.diffs, InfoLevel))
  }

  function SummaryOf(rs: seq<Record>): Summary
  {
    if rs == [] then Summary(0, 0, 0, 0, 0, 0) else Counted(SummaryOf(rs[..|rs| - 1]), rs[|rs| - 1])
  }

  method Summarise(rs: seq<Record>) returns (s: Summary)
    ensures s == SummaryOf(rs)
  {
    s := Summary(0, 0, 0, 0, 0, 0);
    for i := 0 to |rs|
      invariant s == SummaryOf(rs[..i])
    {
      assert rs[..i + 1][..i] == rs[..i];
      var r := rs[i];
      s := s.(checks := s.checks + 1);
      if HasFailed(r) {
        s := s.(failed := s.failed + 1);
      } else if r.outcome == Skip {
        s := s.(skipped := s.skipped + 1);
      } else {
        s := s.(passed := s.passed + 1);
      }
      var fails: nat, infos: nat := 0, 0;
      for k := 0 to |r.diffs|
        invariant fails == OfLevel(r.diffs[..k], FailLevel) && infos == OfLevel(r.diffs[..k], InfoLevel)
      {
        assert r.diffs[..k + 1][..k] == r.diffs[..k];
        if r.diffs[k].level == InfoLevel {
          infos := infos + 1;
        } else {
          fails := fails + 1;
        }
      }
      assert r.diffs[..|r.diffs|] == r.diffs;
      s := s.(diffs := s.diffs + fails + r.suppressed, infoOnly := s.infoOnly + infos);
    }
    assert rs[..|rs|] == rs;
  }

  function Recordings(rs: seq<Record>): nat
  {
    if rs == [] then 0 else Recordings(rs[..|rs| - 1]) + |rs[|rs| - 1].diffs| + rs[|rs| - 1].suppressed
  }

  lemma {:induction false} LevelsAddUp(ds: seq<Diff>)
    ensures OfLevel(ds, FailLevel) + OfLevel(ds, InfoLevel) == |ds|
  {
    if ds != [] {
      LevelsAddUp(ds[..|ds| - 1]);
    }
  }

  /** Every check is passed, failed or skipped, and every recorded difference,
      spelled out or suppressed, is counted once. */
  lemma {:induction false} SummaryAddsUp(rs: seq<Record>)
    ensures var s := SummaryOf(rs);
            && s.checks == |rs| == s.passed + s.failed + s.skipped
            && s.diffs + s.infoOnly == Recordings(rs)
            && (s.failed == 0 <==> forall i :: 0 <= i < |rs| ==> !HasFailed(rs[i]))
  {
    if rs != [] {
      SummaryAddsUp(rs[..|rs| - 1]);
      LevelsAddUp(rs[|rs| - 1].diffs);
      assert forall i :: 0 <= i < |rs| - 1 ==> rs[..|rs| - 1][i] == rs[i];
    }
  }

  function CountOutcome(rs: seq<Record>, o: Outcome): nat
  {
    if rs == [] then 0 else CountOutcome(rs[..|rs| - 1], o) + (if rs[|rs| - 1].outcome == o then 1 else 0)
  }

  function ListedOf(rs: seq<Record>, level: Level): nat
  {
    if rs == [] then 0 else ListedOf(rs[..|rs| - 1], level) + OfLevel(rs[|rs| - 1].diffs, level)
  }

  function SuppressedOf(rs: seq<Record>): nat
  {
    if rs == [] then 0 else SuppressedOf(rs[..|rs| - 1]) + rs[|rs| - 1].suppressed
  }

  /** Each figure counts what it is named for: outcomes, listed differences by level,
      suppressed ones with the failing. */
  lemma {:induction false} FiguresAreCounts(rs: seq<Record>)
    ensures var s := SummaryOf(rs);
            && s.passed == CountOutcome(rs, Pass) && s.skipped == CountOutcome(rs, Skip)
            && s.failed == CountOutcome(rs, Fail) + CountOutcome(rs, Error)
            && s.infoOnly == ListedOf(rs, InfoLevel) && s.diffs == ListedOf(rs, FailLevel) + SuppressedOf(rs)
  {
    if rs != [] {
      FiguresAreCounts(rs[..|rs| - 1]);
    }
  }

  lemma {:induction false} OfLevelConcat(a: seq<Diff>, b: seq<Diff>, level: Level)
    ensures OfLevel(a + b, level) == OfLevel(a, level) + OfLevel(b, level)
  {
    if b == [] {
      assert a + b == a;
    } else {
      OfLevelConcat(a, b[..|b| - 1], level);
      assert (a + b)[..|a + b| - 1] == a + b[..|b| - 1];
    }
  }

  /** One check's figure is the true number, or more by what is informational past the cap. */
  lemma {:induction false} FailingFigureOfOne(ds: seq<Diff>)
    ensures var r := RecordedAll(CLEAN, ds);
            OfLevel(r.diffs, FailLevel) + r.suppressed == OfLevel(ds, FailLevel) + InfoPastCap(ds)
  {
    CapLosesNothing(ds);
    if |ds| > MAX_DIFFS {
      assert ds == ds[..MAX_DIFFS] + ds[MAX_DIFFS..];
      OfLevelConcat(ds[..MAX_DIFFS], ds[MAX_DIFFS..], FailLevel);
      LevelsAddUp(ds[MAX_DIFFS..]);
    } else {
      assert ds[..|ds|] == ds;
    }
  }

  function InfoPastCap(ds: seq<Diff>): nat { if |ds| <= MAX_DIFFS then 0 else OfLevel(ds[MAX_DIFFS..], InfoLevel) }

  /** A check that found the differences `ds`, whatever its outcome came to be. */
  ghost predicate Found(r: Record, ds: seq<Diff>)
  {
    r.diffs == RecordedAll(CLEAN, ds).diffs && r.suppressed == RecordedAll(CLEAN, ds).suppressed
  }

  /** A run of checks that found `found`, check by check. */
  ghost predicate RunFound(rs: seq<Record>, found: seq<seq<Diff>>)
  {
    |rs| == |found| && forall i :: 0 <= i < |rs| ==> Found(rs[i], found[i])
  }

  /** The true number of failing differences of a run. */
  function Failing(found: seq<seq<Diff>>): nat
  {
    if found == [] then 0 else Failing(found[..|found| - 1]) + OfLevel(found[|found| - 1], FailLevel)
  }

  /** What is informational past the cap, over a run. */
  function InfoPastCaps(found: seq<seq<Diff>>): nat
  {
    if found == [] then 0 else InfoPastCaps(found[..|found| - 1]) + InfoPastCap(found[|found| - 1])
  }

  lemma {:induction false} NothingPastCapsIff(found: seq<seq<Diff>>)
    ensures InfoPastCaps(found) == 0 <==> forall i :: 0 <= i < |found| ==> InfoPastCap(found[i]) == 0
  {
    if found != [] {
      NothingPastCapsIff(found[..|found| - 1]);
      assert forall i :: 0 <= i < |found| - 1 ==> found[..|found| - 1][i] == found[i];
    }
  }

  lemma {:induction false} FailingFigure(rs: seq<Record>, found: seq<seq<Diff>>)
    requires RunFound(rs, found)
    ensures SummaryOf(rs).diffs == Failing(found) + InfoPastCaps(found)
  {
    if rs != [] {
      var n := |rs| - 1;
      assert forall i :: 0 <= i < n ==> rs[..n][i] == rs[i] && found[..n][i] == found[i];
      FailingFigure(rs[..n], found[..n]);
      assert Found(rs[n], found[n]);
      FailingFigureOfOne(found[n]);
    }
  }

  /** The run's figure for failing differences counts what is past the cap as
      failing too. It is never too low, and exact just when in every check
      nothing informational is past the cap. */
  lemma {:induction false} FailingFigureIsExactIff(rs: seq<Record>, found: seq<seq<Diff>>)
    requires RunFound(rs, found)
    ensures SummaryOf(rs).diffs >= Failing(found)
    ensures SummaryOf(rs).diffs == Failing(found) <==> forall i :: 0 <= i < |found| ==> InfoPastCap(found[i]) == 0
  {
    FailingFigure(rs, found);
    NothingPastCapsIff(found);
  }

  /** A run that found twenty-six informational differences in one check, and
      nothing that fails, reports one failing difference. */
  lemma PastTheCapCountsAsFailing(d: Diff)
    requires d.level.InfoLevel?
    ensures var found := seq(MAX_DIFFS + 1, _ => d);
            Failing([found]) == 0 && SummaryOf([RecordedAll(CLEAN, found)]).diffs == 1
  {
    var found := seq(MAX_DIFFS + 1, _ => d);
    AllInformational(found);
    AllInformational(found[MAX_DIFFS..]);
    FailingFigureOfOne(found);
    assert [found][..0] == [] && [RecordedAll(CLEAN, found)][..0] == [];
  }

  lemma {:induction false} AllInformational(ds: seq<Diff>)
    requires forall i :: 0 <= i < |ds| ==> ds[i].level.InfoLevel?
    ensures OfLevel(ds, FailLevel) == 0 && OfLevel(ds, InfoLevel) == |ds|
  {
    if ds != [] {
      AllInformational(ds[..|ds| - 1]);
    }
  }
}
