/** The tax-financial report: the figures of one return, and their exact
    roll-up into a summary, the requested groups and the per-period chart. The
    figures of rows, summary and buckets are objects, filled in place; none of
    them is shared. */
module Financial {
  import opened Outcomes
  import opened Ordering
  import opened Aggregation
  import opened StableSort
  import opened OracleWorld
  import opened Heatmap
  import Compliance

  datatype Fig = Fig(outputVat: real, inputVat: real, netVat: real, taxableIncome: real, taxLiability: real,
                     whtAmount: real, engagementCost: real, totalAmount: real)

  const NO_FIG := Fig(0.0, 0.0, 0.0, 0.0, 0.0, 0.0, 0.0, 0.0)

  function AddFig(a: Fig, b: Fig): Fig
  {
    Fig(a.outputVat + b.outputVat, a.inputVat + b.inputVat, a.netVat + b.netVat, a.taxableIncome + b.taxableIncome,
        a.taxLiability + b.taxLiability, a.whtAmount + b.whtAmount, a.engagementCost + b.engagementCost,
        a.totalAmount + b.totalAmount)
  }

  /** The eight accumulators of one row, group or summary. */
  class Figures {
    var outputVat: real
    var inputVat: real
    var netVat: real
    var taxableIncome: real
    var taxLiability: real
    var whtAmount: real
    var engagementCost: real
    var totalAmount: real

    function Value(): Fig
      reads this
    {
      Fig(outputVat, inputVat, netVat, taxableIncome, taxLiability, whtAmount, engagementCost, totalAmount)
    }

    constructor ()
      ensures Value() == NO_FIG
    {
      outputVat, inputVat, netVat, taxableIncome := 0.0, 0.0, 0.0, 0.0;
      taxLiability, whtAmount, engagementCost, totalAmount := 0.0, 0.0, 0.0, 0.0;
    }

    method Add(o: Figures)
      modifies this
      ensures Value() == AddFig(old(Value()), old(o.Value()))
    {
      outputVat := outputVat + o.outputVat;
      inputVat := inputVat + o.inputVat;
      netVat := netVat + o.netVat;
      taxableIncome := taxableIncome + o.taxableIncome;
      taxLiability := taxLiability + o.taxLiability;
      whtAmount := whtAmount + o.whtAmount;
      engagementCost := engagementCost + o.engagementCost;
      totalAmount := totalAmount + o.totalAmount;
    }
  }

  // ----- the figures of one return ----------------------------------------

  /** The alias chains of shared/taxkeys, any of them. */
  datatype Aliases = Aliases(
    outputVat: seq<string>, inputVat: seq<string>, netVat: seq<string>, taxableIncome: seq<string>,
    taxLiability: seq<string>, whtAmount: seq<string>, engagementCost: seq<string>, other: seq<string>)

  /** What a key of the tax data reads as: 0 when absent or not a number. */
  function Num(data: map<string, real>, key: string): real { if key in data then data[key] else 0.0 }

  predicate Blank(data: map<string, real>, key: string) { key !in data || data[key] == 0.0 }

  /** `v` is the value of the first key that is not blank, or zero. */
  ghost predicate IsFirstNonZero(data: map<string, real>, keys: seq<string>, v: real)
  {
    || (v == 0.0 && forall i :: 0 <= i < |keys| ==> Blank(data, keys[i]))
    || (v != 0.0 && exists i :: 0 <= i < |keys| && keys[i] in data && data[keys[i]] == v
                                && forall j :: 0 <= j < i ==> Blank(data, keys[j]))
  }

  function FirstNonZero(data: map<string, real>, keys: seq<string>): (v: real)
    ensures IsFirstNonZero(data, keys, v)
  {
    if keys == [] then 0.0
    else if Num(data, keys[0]) != 0.0 then Num(data, keys[0])
    else
      var v := FirstNonZero(data, keys[1..]);
      assert v != 0.0 ==> forall i :: 0 <= i < |keys| - 1 ==> keys[1..][i] == keys[i + 1];
      v
  }

  /** The figures of a return, gated by its tax type. */
  function Extract(a: Aliases, taxType: string, data: map<string, real>): (f: Fig)
    ensures taxType == "VAT"
            ==> IsFirstNonZero(data, a.outputVat, f.outputVat) && IsFirstNonZero(data, a.inputVat, f.inputVat)
    ensures taxType == "VAT" && IsFirstNonZero(data, a.netVat, 0.0) ==> f.netVat == f.outputVat - f.inputVat
    ensures taxType == "VAT" && !IsFirstNonZero(data, a.netVat, 0.0) ==> IsFirstNonZero(data, a.netVat, f.netVat)
    ensures taxType != "VAT" ==> f.outputVat == f.inputVat == f.netVat == 0.0
    ensures if taxType == "CIT" then IsFirstNonZero(data, a.taxableIncome, f.taxableIncome)
                                     && IsFirstNonZero(data, a.taxLiability, f.taxLiability)
            else f.taxableIncome == f.taxLiability == 0.0
    ensures if taxType == "WHT" then IsFirstNonZero(data, a.whtAmount, f.whtAmount) else f.whtAmount == 0.0
    ensures IsFirstNonZero(data, a.engagementCost, f.engagementCost)
    ensures taxType == "VAT" ==> f.totalAmount == f.netVat
    ensures taxType == "CIT" ==> f.totalAmount == f.taxLiability
    ensures taxType == "WHT" ==> f.totalAmount == f.whtAmount
    ensures taxType !in {"VAT", "CIT", "WHT"} ==> IsFirstNonZero(data, a.other, f.totalAmount)
  {
    var isVat, isCit, isWht := taxType == "VAT", taxType == "CIT", taxType == "WHT";
    var outputVat := if isVat then FirstNonZero(data, a.outputVat) else 0.0;
    var inputVat := if isVat then FirstNonZero(data, a.inputVat) else 0.0;
    var taxableIncome := if isCit then FirstNonZero(data, a.taxableIncome) else 0.0;
    var taxLiability := if isCit then FirstNonZero(data, a.taxLiability) else 0.0;
    var whtAmount := if isWht then FirstNonZero(data, a.whtAmount) else 0.0;
    var given := FirstNonZero(data, a.netVat);
    var netVat := if !isVat then 0.0 else if given != 0.0 then given else outputVat - inputVat;
    Fig(outputVat, inputVat, netVat, taxableIncome, taxLiability, whtAmount, FirstNonZero(data, a.engagementCost),
        if isVat then netVat
        else if isCit then taxLiability
        else if isWht then whtAmount
        else FirstNonZero(data, a.other))
  }

  /** The figures of an instance; the report takes them as any function. */
  function FigBy(a: Aliases): Instance -> Fig { i => Extract(a, TaxType(i), i.taxData) }

  method TaxFigures(a: Aliases, taxType: string, data: map<string, real>) returns (f: Figures)
    ensures fresh(f) && f.Value() == Extract(a, taxType, data)
  {
    f := new Figures();
    if taxType == "VAT" {
      f.outputVat := FirstNonZero(data, a.outputVat);
      f.inputVat := FirstNonZero(data, a.inputVat);
    }
    if taxType == "CIT" {
      f.taxableIncome := FirstNonZero(data, a.taxableIncome);
      f.taxLiability := FirstNonZero(data, a.taxLiability);
    }
    if taxType == "WHT" {
      f.whtAmount := FirstNonZero(data, a.whtAmount);
    }
    f.engagementCost := FirstNonZero(data, a.engagementCost);
    if taxType == "VAT" {
      var given := FirstNonZero(data, a.netVat);
      f.netVat := if given != 0.0 then given else f.outputVat - f.inputVat;
    }
    f.totalAmount := if taxType == "VAT" then f.netVat
                     else if taxType == "CIT" then f.taxLiability
                     else if taxType == "WHT" then f.whtAmount
                     else FirstNonZero(data, a.other);
  }

  // ----- buckets ----------------------------------------------------------

  /** What a bucket holds: exact figures, a count, the earliest period end. */
  datatype Money = Money(fig: Fig, count: nat, firstEnd: Option<Date>)

  function AddMoney(a: Money, b: Money): Money
  {
    Money(AddFig(a.fig, b.fig), a.count + b.count, Earlier(a.firstEnd, b.firstEnd))
  }

  const NO_MONEY := Money(NO_FIG, 0, None)
  const MONEY: Monoid<Money> := Monoid(NO_MONEY, (a, b) => AddMoney(a, b))

  lemma MoneyCommutes()
    ensures Commutative(MONEY)
  {
    DatesAreOrdered();
    forall a, b, c ensures Laws(MONEY, a, b, c) {
      assert AddFig(AddFig(a.fig, b.fig), c.fig) == AddFig(a.fig, AddFig(b.fig, c.fig));
    }
  }

  function MoneyOf(f: Instance -> Fig): Instance -> Money { i => Money(f(i), 1, Some(i.periodEnd)) }

  datatype Ledger = Ledger(title: string, fig: Fig, count: nat, firstEnd: Date)

  function LedgerMoney(b: Ledger): Money { Money(b.fig, b.count, Some(b.firstEnd)) }

  function Monies(b: map<string, Ledger>): map<string, Money> { map k | k in b :: LedgerMoney(b[k]) }

  function Titles(b: map<string, Ledger>): map<string, string> { map k | k in b :: b[k].title }

  function Ends(b: map<string, Ledger>): map<string, Date> { map k | k in b :: b[k].firstEnd }

  /** One row's share added to the bucket of its key. */
  function WithShare(b: map<string, Money>, key: string, share: Money): map<string, Money>
  {
    b[key := AddMoney(At(b, key, MONEY), share)]
  }

  /** A bucket after one more row. */
  function Entered(b: Ledger, fig: Fig, end: Date): Ledger
  {
    Ledger(b.title, AddFig(b.fig, fig), b.count + 1, if Before(end, b.firstEnd) then end else b.firstEnd)
  }

  /** The buckets with one for the key, opened when there is none. */
  function WithBucket(b: map<string, Ledger>, key: string, title: string, end: Date): map<string, Ledger>
  {
    if key in b then b else b[key := Ledger(title, NO_FIG, 0, end)]
  }

  /** One row added to the bucket of its key, which it opens when it is new. */
  function WithRow(b: map<string, Ledger>, key: string, title: string, fig: Fig, end: Date): map<string, Ledger>
  {
    var more := WithBucket(b, key, title, end);
    more[key := Entered(more[key], fig, end)]
  }

  class Group {
    const title: string
    const figures: Figures
    var count: nat
    var firstEnd: Date

    function View(): Ledger
      reads this, figures
    {
      Ledger(title, figures.Value(), count, firstEnd)
    }

    constructor (title: string, end: Date)
      ensures fresh(figures) && View() == Ledger(title, NO_FIG, 0, end)
    {
      this.title, count, firstEnd := title, 0, end;
      figures := new Figures();
    }

    method Enter(row: Figures, end: Date)
      requires row != figures
      modifies this, figures
      ensures View() == Entered(old(View()), row.Value(), end)
    {
      figures.Add(row);
      count := count + 1;
      if Before(end, firstEnd) {
        firstEnd := end;
      }
    }
  }

  /** Buckets by key. `contents` is what they hold; `members` and `accumulators`
      are the objects they are made of. */
  class Buckets {
    var entries: map<string, Group>
    ghost var contents: map<string, Ledger>
    ghost var members: set<Group>
    ghost var accumulators: set<Figures>

    ghost predicate IsEmpty()
      reads this
    {
      entries == map[] && contents == map[] && members == {} && accumulators == {}
    }

    constructor ()
      ensures IsEmpty()
    {
      entries, contents, members, accumulators := map[], map[], {}, {};
    }

    /** Each bucket holds what `contents` says; no two are one object, nor share
        their figures. */
    ghost predicate Valid()
      reads this, members, accumulators
    {
      && entries.Keys == contents.Keys && (forall k :: k in entries ==> Shows(k))
      && (forall j, k :: j in entries && k in entries && j != k
                         ==> entries[j] != entries[k] && entries[j].figures != entries[k].figures)
    }

    ghost predicate Shows(k: string)
      requires k in entries && k in contents
      reads this, members, accumulators
    {
      entries[k] in members && entries[k].figures in accumulators && entries[k].View() == contents[k]
    }

    function Contents(): (c: map<string, Ledger>)
      requires Valid()
      reads this, members, accumulators
      ensures c == contents
    {
      assert forall k :: k in entries ==> Shows(k);
      map k | k in entries :: entries[k].View()
    }

    method Open(key: string, title: string, end: Date)
      requires Valid()
      modifies this
      ensures Valid() && key in entries
      ensures forall o :: o in members ==> o in old(members) || fresh(o)
      ensures forall o :: o in accumulators ==> o in old(accumulators) || fresh(o)
      ensures contents == WithBucket(old(contents), key, title, end)
    {
      if key !in entries {
        var group := new Group(title, end);
        entries := entries[key := group];
        contents := contents[key := group.View()];
        members, accumulators := members + {group}, accumulators + {group.figures};
      }
    }

    method EnterIn(key: string, row: Figures, end: Date)
      requires Valid() && key in entries && row !in accumulators
      modifies `contents, entries[key], entries[key].figures
      ensures Valid() && contents == old(contents)[key := Entered(old(contents)[key], row.Value(), end)]
    {
      entries[key].Enter(row, end);
      contents := contents[key := entries[key].View()];
    }

    /** One row added to the bucket of its key: only buckets change, and what is
        new among them is an object of its own. */
    method Accumulate(key: string, title: string, row: Figures, end: Date)
      requires Valid() && row !in accumulators
      modifies this, members, accumulators
      ensures Valid()
      ensures forall o :: o in members ==> o in old(members) || fresh(o)
      ensures forall o :: o in accumulators ==> o in old(accumulators) || fresh(o)
      ensures contents == WithRow(old(contents), key, title, row.Value(), end)
    {
      Open(key, title, end);
      EnterIn(key, row, end);
    }
  }

  /** What that does to the money and to the titles of the buckets. */
  lemma WithRowAddsShare(b: map<string, Ledger>, key: string, title: string, fig: Fig, end: Date)
    ensures Monies(WithRow(b, key, title, fig, end)) == WithShare(Monies(b), key, Money(fig, 1, Some(end)))
    ensures Titles(WithRow(b, key, title, fig, end)) == WithTitle(Titles(b), key, title)
  {
    var r := WithRow(b, key, title, fig, end);
    AddToNothing(fig);
    assert LedgerMoney(r[key]) == AddMoney(At(Monies(b), key, MONEY), Money(fig, 1, Some(end)));
  }

  lemma AddToNothing(f: Fig)
    ensures AddFig(NO_FIG, f) == f == AddFig(f, NO_FIG)
  {
  }

  // ----- the report -------------------------------------------------------

  datatype GroupBy = ByEntity | ByCountry | ByTaxType | ByPeriod | ByObligation

  function Country(i: Instance): string { if i.workflow.entity.None? then "" else i.workflow.entity.value.country }

  function FinancialObligationName(i: Instance): string
  {
    if i.workflow.obligation.None? then "Unknown" else i.workflow.obligation.value.name
  }

  function GroupKey(g: GroupBy, i: Instance): string
  {
    match g
    case ByCountry => if Country(i) == "" then UNKNOWN_KEY else Country(i)
    case ByTaxType => if TaxType(i) == "" then UNKNOWN_KEY else TaxType(i)
    case ByPeriod => i.periodCode
    case ByObligation => if i.workflow.obligation.None? then UNKNOWN_KEY else i.workflow.obligation.value.key
    case ByEntity => if EntityKey(i) == "" then UNKNOWN_KEY else EntityKey(i)
  }

  function GroupTitle(g: GroupBy, i: Instance): string
  {
    match g
    case ByCountry => if Country(i) == "" then "Unknown" else Country(i)
    case ByTaxType => if TaxType(i) == "" then "Unknown" else TaxType(i)
    case ByPeriod => i.periodCode
    case ByObligation => FinancialObligationName(i)
    case ByEntity => EntityName(i)
  }

  function KeyBy(g: GroupBy): Instance -> string { i => GroupKey(g, i) }

  /** The instances that carry tax data. */
  function WithData(s: seq<Instance>): seq<Instance>
  {
    if s == [] then []
    else WithData(s[..|s| - 1]) + (if s[|s| - 1].taxData == map[] then [] else [s[|s| - 1]])
  }

  const FIGS: Monoid<Fig> := Monoid(NO_FIG, (a, b) => AddFig(a, b))

  function WithTitle(m: map<string, string>, key: string, title: string): map<string, string>
  {
    if key in m then m else m[key := title]
  }

  /** The title a bucket is opened with: its first row's. */
  function FirstTitles(s: seq<Instance>, g: GroupBy): map<string, string>
  {
    if s == [] then map[]
    else
      var (m, x) := (FirstTitles(s[..|s| - 1], g), s[|s| - 1]);
      WithTitle(m, GroupKey(g, x), GroupTitle(g, x))
  }

  datatype Row = Row(instance: Instance, entityName: string, entityKey: string, country: string, taxType: string,
                     obligationName: string, obligationCode: string, period: string, financialYear: string,
                     figures: Figures)

  function RowFor(i: Instance, figures: Figures): (r: Row)
    ensures r.instance == i && r.figures == figures
  {
    Row(i, EntityName(i), EntityKey(i), Country(i), TaxType(i), FinancialObligationName(i), ObligationCode(i),
        i.periodCode, i.workflow.financialYear, figures)
  }

  function SortKey(r: Row): (string, string, string) { (r.entityName, r.obligationName, r.period) }

  ghost function RowObjects(rows: seq<Row>): set<Figures> { set i | 0 <= i < |rows| :: rows[i].figures }

  function InstancesOf(rows: seq<Row>): seq<Instance> { seq(|rows|, i requires 0 <= i < |rows| => rows[i].instance) }

  /** A row describes its instance and holds exactly that instance's figures. */
  ghost predicate RowOk(f: Instance -> Fig, r: Row)
    reads r.figures
  {
    r.figures.Value() == f(r.instance) && DescribesInstance(r)
  }

  ghost predicate DescribesInstance(r: Row)
  {
    && r.entityName == EntityName(r.instance) && r.obligationName == FinancialObligationName(r.instance)
    && r.period == r.instance.periodCode && r.financialYear == r.instance.workflow.financialYear
    && r.entityKey == EntityKey(r.instance) && r.country == Country(r.instance)
    && r.taxType == TaxType(r.instance) && r.obligationCode == ObligationCode(r.instance)
  }

  ghost predicate RowsOk(f: Instance -> Fig, rows: seq<Row>)
    reads RowObjects(rows)
  {
    forall i :: 0 <= i < |rows| ==> rows[i].figures in RowObjects(rows) && RowOk(f, rows[i])
  }

  /** The money of every bucket of one grouping. */
  function GroupMoney(f: Instance -> Fig, g: GroupBy, s: seq<Instance>): map<string, Money>
  {
    Groups(s, KeyBy(g), MoneyOf(f), MONEY)
  }

  function ChartLess(ends: map<string, Date>): (string, string) -> bool { ByThen(FirstOf(ends), Before, StringLess) }

  function GroupLess(g: GroupBy, ends: map<string, Date>, titles: map<string, string>): (string, string) -> bool
  {
    if g == ByPeriod then ColLess(ends, titles) else RowLess(titles)
  }

  lemma OrdersOfBuckets(g: GroupBy, ends: map<string, Date>, titles: map<string, string>)
    ensures StrictTotal(ChartLess(ends)) && StrictTotal(GroupLess(g, ends, titles))
  {
    OrdersAreStrictTotal(ends, titles);
    StringLessIsStrictTotal();
    DatesAreOrdered();
    ByThenIsStrictTotal(FirstOf(ends), Before, StringLess);
  }

  /** The buckets of one grouping, row after row. */
  function BucketsOf(f: Instance -> Fig, g: GroupBy, s: seq<Instance>): map<string, Ledger>
  {
    if s == [] then map[]
    else
      var x := s[|s| - 1];
      WithRow(BucketsOf(f, g, s[..|s| - 1]), GroupKey(g, x), GroupTitle(g, x), f(x), x.periodEnd)
  }

  /** Their money is the roll-up by key, their titles those of their first rows. */
  lemma {:induction false} BucketsHoldGroups(f: Instance -> Fig, g: GroupBy, s: seq<Instance>)
    ensures Monies(BucketsOf(f, g, s)) == GroupMoney(f, g, s) && Titles(BucketsOf(f, g, s)) == FirstTitles(s, g)
  {
    if s != [] {
      var x := s[|s| - 1];
      BucketsHoldGroups(f, g, s[..|s| - 1]);
      WithRowAddsShare(BucketsOf(f, g, s[..|s| - 1]), GroupKey(g, x), GroupTitle(g, x), f(x), x.periodEnd);
    }
  }

  /** The values the report's accumulators hold. */
  datatype Books = Books(instances: seq<Instance>, recordCount: nat, summary: Fig, groups: map<string, Ledger>,
                         periods: map<string, Ledger>)

  ghost predicate Accumulated(f: Instance -> Fig, g: GroupBy, used: seq<Instance>, b: Books)
  {
    && b.instances == used && b.recordCount == |used| && b.summary == Total(used, f, FIGS)
    && b.groups == BucketsOf(f, g, used) && b.periods == BucketsOf(f, ByPeriod, used)
  }

  ghost function Listed(f: Instance -> Fig, i: Instance, b: Books): Books
  {
    b.(instances := b.instances + [i], recordCount := b.recordCount + 1)
  }

  ghost function Summed(fig: Fig, b: Books): Books { b.(summary := AddFig(b.summary, fig)) }

  ghost function Grouped(key: string, title: string, fig: Fig, end: Date, b: Books): Books
  {
    b.(groups := WithRow(b.groups, key, title, fig, end))
  }

  ghost function Charted(key: string, fig: Fig, end: Date, b: Books): Books
  {
    b.(periods := WithRow(b.periods, key, key, fig, end))
  }

  ghost function Stored(f: Instance -> Fig, i: Instance, b: Books): Books { Summed(f(i), Listed(f, i, b)) }

  ghost function Bucketed(f: Instance -> Fig, g: GroupBy, i: Instance, b: Books): Books
  {
    Charted(i.periodCode, f(i), i.periodEnd, Grouped(GroupKey(g, i), GroupTitle(g, i), f(i), i.periodEnd, b))
  }

  /** The books after one more instance. */
  ghost function Booked(f: Instance -> Fig, g: GroupBy, i: Instance, b: Books): Books
  {
    Bucketed(f, g, i, Stored(f, i, b))
  }

  /** The books of the first instances, one booked after the other. */
  ghost function BooksOf(f: Instance -> Fig, g: GroupBy, s: seq<Instance>): Books
  {
    if s == [] then Books([], 0, NO_FIG, map[], map[])
    else
      var b := BooksOf(f, g, s[..|s| - 1]);
      if s[|s| - 1].taxData == map[] then b else Booked(f, g, s[|s| - 1], b)
  }

  function InstanceKey(i: Instance): (string, string, string)
  {
    (EntityName(i), FinancialObligationName(i), i.periodCode)
  }

  ghost predicate IsOrder(order: seq<string>, b: map<string, Ledger>, less: (string, string) -> bool)
  {
    Increasing(order, less) && Elements(order) == b.Keys
  }

  /** What the finished report of the instances `used` holds. */
  ghost predicate IsFinancialOf(f: Instance -> Fig, g: GroupBy, used: seq<Instance>, b: Books, chart: seq<string>,
                                order: seq<string>)
  {
    && Accumulated(f, g, used, b.(instances := used))
    && StableSortOf(b.instances, used, InstanceKey, Compliance.KeyLess)
    && IsOrder(chart, b.periods, ChartLess(Ends(b.periods)))
    && IsOrder(order, b.groups, GroupLess(g, Ends(b.groups), Titles(b.groups)))
  }

  /** Each row has figures of its own. */
  ghost predicate OwnFigures(rows: seq<Row>)
  {
    forall i, j :: 0 <= i < j < |rows| ==> rows[i].figures != rows[j].figures
  }

  class Report {
    var rows: seq<Row>
    var recordCount: nat
    const summary: Figures
    const groups: Buckets
    const periods: Buckets
    var chartOrder: seq<string>
    var groupOrder: seq<string>

    constructor ()
      ensures fresh(summary) && fresh(groups) && fresh(periods) && IsEmpty()
    {
      rows, recordCount, chartOrder, groupOrder := [], 0, [], [];
      summary := new Figures();
      groups := new Buckets();
      periods := new Buckets();
    }

    ghost predicate IsEmpty()
      reads this, summary, groups, periods
    {
      && rows == [] && recordCount == 0 && summary.Value() == NO_FIG
      && groups != periods && groups.IsEmpty() && periods.IsEmpty()
    }

    /** No figures are shared: not between rows, not between buckets, and not
        between the rows, the summary, the groups and the periods. */
    ghost predicate Apart()
      reads this, groups, periods
    {
      && OwnFigures(rows)
      && groups != periods && groups.members !! periods.members && groups.accumulators !! periods.accumulators
      && summary !in groups.accumulators && summary !in periods.accumulators
      && forall i :: 0 <= i < |rows| ==> IsNoTarget(rows[i].figures)
    }

    ghost predicate Valid()
      reads this, groups, periods, groups.members, periods.members, groups.accumulators, periods.accumulators
    {
      Apart() && groups.Valid() && periods.Valid()
    }

    /** Not one of the figures that rows are added into. */
    ghost predicate IsNoTarget(figures: Figures)
      reads this, groups, periods
    {
      figures != summary && figures !in groups.accumulators && figures !in periods.accumulators
    }

    ghost function Values(): Books
      reads this, summary, groups, periods
    {
      Books(InstancesOf(rows), recordCount, summary.Value(), groups.contents, periods.contents)
    }

    method AppendRow(ghost f: Instance -> Fig, i: Instance, figures: Figures)
      requires Valid() && RowsOk(f, rows) && figures.Value() == f(i) && figures !in RowObjects(rows)
      requires IsNoTarget(figures)
      modifies `rows, `recordCount
      ensures Valid() && RowsOk(f, rows) && RowObjects(rows) == RowObjects(old(rows)) + {figures} && old(rows) <= rows
      ensures Values() == Listed(f, i, old(Values()))
    {
      var row := RowFor(i, figures);
      MoreRows(f, rows, row);
      RowAppended(rows, row);
      rows := rows + [row];
      recordCount := recordCount + 1;
      assert Apart() && groups.Valid() && periods.Valid();
      assert InstancesOf(rows) == InstancesOf(old(rows)) + [i];
    }

    method AddToSummary(ghost f: Instance -> Fig, figures: Figures)
      requires Valid() && RowsOk(f, rows) && figures != summary
      modifies summary
      ensures Valid() && RowsOk(f, rows) && figures.Value() == old(figures.Value())
      ensures Values() == Summed(figures.Value(), old(Values()))
    {
      summary.Add(figures);
    }

    method AddToGroup(ghost f: Instance -> Fig, key: string, title: string, end: Date, figures: Figures)
      requires Valid() && RowsOk(f, rows) && IsNoTarget(figures)
      modifies groups, groups.members, groups.accumulators
      ensures Valid() && RowsOk(f, rows)
      ensures forall o :: o in groups.members ==> o in old(groups.members) || fresh(o)
      ensures forall o :: o in groups.accumulators ==> o in old(groups.accumulators) || fresh(o)
      ensures Values() == Grouped(key, title, figures.Value(), end, old(Values()))
      ensures figures.Value() == old(figures.Value()) && IsNoTarget(figures)
    {
      groups.Accumulate(key, title, figures, end);
    }

    method AddToPeriod(ghost f: Instance -> Fig, key: string, end: Date, figures: Figures)
      requires Valid() && RowsOk(f, rows) && IsNoTarget(figures)
      modifies periods, periods.members, periods.accumulators
      ensures Valid() && RowsOk(f, rows)
      ensures forall o :: o in periods.members ==> o in old(periods.members) || fresh(o)
      ensures forall o :: o in periods.accumulators ==> o in old(periods.accumulators) || fresh(o)
      ensures Values() == Charted(key, figures.Value(), end, old(Values()))
    {
      periods.Accumulate(key, key, figures, end);
    }

    method AddToBuckets(ghost f: Instance -> Fig, g: GroupBy, i: Instance, figures: Figures)
      requires Valid() && RowsOk(f, rows) && figures.Value() == f(i) && IsNoTarget(figures)
      modifies groups, groups.members, groups.accumulators, periods, periods.members, periods.accumulators
      ensures Valid() && RowsOk(f, rows)
      ensures forall o :: o in groups.members ==> o in old(groups.members) || fresh(o)
      ensures forall o :: o in groups.accumulators ==> o in old(groups.accumulators) || fresh(o)
      ensures forall o :: o in periods.members ==> o in old(periods.members) || fresh(o)
      ensures forall o :: o in periods.accumulators ==> o in old(periods.accumulators) || fresh(o)
      ensures Values() == Bucketed(f, g, i, old(Values()))
    {
      AddToGroup(f, GroupKey(g, i), GroupTitle(g, i), i.periodEnd, figures);
      AddToPeriod(f, i.periodCode, i.periodEnd, figures);
    }

    method StoreRow(ghost f: Instance -> Fig, i: Instance, figures: Figures)
      requires Valid() && RowsOk(f, rows) && figures.Value() == f(i) && figures !in RowObjects(rows)
      requires IsNoTarget(figures)
      modifies `rows, `recordCount, summary
      ensures Valid() && RowsOk(f, rows) && RowObjects(rows) == RowObjects(old(rows)) + {figures} && old(rows) <= rows
      ensures Values() == Stored(f, i, old(Values()))
      ensures IsNoTarget(figures) && figures.Value() == f(i)
    {
      AppendRow(f, i, figures);
      AddToSummary(f, figures);
    }

    /** One instance with tax data, in all four places it is counted. After each
        of the additions every row stored so far still holds its own figures. */
    method AddInstance(ghost f: Instance -> Fig, g: GroupBy, i: Instance, figures: Figures)
      requires Valid() && RowsOk(f, rows) && figures.Value() == f(i) && figures !in RowObjects(rows)
      requires IsNoTarget(figures)
      modifies this, summary
      modifies groups, groups.members, groups.accumulators, periods, periods.members, periods.accumulators
      ensures Valid() && RowsOk(f, rows) && RowObjects(rows) == RowObjects(old(rows)) + {figures} && old(rows) <= rows
      ensures forall o :: o in groups.members ==> o in old(groups.members) || fresh(o)
      ensures forall o :: o in groups.accumulators ==> o in old(groups.accumulators) || fresh(o)
      ensures forall o :: o in periods.members ==> o in old(periods.members) || fresh(o)
      ensures forall o :: o in periods.accumulators ==> o in old(periods.accumulators) || fresh(o)
      ensures Values() == Booked(f, g, i, old(Values()))
    {
      StoreRow(f, i, figures);
      AddToBuckets(f, g, i, figures);
    }

    /** One turn of the loop: an instance without tax data is passed over. */
    method AddPart(ghost f: Instance -> Fig, a: Aliases, g: GroupBy, i: Instance)
      requires Valid() && RowsOk(f, rows) && f(i) == Extract(a, TaxType(i), i.taxData)
      modifies this, summary
      modifies groups, groups.members, groups.accumulators, periods, periods.members, periods.accumulators
      ensures Valid() && RowsOk(f, rows)
      ensures forall o :: o in groups.members ==> o in old(groups.members) || fresh(o)
      ensures forall o :: o in groups.accumulators ==> o in old(groups.accumulators) || fresh(o)
      ensures forall o :: o in periods.members ==> o in old(periods.members) || fresh(o)
      ensures forall o :: o in periods.accumulators ==> o in old(periods.accumulators) || fresh(o)
      ensures Values() == if i.taxData == map[] then old(Values()) else Booked(f, g, i, old(Values()))
    {
      if i.taxData != map[] {
        var figures := TaxFigures(a, TaxType(i), i.taxData);
        AddInstance(f, g, i, figures);
      }
    }

    /** The loop over the participating instances. */
    method RollUp(ghost f: Instance -> Fig, a: Aliases, g: GroupBy, parts: seq<Instance>)
      requires IsEmpty() && forall i :: i in parts ==> f(i) == Extract(a, TaxType(i), i.taxData)
      modifies this, summary, groups, periods
      ensures Valid() && RowsOk(f, rows) && Values() == BooksOf(f, g, parts)
    {
      for n := 0 to |parts|
        invariant forall o :: o in groups.members ==> fresh(o)
        invariant forall o :: o in groups.accumulators ==> fresh(o)
        invariant forall o :: o in periods.members ==> fresh(o)
        invariant forall o :: o in periods.accumulators ==> fresh(o)
        invariant Valid() && RowsOk(f, rows) && Values() == BooksOf(f, g, parts[..n])
      {
        BooksStep(f, g, parts, n);
        AddPart(f, a, g, parts[n]);
      }
      assert parts[..|parts|] == parts;
    }

    method SortRows(ghost f: Instance -> Fig)
      requires Valid() && RowsOk(f, rows)
      modifies `rows
      ensures Valid() && RowsOk(f, rows) && RowObjects(rows) == RowObjects(old(rows)) && |rows| == |old(rows)|
      ensures StableSortOf(InstancesOf(rows), InstancesOf(old(rows)), InstanceKey, Compliance.KeyLess)
      ensures Values() == old(Values()).(instances := InstancesOf(rows))
    {
      Compliance.KeyLessIsStrictTotal();
      var sorted := InsertionSort(rows, SortKey, Compliance.KeyLess);
      SortedRowsOk(f, sorted, rows);
      rows := sorted;
    }

    /** The keys of the chart by the calendar, those of the groups by title. */
    method KeysInOrder(g: GroupBy) returns (chart: seq<string>, order: seq<string>)
      requires groups.Valid() && periods.Valid()
      ensures IsOrder(chart, periods.contents, ChartLess(Ends(periods.contents)))
      ensures IsOrder(order, groups.contents, GroupLess(g, Ends(groups.contents), Titles(groups.contents)))
    {
      var charted, grouped := periods.Contents(), groups.Contents();
      OrdersOfBuckets(g, Ends(charted), Titles(charted));
      chart := SortedKeys(charted.Keys, ChartLess(Ends(charted)));
      OrdersOfBuckets(g, Ends(grouped), Titles(grouped));
      order := SortedKeys(grouped.Keys, GroupLess(g, Ends(grouped), Titles(grouped)));
    }

    method OrderBuckets(ghost f: Instance -> Fig, g: GroupBy)
      requires Valid() && RowsOk(f, rows)
      modifies `chartOrder, `groupOrder
      ensures Valid() && RowsOk(f, rows) && Values() == old(Values())
      ensures IsOrder(chartOrder, periods.contents, ChartLess(Ends(periods.contents)))
      ensures IsOrder(groupOrder, groups.contents, GroupLess(g, Ends(groups.contents), Titles(groups.contents)))
    {
      chartOrder, groupOrder := KeysInOrder(g);
    }
  }

  method FinancialReport(a: Aliases, instances: seq<Instance>, filters: Filters, g: GroupBy) returns (r: Report)
    ensures fresh(r) && r.Valid() && RowsOk(FigBy(a), r.rows)
    ensures IsFinancialOf(FigBy(a), g, WithData(Participating(instances, filters)), r.Values(), r.chartOrder,
                          r.groupOrder)
  {
    var parts := CollectParticipating(instances, filters);
    r := new Report();
    r.RollUp(FigBy(a), a, g, parts);
    r.SortRows(FigBy(a));
    r.OrderBuckets(FigBy(a), g);
    BooksFinished(FigBy(a), g, parts, r.Values(), r.chartOrder, r.groupOrder);
  }

  lemma {:induction false} BooksFinished(f: Instance -> Fig, g: GroupBy, parts: seq<Instance>, b: Books,
                                         chart: seq<string>, order: seq<string>)
    requires b == BooksOf(f, g, parts).(instances := b.instances)
    requires StableSortOf(b.instances, BooksOf(f, g, parts).instances, InstanceKey, Compliance.KeyLess)
    requires IsOrder(chart, b.periods, ChartLess(Ends(b.periods)))
    requires IsOrder(order, b.groups, GroupLess(g, Ends(b.groups), Titles(b.groups)))
    ensures IsFinancialOf(f, g, WithData(parts), b, chart, order)
  {
    BooksAccumulate(f, g, parts);
  }

  lemma {:induction false} BooksStep(f: Instance -> Fig, g: GroupBy, s: seq<Instance>, n: nat)
    requires n < |s|
    ensures BooksOf(f, g, s[..n + 1])
            == if s[n].taxData == map[] then BooksOf(f, g, s[..n]) else Booked(f, g, s[n], BooksOf(f, g, s[..n]))
  {
    assert s[..n + 1][..n] == s[..n];
  }

  /** Booking one by one is the exact roll-up of the instances with tax data. */
  lemma {:induction false} BooksAccumulate(f: Instance -> Fig, g: GroupBy, s: seq<Instance>)
    ensures Accumulated(f, g, WithData(s), BooksOf(f, g, s))
  {
    if s != [] {
      BooksAccumulate(f, g, s[..|s| - 1]);
      RollUpStep(f, g, WithData(s[..|s| - 1]), s[|s| - 1], BooksOf(f, g, s[..|s| - 1]));
    }
  }

  lemma MoreRows(f: Instance -> Fig, rows: seq<Row>, row: Row)
    requires RowsOk(f, rows) && RowOk(f, row)
    ensures RowsOk(f, rows + [row]) && RowObjects(rows + [row]) == RowObjects(rows) + {row.figures}
  {
    var more := rows + [row];
    assert more[|rows|] == row && forall i :: 0 <= i < |rows| ==> more[i] == rows[i];
    assert forall i :: 0 <= i < |more| ==> more[i].figures in RowObjects(more);
  }

  lemma RowAppended(rows: seq<Row>, row: Row)
    requires row.figures !in RowObjects(rows)
    ensures OwnFigures(rows) ==> OwnFigures(rows + [row])
    ensures InstancesOf(rows + [row]) == InstancesOf(rows) + [row.instance]
    ensures forall i :: 0 <= i < |rows + [row]| ==> (rows + [row])[i] == if i < |rows| then rows[i] else row
  {
  }

  lemma RollUpStep(f: Instance -> Fig, g: GroupBy, used: seq<Instance>, i: Instance, b: Books)
    requires Accumulated(f, g, used, b)
    ensures Accumulated(f, g, used + [i], Booked(f, g, i, b))
  {
    assert (used + [i])[..|used|] == used;
  }

  /** Sorting the rows sorts their instances, and each row keeps its figures. */
  lemma SortedRowsOk(f: Instance -> Fig, sorted: seq<Row>, rows: seq<Row>)
    requires RowsOk(f, rows) && StableSortOf(sorted, rows, SortKey, Compliance.KeyLess)
    ensures RowsOk(f, sorted) && RowObjects(sorted) == RowObjects(rows) && (OwnFigures(rows) ==> OwnFigures(sorted))
    ensures StableSortOf(InstancesOf(sorted), InstancesOf(rows), InstanceKey, Compliance.KeyLess)
    ensures |sorted| == |rows|
  {
    SameBucketsIsPermutation(sorted, rows, SortKey);
    RowsOkOfPermutation(f, sorted, rows);
    if OwnFigures(rows) {
      OwnFiguresOfPermutation(sorted, rows);
    }
    assert KeysAgree(rows) && KeysAgree(sorted);
    forall k ensures Bucket(InstancesOf(sorted), InstanceKey, k) == Bucket(InstancesOf(rows), InstanceKey, k) {
      InstancesOfBucket(sorted, k);
      InstancesOfBucket(rows, k);
    }
  }

  lemma OwnFiguresOfPermutation(sorted: seq<Row>, rows: seq<Row>)
    requires OwnFigures(rows) && multiset(sorted) == multiset(rows)
    ensures OwnFigures(sorted)
  {
    SamePermutationElements(sorted, rows);
    forall i, j | 0 <= i < j < |sorted| ensures sorted[i].figures != sorted[j].figures {
      if sorted[i] == sorted[j] {
        var m, n := RepeatIsFound(sorted, rows, i, j);
        assert false;
      }
      assert sorted[i] in rows && sorted[j] in rows;
    }
  }

  lemma RowsOkOfPermutation(f: Instance -> Fig, sorted: seq<Row>, rows: seq<Row>)
    requires RowsOk(f, rows) && multiset(sorted) == multiset(rows)
    ensures RowsOk(f, sorted) && RowObjects(sorted) == RowObjects(rows) && |sorted| == |rows|
  {
    SamePermutationElements(sorted, rows);
    forall i | 0 <= i < |sorted| ensures RowOk(f, sorted[i]) && sorted[i].figures in RowObjects(rows) {
      assert sorted[i] in rows;
    }
    forall i | 0 <= i < |rows| ensures rows[i].figures in RowObjects(sorted) {
      assert rows[i] in sorted;
    }
  }

  /** Rows are sorted by what their instances are called. */
  ghost predicate KeysAgree(rows: seq<Row>)
  {
    forall i :: 0 <= i < |rows| ==> SortKey(rows[i]) == InstanceKey(rows[i].instance)
  }

  lemma {:induction false} InstancesOfBucket(rows: seq<Row>, k: (string, string, string))
    requires KeysAgree(rows)
    ensures Bucket(InstancesOf(rows), InstanceKey, k) == InstancesOf(Bucket(rows, SortKey, k))
  {
    if rows != [] {
      var n := |rows| - 1;
      InstancesOfBucket(rows[..n], k);
      assert InstancesOf(rows)[..n] == InstancesOf(rows[..n]);
    }
  }
}
