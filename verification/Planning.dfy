/** The instances that starting a workflow creates: one per selected period and
    task template, with the calendar and the date offsets left uninterpreted. */
module Planning {
  import opened Outcomes
  import opened Ordering
  import opened StableSort
  import opened Text
  import opened OracleWorld
  import opened FiscalCodes

  datatype Offset = Offset(amount: int, unit: string, direction: string)

  datatype Template = Template(key: string, name: string, orderIndex: int, approvalRequired: bool, reference: string,
                               offset: Offset)

  /** An obligation's payment rule, with the workflow's weekend rule as fallback. */
  datatype PaymentRule = PaymentRule(monthsAndDays: Option<(int, int)>, fixedDates: seq<string>, weekend: string)

  datatype Spec = Spec(project: bool, entity: Option<Entity>, periodicity: string, financialYear: string,
                       selectedPeriods: seq<string>, offset: Offset, weekend: string, endDate: Date,
                       rule: Option<PaymentRule>, templates: seq<Template>)

  /** The fiscal calendar and the date arithmetic, any of them. A calendar of a
      year, where an entity has one, follows a pattern, which says what its
      period codes are; on which day a period ends is left open. */
  datatype Calendar = Calendar(
    applyOffset: (Date, Offset) -> Date, adjustWeekend: (Date, string) -> Date,
    addMonthsAndDays: (Date, int, int) -> Date, firstFixedDate: (Date, seq<string>) -> Option<Date>,
    pattern: (Entity, int) -> Option<Pattern>, periodEnd: (Entity, int, string, string) -> Date)

  datatype PlanError = NoEntity | NoPeriodicity | YearNotNumeric | NoCalendar | BadPeriod(code: string)
                     | BadPaymentDates(code: string) | NoEndDate

  datatype Period = Period(code: string, end: Date, filing: Date, payment: Date)

  datatype Planned = Planned(template: Template, periodCode: string, periodEnd: Date, filing: Date,
                             payment: Option<Date>, due: Date)

  const PROJECT_PERIOD := "PROJECT"

  // ----- templates --------------------------------------------------------

  function OrderIndex(t: Template): int { t.orderIndex }

  predicate IntLess(a: int, b: int) { a < b }

  method SortedTemplates(templates: seq<Template>) returns (out: seq<Template>)
    ensures StableSortOf(out, templates, OrderIndex, IntLess) && |out| == |templates|
    ensures multiset(out) == multiset(templates)
    ensures forall i, j :: 0 <= i < j < |out| ==> out[i].orderIndex <= out[j].orderIndex
  {
    out := InsertionSort(templates, OrderIndex, IntLess);
    SameBucketsIsPermutation(out, templates, OrderIndex);
    forall i, j | 0 <= i < j < |out| ensures out[i].orderIndex <= out[j].orderIndex {
      assert !IntLess(OrderIndex(out[j]), OrderIndex(out[i]));
    }
  }

  /** The seeder sorts its own copy with a library stable sort; whatever
      algorithm that is, the two sequences are the same. */
  lemma AnyStableSortAgrees(ours: seq<Template>, seeders: seq<Template>, templates: seq<Template>)
    requires StableSortOf(ours, templates, OrderIndex, IntLess) && StableSortOf(seeders, templates, OrderIndex, IntLess)
    ensures ours == seeders && multiset(ours) == multiset(templates)
  {
    StableSortIsUnique(ours, seeders, OrderIndex, IntLess);
    SameBucketsIsPermutation(ours, templates, OrderIndex);
  }

  // ----- recurring workflows ----------------------------------------------

  function PaymentDeadline(c: Calendar, end: Date, filing: Date, rule: Option<PaymentRule>,
                           fallback: string): Option<Date>
  {
    if rule.None? then Some(filing)
    else if rule.value.monthsAndDays.Some? then
      var (months, days) := rule.value.monthsAndDays.value;
      Some(c.adjustWeekend(c.addMonthsAndDays(end, months, days),
                           if rule.value.weekend == "" then fallback else rule.value.weekend))
    else if rule.value.fixedDates != [] then c.firstFixedDate(end, rule.value.fixedDates)
    else Some(filing)
  }

  /** The three dates of one selected period. */
  function PeriodOf(c: Calendar, w: Spec, e: Entity, year: int, pattern: Pattern,
                    code: string): Result<Period, PlanError>
  {
    if code !in CodesOf(pattern, w.periodicity) then Err(BadPeriod(code))
    else
      var end := c.periodEnd(e, year, code, w.periodicity);
      var filing := c.adjustWeekend(c.applyOffset(end, w.offset), w.weekend);
      var payment := PaymentDeadline(c, end, filing, w.rule, w.weekend);
      if payment.None? then Err(BadPaymentDates(code)) else Ok(Period(code, end, filing, payment.value))
  }

  function Reference(p: Period, t: Template): Date
  {
    if t.reference == "filing_deadline" then p.filing
    else if t.reference == "payment_deadline" then p.payment
    else p.end
  }

  function PlannedOf(c: Calendar, p: Period, t: Template): Planned
  {
    Planned(t, p.code, p.end, p.filing, Some(p.payment), c.applyOffset(Reference(p, t), t.offset))
  }

  /** What stops a recurring plan before any period is looked at. */
  function Obstacle(c: Calendar, w: Spec): Option<PlanError>
  {
    if w.entity.None? then Some(NoEntity)
    else if w.periodicity == "" then Some(NoPeriodicity)
    else if Atoi(w.financialYear).None? then Some(YearNotNumeric)
    else if c.pattern(w.entity.value, Atoi(w.financialYear).value).None? then Some(NoCalendar)
    else None
  }

  function PeriodAt(c: Calendar, w: Spec, p: nat): Result<Period, PlanError>
    requires Obstacle(c, w).None? && p < |w.selectedPeriods|
  {
    var (e, year) := (w.entity.value, Atoi(w.financialYear).value);
    PeriodOf(c, w, e, year, c.pattern(e, year).value, w.selectedPeriods[p])
  }

  ghost predicate PeriodsOk(c: Calendar, w: Spec, periods: nat)
    requires Obstacle(c, w).None? && periods <= |w.selectedPeriods|
  {
    forall p :: 0 <= p < periods ==> PeriodAt(c, w, p).Ok?
  }

  function PeriodPlan(c: Calendar, p: Period, templates: seq<Template>): seq<Planned>
  {
    seq(|templates|, t requires 0 <= t < |templates| => PlannedOf(c, p, templates[t]))
  }

  /** The plans of some periods, one after the other. */
  ghost function PlansOf(c: Calendar, periods: seq<Period>, templates: seq<Template>): seq<Planned>
  {
    if periods == [] then []
    else
      PlansOf(c, periods[..|periods| - 1], templates) + PeriodPlan(c, periods[|periods| - 1], templates)
  }

  /** The first `n` selected periods. */
  ghost function PeriodsTo(c: Calendar, w: Spec, n: nat): (periods: seq<Period>)
    requires Obstacle(c, w).None? && n <= |w.selectedPeriods| && PeriodsOk(c, w, n)
    ensures |periods| == n && forall p :: 0 <= p < n ==> Ok(periods[p]) == PeriodAt(c, w, p)
  {
    seq(n, p requires 0 <= p < n && PeriodAt(c, w, p).Ok? => PeriodAt(c, w, p).value)
  }

  ghost predicate IsPlan(c: Calendar, w: Spec, templates: seq<Template>, out: seq<Planned>, periods: nat)
    requires Obstacle(c, w).None? && periods <= |w.selectedPeriods|
  {
    PeriodsOk(c, w, periods) && out == PlansOf(c, PeriodsTo(c, w, periods), templates)
  }

  /** The error of the first period that has one, or the whole plan. */
  ghost predicate IsRecurringResult(c: Calendar, w: Spec, templates: seq<Template>, r: Result<seq<Planned>, PlanError>)
  {
    if Obstacle(c, w).Some? then r == Err(Obstacle(c, w).value)
    else if r.Err? then
      exists p :: 0 <= p < |w.selectedPeriods| && PeriodAt(c, w, p) == Err(r.error)
                  && forall q :: 0 <= q < p ==> PeriodAt(c, w, q).Ok?
    else IsPlan(c, w, templates, r.value, |w.selectedPeriods|)
  }

  /** One period's instances, template by template. */
  method PlanPeriod(c: Calendar, p: Period, templates: seq<Template>) returns (out: seq<Planned>)
    ensures out == PeriodPlan(c, p, templates)
  {
    out := [];
    for t := 0 to |templates|
      invariant |out| == t && forall s :: 0 <= s < t ==> out[s] == PlannedOf(c, p, templates[s])
    {
      var reference := p.end;
      match templates[t].reference {
        case "filing_deadline" => reference := p.filing;
        case "payment_deadline" => reference := p.payment;
        case _ =>
      }
      out := out
             + [Planned(templates[t], p.code, p.end, p.filing, Some(p.payment),
                        c.applyOffset(reference, templates[t].offset))];
    }
  }

  method PlanRecurring(c: Calendar, w: Spec, templates: seq<Template>) returns (r: Result<seq<Planned>, PlanError>)
    ensures IsRecurringResult(c, w, templates, r)
  {
    if w.entity.None? {
      return Err(NoEntity);
    }
    if w.periodicity == "" {
      return Err(NoPeriodicity);
    }
    var year := Atoi(w.financialYear);
    if year.None? {
      return Err(YearNotNumeric);
    }
    var pattern := c.pattern(w.entity.value, year.value);
    if pattern.None? {
      return Err(NoCalendar);
    }
    var out := [];
    for p := 0 to |w.selectedPeriods|
      invariant IsPlan(c, w, templates, out, p)
    {
      var period := PeriodOf(c, w, w.entity.value, year.value, pattern.value, w.selectedPeriods[p]);
      assert period == PeriodAt(c, w, p);
      if period.Err? {
        return Err(period.error);
      }
      assert PeriodsTo(c, w, p + 1)[..p] == PeriodsTo(c, w, p);
      var more := PlanPeriod(c, period.value, templates);
      out := out + more;
    }
    return Ok(out);
  }

  /** The payment deadline by the rule: months and days before fixed dates, the
      rule's own weekend rule before the workflow's, the filing deadline without either. */
  lemma PaymentRules(c: Calendar, end: Date, filing: Date, months: int, days: int, dates: seq<string>, own: string,
                     fallback: string)
    ensures var adjusted := (rule: string) => c.adjustWeekend(c.addMonthsAndDays(end, months, days), rule);
            && PaymentDeadline(c, end, filing, Some(PaymentRule(Some((months, days)), dates, "")), fallback)
               == Some(adjusted(fallback))
            && (own != ""
                ==> PaymentDeadline(c, end, filing, Some(PaymentRule(Some((months, days)), dates, own)), fallback)
                    == Some(adjusted(own)))
    ensures dates != [] ==> PaymentDeadline(c, end, filing, Some(PaymentRule(None, dates, own)), fallback)
                            == c.firstFixedDate(end, dates)
    ensures PaymentDeadline(c, end, filing, Some(PaymentRule(None, [], own)), fallback)
            == Some(filing) == PaymentDeadline(c, end, filing, None, fallback)
  {
  }

  /** The dates of a period and of its instances. */
  lemma DatesOfPeriod(c: Calendar, w: Spec, e: Entity, year: int, pattern: Pattern, code: string, t: Template)
    requires PeriodOf(c, w, e, year, pattern, code).Ok?
    ensures var p := PeriodOf(c, w, e, year, pattern, code).value;
            && p.code == code && p.end == c.periodEnd(e, year, code, w.periodicity)
            && p.filing == c.adjustWeekend(c.applyOffset(p.end, w.offset), w.weekend)
            && Some(p.payment) == PaymentDeadline(c, p.end, p.filing, w.rule, w.weekend)
            && PlannedOf(c, p, t.(reference := "filing_deadline")).due == c.applyOffset(p.filing, t.offset)
            && PlannedOf(c, p, t.(reference := "payment_deadline")).due == c.applyOffset(p.payment, t.offset)
            && (t.reference !in {"filing_deadline", "payment_deadline"}
                ==> PlannedOf(c, p, t).due == c.applyOffset(p.end, t.offset))
            && var x := PlannedOf(c, p, t);
            (x.template, x.periodCode, x.periodEnd, x.filing, x.payment) == (t, code, p.end, p.filing, Some(p.payment))
  {
  }

  // ----- any workflow -----------------------------------------------------

  function ProjectOf(c: Calendar, w: Spec, t: Template): Planned
  {
    Planned(t, PROJECT_PERIOD, w.endDate, w.endDate, None, c.applyOffset(w.endDate, t.offset))
  }

  ghost predicate IsProjectResult(c: Calendar, w: Spec, templates: seq<Template>, r: Result<seq<Planned>, PlanError>)
  {
    if w.endDate == NO_DATE then r == Err(NoEndDate)
    else
      && r.Ok? && |r.value| == |templates|
      && forall t :: 0 <= t < |templates| ==> r.value[t] == ProjectOf(c, w, templates[t])
  }

  method PlanProject(c: Calendar, w: Spec, templates: seq<Template>) returns (r: Result<seq<Planned>, PlanError>)
    ensures IsProjectResult(c, w, templates, r)
    ensures r.Ok? ==> |r.value| == |templates| && forall t :: 0 <= t < |templates| ==>
              r.value[t] == Planned(templates[t], "PROJECT", w.endDate, w.endDate, None,
                                    c.applyOffset(w.endDate, templates[t].offset))
  {
    if w.endDate == NO_DATE {
      return Err(NoEndDate);
    }
    var out := [];
    for t := 0 to |templates|
      invariant |out| == t && forall s :: 0 <= s < t ==> out[s] == ProjectOf(c, w, templates[s])
    {
      out := out + [Planned(templates[t], PROJECT_PERIOD, w.endDate, w.endDate, None,
                            c.applyOffset(w.endDate, templates[t].offset))];
    }
    return Ok(out);
  }

  /** Either plan, over the templates in the one order a stable sort gives. */
  method PlanWorkflow(c: Calendar, w: Spec) returns (r: Result<seq<Planned>, PlanError>)
    ensures forall templates :: StableSortOf(templates, w.templates, OrderIndex, IntLess) ==>
                                  IsResult(c, w, templates, r)
    ensures exists templates :: StableSortOf(templates, w.templates, OrderIndex, IntLess)
  {
    var sorted := SortedTemplates(w.templates);
    if w.project {
      r := PlanProject(c, w, sorted);
    } else {
      r := PlanRecurring(c, w, sorted);
    }
    forall templates | StableSortOf(templates, w.templates, OrderIndex, IntLess) ensures IsResult(c, w, templates, r) {
      AnyStableSortAgrees(sorted, templates, w.templates);
    }
  }

  ghost predicate IsResult(c: Calendar, w: Spec, templates: seq<Template>, r: Result<seq<Planned>, PlanError>)
  {
    if w.project then IsProjectResult(c, w, templates, r) else IsRecurringResult(c, w, templates, r)
  }

  /** Where period `p`'s instance of template `t` stands among the plans. */
  lemma {:induction false} PlanEntry(c: Calendar, periods: seq<Period>, templates: seq<Template>, p: nat, t: nat,
                                     i: nat)
    requires p < |periods| && t < |templates| && i == p * |templates| + t
    ensures i < |PlansOf(c, periods, templates)|
    ensures PlansOf(c, periods, templates)[i] == PlannedOf(c, periods[p], templates[t])
  {
    var m := |periods| - 1;
    PlanSize(c, periods[..m], templates);
    RowEndsBefore(p, t, |templates|, m);
    if p < m {
      PlanEntry(c, periods[..m], templates, p, t, i);
    }
  }

  lemma {:induction false} PlanSize(c: Calendar, periods: seq<Period>, templates: seq<Template>)
    ensures |PlansOf(c, periods, templates)| == |periods| * |templates|
  {
    if periods != [] {
      PlanSize(c, periods[..|periods| - 1], templates);
      assert |periods| * |templates| == (|periods| - 1) * |templates| + |templates|;
    }
  }

  /** Row-major positions: row `p` of `n` columns ends before row `m` begins. */
  lemma RowEndsBefore(p: nat, t: nat, n: nat, m: nat)
    requires p <= m && t < n
    ensures (m + 1) * n == m * n + n
    ensures if p < m then p * n + t < m * n else p * n + t == m * n + t
  {
    assert p < m ==> (p + 1) * n <= m * n && (p + 1) * n == p * n + n;
  }

  /** An instance of period `p` and template `t`. */
  ghost predicate Holds(c: Calendar, w: Spec, templates: seq<Template>, i: Planned, p: nat, t: nat)
    requires Obstacle(c, w).None?
  {
    p < |w.selectedPeriods| && t < |templates| && PeriodAt(c, w, p).Ok?
      && i == PlannedOf(c, PeriodAt(c, w, p).value, templates[t])
  }

  /** The instance of period `p` and template `t` stands at position `p * T + t`. */
  lemma PlanIsPeriodMajor(c: Calendar, w: Spec, templates: seq<Template>, out: seq<Planned>, p: nat, t: nat, i: nat)
    requires Obstacle(c, w).None? && IsPlan(c, w, templates, out, |w.selectedPeriods|)
    requires p < |w.selectedPeriods| && t < |templates| && i == p * |templates| + t
    ensures i < |out| == |w.selectedPeriods| * |templates| && Holds(c, w, templates, out[i], p, t)
  {
    var periods := PeriodsTo(c, w, |w.selectedPeriods|);
    PlanSize(c, periods, templates);
    PlanEntry(c, periods, templates, p, t, i);
    PeriodHolds(c, w, templates, periods[p], p, t);
  }

  lemma PeriodHolds(c: Calendar, w: Spec, templates: seq<Template>, period: Period, p: nat, t: nat)
    requires Obstacle(c, w).None? && p < |w.selectedPeriods| && t < |templates| && PeriodAt(c, w, p) == Ok(period)
    ensures Holds(c, w, templates, PlannedOf(c, period, templates[t]), p, t)
  {
  }

  /** And every position is that of some period and template. */
  lemma PlaceOf(c: Calendar, w: Spec, templates: seq<Template>, out: seq<Planned>, i: nat) returns (p: nat, t: nat)
    requires Obstacle(c, w).None? && IsPlan(c, w, templates, out, |w.selectedPeriods|) && i < |out|
    ensures i == p * |templates| + t && Holds(c, w, templates, out[i], p, t)
  {
    PlanSize(c, PeriodsTo(c, w, |w.selectedPeriods|), templates);
    p, t := RowAndColumn(i, |templates|, |w.selectedPeriods|);
    PlanIsPeriodMajor(c, w, templates, out, p, t, i);
  }

  /** A position within `m` rows of `n` columns has a row and a column. */
  lemma RowAndColumn(i: nat, n: nat, m: nat) returns (p: nat, t: nat)
    requires i < m * n
    ensures i == p * n + t && p < m && t < n
  {
    if n == 0 {
      assert false;
    }
    p, t := i / n, i % n;
    assert i == n * p + t;
    RowIsWithin(p, n, m);
  }

  /** A row that begins within `m` rows is one of them. */
  lemma RowIsWithin(p: nat, n: nat, m: nat)
    ensures p >= m ==> p * n >= m * n
  {
    if p >= m {
      assert p * n == m * n + (p - m) * n;
    }
  }

  function KeyOf(i: Planned): (string, string) { (i.periodCode, i.template.key) }

  /** Distinct periods and distinct template keys give every planned instance
      its own (period, task) pair. */
  lemma PlannedKeysAreDistinct(c: Calendar, w: Spec, templates: seq<Template>, out: seq<Planned>, i: nat, j: nat)
    requires Obstacle(c, w).None? && IsPlan(c, w, templates, out, |w.selectedPeriods|) && i < |out| && j < |out|
    requires Distinct(w.selectedPeriods)
    requires forall s, t :: 0 <= s < t < |templates| ==> templates[s].key != templates[t].key
    ensures KeyOf(out[i]) == KeyOf(out[j]) ==> i == j
  {
    var p, t := PlaceOf(c, w, templates, out, i);
    var q, u := PlaceOf(c, w, templates, out, j);
    if KeyOf(out[i]) == KeyOf(out[j]) {
      SamePlace(c, w, templates, out[i], out[j], p, t, q, u);
    }
  }

  /** Equal (period, task) pairs come from one period and one template. */
  lemma SamePlace(c: Calendar, w: Spec, templates: seq<Template>, x: Planned, y: Planned, p: nat, t: nat, q: nat,
                  u: nat)
    requires Obstacle(c, w).None? && Holds(c, w, templates, x, p, t) && Holds(c, w, templates, y, q, u)
    requires KeyOf(x) == KeyOf(y) && Distinct(w.selectedPeriods)
    requires forall s, t :: 0 <= s < t < |templates| ==> templates[s].key != templates[t].key
    ensures p == q && t == u
  {
    assert w.selectedPeriods[p] == w.selectedPeriods[q] && templates[t].key == templates[u].key;
  }

  /** Every planned instance carries a numeric year and a code of a calendar. */
  lemma PlannedColumnsComeFromCalendar(c: Calendar, w: Spec, templates: seq<Template>, out: seq<Planned>, i: nat)
    requires Obstacle(c, w).None? && IsPlan(c, w, templates, out, |w.selectedPeriods|) && i < |out|
    ensures Atoi(w.financialYear).Some? && IsPeriodCode(out[i].periodCode)
  {
    var p, t := PlaceOf(c, w, templates, out, i);
    var pattern := c.pattern(w.entity.value, Atoi(w.financialYear).value).value;
    assert out[i].periodCode in CodesOf(pattern, w.periodicity);
  }
}
