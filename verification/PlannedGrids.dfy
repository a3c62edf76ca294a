/** The reports on planned instances: what the planner and the rules of the data
    set settle about names, and so about the order and the legacy form of the
    heatmap and about the titles of the financial report. */
module PlannedGrids {
  import opened Outcomes
  import opened Text
  import opened StableSort
  import opened OracleWorld
  import opened FiscalCodes
  import opened Heatmap
  import opened HeatmapTheorems
  import opened HeatmapFold
  import opened Planning
  import Financial
  import FinancialTheorems

  /** `x` is entry `i` of the plan `out` of the recurring workflow `w`. */
  ghost predicate IsEntry(c: Calendar, x: Instance, w: Spec, templates: seq<Template>, out: seq<Planned>, i: nat)
  {
    && !w.project && StableSortOf(templates, w.templates, OrderIndex, IntLess)
    && IsResult(c, w, templates, Ok(out)) && i < |out|
    && x.workflow.financialYear == w.financialYear && x.workflow.entity == w.entity
    && x.templateKey == out[i].template.key && x.periodCode == out[i].periodCode && x.periodEnd == out[i].periodEnd
  }

  /** Some recurring workflow's plan holds the instance; later deviations leave
      year, entity, template and period alone. */
  ghost predicate ComesFrom(c: Calendar, x: Instance)
  {
    exists w, templates, out, i :: IsEntry(c, x, w, templates, out, i)
  }

  ghost predicate AllPlanned(c: Calendar, s: seq<Instance>) { forall x :: x in s ==> ComesFrom(c, x) }

  /** Planned instances have numeric years and a calendar's codes, and so columns
      in which the separators stand out. */
  lemma PlannedColumnsArePlain(c: Calendar, s: seq<Instance>)
    requires AllPlanned(c, s)
    ensures FromCalendar(s) && PlainColumns(s)
  {
    forall x | x in s ensures Atoi(x.workflow.financialYear).Some? && IsPeriodCode(x.periodCode) {
      var w, templates, out, i :| IsEntry(c, x, w, templates, out, i);
      PlannedColumnsComeFromCalendar(c, w, templates, out, i);
    }
    CalendarColumnsArePlain(s);
  }

  /** Every legacy cell of planned instances is the fold of its qualified cells. */
  lemma PlannedLegacyCellIsFold(c: Calendar, s: seq<Instance>, today: Date, k: string)
    requires AllPlanned(c, s) && k in Grid(s, PeriodView, false, today)
    ensures IsFold(s, today, k)
    ensures |Grid(s, PeriodView, false, today)| <= |Grid(s, PeriodView, true, today)|
  {
    PlannedColumnsArePlain(c, s);
    LegacyCellIsFold(s, today, k);
    LegacyGridIsNoLarger(s, today);
  }

  // ----- the rules of the data set ----------------------------------------

  ghost predicate UniqueEntities(entities: seq<Entity>)
  {
    forall i, j :: 0 <= i < j < |entities| ==> entities[i].key != entities[j].key
  }

  ghost predicate UniqueObligations(obligations: seq<Obligation>)
  {
    forall i, j :: 0 <= i < j < |obligations| ==> obligations[i].key != obligations[j].key
  }

  /** Every instance's workflow names an entity and an obligation type of the
      tenant's lists, whose keys are unique. */
  ghost predicate Validated(s: seq<Instance>, entities: seq<Entity>, obligations: seq<Obligation>)
  {
    && UniqueEntities(entities) && UniqueObligations(obligations)
    && forall x :: x in s ==> && x.workflow.entity.Some? && x.workflow.entity.value in entities
                              && x.workflow.obligation.Some? && x.workflow.obligation.value in obligations
  }

  /** Then labels are functions of keys, in both views. */
  lemma ValidatedLabels(s: seq<Instance>, entities: seq<Entity>, obligations: seq<Obligation>, view: View,
                        qualify: bool)
    requires Validated(s, entities, obligations) && PlainColumns(s)
    ensures LabelsByKey(s, view, qualify)
  {
    PeriodViewIsUnambiguous(s, qualify);
  }

  /** The report on planned instances of a valid data set: in the period view one
      report whatever the order; in the tax-type view exactly when instances that
      share a cell share its row. */
  lemma PlannedReportIsOne(c: Calendar, s: seq<Instance>, entities: seq<Entity>, obligations: seq<Obligation>,
                           qualify: bool, today: Date)
    requires AllPlanned(c, s) && Validated(s, entities, obligations)
    ensures OneReport(s, PeriodView, qualify, today)
    ensures OneReport(s, TaxTypeView, qualify, today) <==> Unambiguous(s, TaxTypeView, qualify)
  {
    PlannedColumnsArePlain(c, s);
    ValidatedLabels(s, entities, obligations, PeriodView, qualify);
    ValidatedLabels(s, entities, obligations, TaxTypeView, qualify);
    PeriodViewIsUnambiguous(s, qualify);
    OneReportIff(s, PeriodView, qualify, today);
    OneReportIff(s, TaxTypeView, qualify, today);
  }

  /** Entities have countries and obligation types templates, and keys are not empty. */
  ghost predicate NothingEmpty(s: seq<Instance>)
  {
    forall x :: x in s ==> EntityKey(x) != "" && Financial.Country(x) != "" && TaxType(x) != ""
  }

  /** Under every grouping of the financial report titles are functions of keys. */
  lemma ValidatedTitles(s: seq<Instance>, entities: seq<Entity>, obligations: seq<Obligation>, g: Financial.GroupBy)
    requires Validated(s, entities, obligations) && NothingEmpty(s)
    ensures FinancialTheorems.WellTitled(g, s)
  {
  }

  /** So the financial report on a valid data set does not depend on the order of
      the instances, whatever it is grouped by. */
  lemma ValidatedReportIgnoresOrder(f: Instance -> Financial.Fig, g: Financial.GroupBy, s: seq<Instance>,
                                    t: seq<Instance>, entities: seq<Entity>, obligations: seq<Obligation>,
                                    b: Financial.Books, c: Financial.Books, chartB: seq<string>, chartC: seq<string>,
                                    orderB: seq<string>, orderC: seq<string>)
    requires multiset(s) == multiset(t) && Validated(s, entities, obligations) && NothingEmpty(s)
    requires Financial.IsFinancialOf(f, g, s, b, chartB, orderB) && Financial.IsFinancialOf(f, g, t, c, chartC, orderC)
    ensures b == c.(instances := b.instances) && multiset(b.instances) == multiset(c.instances)
    ensures chartB == chartC && orderB == orderC
  {
    ValidatedTitles(s, entities, obligations, g);
    FinancialTheorems.FinancialIgnoresOrder(f, g, s, t, b, c, chartB, chartC, orderB, orderC);
  }
}
