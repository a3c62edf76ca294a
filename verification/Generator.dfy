/** The API's own planner (modules/taskinstances/usecases/generator.go), which the
    oracle recomputes independently: one template at a time, with overrides of
    single dates, behind the checks that starting a workflow makes. */
module Generator {
  import opened Outcomes
  import opened StableSort
  import opened Text
  import opened OracleWorld
  import opened FiscalCodes
  import opened Planning

  /** The dates a caller replaces on one instance. */
  datatype Override = Override(periodEnd: Option<Date>, payment: Option<Date>, due: Option<Date>)

  const NO_OVERRIDE := Override(None, None, None)

  datatype GenError = NotPlannable(why: PlanError) | NoYear | NoPeriods | NoTemplates | UnknownOverride
                    | NoPaymentToReplace

  /** "<templateId>_<periodCode>", the key the preview lists. */
  function OverrideKey(id: string, code: string): string { id + ['_'] + code }

  function OverrideFor(overrides: map<string, Override>, t: Template, code: string): Override
  {
    var key := OverrideKey(t.key, code);
    if key in overrides then overrides[key] else NO_OVERRIDE
  }

  function Replaced(given: Option<Date>, d: Date): Date { if given.Some? then given.value else d }

  /** The dates of one instance, each computed from the ones before it unless replaced. */
  function Generated(c: Calendar, w: Spec, end: Date, code: string, t: Template,
                     o: Override): Result<Planned, PlanError>
  {
    var periodEnd := Replaced(o.periodEnd, end);
    var filing := c.adjustWeekend(c.applyOffset(periodEnd, w.offset), w.weekend);
    match PaymentDeadline(c, periodEnd, filing, w.rule, w.weekend)
    case None => Err(BadPaymentDates(code))
    case Some(computed) =>
      var payment := Replaced(o.payment, computed);
      var from := if t.reference == "filing_deadline" then filing
                  else if t.reference == "payment_deadline" then payment
                  else periodEnd;
      Ok(Planned(t, code, periodEnd, filing, Some(payment), Replaced(o.due, c.applyOffset(from, t.offset))))
  }

  /** What loading a workflow refuses. */
  function LoadError(w: Spec): Option<GenError>
  {
    if w.project then if w.endDate == NO_DATE then Some(NotPlannable(NoEndDate)) else None
    else if w.entity.None? then Some(NotPlannable(NoEntity))
    else if w.periodicity == "" then Some(NotPlannable(NoPeriodicity))
    else if w.financialYear == "" then Some(NoYear)
    else if w.selectedPeriods == [] then Some(NoPeriods)
    else None
  }

  /** The keys of the (template, period) pairs of a plan. */
  function KeysOf(templates: seq<Template>, codes: seq<string>): set<string>
  {
    set t, code | t in templates && code in codes :: OverrideKey(t.key, code)
  }

  method KnownKeys(templates: seq<Template>, codes: seq<string>) returns (known: set<string>)
    ensures known == KeysOf(templates, codes)
  {
    known := {};
    for p := 0 to |codes|
      invariant known == KeysOf(templates, codes[..p])
    {
      for i := 0 to |templates|
        invariant known == KeysOf(templates, codes[..p]) + KeysOf(templates[..i], [codes[p]])
      {
        MoreTemplates(templates[..i], templates[i], codes[p]);
        assert templates[..i + 1] == templates[..i] + [templates[i]];
        known := known + {OverrideKey(templates[i].key, codes[p])};
      }
      assert templates[..|templates|] == templates;
      MoreCodes(templates, codes[..p], codes[p]);
      assert codes[..p + 1] == codes[..p] + [codes[p]];
    }
    assert codes[..|codes|] == codes;
  }

  lemma MoreTemplates(templates: seq<Template>, t: Template, code: string)
    ensures KeysOf(templates + [t], [code]) == KeysOf(templates, [code]) + {OverrideKey(t.key, code)}
  {
    assert forall u :: u in templates + [t] <==> u in templates || u == t;
    assert code in [code] && t in templates + [t];
  }

  lemma MoreCodes(templates: seq<Template>, codes: seq<string>, code: string)
    ensures KeysOf(templates, codes + [code]) == KeysOf(templates, codes) + KeysOf(templates, [code])
  {
    var (more, parts) := (KeysOf(templates, codes + [code]), KeysOf(templates, codes) + KeysOf(templates, [code]));
    forall key | key in more ensures key in parts {
      var t, d :| t in templates && d in codes + [code] && key == OverrideKey(t.key, d);
      assert d in codes || d in [code];
    }
    forall key | key in parts ensures key in more {
      var t, d :| t in templates && (d in codes || d in [code]) && key == OverrideKey(t.key, d);
      assert d in codes + [code];
    }
  }

  // ----- the plan ---------------------------------------------------------

  /** One period's instances, up to the first template that has no dates. */
  function GeneratedPeriod(c: Calendar, w: Spec, end: Date, code: string, templates: seq<Template>,
                           overrides: map<string, Override>): Result<seq<Planned>, PlanError>
  {
    if templates == [] then Ok([])
    else
      var (init, t) := (templates[..|templates| - 1], templates[|templates| - 1]);
      match GeneratedPeriod(c, w, end, code, init, overrides)
      case Err(e) => Err(e)
      case Ok(before) =>
        match Generated(c, w, end, code, t, OverrideFor(overrides, t, code))
        case Err(e) => Err(e)
        case Ok(x) => Ok(before + [x])
  }

  /** The instances of some periods of a year, up to the first that fails. */
  function GeneratedPeriods(c: Calendar, w: Spec, e: Entity, year: int, pattern: Pattern, codes: seq<string>,
                            templates: seq<Template>, overrides: map<string, Override>): Result<seq<Planned>, PlanError>
  {
    if codes == [] then Ok([])
    else
      match GeneratedPeriods(c, w, e, year, pattern, codes[..|codes| - 1], templates, overrides)
      case Err(error) => Err(error)
      case Ok(before) =>
        match GeneratedCode(c, w, e, year, pattern, codes[|codes| - 1], templates, overrides)
        case Err(error) => Err(error)
        case Ok(more) => Ok(before + more)
  }

  function GeneratedCode(c: Calendar, w: Spec, e: Entity, year: int, pattern: Pattern, code: string,
                         templates: seq<Template>, overrides: map<string, Override>): Result<seq<Planned>, PlanError>
  {
    if code !in CodesOf(pattern, w.periodicity) then Err(BadPeriod(code))
    else GeneratedPeriod(c, w, c.periodEnd(e, year, code, w.periodicity), code, templates, overrides)
  }

  lemma {:induction false} PeriodStep(c: Calendar, w: Spec, e: Entity, year: int, pattern: Pattern, codes: seq<string>,
                                      p: nat, templates: seq<Template>, overrides: map<string, Override>)
    requires p < |codes| && GeneratedPeriods(c, w, e, year, pattern, codes[..p], templates, overrides).Ok?
    ensures var before := GeneratedPeriods(c, w, e, year, pattern, codes[..p], templates, overrides).value;
            var more := GeneratedCode(c, w, e, year, pattern, codes[p], templates, overrides);
            GeneratedPeriods(c, w, e, year, pattern, codes[..p + 1], templates, overrides)
            == if more.Err? then Err(more.error) else Ok(before + more.value)
  {
    assert codes[..p + 1][..p] == codes[..p];
  }

  method GeneratePeriod(c: Calendar, w: Spec, end: Date, code: string, templates: seq<Template>,
                        overrides: map<string, Override>) returns (r: Result<seq<Planned>, PlanError>)
    ensures r == GeneratedPeriod(c, w, end, code, templates, overrides)
  {
    var out := [];
    for i := 0 to |templates|
      invariant GeneratedPeriod(c, w, end, code, templates[..i], overrides) == Ok(out)
    {
      assert templates[..i + 1][..i] == templates[..i];
      var t := templates[i];
      var o := OverrideFor(overrides, t, code);
      var periodEnd := Replaced(o.periodEnd, end);
      var filing := c.adjustWeekend(c.applyOffset(periodEnd, w.offset), w.weekend);
      var computed := PaymentDeadline(c, periodEnd, filing, w.rule, w.weekend);
      if computed.None? {
        FirstFailure(c, w, end, code, templates, overrides, i + 1, BadPaymentDates(code));
        return Err(BadPaymentDates(code));
      }
      var payment := Replaced(o.payment, computed.value);
      var from := periodEnd;
      match t.reference {
        case "filing_deadline" => from := filing;
        case "payment_deadline" => from := payment;
        case _ =>
      }
      var due := Replaced(o.due, c.applyOffset(from, t.offset));
      out := out + [Planned(t, code, periodEnd, filing, Some(payment), due)];
    }
    assert templates[..|templates|] == templates;
    return Ok(out);
  }

  /** The first failure is the result. */
  lemma {:induction false} FirstFailure(c: Calendar, w: Spec, end: Date, code: string, templates: seq<Template>,
                                        overrides: map<string, Override>, n: nat, error: PlanError)
    requires n <= |templates| && GeneratedPeriod(c, w, end, code, templates[..n], overrides) == Err(error)
    ensures GeneratedPeriod(c, w, end, code, templates, overrides) == Err(error)
  {
    if n < |templates| {
      var init := templates[..|templates| - 1];
      assert init[..n] == templates[..n];
      FirstFailure(c, w, end, code, init, overrides, n, error);
    } else {
      assert templates[..n] == templates;
    }
  }

  lemma {:induction false} FirstBadPeriod(c: Calendar, w: Spec, e: Entity, year: int, pattern: Pattern,
                                          codes: seq<string>, templates: seq<Template>,
                                          overrides: map<string, Override>, n: nat, error: PlanError)
    requires n <= |codes|
    requires GeneratedPeriods(c, w, e, year, pattern, codes[..n], templates, overrides) == Err(error)
    ensures GeneratedPeriods(c, w, e, year, pattern, codes, templates, overrides) == Err(error)
  {
    if n < |codes| {
      var init := codes[..|codes| - 1];
      assert init[..n] == codes[..n];
      FirstBadPeriod(c, w, e, year, pattern, init, templates, overrides, n, error);
    } else {
      assert codes[..n] == codes;
    }
  }

  method GeneratePeriods(c: Calendar, w: Spec, e: Entity, year: int, pattern: Pattern, templates: seq<Template>,
                         overrides: map<string, Override>) returns (r: Result<seq<Planned>, PlanError>)
    ensures r == GeneratedPeriods(c, w, e, year, pattern, w.selectedPeriods, templates, overrides)
  {
    var codes := w.selectedPeriods;
    var out := [];
    for p := 0 to |codes|
      invariant GeneratedPeriods(c, w, e, year, pattern, codes[..p], templates, overrides) == Ok(out)
    {
      PeriodStep(c, w, e, year, pattern, codes, p, templates, overrides);
      if codes[p] !in CodesOf(pattern, w.periodicity) {
        FirstBadPeriod(c, w, e, year, pattern, codes, templates, overrides, p + 1, BadPeriod(codes[p]));
        return Err(BadPeriod(codes[p]));
      }
      var end := c.periodEnd(e, year, codes[p], w.periodicity);
      var more := GeneratePeriod(c, w, end, codes[p], templates, overrides);
      if more.Err? {
        FirstBadPeriod(c, w, e, year, pattern, codes, templates, overrides, p + 1, more.error);
        return Err(more.error);
      }
      out := out + more.value;
    }
    assert codes[..|codes|] == codes;
    return Ok(out);
  }

  // ----- agreement with the oracle ----------------------------------------

  /** Without overrides a period's dates are the oracle's, computed once. */
  lemma {:induction false} PeriodAgrees(c: Calendar, w: Spec, e: Entity, year: int, pattern: Pattern, code: string,
                                        templates: seq<Template>)
    requires code in CodesOf(pattern, w.periodicity)
    ensures var period := PeriodOf(c, w, e, year, pattern, code);
            GeneratedPeriod(c, w, c.periodEnd(e, year, code, w.periodicity), code, templates, map[])
            == if period.Ok? then Ok(PeriodPlan(c, period.value, templates))
               else if templates == [] then Ok([]) else Err(period.error)
  {
    if templates == [] {
      return;
    }
    var (init, last) := (templates[..|templates| - 1], templates[|templates| - 1]);
    PeriodAgrees(c, w, e, year, pattern, code, init);
    var period := PeriodOf(c, w, e, year, pattern, code);
    if period.Ok? {
      assert PeriodPlan(c, period.value, templates)
             == PeriodPlan(c, period.value, init) + [PlannedOf(c, period.value, last)];
    }
  }

  lemma CodeAgrees(c: Calendar, w: Spec, e: Entity, year: int, pattern: Pattern, code: string, templates: seq<Template>)
    requires templates != []
    ensures var period := PeriodOf(c, w, e, year, pattern, code);
            GeneratedCode(c, w, e, year, pattern, code, templates, map[])
            == if period.Ok? then Ok(PeriodPlan(c, period.value, templates)) else Err(period.error)
  {
    if code in CodesOf(pattern, w.periodicity) {
      PeriodAgrees(c, w, e, year, pattern, code, templates);
    }
  }

  /** While every period has its dates, the plan so far is the oracle's. */
  lemma {:induction false} PeriodsAgree(c: Calendar, w: Spec, templates: seq<Template>, n: nat)
    requires Obstacle(c, w).None? && templates != [] && n <= |w.selectedPeriods| && PeriodsOk(c, w, n)
    ensures var (e, year) := (w.entity.value, Atoi(w.financialYear).value);
            GeneratedPeriods(c, w, e, year, c.pattern(e, year).value, w.selectedPeriods[..n], templates, map[])
            == Ok(PlansOf(c, PeriodsTo(c, w, n), templates))
  {
    if n > 0 {
      var (e, year) := (w.entity.value, Atoi(w.financialYear).value);
      var pattern := c.pattern(e, year).value;
      var before := PeriodsTo(c, w, n - 1);
      PeriodsAgree(c, w, templates, n - 1);
      PeriodStep(c, w, e, year, pattern, w.selectedPeriods, n - 1, templates, map[]);
      CodeAgrees(c, w, e, year, pattern, w.selectedPeriods[n - 1], templates);
      assert PeriodAt(c, w, n - 1) == PeriodOf(c, w, e, year, pattern, w.selectedPeriods[n - 1]);
      PlansGrow(c, w, templates, n);
    }
  }

  lemma {:induction false} PlansGrow(c: Calendar, w: Spec, templates: seq<Template>, n: nat)
    requires Obstacle(c, w).None? && 0 < n <= |w.selectedPeriods| && PeriodsOk(c, w, n)
    ensures PlansOf(c, PeriodsTo(c, w, n), templates)
            == PlansOf(c, PeriodsTo(c, w, n - 1), templates)
               + PeriodPlan(c, PeriodAt(c, w, n - 1).value, templates)
  {
    assert PeriodsTo(c, w, n)[..n - 1] == PeriodsTo(c, w, n - 1);
  }

  /** The first period without dates stops both plans with one error. */
  lemma FailuresAgree(c: Calendar, w: Spec, templates: seq<Template>, p: nat)
    requires Obstacle(c, w).None? && templates != [] && p < |w.selectedPeriods|
    requires PeriodsOk(c, w, p) && PeriodAt(c, w, p).Err?
    ensures var (e, year) := (w.entity.value, Atoi(w.financialYear).value);
            GeneratedPeriods(c, w, e, year, c.pattern(e, year).value, w.selectedPeriods, templates, map[])
            == Err(PeriodAt(c, w, p).error)
  {
    var (e, year) := (w.entity.value, Atoi(w.financialYear).value);
    var pattern := c.pattern(e, year).value;
    PeriodsAgree(c, w, templates, p);
    PeriodStep(c, w, e, year, pattern, w.selectedPeriods, p, templates, map[]);
    CodeAgrees(c, w, e, year, pattern, w.selectedPeriods[p], templates);
    assert PeriodAt(c, w, p) == PeriodOf(c, w, e, year, pattern, w.selectedPeriods[p]);
    FirstBadPeriod(c, w, e, year, pattern, w.selectedPeriods, templates, map[], p + 1, PeriodAt(c, w, p).error);
  }

  // ----- projects ---------------------------------------------------------

  /** One template's instance of a project: every date hangs off its end. */
  function GeneratedForProject(c: Calendar, w: Spec, t: Template, o: Override): Result<Planned, GenError>
  {
    if o.payment.Some? then Err(NoPaymentToReplace)
    else
      var end := Replaced(o.periodEnd, w.endDate);
      Ok(Planned(t, PROJECT_PERIOD, end, end, None, Replaced(o.due, c.applyOffset(end, t.offset))))
  }

  function GeneratedProject(c: Calendar, w: Spec, templates: seq<Template>,
                            overrides: map<string, Override>): Result<seq<Planned>, GenError>
  {
    if templates == [] then Ok([])
    else
      var (init, t) := (templates[..|templates| - 1], templates[|templates| - 1]);
      match GeneratedProject(c, w, init, overrides)
      case Err(e) => Err(e)
      case Ok(before) =>
        match GeneratedForProject(c, w, t, OverrideFor(overrides, t, PROJECT_PERIOD))
        case Err(e) => Err(e)
        case Ok(x) => Ok(before + [x])
  }

  lemma {:induction false} FirstRefusal(c: Calendar, w: Spec, templates: seq<Template>,
                                        overrides: map<string, Override>, n: nat, error: GenError)
    requires n <= |templates| && GeneratedProject(c, w, templates[..n], overrides) == Err(error)
    ensures GeneratedProject(c, w, templates, overrides) == Err(error)
  {
    if n < |templates| {
      var init := templates[..|templates| - 1];
      assert init[..n] == templates[..n];
      FirstRefusal(c, w, init, overrides, n, error);
    } else {
      assert templates[..n] == templates;
    }
  }

  method GenerateProject(c: Calendar, w: Spec, templates: seq<Template>, overrides: map<string, Override>)
    returns (r: Result<seq<Planned>, GenError>)
    ensures r == GeneratedProject(c, w, templates, overrides)
  {
    var out := [];
    for i := 0 to |templates|
      invariant GeneratedProject(c, w, templates[..i], overrides) == Ok(out)
    {
      assert templates[..i + 1][..i] == templates[..i];
      var t := templates[i];
      var o := OverrideFor(overrides, t, PROJECT_PERIOD);
      if o.payment.Some? {
        FirstRefusal(c, w, templates, overrides, i + 1, NoPaymentToReplace);
        return Err(NoPaymentToReplace);
      }
      var end := Replaced(o.periodEnd, w.endDate);
      var due := Replaced(o.due, c.applyOffset(end, t.offset));
      out := out + [Planned(t, PROJECT_PERIOD, end, end, None, due)];
    }
    assert templates[..|templates|] == templates;
    return Ok(out);
  }

  lemma {:induction false} ProjectAgrees(c: Calendar, w: Spec, templates: seq<Template>)
    ensures var g := GeneratedProject(c, w, templates, map[]);
            && g.Ok? && |g.value| == |templates|
            && forall t :: 0 <= t < |templates| ==> g.value[t] == ProjectOf(c, w, templates[t])
  {
    if templates != [] {
      ProjectAgrees(c, w, templates[..|templates| - 1]);
    }
  }

  // ----- any workflow -----------------------------------------------------

  /** What stops the plan before any date is computed: loading, the calendar, the
      templates, the overrides, in this order. */
  function PlanObstacle(c: Calendar, w: Spec, templates: seq<Template>, overrides: map<string, Override>)
    : Option<GenError>
  {
    if LoadError(w).Some? then LoadError(w)
    else if !w.project && Obstacle(c, w).Some? then Some(NotPlannable(Obstacle(c, w).value))
    else if templates == [] then Some(NoTemplates)
    else if !(overrides.Keys <= KeysOf(templates, if w.project then [PROJECT_PERIOD] else w.selectedPeriods)) then
      Some(UnknownOverride)
    else None
  }

  /** The plan that previewing shows and starting creates. */
  function GeneratedPlan(c: Calendar, w: Spec, templates: seq<Template>,
                         overrides: map<string, Override>): Result<seq<Planned>, GenError>
  {
    if PlanObstacle(c, w, templates, overrides).Some? then Err(PlanObstacle(c, w, templates, overrides).value)
    else if w.project then GeneratedProject(c, w, templates, overrides)
    else
      var (e, year) := (w.entity.value, Atoi(w.financialYear).value);
      match GeneratedPeriods(c, w, e, year, c.pattern(e, year).value, w.selectedPeriods, templates, overrides)
      case Err(error) => Err(NotPlannable(error))
      case Ok(out) => Ok(out)
  }

  method GeneratePlan(c: Calendar, w: Spec, overrides: map<string, Override>)
    returns (r: Result<seq<Planned>, GenError>)
    ensures forall templates :: StableSortOf(templates, w.templates, OrderIndex, IntLess)
                                ==> r == GeneratedPlan(c, w, templates, overrides)
  {
    var templates := SortedTemplates(w.templates);
    forall t | StableSortOf(t, w.templates, OrderIndex, IntLess) ensures t == templates {
      AnyStableSortAgrees(t, templates, w.templates);
    }
    r := GenerateSorted(c, w, templates, overrides);
  }

  method GenerateSorted(c: Calendar, w: Spec, templates: seq<Template>, overrides: map<string, Override>)
    returns (r: Result<seq<Planned>, GenError>)
    ensures r == GeneratedPlan(c, w, templates, overrides)
  {
    if LoadError(w).Some? {
      return Err(LoadError(w).value);
    }
    if w.project {
      if templates == [] {
        return Err(NoTemplates);
      }
      var known := KnownKeys(templates, [PROJECT_PERIOD]);
      if !(overrides.Keys <= known) {
        return Err(UnknownOverride);
      }
      r := GenerateProject(c, w, templates, overrides);
      return r;
    }
    var year := Atoi(w.financialYear);
    if year.None? {
      return Err(NotPlannable(YearNotNumeric));
    }
    var pattern := c.pattern(w.entity.value, year.value);
    if pattern.None? {
      return Err(NotPlannable(NoCalendar));
    }
    if templates == [] {
      return Err(NoTemplates);
    }
    var known := KnownKeys(templates, w.selectedPeriods);
    if !(overrides.Keys <= known) {
      return Err(UnknownOverride);
    }
    var plan := GeneratePeriods(c, w, w.entity.value, year.value, pattern.value, templates, overrides);
    r := if plan.Err? then Err(NotPlannable(plan.error)) else Ok(plan.value);
  }

  /** There is something to plan. */
  predicate HasWork(w: Spec) { w.templates != [] && (w.project || w.selectedPeriods != []) }

  /** The oracle's plan is the generator's: without overrides, and wherever there is
      something to plan, both fail for one reason or both give the same instances in
      the same order; where there is nothing, the generator refuses. */
  lemma OracleAgreesWithGenerator(c: Calendar, w: Spec, templates: seq<Template>, r: Result<seq<Planned>, PlanError>)
    requires StableSortOf(templates, w.templates, OrderIndex, IntLess) && IsResult(c, w, templates, r)
    ensures var g := GeneratedPlan(c, w, templates, map[]);
            && (HasWork(w) && r.Ok? ==> g == Ok(r.value))
            && (HasWork(w) && r.Err?
                ==> g == Err(if w.financialYear == "" && r.error == YearNotNumeric then NoYear
                             else NotPlannable(r.error)))
            && (!HasWork(w) ==> g.Err?)
  {
    SameBucketsIsPermutation(templates, w.templates, OrderIndex);
    assert |templates| == |multiset(templates)| == |w.templates|;
    if w.project {
      ProjectAgrees(c, w, templates);
      assert r.Ok? ==> GeneratedProject(c, w, templates, map[]).value == r.value;
    } else if HasWork(w) && Obstacle(c, w).None? {
      RecurringAgrees(c, w, templates, r);
    }
  }

  lemma {:induction false} RecurringAgrees(c: Calendar, w: Spec, templates: seq<Template>,
                                           r: Result<seq<Planned>, PlanError>)
    requires !w.project && Obstacle(c, w).None? && templates != [] && IsRecurringResult(c, w, templates, r)
    ensures var (e, year) := (w.entity.value, Atoi(w.financialYear).value);
            GeneratedPeriods(c, w, e, year, c.pattern(e, year).value, w.selectedPeriods, templates, map[]) == r
  {
    if r.Ok? {
      PeriodsAgree(c, w, templates, |w.selectedPeriods|);
      assert w.selectedPeriods[..|w.selectedPeriods|] == w.selectedPeriods;
    } else {
      var p :| 0 <= p < |w.selectedPeriods| && PeriodAt(c, w, p) == Err(r.error)
               && forall q :: 0 <= q < p ==> PeriodAt(c, w, q).Ok?;
      FailuresAgree(c, w, templates, p);
    }
  }

  // ----- overrides --------------------------------------------------------

  /** What the three overrides of one instance do: a period end moves the other
      dates along by the rules, a payment deadline moves a due date that refers to
      it, a due date moves nothing else. */
  lemma OverrideMovesDates(c: Calendar, w: Spec, end: Date, code: string, t: Template, o: Override, d: Date)
    requires Generated(c, w, end, code, t, o).Ok?
    ensures var x := Generated(c, w, end, code, t, o).value;
            && Generated(c, w, end, code, t, o.(due := Some(d))) == Ok(x.(due := d))
            && Generated(c, w, end, code, t, o.(periodEnd := Some(d)))
               == Generated(c, w, d, code, t, o.(periodEnd := None))
            && (o.due == None
                ==> Generated(c, w, end, code, t, o.(payment := Some(d)))
                    == Ok(x.(payment := Some(d),
                             due := if t.reference == "payment_deadline" then c.applyOffset(d, t.offset) else x.due)))
  {
  }

  /** The same instance, changed only where its key is overridden. */
  predicate Alike(overrides: map<string, Override>, x: Planned, y: Planned)
  {
    && x.template == y.template && x.periodCode == y.periodCode
    && (OverrideKey(y.template.key, y.periodCode) !in overrides ==> x == y)
  }

  ghost predicate AllAlike(overrides: map<string, Override>, s: seq<Planned>, t: seq<Planned>)
  {
    |s| == |t| && forall i :: 0 <= i < |s| ==> Alike(overrides, s[i], t[i])
  }

  lemma {:induction false} PeriodIsAlike(c: Calendar, w: Spec, end: Date, code: string, templates: seq<Template>,
                                         overrides: map<string, Override>)
    requires GeneratedPeriod(c, w, end, code, templates, overrides).Ok?
    requires GeneratedPeriod(c, w, end, code, templates, map[]).Ok?
    ensures AllAlike(overrides, GeneratedPeriod(c, w, end, code, templates, overrides).value,
                     GeneratedPeriod(c, w, end, code, templates, map[]).value)
  {
    if templates != [] {
      PeriodIsAlike(c, w, end, code, templates[..|templates| - 1], overrides);
    }
  }

  lemma {:induction false} PeriodsAreAlike(c: Calendar, w: Spec, e: Entity, year: int, pattern: Pattern,
                                           codes: seq<string>, templates: seq<Template>,
                                           overrides: map<string, Override>)
    requires GeneratedPeriods(c, w, e, year, pattern, codes, templates, overrides).Ok?
    requires GeneratedPeriods(c, w, e, year, pattern, codes, templates, map[]).Ok?
    ensures AllAlike(overrides, GeneratedPeriods(c, w, e, year, pattern, codes, templates, overrides).value,
                     GeneratedPeriods(c, w, e, year, pattern, codes, templates, map[]).value)
  {
    if codes != [] {
      var (init, code) := (codes[..|codes| - 1], codes[|codes| - 1]);
      PeriodsAreAlike(c, w, e, year, pattern, init, templates, overrides);
      PeriodIsAlike(c, w, c.periodEnd(e, year, code, w.periodicity), code, templates, overrides);
    }
  }

  lemma {:induction false} ProjectIsAlike(c: Calendar, w: Spec, templates: seq<Template>,
                                          overrides: map<string, Override>)
    requires GeneratedProject(c, w, templates, overrides).Ok?
    ensures GeneratedProject(c, w, templates, map[]).Ok?
    ensures AllAlike(overrides, GeneratedProject(c, w, templates, overrides).value,
                     GeneratedProject(c, w, templates, map[]).value)
  {
    if templates != [] {
      ProjectIsAlike(c, w, templates[..|templates| - 1], overrides);
    }
  }

  /** Overrides touch the instances they name: what is started differs from what
      was previewed nowhere else, and has the same templates and periods. */
  lemma OverridesAreLocal(c: Calendar, w: Spec, templates: seq<Template>, overrides: map<string, Override>)
    requires GeneratedPlan(c, w, templates, overrides).Ok? && GeneratedPlan(c, w, templates, map[]).Ok?
    ensures AllAlike(overrides, GeneratedPlan(c, w, templates, overrides).value,
                     GeneratedPlan(c, w, templates, map[]).value)
  {
    if w.project {
      ProjectIsAlike(c, w, templates, overrides);
    } else {
      var (e, year) := (w.entity.value, Atoi(w.financialYear).value);
      PeriodsAreAlike(c, w, e, year, c.pattern(e, year).value, w.selectedPeriods, templates, overrides);
    }
  }
}
