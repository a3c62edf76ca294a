# Verified models of the ZenTax API's audit chain, report oracle, redaction and seeder

This project models five parts of the repository in Dafny and proves what they are for.

- **The tamper-evident audit chain** (`platform/audit/audit.go`): the per-tenant hash chain, its hashing contracts,
  the verifier that walks it, and the concurrent appends that build it under an advisory transaction lock.
- **The report oracle** (`cmd/seed-demo/oracle*.go`): compliance classification, the heatmap in both column keyings,
  the exact tax-financial roll-up, workflow statistics, the dashboard and the planning of instances.
- **Log redaction** (`logger/redact.go`): the bounded query and path renderers and the rewrite of attribute trees.
- **The seeder and the report verifier** (`cmd/seed-demo`): the ordered action plan against the approval lifecycle,
  the preview and status checks, page walks, bag comparison, capped recording and the PDF writer.
- **The database URL** (`config/config.go`): percent-encoding and composition.

## How the model is laid out

| files | contents |
|---|---|
| Outcomes, Text, Ordering, Aggregation, StableSort | options and results; splitting, joining and decimal text; strict orders; grouping and totalling once for every report; the insertion sort |
| AuditHash, AuditEncoding, AuditRecipe, AuditVerify, AuditBinding, AuditProtocol, AuditRecorder, AuditTable | what is hashed; why its text tells the details; the recipe that exports publish; what `Verify` decides; the binding theorem; the interleaved protocol; `Record` as statements over Postgres; the binding theorem for rows out of the table |
| OracleWorld, FiscalCodes, Compliance, Heatmap, HeatmapMeaning, HeatmapTheorems, HeatmapFold, Planning, Generator, PlannedGrids, Financial, FinancialMeaning, FinancialTheorems, Dashboard | the report oracle; FiscalCodes lists the period codes a fiscal calendar has, Generator is the API's own planner, which the oracle recomputes, PlannedGrids carries the planner's guarantees and the rules of the data set over to the reports |
| RedactUrl, RedactMeaning, RedactAttr | redaction |
| SeedActions, SeedLifecycle, SeedTheorems, PreviewCheck, PageWalk, CheckReport, PagingCheck, Pdf, PdfDocument, PdfReader | the seeder and the verifier |
| DatabaseUrl | the URL composer |

Conventions. SHA-256, the instant's text form, JSON quoting and later hash contracts are function parameters, so no
theorem assumes that the hash is injective; the binding theorem exhibits the collision instead. Dates are the
(year, month, day) triples the oracle compares. Date offsets, weekend rules, the dates of the fiscal calendar,
lower-casing and the e-mail scrub are function parameters; the period codes of the calendar are modelled. Money is a
real number, which a Go `big.Rat` is exactly for rational inputs. Go strings are sequences of Unicode characters,
except in the URL composer, where escaped parts are bytes; the PDF file is proved to hold one-byte characters only. In
the query and path renderers a byte that is not valid UTF-8 decodes to U+FFFD and is withheld like any character
outside the allowed alphabet. No proof uses automatic induction: lemmas that Dafny would give an induction hypothesis
unasked say `{:induction false}`.

Where the code differs from what is said about it, the model follows the code:

- A heatmap cell is named by a row key and a column key with a bar between them, and keys may hold bars. In the tax-type
  view two entities can then share a cell, and the first one to come names it. `HeatmapTheorems.OneReportIff` gives the
  exact condition for the report not to depend on the order of the instances,
  `HeatmapTheorems.BarsInKeysMakeOrderMatter` an input on which it does, and `PlannedGrids.PlannedReportIsOne` shows that
  planned instances of a valid data set have one report in the period view.
- The data-set rules accept an instance that reaches `pending_approval` by a plain PUT, which the API refuses;
  `SeedTheorems.PutCannotAwaitApproval` is such an entry, and `SeedTheorems.PlanRunsIffLegal` states exactly which
  entries go through.
- The figure for failing differences of a run also counts suppressed informational ones;
  `CheckReport.FailingFigureIsExactIff` says when it is exact, `CheckReport.PastTheCapCountsAsFailing` is a run where it
  is not.
- The value of an attribute with a sensitive key is said never to be emitted. A sensitive key on a group withholds
  nothing by itself; `RedactAttr.GroupKeysWithholdIff` says when nothing under such keys is emitted,
  `RedactAttr.GroupKeyIsNotEnough` is an attribute of which something is.
- The exact stored values of a row are said to be hashed. The id columns give ids back in lower case, so that holds
  exactly for ids written in lower case (`AuditHash.HashSurvivesStorage`, `AuditBinding.UpperCaseNeedsACollision`); the
  chain theorems are about runs that write such ids.

## Model

| member | source | states |
|---|---|---|
| AuditHash.SameIffOneCanonicalForm | platform/audit/audit.go:476-498 | JSON values have one canonical form if and only if they denote the same JSON: at every depth they answer every key alike, whatever the order or repetition of object keys |
| AuditHash.CanonicalMembersAnswer | platform/audit/audit.go:476-498 | the canonical member list is strictly sorted and holds, for each key, the canonical form of the last value stored under it |
| AuditHash.HashSurvivesStorage | platform/audit/audit.go:307-327 | with ids in lower case, truncating the instant and reordering details on the way through the table leaves the hash recomputable from the row alone; the hashed fields come back as written if and only if the ids were in lower case |
| AuditHash.CanonicalIdsStay | migrations/deploy/20260821000012_audit_log.sql:31-44 | a row's UUID columns give its ids back unchanged if and only if they were written in lower case |
| AuditHash.NewerContractKeepsRow | platform/audit/audit.go:307-334 | adding a hashing contract leaves a row's hashed fields alone if and only if the row names a contract already known, not version 0 |
| AuditHash.UnstatedVersionIsCurrent | platform/audit/audit.go:328-345 | a row that names no version is hashed as one of the newest contract, and neither is ever excused |
| AuditEncoding.EncodeCut | platform/audit/audit.go:484-498 | for self-delimiting quoting and scalars spelled as JSON, a text tells the value it begins with and where that value ends |
| AuditEncoding.HashedDetailsIff | platform/audit/audit.go:484-498 | the hashed texts of two details columns are equal if and only if the columns denote the same JSON, an empty column counting as an empty object |
| AuditRecipe.RecipeReproducesHash | platform/audit/worm/segment.go:84-110 | joining what an exported segment carries for the published field names of a row's version gives exactly the hashed text, under every version |
| AuditVerify.Verify | platform/audit/audit.go:395-429 | accepts exactly the unbroken chains from genesis whose unrecomputable rows are one leading pre-cut-over run, with the exact report; otherwise names the first failing row and the first check it fails |
| AuditVerify.SoundIff | platform/audit/audit.go:395-429 | a chain is accepted if and only if every row, next to the one before it, has the next number, links to its hash or to sixty-four zeros, is of a known version, and recomputes unless it is of version 1 and so are all before it |
| AuditVerify.ReportNamesRows | platform/audit/audit.go:395-429 | the report of an accepted chain tells exactly the rows of version 1, and the numbers of the first and the last row that were recomputed |
| AuditVerify.VerifyChain | platform/audit/audit.go:434-447 | accepts exactly the unbroken chains in which every row recomputes |
| AuditVerify.PrefixIsSound | platform/audit/audit.go:395-429 | every prefix of an accepted chain is accepted |
| AuditVerify.SoundStep | platform/audit/audit.go:395-429 | a chain one row longer is accepted if and only if the chain is and the new row links, is not of a newer version, and recomputes or extends an all-excused prefix |
| AuditVerify.SoundGrows | platform/audit/audit.go:395-429 | a correct extension keeps the chain accepted and the excused prefix what it was, or one longer |
| AuditVerify.LeadingRunIsUnique | platform/audit/audit.go:343-345 | the length of the excused prefix is determined by the chain |
| AuditVerify.BrokenIsUnsound | platform/audit/audit.go:395-429 | a row that fails any check behind an accepted prefix makes the whole chain unacceptable, however it is continued |
| AuditVerify.NewerContractKeepsVerdict | platform/audit/audit.go:332-345 | a newer contract never changes the verdict on rows that name an older, non-zero version |
| AuditBinding.PreimageIsInjective | platform/audit/audit.go:307-327 | with newline-free fields the hashed text determines every hashed field and what the row tells: number, link, ids, actor, action, resource, request, credential where it is covered, and, as far as quoting and instants have faithful texts, the details as JSON and the instant to the microsecond |
| AuditBinding.HeadBindsRecomputable | platform/audit/audit.go:395-429 | two accepted chains with one last hash, each with recomputable rows behind its excused ones, have the same length and rows that tell the same, details and instants included, from the longer excused run on, or two of their recomputable rows collide |
| AuditBinding.HeadBindsHistory | platform/audit/audit.go:434-447 | two strictly accepted chains with one last hash have the same length and hashed content at every position, or two given rows collide, or one chain is empty and the other ends in a preimage of the genesis hash |
| AuditBinding.EditNeedsACollision | platform/audit/audit.go:307-327 | a recomputable row edited in anything it tells, its hash left as it is, recomputes only if two different texts have one hash |
| AuditBinding.UpperCaseNeedsACollision | platform/audit/audit.go:307-327 | a row written with an id not in lower case recomputes only if two different texts have one hash |
| AuditTable.RowIsPlainIff | platform/audit/audit.go:307-327 | the columns keep newlines out of every hashed field but two: a row of the table behind a one-line link is newline-free if and only if its action and resource type are |
| AuditTable.ChainIsNewlineFreeIff | platform/audit/audit.go:307-327 | for an accepted chain out of the table, newline-free actions and resource types are the whole newline condition |
| AuditTable.TableHeadBinds | platform/audit/audit.go:395-429 | one last hash of two accepted chains out of the table binds everything behind the longer excused run, or exhibits a collision, when no action or resource type holds a newline |
| AuditBinding.NewlineMovesFieldBoundary | platform/audit/audit.go:307-327 | the newline condition is needed: for every hash function two different one-row chains share a head |
| AuditProtocol.StepKeepsInv | platform/audit/audit.go:181-264 | every statement of any transaction keeps each tenant's committed rows, and each open transaction's view, an accepted chain with the same excused prefix |
| AuditProtocol.RunKeepsInv | platform/audit/audit.go:181-264 | from any table of accepted chains, the invariant holds in every state of every interleaving of any number of transactions, commits and rollbacks, even when tenants share a lock key |
| AuditProtocol.EveryRunVerifies | platform/audit/audit.go:465-472 | from any table of accepted chains, in every reachable state every tenant's chain as loaded in sequence order is accepted with the rows excused that were at the start, strictly if there were none, and is numbered 1 to n |
| AuditProtocol.CommittedOnlyGrows | platform/audit/audit.go:181-264 | a step leaves a tenant's committed rows alone or, on that tenant's commit, appends the transaction's rows; a rollback leaves no trace |
| AuditProtocol.LatestIsLast | platform/audit/audit.go:207-223 | on an unbroken chain the head query answers the last row's hash and the next number |
| AuditProtocol.SortingAChainIsIdentity | platform/audit/audit.go:465-472 | ordering a chain's rows by number gives them back in insertion order |
| AuditProtocol.EarlyReleaseForksTheChain | platform/audit/audit.go:200-205 | a lock released before commit is not enough: whatever the ids, some interleaving commits two rows numbered 1, with event ids and instants of their own, and no verifier accepts |
| AuditRecorder.Recorder.Record | platform/audit/audit.go:181-264 | either one of the early errors, with the database untouched whatever its state, or a failed statement, also for ids that are no UUIDs, and no row written, or lock, head read and insert in that order, appending one row built from the head that carries the call's tenant, actor, credential, request, action, resource and details |
| AuditRecorder.Postgres.AcquireChainLock | platform/audit/audit.go:200-205 | takes the lock as one protocol step and writes no row |
| AuditRecorder.Postgres.ReadChainHead | platform/audit/audit.go:207-223 | reads the head as one protocol step under read-committed visibility and writes no row |
| AuditRecorder.Postgres.InsertRow | platform/audit/audit.go:244-263 | inserts exactly the row built from the head that was read, its ids in lower case |
| AuditRecorder.BuildEntry | platform/audit/audit.go:225-242 | the row names tenant, actor, request and credential of the call, the head's hash and next number, and its own hash |
| AuditRecorder.LatestOf | platform/audit/audit.go:207-223 | a scan finds the row with the highest number, or the genesis head |
| AuditRecorder.CredentialOf | platform/audit/audit.go:270-279 | a credential is recorded whole or not at all, and only as a known kind |
| AuditRecorder.NormalizeRequestId | platform/audit/audit.go:287-293 | a request id is kept when it is shaped like one and dropped otherwise |
| AuditRecorder.HashIgnoresItself | platform/audit/audit.go:307-327 | the stored hash is not part of what is hashed |
| OracleWorld.DatesAreOrdered | cmd/seed-demo/oracle.go:567-587 | the comparison is a strict total order and 0 exactly on equal dates |
| OracleWorld.BeforeIsEarlierDay | cmd/seed-demo/oracle.go:567-587 | a date of the calendar comes before another if and only if its day does, and the zero date before all from year 1 on |
| OracleWorld.CollectParticipating | cmd/seed-demo/oracle_reports.go:79-105 | exactly the matching instances of participating workflows, in order |
| OracleWorld.FiltersNarrow | cmd/seed-demo/oracle_reports.go:76-90 | an empty filter or "all" keeps every instance of an active or completed recurring workflow; any other keeps of them exactly those it names |
| OracleWorld.ParticipatingOfPermutation | cmd/seed-demo/oracle_reports.go:93-105 | reordering the instances only reorders the participating ones |
| OracleWorld.Classify | cmd/seed-demo/oracle.go:537-557 | on time or late exactly when completed at a known instant, by the deadline; otherwise missed once the deadline is behind today |
| OracleWorld.ClassByDays | cmd/seed-demo/oracle.go:537-557 | in days of the calendar: on time up to and including the deadline's day, late after it; otherwise missed once that day is over |
| OracleWorld.ClassificationAdvances | cmd/seed-demo/oracle.go:543-557 | as the date advances a class stays or goes from not due to missed, exactly when the deadline falls behind |
| Compliance.ComplianceReport | cmd/seed-demo/oracle_reports.go:329-369 | the rows are the stable sort of the classified instances and the summary counts them |
| Compliance.RowsTellInstances | cmd/seed-demo/oracle_reports.go:329-369 | the report lists every participating instance as often as it occurs, each row tells its own instance's names, dates and class, and rows stand by entity name, obligation name and period |
| Compliance.SummaryCountsInstances | cmd/seed-demo/oracle_reports.go:329-369 | the summary's figures are the numbers of participating instances of each class |
| Compliance.RowsWithClass | cmd/seed-demo/oracle_reports.go:313-325 | a class filter keeps exactly that class's rows in order |
| Compliance.ClassesPartitionRows | cmd/seed-demo/oracle_reports.go:313-369 | the four filters cut the rows into four sets that together hold every row as often as the report, with the summary's sizes |
| Compliance.ClassMembers | cmd/seed-demo/oracle_reports.go:313-325 | a row is in a class's page set if and only if it is a row of the report of that class |
| Compliance.SettledRowsStay | cmd/seed-demo/oracle_reports.go:313-369 | the report's on-time rows and its late rows are the same rows in the same order at every later date |
| Compliance.MissedRowsGrow | cmd/seed-demo/oracle_reports.go:313-369 | as the date advances the report's missed rows gain, and its rows not yet due lose, exactly the instances that fall overdue |
| Compliance.ClassOfStableSort | cmd/seed-demo/oracle_reports.go:313-369 | filtering the sorted rows by class is stably sorting the filtered ones |
| Compliance.SummaryAdvances | cmd/seed-demo/oracle_reports.go:329-369 | as the date advances total, on time and late stay, and missed grows by exactly what not due loses, the number that fall overdue |
| Compliance.SummaryOfPermutation | cmd/seed-demo/oracle_reports.go:329-369 | the summary does not depend on the order of the rows |
| Heatmap.FillCells | cmd/seed-demo/oracle_reports.go:175-224 | the first loop builds one cell per key holding the tally of its instances and the labels of the first one |
| Heatmap.HeatmapKeyed | cmd/seed-demo/oracle_reports.go:175-263 | the report is the grid of the participating instances with its summary and the sorted row and column orders |
| Ordering.SortedKeys | cmd/seed-demo/oracle_reports.go:266-273 | whatever order the map yields its keys in, the result is the strictly increasing sequence of exactly those keys |
| Ordering.StringLessIffFirstDifference | cmd/seed-demo/oracle_reports.go:245-273 | one string is smaller than another exactly when it is smaller where they first differ, or ends there |
| Heatmap.TalliesAreInhabited | cmd/seed-demo/oracle_reports.go:128-139 | every cell holds an instance, so none is grey |
| HeatmapTheorems.CellsConserveInstances | cmd/seed-demo/oracle_reports.go:175-224 | cell totals add up to the participating instances, overdue and late counts to the missed and late classifications |
| HeatmapTheorems.CountersCountInstances | cmd/seed-demo/oracle_reports.go:205-223 | each counter of a cell is the number of its key's instances that are completed, missed, late, under way, or there at all |
| HeatmapTheorems.ColourMeaning | cmd/seed-demo/oracle_reports.go:126-139 | a cell is red iff one of its instances is missed or was completed late, green iff none is and all are completed |
| HeatmapMeaning.HeatmapOf | cmd/seed-demo/oracle_reports.go:34-41 | the report keyed as the API keys it: periods within their years where the view is by period and no year is selected |
| HeatmapMeaning.ColumnsKeepYearsApart | cmd/seed-demo/oracle_reports.go:34-41 | so a period column never mixes two years: instances that share one have one year and one code |
| HeatmapMeaning.CellIsNamed | cmd/seed-demo/oracle_reports.go:177-203 | a cell is stored under its own row and column key, and one of its instances has that entity and that period, period and year, or obligation, with their labels |
| HeatmapMeaning.EveryInstanceHasACell | cmd/seed-demo/oracle_reports.go:175-224 | every participating instance is counted in a cell, that of its own row and column |
| HeatmapMeaning.CellGathers | cmd/seed-demo/oracle_reports.go:205-223 | a cell's first period end is the earliest among its instances, its workflows are theirs |
| HeatmapMeaning.RowsAreTheCells | cmd/seed-demo/oracle_reports.go:226-262 | the rows listed are exactly the cells' rows, the columns exactly their columns |
| HeatmapMeaning.RowsByLabel | cmd/seed-demo/oracle_reports.go:244-252 | any two rows stand in the order of labels that their cells have, then of keys |
| HeatmapMeaning.ColumnsByCalendar | cmd/seed-demo/oracle_reports.go:244-262 | any two columns stand in the order of the earliest period ends of their cells, then of labels, then of keys |
| HeatmapTheorems.SummaryCountsEveryCell | cmd/seed-demo/oracle_reports.go:226-243 | green, amber and red are the numbers of cells of each colour and add up to the cell count |
| HeatmapTheorems.TalliesIgnoreOrder | cmd/seed-demo/oracle_reports.go:175-243 | permuting the instances changes no cell key, no tally and no summary figure, whatever the names |
| HeatmapTheorems.HeatmapIgnoresOrder | cmd/seed-demo/oracle_reports.go:175-263 | permuting the instances and walking the maps in any order gives the same report, when labels are functions of keys and instances that share a cell share its row |
| HeatmapTheorems.OneReportIff | cmd/seed-demo/oracle_reports.go:158-263 | where labels are functions of keys, the report depends on the bag of instances alone if and only if instances that share a cell share its row |
| HeatmapTheorems.BarsInKeysMakeOrderMatter | cmd/seed-demo/oracle_reports.go:158-195 | two entities and two obligations with bars in their keys share a tax-type cell, and the report depends on which comes first |
| HeatmapTheorems.BarFreeKeysAreUnambiguous | cmd/seed-demo/oracle_reports.go:158-158 | with no bar in any row key, or none in any column key, instances that share a cell share its row |
| FiscalCodes.PeriodCodesArePlain | shared/deadline/deadline.go:251-365 | no period code of any fiscal calendar holds a bar or a colon |
| FiscalCodes.CodesAreNamed | shared/deadline/deadline.go:245-365 | four quarters Q1 to Q4, two halves, one year, twelve months M1 to M12, or thirteen periods P1 to P13 where the pattern has them, and as many weeks as the year |
| Planning.PlannedColumnsComeFromCalendar | cmd/seed-demo/oracle.go:340-354 | every planned instance of a recurring workflow has a numeric year and a period code of a calendar |
| HeatmapFold.PeriodViewIsUnambiguous | cmd/seed-demo/oracle_reports.go:39-49 | with years free of bar and colon and codes free of the bar, instances that share a period-view cell share its row, and equal column keys have equal labels, whatever the entity keys |
| HeatmapFold.QualifiedKeyDetermines | cmd/seed-demo/oracle_reports.go:43-45 | a qualified cell key determines row, year and period code |
| HeatmapFold.LegacyIsCoarser | cmd/seed-demo/verify_reports.go:811-818 | instances of one qualified cell share their legacy cell |
| HeatmapFold.LegacyCellIsFold | cmd/seed-demo/verify_reports.go:811-818 | for every row key, a legacy cell's counts are the sums of its qualified cells', its first period end the least, its workflows the union, its colour theirs folded |
| HeatmapFold.FoldedColour | cmd/seed-demo/oracle_reports.go:128-139 | a folded cell is red iff a constituent is red, green iff all are green, else amber |
| HeatmapFold.LegacyGridIsNoLarger | cmd/seed-demo/verify_reports.go:811-818 | folding never adds a cell, for every row key |
| PlannedGrids.PlannedColumnsArePlain | cmd/seed-demo/oracle.go:340-383 | instances that some recurring workflow's plan holds have numeric years and calendar codes, so neither holds a bar and no year a colon |
| PlannedGrids.PlannedLegacyCellIsFold | cmd/seed-demo/verify_reports.go:811-818 | on planned instances every legacy cell is the fold of its qualified cells, and the legacy grid is no larger |
| PlannedGrids.ValidatedLabels | seed/demo/spec/validate.go:336-346 | with an entity and an obligation type named by every workflow, both kinds of key unique, labels are functions of keys |
| PlannedGrids.PlannedReportIsOne | cmd/seed-demo/oracle_reports.go:158-263 | planned instances of a valid data set have one period-view report whatever their order, and one tax-type report if and only if instances that share a cell share its row |
| PlannedGrids.ValidatedTitles | seed/demo/spec/validate.go:195-212 | with unique non-empty keys, countries and templates, titles of the financial report are functions of keys under every grouping |
| PlannedGrids.ValidatedReportIgnoresOrder | cmd/seed-demo/oracle_reports.go:412-496 | on a valid data set permuting the instances changes no figure, bucket or order of the financial report, whatever it is grouped by |
| Financial.FirstNonZero | cmd/seed-demo/oracle_figures.go:204-211 | the value of the first alias that is not zero, or zero when all are |
| Financial.Extract | cmd/seed-demo/oracle_figures.go:98-149 | each figure is the first non-zero value of its own alias chain, for the tax type that carries it and 0 otherwise; a VAT return that states no net figure has output minus input, one that does has what it states; and each tax type's total |
| Financial.TaxFigures | cmd/seed-demo/oracle_figures.go:98-149 | filling the figures field by field yields the extracted figures in a new object |
| Financial.Figures.Add | cmd/seed-demo/oracle_figures.go:54-63 | adds all eight figures in place and changes nothing else |
| Financial.Buckets.Accumulate | cmd/seed-demo/oracle_reports.go:437-459 | one row enters the bucket of its key, opened when missing; no two buckets are one object or share figures, and only buckets change |
| Financial.Report.AddInstance | cmd/seed-demo/oracle_reports.go:416-466 | one instance is booked in rows, count, summary, group and period, and after each addition every stored row still holds its own figures, which no bucket, summary or other row shares |
| Financial.Report.RollUp | cmd/seed-demo/oracle_reports.go:416-466 | after the loop the report holds what booking the instances with tax data one by one gives, every row still with its own figures, nothing shared |
| Financial.BooksAccumulate | cmd/seed-demo/oracle_reports.go:416-466 | booking one by one gives exactly the instances with tax data, their count, the total of their figures and their buckets |
| Financial.FinancialReport | cmd/seed-demo/oracle_reports.go:412-496 | the finished report: stably sorted rows, summary, groups and periods, chart and group orders, each row still holding its own figures and no figures shared between rows, summary, groups and periods |
| Financial.BucketsHoldGroups | cmd/seed-demo/oracle_reports.go:436-465 | buckets filled row by row hold the roll-up by key and the titles of their first rows |
| FinancialMeaning.CountedInstances | cmd/seed-demo/oracle_reports.go:412-419 | an instance is counted as often as it occurs when it participates, matches the filters and carries tax data, and not at all otherwise |
| FinancialMeaning.BucketsTell | cmd/seed-demo/oracle_reports.go:436-517 | there is a bucket for a key exactly when some return is of that country, tax type, period, obligation or entity, or of none; it holds the exact sums of those returns, their number, their earliest period end and the name the first gives it |
| FinancialMeaning.RowsInOrder | cmd/seed-demo/oracle_reports.go:461-470 | rows come by entity name, then by obligation name, then by period |
| FinancialMeaning.ChartByCalendar | cmd/seed-demo/oracle_reports.go:472-480 | the chart lists its periods by their earliest period ends, then by code |
| FinancialMeaning.GroupsByTitle | cmd/seed-demo/oracle_reports.go:484-494 | groups stand by title and key, periods first by the calendar |
| FinancialTheorems.FiguresAreConserved | cmd/seed-demo/oracle_reports.go:412-496 | under each of the five groupings the figures of the groups, of the chart periods and of the rows add up to the summary, and counts to the record count |
| FinancialTheorems.TotalIsNetVatAndTheRest | cmd/seed-demo/oracle_figures.go:133-148 | in every bucket the total amount is the net VAT plus the amounts of the returns that are not VAT |
| FinancialTheorems.VatOnlyTotalsAreNetVat | cmd/seed-demo/oracle_figures.go:133-148 | with VAT returns only, total amount and net VAT agree in every bucket |
| FinancialTheorems.FinancialIgnoresOrder | cmd/seed-demo/oracle_reports.go:412-496 | permuting the instances changes no figure, bucket or order, when titles are functions of keys |
| Dashboard.Percent | cmd/seed-demo/oracle_reports.go:641-645 | the integer formula is 100c/t rounded half up and lies between 0 and 100 |
| Dashboard.PercentIsUnique | cmd/seed-demo/oracle_reports.go:641-645 | only one integer satisfies the rounding bounds |
| Dashboard.RealRoundingAgrees | cmd/seed-demo/oracle_reports.go:691-693 | rounding 100c/t over the reals gives the integer formula's result |
| Dashboard.WorkflowStats | cmd/seed-demo/oracle_reports.go:628-647 | totals, completed count, percentage and the running next due date of one workflow |
| Dashboard.NextDueIsEarliest | cmd/seed-demo/oracle_reports.go:628-639 | the next due date is the earliest of the open instances', and absent exactly when none is open |
| Dashboard.Dashboard | cmd/seed-demo/oracle_reports.go:663-695 | the counters of all instances, with the rate the workflows' totals give |
| Dashboard.WindowsPartition | cmd/seed-demo/oracle_reports.go:665-685 | active and completed are all; the overdue, today and this-week windows are disjoint and within active |
| Dashboard.WindowsByDays | cmd/seed-demo/oracle_reports.go:676-685 | in days of the calendar, open instances due before today are overdue, today due today, later up to the end of the week due this week; overdue is what is open and classed as missed against the due date |
| Dashboard.OverdueIffNextDueBehind | cmd/seed-demo/oracle_reports.go:628-685 | something is overdue if and only if the next due date is behind today |
| Dashboard.StatusesPartition | cmd/seed-demo/oracle_reports.go:665-675 | the status counts add up to all instances, each is the number of instances of its status, and two of them are the completed and awaiting counters |
| Dashboard.OverdueOnlyGrows | cmd/seed-demo/oracle_reports.go:678-685 | as the date advances what was overdue or due stays overdue while it is open |
| StableSort.InsertionSort | cmd/seed-demo/oracle.go:471-479 | adjacent swaps on a strictly smaller key yield the stable sort, as a permutation |
| StableSort.StableSortIsUnique | cmd/seed-demo/oracle.go:471-479 | any two stable sorts of one sequence are equal |
| Planning.SortedTemplates | cmd/seed-demo/oracle.go:471-479 | a permutation by order index, ties in the data set's order |
| Planning.AnyStableSortAgrees | cmd/seed-demo/seed.go:1164-1169 | the oracle's order is the seeder's, whatever algorithm the library sort uses |
| Planning.PlanPeriod | cmd/seed-demo/oracle.go:362-380 | one instance per template with the reference its rule names |
| Planning.PlanRecurring | cmd/seed-demo/oracle.go:333-383 | the obstacle, the first period's error, or one instance per period and template |
| Planning.PlanProject | cmd/seed-demo/oracle.go:390-407 | one instance per template at the end date, or the missing end date |
| Planning.PlanWorkflow | cmd/seed-demo/oracle.go:325-331 | either plan, over the templates in the one order a stable sort gives |
| Planning.PlanIsPeriodMajor | cmd/seed-demo/oracle.go:346-383 | the plan has one instance per period and template, that of period p and template t at position p·T + t |
| Planning.PlaceOf | cmd/seed-demo/oracle.go:346-383 | every position of the plan is that of one period and one template |
| Planning.PlannedKeysAreDistinct | cmd/seed-demo/oracle.go:483-487 | distinct periods and template keys give every planned instance its own (period, task) pair |
| Generator.GeneratePlan | modules/taskinstances/usecases/generator.go:276-479 | the API's planner: what loading, the calendar, the templates or the overrides refuse, the first failure, or one instance per period and template with its dates computed one after the other |
| Generator.OracleAgreesWithGenerator | cmd/seed-demo/oracle.go:333-407 | the oracle recomputes the planner exactly: without overrides, and wherever there are templates and periods, both fail for one reason or both give the same instances in the same order; where there are none, the planner refuses |
| Generator.OverrideMovesDates | modules/taskinstances/usecases/generator.go:338-401 | an overridden period end moves the other dates by the rules, an overridden payment deadline moves a due date that refers to it, an overridden due date nothing else |
| Generator.OverridesAreLocal | modules/taskinstances/usecases/generator.go:182-215 | what is started with overrides has the templates and periods that were previewed, and differs only in instances an override names |
| RedactUrl.SafeKey | logger/redact.go:167-179 | a key of 1 to 64 allowed runes is kept, any other becomes the marker |
| RedactUrl.SafeSegment | logger/redact.go:181-190 | a segment of at most 96 allowed runes is kept, any other becomes the marker |
| RedactUrl.RedactQuery | logger/redact.go:69-99 | the loop writes the rendered tokens, joined |
| RedactUrl.OutputIsRendered | logger/redact.go:69-99 | at most 24 pairs and a possible ellipsis, every value the marker, every key the marker or at most 64 key runes |
| RedactUrl.RedactQueryIsIdempotent | logger/redact.go:69-99 | rendering twice is rendering once, and the fixed points are exactly the rendered queries |
| RedactUrl.RedactQueryHidesValues | logger/redact.go:57-68 | queries that differ in values only are rendered alike |
| RedactMeaning.PairMeans | logger/redact.go:84-96 | a token "key=value" keeps its key when plain and never its value, cut at the first "="; a token without "=" keeps nothing |
| RedactMeaning.QueryIsRenderedTokenwise | logger/redact.go:69-99 | a query put together from tokens is rendered token by token: empty ones skipped, an ellipsis after 24, a leading "?" without effect |
| RedactUrl.RedactPath | logger/redact.go:111-135 | the loop yields the rendered segments, joined |
| RedactUrl.PathOutputIsRendered | logger/redact.go:111-135 | at most 16 non-empty segments, each the marker or at most 96 segment runes, and a possible final ellipsis |
| RedactUrl.RedactPathIsIdempotent | logger/redact.go:111-135 | rendering twice is rendering once, and the fixed points are exactly the rendered paths |
| RedactMeaning.PathIsRenderedSegmentwise | logger/redact.go:111-135 | a path put together from segments is rendered segment by segment, slashes kept, an ellipsis for the seventeenth that is not empty and all after it |
| RedactMeaning.QueryIsCutOff | logger/redact.go:111-117 | whatever follows the first "?" or "#" has no effect, and an empty path is rendered as the root |
| RedactAttr.NormalizeKey | logger/redact.go:262-271 | lower-cased letters and digits only |
| RedactAttr.IsSensitiveKey | logger/redact.go:246-260 | exact keys whole, stems anywhere in the normalized key |
| RedactAttr.SensitivityIsNormal | logger/redact.go:246-271 | a key is sensitive if and only if its normalized form is |
| RedactAttr.SpellingIsIgnored | logger/redact.go:262-271 | for an idempotent lower-casing, a key and its lower-cased form are sensitive alike, and runes that are no letter or digit do not matter |
| RedactAttr.StemCountsAnywhere | logger/redact.go:209-233 | a key that holds a stem makes every longer key sensitive |
| RedactAttr.ShortKeysAreExact | logger/redact.go:226-260 | a key of fewer than four letters and digits is sensitive if and only if it is one of the exact keys |
| RedactAttr.RedactAttr | logger/redact.go:301-322 | the recursive loop computes the rewritten attribute |
| RedactAttr.LeavesOfRedact | logger/redact.go:301-322 | leaf for leaf, same order and key paths; own-key-sensitive leaves become the marker, other text is scrubbed, the rest stays |
| RedactAttr.SensitiveLeavesAreWithheld | logger/redact.go:301-322 | a sensitive leaf holds the marker at any depth, also behind a lazily computed value |
| RedactAttr.ComputedValuesAreJudged | logger/redact.go:301-322 | through up to 99 lazily computed levels a value is judged as what it computes: withheld, scrubbed, or walked as a group |
| RedactAttr.GroupKeysWithholdIff | logger/redact.go:301-322 | nothing under a sensitive group key is emitted if and only if each leaf there has a sensitive key of its own or a text the scrub turns into the marker |
| RedactAttr.GroupKeyIsNotEnough | logger/redact.go:301-312 | a text under the key "id" in a group "email" is emitted as it is |
| RedactAttr.RedactIsIdempotent | logger/redact.go:301-322 | a second pass changes nothing when the scrub is idempotent |
| SeedActions.PutsCarryEntries | cmd/seed-demo/seed_actions.go:175-218 | the first calls of a plan are its PUTs, entry by entry: by the writer, on the entry's own non-empty id, in progress wherever an approval route leads to the declared status, with the named assignee's id and exactly the entry's notes and tax data |
| SeedActions.OtherCallsCarryItems | cmd/seed-demo/seed_actions.go:220-285 | an upload is by the writer, of its document, to its workflow; a submit by the writer, an approval by the approver; each on the instance of its own pair |
| SeedActions.RefusalsNameItems | cmd/seed-demo/seed_actions.go:175-285 | a refusal names the pair without an instance, the assignee without an id, or the missing actor, checked in this order |
| SeedActions.PlanOkIff | cmd/seed-demo/seed_actions.go:108-157 | a workflow has a plan if and only if it, every listed instance and document and every named assignee has an id, and there is a writer where something is submitted and an approver where something is approved |
| SeedActions.PlanWorkflowActions | cmd/seed-demo/seed_actions.go:108-157 | the four phases in order, or the first error and no plan |
| SeedActions.CollectMeaning | cmd/seed-demo/seed_actions.go:104-107 | a phase has one call per item in order, or the error of the first item in error |
| SeedLifecycle.PlanIsComplete | cmd/seed-demo/seed_actions.go:23-33 | uploads follow all PUTs, submits all uploads, approvals all submits; each phase has exactly one call per entry or document concerned, in the data set's order |
| SeedLifecycle.RunIsPointwise | modules/taskinstances/usecases/update.go:20-32 | a plan is refused exactly when some instance's own calls are, and leaves each instance where its own calls leave it |
| SeedLifecycle.FrozenTakesApprovalsOnly | modules/taskinstances/usecases/update.go:20-32 | a pending or approved instance takes no PUT, upload or submit; an approval needs a pending instance and another than its submitter |
| SeedLifecycle.RunKeepsFourEyes | modules/taskinstances/usecases/approve.go:11-44 | whatever calls go through, what is pending was submitted, and what is approved is completed and approved by another than its submitter |
| SeedLifecycle.UploadsPass | modules/documents/domain/document.go:181-192 | uploads are accepted while an instance is neither pending nor approved, and change nothing |
| SeedTheorems.EntryRuns | modules/taskinstances/usecases/submit.go:15-46 | one entry's calls are accepted if and only if they are legal, and end in its declared route's status |
| SeedTheorems.SeededIsWired | seed/demo/spec/validate.go:501-505 | ids that differ where keys differ, and no (period, task) pair listed twice, give every listed entry an instance of its own |
| SeedTheorems.PlanRunsIffLegal | cmd/seed-demo/seed_actions.go:108-157 | on fresh instances with ids of their own and no pair listed twice, the whole plan goes through if and only if every entry is legal: no pending status by PUT, approval required where submitted, approver other than writer |
| SeedTheorems.PutCannotAwaitApproval | seed/demo/spec/validate.go:567-583 | an entry that declares pending approval by a plain PUT meets the rules on routes and its plan is refused |
| SeedTheorems.PlanOutcomes | modules/taskinstances/usecases/approve.go:15-44 | after the plan a listed instance has its route's status, an unlisted one is untouched |
| SeedTheorems.CheckInstanceStatuses | cmd/seed-demo/seed.go:899-923 | accepts exactly when every row names a known template and has the declared status, not started when undeclared; the tally counts statuses |
| SeedTheorems.SeededWorldPassesCheck | cmd/seed-demo/seed.go:899-923 | after the plan the check accepts if and only if each shown entry declares the status its route leads to |
| PreviewCheck.CheckAgainstPreview | cmd/seed-demo/seed.go:859-893 | accepts exactly when the numbers agree and every planned row finds a row with its dates |
| PreviewCheck.AcceptedInstancesAreThePlan | cmd/seed-demo/seed.go:819-820 | when no key is planned twice, accepted instances are exactly the planned ones, row for row |
| PreviewCheck.AcceptedRowForRow | cmd/seed-demo/seed.go:859-893 | with template ids that hold no bar and no template planned twice for a period, every accepted instance is a planned row, dates and all, and the only one of its template and period |
| PageWalk.ListAll | cmd/seed-demo/verify_api.go:343-360 | over any server with bounded totals the walk ends and returns what the server's one walk holds: its rows in order, or the failure |
| PageWalk.ListTaskInstances | cmd/seed-demo/seed.go:927-945 | the same for the seeder's variant of the loop |
| PageWalk.ReportPages | cmd/seed-demo/verify_api.go:397-425 | the pages of a whole walk, in order |
| PageWalk.HonestWalkReadsList | cmd/seed-demo/verify_api.go:340-360 | over a server that answers with part of its list at the offset and the true total, every walk returns the list, each row once, in order |
| PageWalk.HonestListingIsList | cmd/seed-demo/verify_api.go:340-360 | what a walk over such a server returns is the server's list |
| PageWalk.HonestIsBounded | cmd/seed-demo/verify_api.go:340-360 | an honest server's totals are bounded by its list's length, so every walk over it ends |
| PageWalk.WalkIsUnique | cmd/seed-demo/verify_api.go:343-360 | a server admits one walk |
| PageWalk.WalkIff | cmd/seed-demo/verify_api.go:343-360 | a walk is whole if and only if each page was asked for where the pages before it end and only the last failed, is empty, tells no total or completes the total it tells |
| CheckReport.Check.Note | cmd/seed-demo/verify_report.go:125-137 | records a difference, or counts it past the cap, and fails a passing check on a failing one |
| CheckReport.Check.Equal | cmd/seed-demo/verify_report.go:141-147 | records a difference exactly when the sides differ |
| CheckReport.CapLosesNothing | cmd/seed-demo/verify_report.go:72-78 | the first 25 differences are listed in order, the rest counted, none lost; the outcome stays a pass exactly when all are informational |
| CheckReport.Tally | cmd/seed-demo/verify_reports.go:670-676 | the counts map holds each key's surplus |
| CheckReport.CompareMultisets | cmd/seed-demo/verify_reports.go:669-691 | one difference per disagreeing key, in increasing order |
| CheckReport.DifferencesTellSides | cmd/seed-demo/verify_reports.go:669-691 | a difference names its key, the side that has more of it, and how many more |
| CheckReport.ComparisonCountsDisagreements | cmd/seed-demo/verify_reports.go:669-691 | nothing is recorded iff the bags are equal; listed and suppressed differences together are the disagreeing keys |
| CheckReport.Summarise | cmd/seed-demo/verify_report.go:234-256 | the counting loop over checks and differences |
| CheckReport.SummaryAddsUp | cmd/seed-demo/verify_report.go:234-256 | passed, failed and skipped are all checks, and every recorded difference is counted once |
| CheckReport.FiguresAreCounts | cmd/seed-demo/verify_report.go:234-256 | each figure of a run counts what it is named for: outcomes, listed differences by level, suppressed ones with the failing |
| CheckReport.FailingFigureIsExactIff | cmd/seed-demo/verify_report.go:234-256 | over any run of checks the failing figure is never below the true number, and exact if and only if in every check nothing informational is past the cap |
| CheckReport.PastTheCapCountsAsFailing | cmd/seed-demo/verify_report.go:247-255 | twenty-six informational differences in one check make the run report one failing difference |
| PagingCheck.CheckCompliancePaging | cmd/seed-demo/verify_reports.go:290-335 | skips an empty tenant; otherwise records every total, repeat and size difference in order, and on a failed request those found so far and the error |
| PagingCheck.PagingPassesIff | cmd/seed-demo/verify_reports.go:286-335 | a clean check stays clean exactly when every page tells the expected total and the pages hold that many rows, each once |
| PagingCheck.PagingDifferencesTell | cmd/seed-demo/verify_reports.go:305-330 | a difference found on the way tells the offset and both totals of a page, or a row that is in the pages more than once |
| PagingCheck.HonestPagingPassesIff | cmd/seed-demo/verify_reports.go:286-335 | against an honest server it passes exactly when the list has the expected length and no row twice |
| Pdf.PdfEscape | cmd/seed-demo/seed_files.go:137-151 | the builder loop computes the escaped text |
| Pdf.EscapedReadsBack | cmd/seed-demo/seed_files.go:134-151 | by section 7.3.4.2 of ISO 32000-1 an escaped string reads back as the text with non-printable runes replaced, whatever follows |
| Pdf.PdfContentStream | cmd/seed-demo/seed_files.go:124-132 | the stream of the lines |
| Pdf.ContentReadsBack | cmd/seed-demo/seed_files.go:124-132 | reading the shown strings gives the printable lines back, in order |
| Pdf.TenDigitsReadBack | cmd/seed-demo/seed_files.go:115-117 | a padded offset reads back as the offset |
| PdfDocument.WritePdf | cmd/seed-demo/seed_files.go:90-121 | the growing buffer with its noted offsets is the laid-out file, and all of it is ASCII |
| PdfDocument.DocumentIsAscii | cmd/seed-demo/seed_files.go:85-151 | every character written is one byte, whatever the title and the file name hold, so positions and lengths count bytes |
| PdfDocument.ObjectIsAtItsOffset | cmd/seed-demo/seed_files.go:102-110 | each object's header and body stand at the position noted for it |
| PdfDocument.StartXrefPointsAtTable | cmd/seed-demo/seed_files.go:112-120 | the number between the keyword startxref and the end mark is the position of "xref" |
| PdfDocument.EntryHasTwentyBytes | cmd/seed-demo/seed_files.go:115-117 | a table entry has twenty bytes if and only if the offset fits in ten digits (section 7.5.4 of ISO 32000-1) |
| PdfDocument.DocumentFits | cmd/seed-demo/seed_files.go:92-117 | the offsets of every document's five objects fit in ten digits, whatever its content |
| PdfDocument.SubsectionReadsBack | cmd/seed-demo/seed_files.go:112-114 | the line under "xref" reads back as first object, number of entries and its own length |
| PdfDocument.TableLeadsToObjects | cmd/seed-demo/seed_files.go:112-120 | in every document, from the file alone, by its last lines and the table's heading line, the entry of each object is in use and leads to its header, and entry 0 heads the free list |
| PdfReader.LengthIsStreamLength | cmd/seed-demo/seed_files.go:99-99 | the stream dictionary's /Length is the number of characters, and by DocumentIsAscii of bytes, between "stream" and "endstream" |
| PdfReader.TrailerRead | cmd/seed-demo/seed_files.go:118-119 | the dictionary behind the table's last entry reads back as the trailer, its size the number of entries |
| PdfReader.PageFound | cmd/seed-demo/seed_files.go:92-100 | by the references alone, from the trailer's /Root to the catalog, its /Pages and the tree's /Kids, the reader finds the one page, which names the tree as its parent |
| PdfReader.FontFound | cmd/seed-demo/seed_files.go:92-100 | the name that the stream selects is in the page's resources and refers to the Type 1 font Helvetica |
| PdfReader.DocumentReadsBack | cmd/seed-demo/seed_files.go:85-121 | for every title, file name and version a reader given the file alone, taking every reference from it, finds one A4 page, its text in Helvetica, and the document's lines |
| PdfReader.DocumentTells | cmd/seed-demo/seed_files.go:85-91 | lines two to four show the printable title, file name and version |
| DatabaseUrl.UserinfoEscapesAllButUnreserved | config/config.go:433-438 | the two replacement steps together escape every byte that is not unreserved |
| DatabaseUrl.EscapedUserinfoReadsBack | config/config.go:433-438 | only unreserved characters and triplets, decoding to the original bytes (sections 2.1 and 2.3 of RFC 3986) |
| DatabaseUrl.EscapeReadsBack | config/config.go:411-431 | userinfo, path segment and query escaping all decode to the original bytes |
| DatabaseUrl.ComposeDatabaseUrl | config/config.go:411-431 | the builder's steps write the URL of the parts |
| DatabaseUrl.ComposedReadsBack | config/config.go:411-431 | splitting at the delimiters recovers user, password, host, port, database name and ssl mode, for delimiter-free host and port and every value of the rest |

## Left out

- Financial.Figures.Add: a figure is one real field of the object; the digit storage inside a `big.Rat` is not modelled.
- PageWalk.ListAll: as for the other walks, a server whose reported total grows without bound need not be walked to an end; the totals are assumed bounded. Progress lines are left out.
- RedactAttr.RedactIsIdempotent: the e-mail pattern itself is not modelled; the scrub is any idempotent function.
- Dashboard.NextDueIsEarliest: stated for open instances that have a due date; the zero date stands for none in the code as well.
- SeedTheorems.SeededWorldPassesCheck: permissions, assignee membership and data-template validation of the API are not part of the lifecycle model.
- Generator.GeneratePlan: permissions, the guard against starting twice, the audit entry and the list of applied overrides are left out; templates go by their data-set keys in place of ids.
- SeedLifecycle.RunKeepsFourEyes: rejecting a submission is not among the calls, because the seeder never rejects.
- A nil recorder, on which `Record` does nothing.
- The text form of JSON numbers and of instants, of which `AuditEncoding.FaithfulText` asks only that it tells different ones apart, and 64-bit overflow of counters and sequence numbers.
- The numeric pattern for tax data: a key is absent, or holds a real number, 0 when it is not numeric.
- UUID notations other than the hyphenated one, and transactions of a tenant id in upper case: tenants are compared as texts, and such a transaction writes nothing in the runs considered.
- Period dates, date offsets, weekend adjustment and time zones: the packages that define them are represented by arbitrary functions.
- `applyDeviations`, which overlays statuses and dates on planned instances field by field.
- The raw export, the penalty and interest column, and the cap on heatmap cells: straightforward filters and formatting.
- The text and CSV documents the seeder uploads.
- The exported audit segments beyond the recipe they publish, the HTTP client, multipart bodies, JSON decoding, console output and error texts.
- Goroutine scheduling and blocking: only the order of statements of concurrent transactions is modelled.
