/**
 * The scorer of the audit engine (audit_engine.py): the fixed threshold
 * table, the metric records each category produces, the per-category
 * three-tier scores and the score-to-grade ladder.
 */
module Scoring {
  import opened Json

  /** An upper end of a threshold range; `Unbounded` is `float('inf')`. */
  datatype Bound = Finite(value: real) | Unbounded

  /** A threshold range `(low, high)` of the table. */
  datatype Band = Band(low: real, high: Bound)

  /** `band[0] <= x`, the lower end as the score functions read it. */
  predicate AtLeast(x: real, band: Band) {
    band.low <= x
  }

  /** `x <= band[1]`, always true against an infinite end. */
  predicate AtMost(x: real, band: Band) {
    band.high.Unbounded? || x <= band.high.value
  }

  /** `band[0] <= x <= band[1]` */
  predicate Within(x: real, band: Band) {
    AtLeast(x, band) && AtMost(x, band)
  }

  /** The three rows of a category's table. */
  datatype Tiers<B> = Tiers(excellent: B, good: B, poor: B)

  datatype AdminBands = AdminBands(users: Band, superAdmins: Band, integrations: Band)
  datatype PropertiesBands = PropertiesBands(unusedPercentage: Band)
  datatype WorkflowsBands = WorkflowsBands(total: Band, inactivePercentage: Band)
  datatype FormsBands = FormsBands(total: Band, unembeddedPercentage: Band)
  datatype ReportingBands = ReportingBands(dashboards: Band, customReports: Band)
  datatype SalesBands = SalesBands(pipelines: Band, unassignedDealsPercentage: Band)

  /** `scoring_thresholds`: one table per category. */
  datatype Thresholds = Thresholds(
    admin: Tiers<AdminBands>,
    properties: Tiers<PropertiesBands>,
    workflows: Tiers<WorkflowsBands>,
    forms: Tiers<FormsBands>,
    reporting: Tiers<ReportingBands>,
    sales: Tiers<SalesBands>)

  function Range(low: real, high: real): Band { Band(low, Finite(high)) }
  function RangeFrom(low: real): Band { Band(low, Unbounded) }

  /** The table the engine's constructor installs; it is never changed afterwards. */
  const DefaultThresholds: Thresholds := Thresholds(
    admin := Tiers(
      AdminBands(Range(1.0, 10.0), Range(1.0, 3.0), RangeFrom(3.0)),
      AdminBands(Range(11.0, 25.0), Range(4.0, 5.0), Range(1.0, 2.0)),
      AdminBands(RangeFrom(26.0), RangeFrom(6.0), Range(0.0, 0.0))),
    properties := Tiers(
      PropertiesBands(Range(0.0, 10.0)),
      PropertiesBands(Range(11.0, 25.0)),
      PropertiesBands(RangeFrom(26.0))),
    workflows := Tiers(
      WorkflowsBands(RangeFrom(5.0), Range(0.0, 10.0)),
      WorkflowsBands(Range(2.0, 4.0), Range(11.0, 25.0)),
      WorkflowsBands(Range(0.0, 1.0), RangeFrom(26.0))),
    forms := Tiers(
      FormsBands(RangeFrom(3.0), Range(0.0, 20.0)),
      FormsBands(Range(1.0, 2.0), Range(21.0, 40.0)),
      FormsBands(Range(0.0, 0.0), RangeFrom(41.0))),
    reporting := Tiers(
      ReportingBands(RangeFrom(2.0), RangeFrom(1.0)),
      ReportingBands(Range(1.0, 1.0), Range(0.0, 0.0)),
      ReportingBands(Range(0.0, 0.0), Range(0.0, 0.0))),
    sales := Tiers(
      SalesBands(RangeFrom(2.0), Range(0.0, 5.0)),
      SalesBands(Range(1.0, 1.0), Range(6.0, 15.0)),
      SalesBands(Range(0.0, 0.0), RangeFrom(16.0))))

  // ---- Metrics ----

  datatype AdminMetrics = AdminMetrics(
    totalUsers: nat, superAdminsCount: nat, activeIntegrationsCount: nat,
    superAdminNames: seq<Value>, integrationNames: seq<Value>)

  datatype PropertiesMetrics = PropertiesMetrics(
    totalCustomProperties: nat, unusedPropertiesCount: nat, unusedPercentage: real,
    contactProperties: nat, companyProperties: nat, dealProperties: nat)

  datatype WorkflowsMetrics = WorkflowsMetrics(
    totalWorkflows: nat, activeWorkflows: nat, inactiveWorkflows: nat,
    inactivePercentage: real, potentiallyRedundant: nat)

  datatype FormsMetrics = FormsMetrics(
    totalForms: nat, embeddedForms: nat, unembeddedForms: nat, unembeddedPercentage: real)

  datatype ReportingMetrics = ReportingMetrics(totalDashboards: nat, totalReports: nat, customReports: nat)

  datatype SalesMetrics = SalesMetrics(totalPipelines: nat, unassignedDealsPercentage: real)

  /** The `metrics` dict of a category result; `NoMetrics` is the `{}` of a failed category. */
  datatype Metrics =
    | NoMetrics
    | Admin(admin: AdminMetrics)
    | Properties(properties: PropertiesMetrics)
    | Workflows(workflows: WorkflowsMetrics)
    | Forms(forms: FormsMetrics)
    | Reporting(reporting: ReportingMetrics)
    | Sales(sales: SalesMetrics)

  // ---- Tier tests, as each `_calculate_*_score` reads the table ----

  predicate AdminExcellent(b: AdminBands, m: AdminMetrics) {
    && Within(m.totalUsers as real, b.users)
    && Within(m.superAdminsCount as real, b.superAdmins)
    && AtLeast(m.activeIntegrationsCount as real, b.integrations)
  }

  predicate AdminGood(b: AdminBands, m: AdminMetrics) {
    && Within(m.totalUsers as real, b.users)
    && Within(m.superAdminsCount as real, b.superAdmins)
    && Within(m.activeIntegrationsCount as real, b.integrations)
  }

  predicate PropertiesMeets(b: PropertiesBands, m: PropertiesMetrics) {
    AtMost(m.unusedPercentage, b.unusedPercentage)
  }

  predicate WorkflowsExcellent(b: WorkflowsBands, m: WorkflowsMetrics) {
    AtLeast(m.totalWorkflows as real, b.total) && AtMost(m.inactivePercentage, b.inactivePercentage)
  }

  predicate WorkflowsGood(b: WorkflowsBands, m: WorkflowsMetrics) {
    Within(m.totalWorkflows as real, b.total) && AtMost(m.inactivePercentage, b.inactivePercentage)
  }

  predicate FormsExcellent(b: FormsBands, m: FormsMetrics) {
    AtLeast(m.totalForms as real, b.total) && AtMost(m.unembeddedPercentage, b.unembeddedPercentage)
  }

  predicate FormsGood(b: FormsBands, m: FormsMetrics) {
    Within(m.totalForms as real, b.total) && AtMost(m.unembeddedPercentage, b.unembeddedPercentage)
  }

  predicate ReportingMeets(b: ReportingBands, m: ReportingMetrics) {
    AtLeast(m.totalDashboards as real, b.dashboards) && AtLeast(m.customReports as real, b.customReports)
  }

  predicate SalesMeets(b: SalesBands, m: SalesMetrics) {
    AtLeast(m.totalPipelines as real, b.pipelines) && AtMost(m.unassignedDealsPercentage, b.unassignedDealsPercentage)
  }

  /** A score of the tier scale: excellent, good, or anything else. */
  predicate IsTierScore(score: real) {
    score == 5.0 || score == 3.5 || score == 2.0
  }

  /**
   * The three-tier rule shared by every category: 5.0 when the excellent
   * row matches, else 3.5 when the good row matches, else 2.0. The poor
   * row is never consulted.
   */
  function TierScore(excellent: bool, good: bool): (score: real)
    ensures IsTierScore(score)
    ensures score == 5.0 <==> excellent
    ensures score == 3.5 <==> !excellent && good
    ensures score == 2.0 <==> !excellent && !good
  {
    if excellent then 5.0 else if good then 3.5 else 2.0
  }

  /** `_calculate_admin_score`: 5.0 when the excellent row matches, 3.5 when only the good row does, 2.0 otherwise. */
  function AdminScore(t: Tiers<AdminBands>, m: AdminMetrics): (score: real)
    ensures IsTierScore(score)
    ensures score == 5.0 <==> AdminExcellent(t.excellent, m)
    ensures score == 3.5 <==> !AdminExcellent(t.excellent, m) && AdminGood(t.good, m)
  {
    TierScore(AdminExcellent(t.excellent, m), AdminGood(t.good, m))
  }

  /** `_calculate_properties_score`: 5.0 when the excellent row matches, 3.5 when only the good row does, 2.0 otherwise. */
  function PropertiesScore(t: Tiers<PropertiesBands>, m: PropertiesMetrics): (score: real)
    ensures IsTierScore(score)
    ensures score == 5.0 <==> PropertiesMeets(t.excellent, m)
    ensures score == 3.5 <==> !PropertiesMeets(t.excellent, m) && PropertiesMeets(t.good, m)
  {
    TierScore(PropertiesMeets(t.excellent, m), PropertiesMeets(t.good, m))
  }

  /** `_calculate_workflows_score`: 5.0 when the excellent row matches, 3.5 when only the good row does, 2.0 otherwise. */
  function WorkflowsScore(t: Tiers<WorkflowsBands>, m: WorkflowsMetrics): (score: real)
    ensures IsTierScore(score)
    ensures score == 5.0 <==> WorkflowsExcellent(t.excellent, m)
    ensures score == 3.5 <==> !WorkflowsExcellent(t.excellent, m) && WorkflowsGood(t.good, m)
  {
    TierScore(WorkflowsExcellent(t.excellent, m), WorkflowsGood(t.good, m))
  }

  /** `_calculate_forms_score`: 5.0 when the excellent row matches, 3.5 when only the good row does, 2.0 otherwise. */
  function FormsScore(t: Tiers<FormsBands>, m: FormsMetrics): (score: real)
    ensures IsTierScore(score)
    ensures score == 5.0 <==> FormsExcellent(t.excellent, m)
    ensures score == 3.5 <==> !FormsExcellent(t.excellent, m) && FormsGood(t.good, m)
  {
    TierScore(FormsExcellent(t.excellent, m), FormsGood(t.good, m))
  }

  /** `_calculate_reporting_score`: 5.0 when the excellent row matches, 3.5 when only the good row does, 2.0 otherwise. */
  function ReportingScore(t: Tiers<ReportingBands>, m: ReportingMetrics): (score: real)
    ensures IsTierScore(score)
    ensures score == 5.0 <==> ReportingMeets(t.excellent, m)
    ensures score == 3.5 <==> !ReportingMeets(t.excellent, m) && ReportingMeets(t.good, m)
  {
    TierScore(ReportingMeets(t.excellent, m), ReportingMeets(t.good, m))
  }

  /** `_calculate_sales_score`: 5.0 when the excellent row matches, 3.5 when only the good row does, 2.0 otherwise. */
  function SalesScore(t: Tiers<SalesBands>, m: SalesMetrics): (score: real)
    ensures IsTierScore(score)
    ensures score == 5.0 <==> SalesMeets(t.excellent, m)
    ensures score == 3.5 <==> !SalesMeets(t.excellent, m) && SalesMeets(t.good, m)
  {
    TierScore(SalesMeets(t.excellent, m), SalesMeets(t.good, m))
  }

  // ---- Grades ----

  datatype Grade = A | B | C | D | F {
    /** The letter as the results dictionary holds it. */
    function Letter(): string {
      match this
      case A => "A"
      case B => "B"
      case C => "C"
      case D => "D"
      case F => "F"
    }

    /** F is 0, A is 4: a higher rank is a better grade. */
    function Rank(): nat {
      match this
      case F => 0
      case D => 1
      case C => 2
      case B => 3
      case A => 4
    }
  }

  /** `_score_to_grade`: the fixed ladder 4.5 / 3.5 / 2.5 / 1.5. */
  function ScoreToGrade(score: real): (g: Grade)
    ensures g == A <==> score >= 4.5
    ensures g == B <==> 3.5 <= score < 4.5
    ensures g == C <==> 2.5 <= score < 3.5
    ensures g == D <==> 1.5 <= score < 2.5
    ensures g == F <==> score < 1.5
  {
    if score >= 4.5 then A
    else if score >= 3.5 then B
    else if score >= 2.5 then C
    else if score >= 1.5 then D
    else F
  }

  // ---- Properties of the ladder and the tiers ----

  /** A higher score never gets a worse grade. */
  lemma GradeMonotone(score: real, score': real)
    requires score <= score'
    ensures ScoreToGrade(score).Rank() <= ScoreToGrade(score').Rank()
  {
  }

  /** Weakening both tier tests never raises the score. */
  lemma TierScoreMonotone(excellent: bool, good: bool, excellent': bool, good': bool)
    requires excellent' ==> excellent
    requires good' ==> good
    ensures TierScore(excellent', good') <= TierScore(excellent, good)
  {
  }

  /** Under any table, more unused properties never raise the properties score. */
  lemma PropertiesScoreAntitone(t: Tiers<PropertiesBands>, m: PropertiesMetrics, m': PropertiesMetrics)
    requires m.unusedPercentage <= m'.unusedPercentage
    ensures PropertiesScore(t, m') <= PropertiesScore(t, m)
  {
    TierScoreMonotone(PropertiesMeets(t.excellent, m), PropertiesMeets(t.good, m),
                      PropertiesMeets(t.excellent, m'), PropertiesMeets(t.good, m'));
  }

  /** Under any table, with the workflow count fixed, more inactive workflows never raise the score. */
  lemma WorkflowsScoreAntitone(t: Tiers<WorkflowsBands>, m: WorkflowsMetrics, m': WorkflowsMetrics)
    requires m.totalWorkflows == m'.totalWorkflows
    requires m.inactivePercentage <= m'.inactivePercentage
    ensures WorkflowsScore(t, m') <= WorkflowsScore(t, m)
  {
    TierScoreMonotone(WorkflowsExcellent(t.excellent, m), WorkflowsGood(t.good, m),
                      WorkflowsExcellent(t.excellent, m'), WorkflowsGood(t.good, m'));
  }

  /** Under any table, with the form count fixed, more unembedded forms never raise the score. */
  lemma FormsScoreAntitone(t: Tiers<FormsBands>, m: FormsMetrics, m': FormsMetrics)
    requires m.totalForms == m'.totalForms
    requires m.unembeddedPercentage <= m'.unembeddedPercentage
    ensures FormsScore(t, m') <= FormsScore(t, m)
  {
    TierScoreMonotone(FormsExcellent(t.excellent, m), FormsGood(t.good, m),
                      FormsExcellent(t.excellent, m'), FormsGood(t.good, m'));
  }

  /** Under any table, more dashboards and more custom reports never lower the reporting score. */
  lemma ReportingScoreMonotone(t: Tiers<ReportingBands>, m: ReportingMetrics, m': ReportingMetrics)
    requires m.totalDashboards <= m'.totalDashboards && m.customReports <= m'.customReports
    ensures ReportingScore(t, m) <= ReportingScore(t, m')
  {
    TierScoreMonotone(ReportingMeets(t.excellent, m'), ReportingMeets(t.good, m'),
                      ReportingMeets(t.excellent, m), ReportingMeets(t.good, m));
  }

  /** Under any table, more pipelines and fewer unassigned deals never lower the sales score. */
  lemma SalesScoreMonotone(t: Tiers<SalesBands>, m: SalesMetrics, m': SalesMetrics)
    requires m.totalPipelines <= m'.totalPipelines
    requires m'.unassignedDealsPercentage <= m.unassignedDealsPercentage
    ensures SalesScore(t, m) <= SalesScore(t, m')
  {
    TierScoreMonotone(SalesMeets(t.excellent, m'), SalesMeets(t.good, m'),
                      SalesMeets(t.excellent, m), SalesMeets(t.good, m));
  }

  /** With the installed table: 5.0 up to 10% unused, 3.5 up to 25%, 2.0 above. */
  lemma DefaultPropertiesTiers(m: PropertiesMetrics)
    ensures PropertiesScore(DefaultThresholds.properties, m) == 5.0 <==> m.unusedPercentage <= 10.0
    ensures PropertiesScore(DefaultThresholds.properties, m) == 3.5 <==> 10.0 < m.unusedPercentage <= 25.0
    ensures PropertiesScore(DefaultThresholds.properties, m) == 2.0 <==> 25.0 < m.unusedPercentage
  {
  }

  /** With the installed table, reporting is poor exactly when there is no dashboard. */
  lemma DefaultReportingPoor(m: ReportingMetrics)
    ensures ReportingScore(DefaultThresholds.reporting, m) == 2.0 <==> m.totalDashboards == 0
  {
  }

  /** With the installed table and the 5% placeholder, sales is poor exactly when there is no pipeline. */
  lemma DefaultSalesPoor(m: SalesMetrics)
    requires m.unassignedDealsPercentage == 5.0
    ensures SalesScore(DefaultThresholds.sales, m) == 2.0 <==> m.totalPipelines == 0
  {
  }

  /**
   * More integrations can lower the admin score: with 15 users and 4 Super
   * Admins, 2 integrations fall in the good row but 3 fall in neither row,
   * because the good row bounds integrations above while the excellent row
   * also bounds users.
   */
  lemma AdminScoreNotMonotoneInIntegrations()
    ensures AdminScore(DefaultThresholds.admin, AdminMetrics(15, 4, 2, [], [])) == 3.5
    ensures AdminScore(DefaultThresholds.admin, AdminMetrics(15, 4, 3, [], [])) == 2.0
  {
  }

  /**
   * More workflows can lower the workflows score: 4 workflows with one
   * inactive (25%) are good, 5 with one inactive (20%) are neither excellent
   * (over 10%) nor good (over 4 workflows).
   */
  lemma WorkflowsScoreNotMonotoneInTotal()
    ensures WorkflowsScore(DefaultThresholds.workflows, WorkflowsMetrics(4, 3, 1, 25.0, 0)) == 3.5
    ensures WorkflowsScore(DefaultThresholds.workflows, WorkflowsMetrics(5, 4, 1, 20.0, 0)) == 2.0
  {
  }
}
