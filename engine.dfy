/**
 * The audit engine (class `AuditEngine` of audit_engine.py): the six
 * category audits, the failed-category result and the overall score. Each
 * category's result is first defined as a function of the threshold table
 * and the fetched records; the engine's methods compute the same results
 * step by step and are proved equal to those functions.
 */
module Engine {
  import opened Wrappers
  import opened Json
  import opened Rounding
  import opened Scoring
  import opened Extraction
  import opened Advice
  import opened Results

  /**
   * The record lists the HubSpot service hands to the engine. Each fetcher
   * is assumed to return a list; a non-list payload (which fails or
   * miscounts the category in Python) is not modelled.
   */
  datatype Gateway = Gateway(
    users: seq<Value>,
    integrations: seq<Value>,
    contactProperties: seq<Value>,
    companyProperties: seq<Value>,
    dealProperties: seq<Value>,
    workflows: seq<Value>,
    forms: seq<Value>,
    dashboards: seq<Value>,
    reports: seq<Value>,
    pipelines: seq<Value>)

  /** `_empty_category_result`: the result of a category whose audit raised. */
  function EmptyCategoryResult(): (r: CategoryResult)
    ensures r.score == 0.0 && r.grade == F && r.grade == ScoreToGrade(r.score)
    ensures r.metrics == NoMetrics
    ensures |r.recommendations| == 1 && |r.criticalIssues| == 1
  {
    CategoryResult(0.0, F, NoMetrics, [UnableToAudit], [AuditFailed])
  }

  /**
   * What every category result satisfies: either it is the failed result, or
   * its score is a tier score, its grade is the ladder's grade for that score
   * and it names at most one critical issue.
   */
  predicate Graded(r: CategoryResult) {
    && r.grade == ScoreToGrade(r.score)
    && |r.criticalIssues| <= 1
    && (r.score == 0.0 ==> r == EmptyCategoryResult())
    && (r.score != 0.0 ==> IsTierScore(r.score) && !r.metrics.NoMetrics?)
  }

  /** A tier score is graded A, B or D, never C or F. */
  lemma TierGrades(score: real)
    requires IsTierScore(score)
    ensures ScoreToGrade(score) in {A, B, D}
    ensures score == 5.0 ==> ScoreToGrade(score) == A
    ensures score == 3.5 ==> ScoreToGrade(score) == B
    ensures score == 2.0 ==> ScoreToGrade(score) == D
  {
  }

  // ---- The six categories ----

  /** `_audit_admin_setup` */
  function AdminAudit(t: Thresholds, users: seq<Value>, integrations: seq<Value>): (r: CategoryResult)
    ensures Graded(r)
    ensures r.score == 0.0 <==> ExtractAdmin(users, integrations).None?
    ensures r.score != 0.0 ==> r.metrics == Admin(ExtractAdmin(users, integrations).value)
  {
    match ExtractAdmin(users, integrations)
    case None => EmptyCategoryResult()
    case Some(m) =>
      AdminCriticalExclusive(m);
      var score := AdminScore(t.admin, m);
      CategoryResult(score, ScoreToGrade(score), Admin(m),
        Fired(AdminRecommendationRules(m)), Fired(AdminCriticalRules(m)))
  }

  /** `_audit_properties` */
  function PropertiesAudit(t: Thresholds, contact: seq<Value>, company: seq<Value>, deal: seq<Value>): (r: CategoryResult)
    ensures Graded(r)
    ensures r.score == 0.0 <==> ExtractProperties(contact, company, deal).None?
    ensures r.score != 0.0 ==> r.metrics == Properties(ExtractProperties(contact, company, deal).value)
  {
    match ExtractProperties(contact, company, deal)
    case None => EmptyCategoryResult()
    case Some(m) =>
      var score := PropertiesScore(t.properties, m);
      CategoryResult(score, ScoreToGrade(score), Properties(m),
        Fired(PropertiesRecommendationRules(m)), Fired(PropertiesCriticalRules(m)))
  }

  /** `_audit_workflows` */
  function WorkflowsAudit(t: Thresholds, workflows: seq<Value>): (r: CategoryResult)
    ensures Graded(r)
    ensures r.score == 0.0 <==> ExtractWorkflows(workflows).None?
    ensures r.score != 0.0 ==> r.metrics == Workflows(ExtractWorkflows(workflows).value)
  {
    match ExtractWorkflows(workflows)
    case None => EmptyCategoryResult()
    case Some(m) =>
      var score := WorkflowsScore(t.workflows, m);
      CategoryResult(score, ScoreToGrade(score), Workflows(m),
        Fired(WorkflowsRecommendationRules(m)), Fired(WorkflowsCriticalRules(m)))
  }

  /** `_audit_forms` */
  function FormsAudit(t: Thresholds, forms: seq<Value>): (r: CategoryResult)
    ensures Graded(r)
    ensures r.score == 0.0 <==> ExtractForms(forms).None?
    ensures r.score != 0.0 ==> r.metrics == Forms(ExtractForms(forms).value)
  {
    match ExtractForms(forms)
    case None => EmptyCategoryResult()
    case Some(m) =>
      var score := FormsScore(t.forms, m);
      CategoryResult(score, ScoreToGrade(score), Forms(m),
        Fired(FormsRecommendationRules(m)), Fired(FormsCriticalRules(m)))
  }

  /** `_audit_reporting` */
  function ReportingAudit(t: Thresholds, dashboards: seq<Value>, reports: seq<Value>): (r: CategoryResult)
    ensures Graded(r)
    ensures r.score == 0.0 <==> ExtractReporting(dashboards, reports).None?
    ensures r.score != 0.0 ==> r.metrics == Reporting(ExtractReporting(dashboards, reports).value)
  {
    match ExtractReporting(dashboards, reports)
    case None => EmptyCategoryResult()
    case Some(m) =>
      var score := ReportingScore(t.reporting, m);
      CategoryResult(score, ScoreToGrade(score), Reporting(m),
        Fired(ReportingRecommendationRules(m)), Fired(ReportingCriticalRules(m)))
  }

  /** `_audit_sales`: it only counts pipelines, so it never fails. */
  function SalesAudit(t: Thresholds, pipelines: seq<Value>): (r: CategoryResult)
    ensures Graded(r)
    ensures r.score != 0.0
    ensures r.metrics == Sales(ExtractSales(pipelines))
  {
    var m := ExtractSales(pipelines);
    var score := SalesScore(t.sales, m);
    CategoryResult(score, ScoreToGrade(score), Sales(m),
      Fired(SalesRecommendationRules(m)), Fired(SalesCriticalRules(m)))
  }

  // ---- Overall ----

  function Sum(xs: seq<real>): real {
    if xs == [] then 0.0 else Sum(xs[..|xs| - 1]) + xs[|xs| - 1]
  }

  /** A sum of values inside `[lo, hi]` lies between `|xs| * lo` and `|xs| * hi`. */
  lemma {:induction false} SumBounds(xs: seq<real>, lo: real, hi: real)
    requires forall i :: 0 <= i < |xs| ==> lo <= xs[i] <= hi
    ensures |xs| as real * lo <= Sum(xs) <= |xs| as real * hi
  {
    if xs != [] {
      SumBounds(xs[..|xs| - 1], lo, hi);
    }
  }

  /** `round(sum(scores) / len(scores), 1)` */
  function OverallScore(scores: seq<real>): real
    requires |scores| > 0
  {
    Round1(Sum(scores) / |scores| as real)
  }

  /** The overall score of scores in `[0, 5]` is in `[0, 5]`. */
  lemma OverallScoreBounds(scores: seq<real>)
    requires |scores| > 0
    requires forall i :: 0 <= i < |scores| ==> 0.0 <= scores[i] <= 5.0
    ensures 0.0 <= OverallScore(scores) <= 5.0
  {
    SumBounds(scores, 0.0, 5.0);
    Round1Within(Sum(scores) / |scores| as real, 0, 50);
  }

  /** Every category score is 0 or a tier score, so every mean of them lies in `[0, 5]`. */
  lemma CategoryScoresBounds(r: AuditResults)
    requires Graded(r.admin) && Graded(r.properties) && Graded(r.workflows)
    requires Graded(r.forms) && Graded(r.reporting) && Graded(r.sales)
    ensures 0.0 <= OverallScore(CategoryScores(r)) <= 5.0
  {
    OverallScoreBounds(CategoryScores(r));
  }

  /** What every results dictionary of the engine satisfies. */
  predicate ConsistentResults(r: AuditResults) {
    && Graded(r.admin) && Graded(r.properties) && Graded(r.workflows)
    && Graded(r.forms) && Graded(r.reporting) && Graded(r.sales)
    && r.overallScore == OverallScore(CategoryScores(r))
    && r.overallGrade == ScoreToGrade(r.overallScore)
  }

  /** `run_full_audit` */
  function FullAudit(t: Thresholds, g: Gateway): (r: AuditResults)
    ensures r.admin == AdminAudit(t, g.users, g.integrations)
    ensures r.properties == PropertiesAudit(t, g.contactProperties, g.companyProperties, g.dealProperties)
    ensures r.workflows == WorkflowsAudit(t, g.workflows)
    ensures r.forms == FormsAudit(t, g.forms)
    ensures r.reporting == ReportingAudit(t, g.dashboards, g.reports)
    ensures r.sales == SalesAudit(t, g.pipelines)
    ensures ConsistentResults(r)
    ensures 0.0 <= r.overallScore <= 5.0
  {
    var admin := AdminAudit(t, g.users, g.integrations);
    var properties := PropertiesAudit(t, g.contactProperties, g.companyProperties, g.dealProperties);
    var workflows := WorkflowsAudit(t, g.workflows);
    var forms := FormsAudit(t, g.forms);
    var reporting := ReportingAudit(t, g.dashboards, g.reports);
    var sales := SalesAudit(t, g.pipelines);
    var categories := AuditResults(admin, properties, workflows, forms, reporting, sales, 0.0, F);
    CategoryScoresBounds(categories);
    var overall := OverallScore(CategoryScores(categories));
    assert CategoryScores(categories.(overallScore := overall, overallGrade := ScoreToGrade(overall))) == CategoryScores(categories);
    categories.(overallScore := overall, overallGrade := ScoreToGrade(overall))
  }

  /** The engine: a service to fetch from and the threshold table, both fixed at construction. */
  class AuditEngine {
    const hubspot: Gateway
    const scoringThresholds: Thresholds

    constructor(hubspot: Gateway)
      ensures this.hubspot == hubspot
      ensures scoringThresholds == DefaultThresholds
    {
      this.hubspot := hubspot;
      scoringThresholds := DefaultThresholds;
    }

    method AuditAdminSetup() returns (r: CategoryResult)
      ensures r == AdminAudit(scoringThresholds, hubspot.users, hubspot.integrations)
    {
      match ExtractAdmin(hubspot.users, hubspot.integrations)
      case None =>
        r := EmptyCategoryResult();
      case Some(m) =>
        var score := AdminScore(scoringThresholds.admin, m);
        var recommendations := GetAdminRecommendations(m);
        var issues := GetAdminCriticalIssues(m);
        r := CategoryResult(score, ScoreToGrade(score), Admin(m), recommendations, issues);
    }

    method AuditProperties() returns (r: CategoryResult)
      ensures r == PropertiesAudit(scoringThresholds, hubspot.contactProperties, hubspot.companyProperties, hubspot.dealProperties)
    {
      match ExtractProperties(hubspot.contactProperties, hubspot.companyProperties, hubspot.dealProperties)
      case None =>
        r := EmptyCategoryResult();
      case Some(m) =>
        var score := PropertiesScore(scoringThresholds.properties, m);
        var recommendations := GetPropertiesRecommendations(m);
        var issues := GetPropertiesCriticalIssues(m);
        r := CategoryResult(score, ScoreToGrade(score), Properties(m), recommendations, issues);
    }

    method AuditWorkflows() returns (r: CategoryResult)
      ensures r == WorkflowsAudit(scoringThresholds, hubspot.workflows)
    {
      match ExtractWorkflows(hubspot.workflows)
      case None =>
        r := EmptyCategoryResult();
      case Some(m) =>
        var score := WorkflowsScore(scoringThresholds.workflows, m);
        var recommendations := GetWorkflowsRecommendations(m);
        var issues := GetWorkflowsCriticalIssues(m);
        r := CategoryResult(score, ScoreToGrade(score), Workflows(m), recommendations, issues);
    }

    method AuditForms() returns (r: CategoryResult)
      ensures r == FormsAudit(scoringThresholds, hubspot.forms)
    {
      match ExtractForms(hubspot.forms)
      case None =>
        r := EmptyCategoryResult();
      case Some(m) =>
        var score := FormsScore(scoringThresholds.forms, m);
        var recommendations := GetFormsRecommendations(m);
        var issues := GetFormsCriticalIssues(m);
        r := CategoryResult(score, ScoreToGrade(score), Forms(m), recommendations, issues);
    }

    method AuditReporting() returns (r: CategoryResult)
      ensures r == ReportingAudit(scoringThresholds, hubspot.dashboards, hubspot.reports)
    {
      match ExtractReporting(hubspot.dashboards, hubspot.reports)
      case None =>
        r := EmptyCategoryResult();
      case Some(m) =>
        var score := ReportingScore(scoringThresholds.reporting, m);
        var recommendations := GetReportingRecommendations(m);
        var issues := GetReportingCriticalIssues(m);
        r := CategoryResult(score, ScoreToGrade(score), Reporting(m), recommendations, issues);
    }

    method AuditSales() returns (r: CategoryResult)
      ensures r == SalesAudit(scoringThresholds, hubspot.pipelines)
    {
      var m := ExtractSales(hubspot.pipelines);
      var score := SalesScore(scoringThresholds.sales, m);
      var recommendations := GetSalesRecommendations(m);
      var issues := GetSalesCriticalIssues(m);
      r := CategoryResult(score, ScoreToGrade(score), Sales(m), recommendations, issues);
    }

    /**
     * Builds the results with `overall_score` 0 and `overall_grade` F, then
     * overwrites both from the scores of the dict-valued entries.
     */
    method RunFullAudit() returns (results: AuditResults)
      ensures results == FullAudit(scoringThresholds, hubspot)
    {
      var admin := AuditAdminSetup();
      var properties := AuditProperties();
      var workflows := AuditWorkflows();
      var forms := AuditForms();
      var reporting := AuditReporting();
      var sales := AuditSales();
      results := AuditResults(admin, properties, workflows, forms, reporting, sales, 0.0, F);
      var scores := Scores(ToEntries(results));
      ScoresOfResults(results);
      if |scores| > 0 {
        results := results.(overallScore := Round1(Sum(scores) / |scores| as real));
        results := results.(overallGrade := ScoreToGrade(results.overallScore));
      }
    }
  }
}
