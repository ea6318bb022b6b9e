/**
 * Properties of the audit engine as a whole: how failed categories weigh
 * on the overall score, which results the installed threshold table can
 * produce, and worked cases of single categories.
 */
module EngineFacts {
  import opened Wrappers
  import opened Json
  import opened Rounding
  import opened Scoring
  import opened Extraction
  import opened Advice
  import opened Results
  import opened Engine

  // ---- Overall score ----

  /** A sum of scores of at most 5 with one of them 0 is at most 5 per other score. */
  lemma {:induction false} SumWithZero(xs: seq<real>, k: nat)
    requires k < |xs| && xs[k] == 0.0
    requires forall i :: 0 <= i < |xs| ==> 0.0 <= xs[i] <= 5.0
    ensures Sum(xs) <= (|xs| - 1) as real * 5.0
  {
    var init := xs[..|xs| - 1];
    if k == |xs| - 1 {
      SumBounds(init, 0.0, 5.0);
    } else {
      SumWithZero(init, k);
    }
  }

  lemma SumSnoc(xs: seq<real>, x: real)
    ensures Sum(xs + [x]) == Sum(xs) + x
  {
    assert (xs + [x])[..|xs|] == xs;
  }

  /** Every category score of consistent results lies in `[0, 5]`. */
  lemma CategoryScoresRange(r: AuditResults)
    requires ConsistentResults(r)
    ensures forall i :: 0 <= i < 6 ==> 0.0 <= CategoryScores(r)[i] <= 5.0
  {
  }

  /**
   * A failed category still counts, with score 0, in the mean of six: the
   * overall score is then at most 4.2 and the overall grade cannot be A.
   */
  lemma FailedCategoryCapsOverall(r: AuditResults)
    requires ConsistentResults(r)
    requires 0.0 in CategoryScores(r)
    ensures r.overallScore <= 4.2
    ensures r.overallGrade != A
  {
    var scores := CategoryScores(r);
    var k :| 0 <= k < |scores| && scores[k] == 0.0;
    CategoryScoresRange(r);
    SumWithZero(scores, k);
    SumBounds(scores, 0.0, 5.0);
    assert Sum(scores) / 6.0 <= 25.0 / 6.0 < 4.2;
    Round1Within(Sum(scores) / 6.0, 0, 42);
  }

  /** When no category fails, every score is at least 2.0, so the overall grade is never F. */
  lemma AllCategoriesSucceedFloor(r: AuditResults)
    requires ConsistentResults(r)
    requires 0.0 !in CategoryScores(r)
    ensures 2.0 <= r.overallScore
    ensures r.overallGrade != F
  {
    var scores := CategoryScores(r);
    assert forall i :: 0 <= i < 6 ==> IsTierScore(scores[i]);
    SumBounds(scores, 2.0, 5.0);
    Round1Within(Sum(scores) / 6.0, 20, 50);
  }

  /**
   * One failed category among scores 5.0, 3.5, 2.0, 5.0, 3.5 gives an
   * overall 3.2 (grade C): the failure is averaged in. Averaging only the
   * five successful categories would have given 3.8 (grade B).
   */
  lemma FailedCategoryIsAveraged(r: AuditResults)
    requires ConsistentResults(r)
    requires CategoryScores(r) == [0.0, 5.0, 3.5, 2.0, 5.0, 3.5]
    ensures r.overallScore == 3.2
    ensures r.overallGrade == C
    ensures OverallScore([5.0, 3.5, 2.0, 5.0, 3.5]) == 3.8
    ensures ScoreToGrade(3.8) == B
  {
    SumOfExample();
    RoundingOfExample();
  }

  lemma SumOfExample()
    ensures Sum([0.0, 5.0, 3.5, 2.0, 5.0, 3.5]) == 19.0
    ensures Sum([5.0, 3.5, 2.0, 5.0, 3.5]) == 19.0
  {
    SumSnoc([], 0.0);
    SumSnoc([0.0], 5.0);
    SumSnoc([0.0, 5.0], 3.5);
    SumSnoc([0.0, 5.0, 3.5], 2.0);
    SumSnoc([0.0, 5.0, 3.5, 2.0], 5.0);
    SumSnoc([0.0, 5.0, 3.5, 2.0, 5.0], 3.5);
    assert [0.0] == [] + [0.0];
    assert [0.0, 5.0] == [0.0] + [5.0];
    assert [0.0, 5.0, 3.5] == [0.0, 5.0] + [3.5];
    assert [0.0, 5.0, 3.5, 2.0] == [0.0, 5.0, 3.5] + [2.0];
    assert [0.0, 5.0, 3.5, 2.0, 5.0] == [0.0, 5.0, 3.5, 2.0] + [5.0];
    assert [0.0, 5.0, 3.5, 2.0, 5.0, 3.5] == [0.0, 5.0, 3.5, 2.0, 5.0] + [3.5];
    SumSnoc([], 5.0);
    SumSnoc([5.0], 3.5);
    SumSnoc([5.0, 3.5], 2.0);
    SumSnoc([5.0, 3.5, 2.0], 5.0);
    SumSnoc([5.0, 3.5, 2.0, 5.0], 3.5);
    assert [5.0] == [] + [5.0];
    assert [5.0, 3.5] == [5.0] + [3.5];
    assert [5.0, 3.5, 2.0] == [5.0, 3.5] + [2.0];
    assert [5.0, 3.5, 2.0, 5.0] == [5.0, 3.5, 2.0] + [5.0];
    assert [5.0, 3.5, 2.0, 5.0, 3.5] == [5.0, 3.5, 2.0, 5.0] + [3.5];
  }

  /** 19/6 rounds up to 3.2 and 19/5 is exactly 3.8. */
  lemma RoundingOfExample()
    ensures Round1(19.0 / 6.0) == 3.2
    ensures Round1(19.0 / 5.0) == 3.8
  {
    assert (19.0 / 6.0 * 10.0).Floor == 31;
    assert (19.0 / 5.0 * 10.0).Floor == 38;
  }

  // ---- Critical issues and the installed table ----

  /** A fired rule table that is not empty has a rule that fires. */
  lemma SomeRuleFires(rules: seq<Rule>)
    requires Fired(rules) != []
    ensures exists i :: 0 <= i < |rules| && rules[i].fires
  {
    FiredMembership(rules, Fired(rules)[0]);
  }

  /**
   * With the installed table every critical issue comes with the poor tier:
   * no Super Admin or more than ten fail both the excellent and the good
   * user-role ranges.
   */
  lemma AdminCriticalMeansPoor(m: AdminMetrics)
    requires Fired(AdminCriticalRules(m)) != []
    ensures AdminScore(DefaultThresholds.admin, m) == 2.0
  {
    SomeRuleFires(AdminCriticalRules(m));
  }

  lemma PropertiesCriticalMeansPoor(m: PropertiesMetrics)
    requires Fired(PropertiesCriticalRules(m)) != []
    ensures PropertiesScore(DefaultThresholds.properties, m) == 2.0
  {
    SomeRuleFires(PropertiesCriticalRules(m));
  }

  lemma WorkflowsCriticalMeansPoor(m: WorkflowsMetrics)
    requires Fired(WorkflowsCriticalRules(m)) != []
    ensures WorkflowsScore(DefaultThresholds.workflows, m) == 2.0
  {
    SomeRuleFires(WorkflowsCriticalRules(m));
  }

  lemma FormsCriticalMeansPoor(m: FormsMetrics)
    requires Fired(FormsCriticalRules(m)) != []
    ensures FormsScore(DefaultThresholds.forms, m) == 2.0
  {
    SomeRuleFires(FormsCriticalRules(m));
  }

  /** Reporting and sales: the critical issue fires exactly when the score is poor. */
  lemma ReportingCriticalIffPoor(m: ReportingMetrics)
    ensures Fired(ReportingCriticalRules(m)) != [] <==> ReportingScore(DefaultThresholds.reporting, m) == 2.0
  {
    DefaultReportingPoor(m);
    FiredMembership(ReportingCriticalRules(m), NoDashboards);
  }

  lemma SalesCriticalIffPoor(m: SalesMetrics)
    requires m.unassignedDealsPercentage == UnassignedDealsPlaceholder
    ensures Fired(SalesCriticalRules(m)) != [] <==> SalesScore(DefaultThresholds.sales, m) == 2.0
  {
    DefaultSalesPoor(m);
    FiredMembership(SalesCriticalRules(m), NoPipelines);
  }

  /** A category reports a critical issue only when it failed or scored poor. */
  predicate CriticalOnlyWhenPoor(r: CategoryResult) {
    r.criticalIssues != [] ==> r.score == 0.0 || r.score == 2.0
  }

  /** With the installed table, no category graded A or B carries a critical issue. */
  lemma CriticalIssuesOnlyInPoorCategories(g: Gateway)
    ensures var r := FullAudit(DefaultThresholds, g);
      && CriticalOnlyWhenPoor(r.admin) && CriticalOnlyWhenPoor(r.properties)
      && CriticalOnlyWhenPoor(r.workflows) && CriticalOnlyWhenPoor(r.forms)
      && CriticalOnlyWhenPoor(r.reporting) && CriticalOnlyWhenPoor(r.sales)
  {
    var r := FullAudit(DefaultThresholds, g);
    if r.admin.score != 0.0 && r.admin.criticalIssues != [] {
      AdminCriticalMeansPoor(r.admin.metrics.admin);
    }
    if r.properties.score != 0.0 && r.properties.criticalIssues != [] {
      PropertiesCriticalMeansPoor(r.properties.metrics.properties);
    }
    if r.workflows.score != 0.0 && r.workflows.criticalIssues != [] {
      WorkflowsCriticalMeansPoor(r.workflows.metrics.workflows);
    }
    if r.forms.score != 0.0 && r.forms.criticalIssues != [] {
      FormsCriticalMeansPoor(r.forms.metrics.forms);
    }
    if r.reporting.score != 0.0 {
      ReportingCriticalIffPoor(r.reporting.metrics.reporting);
    }
    SalesCriticalIffPoor(r.sales.metrics.sales);
  }

  // ---- The poor row ----

  /** Two tables that agree on their excellent and good rows. */
  predicate SameDecidingRows(t: Thresholds, t': Thresholds) {
    && t.admin.excellent == t'.admin.excellent && t.admin.good == t'.admin.good
    && t.properties.excellent == t'.properties.excellent && t.properties.good == t'.properties.good
    && t.workflows.excellent == t'.workflows.excellent && t.workflows.good == t'.workflows.good
    && t.forms.excellent == t'.forms.excellent && t.forms.good == t'.forms.good
    && t.reporting.excellent == t'.reporting.excellent && t.reporting.good == t'.reporting.good
    && t.sales.excellent == t'.sales.excellent && t.sales.good == t'.sales.good
  }

  /** The poor rows of the table are never read: changing them changes no result. */
  lemma PoorRowNeverConsulted(t: Thresholds, t': Thresholds, g: Gateway)
    requires SameDecidingRows(t, t')
    ensures FullAudit(t, g) == FullAudit(t', g)
  {
  }

  // ---- Worked cases ----

  /** 8 users, 2 Super Admins and 4 enabled integrations: 5.0, grade A, nothing to recommend or flag. */
  lemma HealthyAdmin(users: seq<Value>, integrations: seq<Value>)
    requires ExtractAdmin(users, integrations).Some?
    requires ExtractAdmin(users, integrations).value.totalUsers == 8
    requires ExtractAdmin(users, integrations).value.superAdminsCount == 2
    requires ExtractAdmin(users, integrations).value.activeIntegrationsCount == 4
    ensures AdminAudit(DefaultThresholds, users, integrations).score == 5.0
    ensures AdminAudit(DefaultThresholds, users, integrations).grade == A
    ensures AdminAudit(DefaultThresholds, users, integrations).recommendations == []
    ensures AdminAudit(DefaultThresholds, users, integrations).criticalIssues == []
  {
    var m := ExtractAdmin(users, integrations).value;
    FiredNone(AdminRecommendationRules(m));
    FiredNone(AdminCriticalRules(m));
  }

  /** 30% unused custom properties: 2.0, grade D, and the clean-up recommendation. */
  lemma MostlyUnusedProperties(contact: seq<Value>, company: seq<Value>, deal: seq<Value>)
    requires ExtractProperties(contact, company, deal).Some?
    requires ExtractProperties(contact, company, deal).value.unusedPercentage == 30.0
    ensures PropertiesAudit(DefaultThresholds, contact, company, deal).score == 2.0
    ensures PropertiesAudit(DefaultThresholds, contact, company, deal).grade == D
    ensures CleanUpProperties in PropertiesAudit(DefaultThresholds, contact, company, deal).recommendations
    ensures PropertiesAudit(DefaultThresholds, contact, company, deal).criticalIssues == []
  {
    var m := ExtractProperties(contact, company, deal).value;
    DefaultPropertiesTiers(m);
    FiredMembership(PropertiesRecommendationRules(m), CleanUpProperties);
    FiredNone(PropertiesCriticalRules(m));
  }

  /** With the installed table, the properties score is poor exactly when clean-up is recommended. */
  lemma PropertiesPoorIffCleanUp(m: PropertiesMetrics)
    ensures PropertiesScore(DefaultThresholds.properties, m) == 2.0 <==> CleanUpProperties in Fired(PropertiesRecommendationRules(m))
  {
    DefaultPropertiesTiers(m);
    FiredMembership(PropertiesRecommendationRules(m), CleanUpProperties);
  }

  /** No workflows: 0% inactive, 2.0, grade D, the missing-automation issue and the more-workflows advice. */
  lemma NoWorkflowsAtAll()
    ensures WorkflowsAudit(DefaultThresholds, []).metrics.workflows.inactivePercentage == 0.0
    ensures WorkflowsAudit(DefaultThresholds, []).score == 2.0
    ensures WorkflowsAudit(DefaultThresholds, []).grade == D
    ensures WorkflowsAudit(DefaultThresholds, []).criticalIssues == [NoWorkflows]
    ensures MoreWorkflows in WorkflowsAudit(DefaultThresholds, []).recommendations
  {
    var m := ExtractWorkflows([]).value;
    FiredMembership(WorkflowsRecommendationRules(m), MoreWorkflows);
    FiredCons(WorkflowsCriticalRules(m)[0], []);
    assert WorkflowsCriticalRules(m) == [WorkflowsCriticalRules(m)[0]] + [];
  }
}
