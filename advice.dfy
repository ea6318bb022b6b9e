/**
 * Recommendations and critical issues of the audit engine (the
 * `_get_*_recommendations` and `_get_*_critical_issues` methods of
 * audit_engine.py). Each category has a table of independent rules; a rule
 * whose test holds contributes its fixed message, in table order. The
 * builder methods append to a local list as the source does and are proved
 * to produce exactly the messages of the rules that fire.
 */
module Advice {
  import opened Scoring

  /** One `if test: list.append(message)` of a builder. */
  datatype Rule = Rule(fires: bool, message: string)

  /** The messages of the rules that fire, in rule order. */
  function Fired(rules: seq<Rule>): (messages: seq<string>)
    ensures |messages| <= |rules|
    ensures forall m :: m in messages ==> exists i :: 0 <= i < |rules| && rules[i].message == m
  {
    if rules == [] then []
    else (if rules[0].fires then [rules[0].message] else []) + Fired(rules[1..])
  }

  /** A message is produced exactly when some rule carrying it fires. */
  lemma {:induction false} FiredMembership(rules: seq<Rule>, message: string)
    ensures message in Fired(rules) <==> exists i :: 0 <= i < |rules| && rules[i].fires && rules[i].message == message
  {
    if rules != [] {
      FiredMembership(rules[1..], message);
      assert forall i :: 1 <= i < |rules| ==> rules[i] == rules[1..][i - 1];
    }
  }

  /** Prepending a rule prepends its message when it fires. */
  lemma FiredCons(rule: Rule, rest: seq<Rule>)
    ensures Fired([rule] + rest) == (if rule.fires then [rule.message] else []) + Fired(rest)
  {
    assert ([rule] + rest)[1..] == rest;
  }

  /** No two rules of the table can fire together. */
  predicate MutuallyExclusive(rules: seq<Rule>) {
    forall i, j :: 0 <= i < j < |rules| ==> !(rules[i].fires && rules[j].fires)
  }

  /** Mutually exclusive rules give at most one message. */
  lemma {:induction false} FiredAtMostOne(rules: seq<Rule>)
    requires MutuallyExclusive(rules)
    ensures |Fired(rules)| <= 1
    ensures |Fired(rules)| == 1 <==> exists i :: 0 <= i < |rules| && rules[i].fires
  {
    if rules != [] {
      assert MutuallyExclusive(rules[1..]) by {
        forall i, j | 0 <= i < j < |rules| - 1 ensures !(rules[1..][i].fires && rules[1..][j].fires) {
          assert rules[1..][i] == rules[i + 1] && rules[1..][j] == rules[j + 1];
        }
      }
      FiredAtMostOne(rules[1..]);
      if rules[0].fires {
        assert forall j :: 1 <= j < |rules| ==> !rules[j].fires;
        FiredNone(rules[1..]);
      }
      assert forall i :: 1 <= i < |rules| ==> rules[i] == rules[1..][i - 1];
    }
  }

  /** A table in which no rule fires gives no message. */
  lemma {:induction false} FiredNone(rules: seq<Rule>)
    requires forall i :: 0 <= i < |rules| ==> !rules[i].fires
    ensures Fired(rules) == []
  {
    if rules != [] {
      FiredNone(rules[1..]);
    }
  }

  // ---- Messages ----

  const ReduceSuperAdmins := "Consider reducing the number of Super Admins for better security"
  const AddIntegrations := "Add integrations to improve data flow and automation"
  const ReviewPermissions := "Review user permissions and consider role-based access control"
  const NoSuperAdmins := "No Super Admins found - account access risk"
  const TooManySuperAdmins := "Too many Super Admins - security risk"
  const CleanUpProperties := "Clean up unused custom properties to improve data quality"
  const ConsolidateProperties := "Consider consolidating similar properties"
  const PropertiesMajorCleanup := "Over 50% of custom properties are unused - major cleanup needed"
  const MoreWorkflows := "Consider implementing more automation workflows"
  const ReviewInactiveWorkflows := "Review and activate or delete inactive workflows"
  const NoWorkflows := "No workflows found - missing automation opportunities"
  const MoreForms := "Create more forms to capture leads effectively"
  const EmbedForms := "Embed or publish more forms to maximize lead capture"
  const NoForms := "No forms found - lead capture system missing"
  const CreateDashboards := "Create dashboards for better performance monitoring"
  const BuildCustomReports := "Build custom reports for specific business insights"
  const NoDashboards := "No dashboards found - performance monitoring missing"
  const MorePipelines := "Consider creating additional pipelines for different sales processes"
  const AssignDeals := "Assign ownership to unassigned deals"
  const NoPipelines := "No sales pipelines found - sales process not configured"
  const UnableToAudit := "Unable to audit this category - please check API permissions"
  const AuditFailed := "Audit failed - API access issue"

  // ---- Rule tables ----

  function AdminRecommendationRules(m: AdminMetrics): seq<Rule> {
    [ Rule(m.superAdminsCount > 5, ReduceSuperAdmins),
      Rule(m.activeIntegrationsCount == 0, AddIntegrations),
      Rule(m.totalUsers > 50, ReviewPermissions) ]
  }

  function AdminCriticalRules(m: AdminMetrics): seq<Rule> {
    [ Rule(m.superAdminsCount == 0, NoSuperAdmins),
      Rule(m.superAdminsCount > 10, TooManySuperAdmins) ]
  }

  function PropertiesRecommendationRules(m: PropertiesMetrics): seq<Rule> {
    [ Rule(m.unusedPercentage > 25.0, CleanUpProperties),
      Rule(m.totalCustomProperties > 100, ConsolidateProperties) ]
  }

  function PropertiesCriticalRules(m: PropertiesMetrics): seq<Rule> {
    [ Rule(m.unusedPercentage > 50.0, PropertiesMajorCleanup) ]
  }

  function WorkflowsRecommendationRules(m: WorkflowsMetrics): seq<Rule> {
    [ Rule(m.totalWorkflows < 3, MoreWorkflows),
      Rule(m.inactivePercentage > 25.0, ReviewInactiveWorkflows) ]
  }

  function WorkflowsCriticalRules(m: WorkflowsMetrics): seq<Rule> {
    [ Rule(m.totalWorkflows == 0, NoWorkflows) ]
  }

  function FormsRecommendationRules(m: FormsMetrics): seq<Rule> {
    [ Rule(m.totalForms < 3, MoreForms),
      Rule(m.unembeddedPercentage > 40.0, EmbedForms) ]
  }

  function FormsCriticalRules(m: FormsMetrics): seq<Rule> {
    [ Rule(m.totalForms == 0, NoForms) ]
  }

  function ReportingRecommendationRules(m: ReportingMetrics): seq<Rule> {
    [ Rule(m.totalDashboards < 2, CreateDashboards),
      Rule(m.customReports == 0, BuildCustomReports) ]
  }

  function ReportingCriticalRules(m: ReportingMetrics): seq<Rule> {
    [ Rule(m.totalDashboards == 0, NoDashboards) ]
  }

  function SalesRecommendationRules(m: SalesMetrics): seq<Rule> {
    [ Rule(m.totalPipelines < 2, MorePipelines),
      Rule(m.unassignedDealsPercentage > 15.0, AssignDeals) ]
  }

  function SalesCriticalRules(m: SalesMetrics): seq<Rule> {
    [ Rule(m.totalPipelines == 0, NoPipelines) ]
  }

  /** Two-rule admin critical issues cannot both hold: a count is never both 0 and above 10. */
  lemma AdminCriticalExclusive(m: AdminMetrics)
    ensures MutuallyExclusive(AdminCriticalRules(m))
    ensures |Fired(AdminCriticalRules(m))| <= 1
  {
    FiredAtMostOne(AdminCriticalRules(m));
  }

  // ---- Builders ----

  method GetAdminRecommendations(m: AdminMetrics) returns (recommendations: seq<string>)
    ensures recommendations == Fired(AdminRecommendationRules(m))
  {
    recommendations := [];
    if m.superAdminsCount > 5 {
      recommendations := recommendations + [ReduceSuperAdmins];
    }
    if m.activeIntegrationsCount == 0 {
      recommendations := recommendations + [AddIntegrations];
    }
    if m.totalUsers > 50 {
      recommendations := recommendations + [ReviewPermissions];
    }
    ghost var rules := AdminRecommendationRules(m);
    FiredCons(rules[2], []);
    FiredCons(rules[1], [rules[2]]);
    FiredCons(rules[0], [rules[1], rules[2]]);
    assert rules == [rules[0]] + [rules[1], rules[2]];
  }

  method GetAdminCriticalIssues(m: AdminMetrics) returns (issues: seq<string>)
    ensures issues == Fired(AdminCriticalRules(m))
    ensures |issues| <= 1
  {
    issues := [];
    if m.superAdminsCount == 0 {
      issues := issues + [NoSuperAdmins];
    }
    if m.superAdminsCount > 10 {
      issues := issues + [TooManySuperAdmins];
    }
  }

  method GetPropertiesRecommendations(m: PropertiesMetrics) returns (recommendations: seq<string>)
    ensures recommendations == Fired(PropertiesRecommendationRules(m))
  {
    recommendations := [];
    if m.unusedPercentage > 25.0 {
      recommendations := recommendations + [CleanUpProperties];
    }
    if m.totalCustomProperties > 100 {
      recommendations := recommendations + [ConsolidateProperties];
    }
  }

  method GetPropertiesCriticalIssues(m: PropertiesMetrics) returns (issues: seq<string>)
    ensures issues == Fired(PropertiesCriticalRules(m))
    ensures |issues| <= 1
  {
    issues := [];
    if m.unusedPercentage > 50.0 {
      issues := issues + [PropertiesMajorCleanup];
    }
  }

  method GetWorkflowsRecommendations(m: WorkflowsMetrics) returns (recommendations: seq<string>)
    ensures recommendations == Fired(WorkflowsRecommendationRules(m))
  {
    recommendations := [];
    if m.totalWorkflows < 3 {
      recommendations := recommendations + [MoreWorkflows];
    }
    if m.inactivePercentage > 25.0 {
      recommendations := recommendations + [ReviewInactiveWorkflows];
    }
  }

  method GetWorkflowsCriticalIssues(m: WorkflowsMetrics) returns (issues: seq<string>)
    ensures issues == Fired(WorkflowsCriticalRules(m))
    ensures |issues| <= 1
  {
    issues := [];
    if m.totalWorkflows == 0 {
      issues := issues + [NoWorkflows];
    }
  }

  method GetFormsRecommendations(m: FormsMetrics) returns (recommendations: seq<string>)
    ensures recommendations == Fired(FormsRecommendationRules(m))
  {
    recommendations := [];
    if m.totalForms < 3 {
      recommendations := recommendations + [MoreForms];
    }
    if m.unembeddedPercentage > 40.0 {
      recommendations := recommendations + [EmbedForms];
    }
  }

  method GetFormsCriticalIssues(m: FormsMetrics) returns (issues: seq<string>)
    ensures issues == Fired(FormsCriticalRules(m))
    ensures |issues| <= 1
  {
    issues := [];
    if m.totalForms == 0 {
      issues := issues + [NoForms];
    }
  }

  method GetReportingRecommendations(m: ReportingMetrics) returns (recommendations: seq<string>)
    ensures recommendations == Fired(ReportingRecommendationRules(m))
  {
    recommendations := [];
    if m.totalDashboards < 2 {
      recommendations := recommendations + [CreateDashboards];
    }
    if m.customReports == 0 {
      recommendations := recommendations + [BuildCustomReports];
    }
  }

  method GetReportingCriticalIssues(m: ReportingMetrics) returns (issues: seq<string>)
    ensures issues == Fired(ReportingCriticalRules(m))
    ensures |issues| <= 1
  {
    issues := [];
    if m.totalDashboards == 0 {
      issues := issues + [NoDashboards];
    }
  }

  method GetSalesRecommendations(m: SalesMetrics) returns (recommendations: seq<string>)
    ensures recommendations == Fired(SalesRecommendationRules(m))
  {
    recommendations := [];
    if m.totalPipelines < 2 {
      recommendations := recommendations + [MorePipelines];
    }
    if m.unassignedDealsPercentage > 15.0 {
      recommendations := recommendations + [AssignDeals];
    }
  }

  method GetSalesCriticalIssues(m: SalesMetrics) returns (issues: seq<string>)
    ensures issues == Fired(SalesCriticalRules(m))
    ensures |issues| <= 1
  {
    issues := [];
    if m.totalPipelines == 0 {
      issues := issues + [NoPipelines];
    }
  }
}
