/**
 * Metric extraction of the audit engine (the body of each `_audit_*` method
 * in audit_engine.py before scoring). Each function returns `None` exactly
 * when the Python comprehensions would raise, which makes the category fail.
 */
module Extraction {
  import opened Wrappers
  import opened Json
  import opened Seqs
  import opened Rounding
  import opened Scoring

  /** `round(part / total * 100, 1) if total > 0 else 0` */
  function Percent(part: nat, total: nat): (r: real)
    requires part <= total
    ensures 0.0 <= r <= 100.0
    ensures total == 0 ==> r == 0.0
    ensures part == 0 ==> r == 0.0
    ensures total > 0 && part == total ==> r == 100.0
  {
    if total > 0 then
      var exact := part as real / total as real * 100.0;
      Round1Within(exact, 0, 1000);
      Round1Tenths(0);
      Round1Tenths(1000);
      assert part == total ==> part as real / total as real == 1.0;
      Round1(exact)
    else
      0.0
  }

  // ---- Admin ----

  /** `user.get('superAdmin', False)` */
  predicate IsSuperAdmin(user: Record) { Truthy(Field(user, "superAdmin", Bool(false))) }

  /** `integ.get('enabled', False)` */
  predicate IsEnabled(integration: Record) { Truthy(Field(integration, "enabled", Bool(false))) }

  function EmailOf(user: Record): Value { Field(user, "email", Str("Unknown")) }

  function NameOf(integration: Record): Value { Field(integration, "name", Str("Unknown")) }

  /** Metrics of `_audit_admin_setup`. */
  function ExtractAdmin(users: seq<Value>, integrations: seq<Value>): (r: Option<AdminMetrics>)
    ensures r.None? <==>
      (exists i :: 0 <= i < |users| && !users[i].Obj?) || (exists i :: 0 <= i < |integrations| && !integrations[i].Obj?)
    ensures r.Some? ==> r.value.totalUsers == |users|
    ensures r.Some? ==> r.value.superAdminsCount <= r.value.totalUsers
    ensures r.Some? ==> |r.value.superAdminNames| == r.value.superAdminsCount
    ensures r.Some? ==> r.value.activeIntegrationsCount <= |integrations|
    ensures r.Some? ==> |r.value.integrationNames| == r.value.activeIntegrationsCount
  {
    match (Records(users), Records(integrations))
    case (Some(us), Some(ins)) =>
      var admins := Filter(us, IsSuperAdmin);
      var active := Filter(ins, IsEnabled);
      Some(AdminMetrics(
        totalUsers := |us|,
        superAdminsCount := |admins|,
        activeIntegrationsCount := |active|,
        superAdminNames := seq(|admins|, i requires 0 <= i < |admins| => EmailOf(admins[i])),
        integrationNames := seq(|active|, i requires 0 <= i < |active| => NameOf(active[i]))))
    case _ => None
  }

  // ---- Properties ----

  /** `not prop.get('hubspotDefined', True)` */
  predicate IsCustom(prop: Record) { !Truthy(Field(prop, "hubspotDefined", Bool(true))) }

  /** `prop.get('calculated', False) or not prop.get('hasUniqueValue', True)` */
  predicate LooksUnused(prop: Record) {
    Truthy(Field(prop, "calculated", Bool(false))) || !Truthy(Field(prop, "hasUniqueValue", Bool(true)))
  }

  /** `len([p for p in props if needle in p.get('objectType', '')])`, or `None` when an `in` raises. */
  function CountObjectType(props: seq<Record>, needle: string): (r: Option<nat>)
    ensures r.Some? ==> r.value <= |props|
    ensures r.None? <==> exists i :: 0 <= i < |props| && In(needle, Field(props[i], "objectType", Str(""))).None?
  {
    if props == [] then Some(0)
    else
      match (In(needle, Field(props[0], "objectType", Str(""))), CountObjectType(props[1..], needle))
      case (Some(hit), Some(rest)) => Some((if hit then 1 else 0) + rest)
      case (None, _) => None
      case (_, None) => assert forall i :: 0 <= i < |props| - 1 ==> props[1..][i] == props[i + 1]; None
  }

  /** Metrics of `_audit_properties` over the contact, company and deal properties. */
  function ExtractProperties(contact: seq<Value>, company: seq<Value>, deal: seq<Value>): (r: Option<PropertiesMetrics>)
    ensures r.Some? ==> r.value.unusedPropertiesCount <= r.value.totalCustomProperties <= |contact| + |company| + |deal|
    ensures r.Some? ==> 0.0 <= r.value.unusedPercentage <= 100.0
    ensures r.Some? && r.value.totalCustomProperties == 0 ==> r.value.unusedPercentage == 0.0
    ensures r.Some? ==> r.value.contactProperties <= r.value.totalCustomProperties
    ensures r.Some? ==> r.value.companyProperties <= r.value.totalCustomProperties
    ensures r.Some? ==> r.value.dealProperties <= r.value.totalCustomProperties
    ensures (exists i :: 0 <= i < |contact + company + deal| && !(contact + company + deal)[i].Obj?) ==> r.None?
  {
    match Records(contact + company + deal)
    case None => None
    case Some(all) =>
      var custom := Filter(all, IsCustom);
      var unused := Filter(custom, LooksUnused);
      match (CountObjectType(custom, "contact"), CountObjectType(custom, "company"), CountObjectType(custom, "deal"))
      case (Some(c), Some(co), Some(d)) =>
        Some(PropertiesMetrics(
          totalCustomProperties := |custom|,
          unusedPropertiesCount := |unused|,
          unusedPercentage := Percent(|unused|, |custom|),
          contactProperties := c,
          companyProperties := co,
          dealProperties := d))
      case _ => None
  }

  // ---- Workflows ----

  /** `wf.get('enabled', False)` */
  predicate IsActive(workflow: Record) { Truthy(Field(workflow, "enabled", Bool(false))) }

  /** The substrings that mark a workflow name as possibly redundant. */
  const RedundantPatterns: seq<string> := ["test", "backup", "copy", "old", "temp"]

  /** `any(pattern in name for pattern in redundant_patterns)` */
  predicate LooksRedundant(name: string) {
    exists k | 0 <= k < |RedundantPatterns| :: IsSubstring(RedundantPatterns[k], name)
  }

  /** `[wf.get('name', '').lower() for wf in workflows]`, or `None` when a name is not a string. */
  function LowerNames(workflows: seq<Record>): (r: Option<seq<string>>)
    ensures r.Some? ==> |r.value| == |workflows|
    ensures r.None? <==> exists i :: 0 <= i < |workflows| && !Field(workflows[i], "name", Str("")).Str?
  {
    if forall i :: 0 <= i < |workflows| ==> Field(workflows[i], "name", Str("")).Str? then
      Some(seq(|workflows|, i requires 0 <= i < |workflows| => AsciiLower(Field(workflows[i], "name", Str("")).s)))
    else
      None
  }

  /** Metrics of `_audit_workflows`. */
  function ExtractWorkflows(workflows: seq<Value>): (r: Option<WorkflowsMetrics>)
    ensures r.Some? ==> r.value.totalWorkflows == |workflows|
    ensures r.Some? ==> r.value.activeWorkflows + r.value.inactiveWorkflows == r.value.totalWorkflows
    ensures r.Some? ==> 0.0 <= r.value.inactivePercentage <= 100.0
    ensures r.Some? && r.value.totalWorkflows == 0 ==> r.value.inactivePercentage == 0.0
    ensures r.Some? ==> r.value.potentiallyRedundant <= r.value.totalWorkflows
    ensures workflows == [] ==> r.Some?
  {
    match Records(workflows)
    case None => None
    case Some(wfs) =>
      match LowerNames(wfs)
      case None => None
      case Some(names) =>
        var active := Filter(wfs, IsActive);
        var inactive := Reject(wfs, IsActive);
        FilterRejectPartition(wfs, IsActive);
        Some(WorkflowsMetrics(
          totalWorkflows := |wfs|,
          activeWorkflows := |active|,
          inactiveWorkflows := |inactive|,
          inactivePercentage := Percent(|inactive|, |wfs|),
          potentiallyRedundant := |Filter(names, LooksRedundant)|))
  }

  // ---- Forms ----

  /** `form.get('isPublished', False)` */
  predicate IsPublished(form: Record) { Truthy(Field(form, "isPublished", Bool(false))) }

  /** Metrics of `_audit_forms`. */
  function ExtractForms(forms: seq<Value>): (r: Option<FormsMetrics>)
    ensures r.None? <==> exists i :: 0 <= i < |forms| && !forms[i].Obj?
    ensures r.Some? ==> r.value.totalForms == |forms|
    ensures r.Some? ==> r.value.embeddedForms + r.value.unembeddedForms == r.value.totalForms
    ensures r.Some? ==> 0.0 <= r.value.unembeddedPercentage <= 100.0
    ensures r.Some? && r.value.totalForms == 0 ==> r.value.unembeddedPercentage == 0.0
  {
    match Records(forms)
    case None => None
    case Some(fs) =>
      var embedded := Filter(fs, IsPublished);
      var unembedded := Reject(fs, IsPublished);
      FilterRejectPartition(fs, IsPublished);
      Some(FormsMetrics(
        totalForms := |fs|,
        embeddedForms := |embedded|,
        unembeddedForms := |unembedded|,
        unembeddedPercentage := Percent(|unembedded|, |fs|)))
  }

  // ---- Reporting ----

  /** `not report.get('isHubSpotDefined', True)` */
  predicate IsCustomReport(report: Record) { !Truthy(Field(report, "isHubSpotDefined", Bool(true))) }

  /** Metrics of `_audit_reporting`; dashboards are only counted. */
  function ExtractReporting(dashboards: seq<Value>, reports: seq<Value>): (r: Option<ReportingMetrics>)
    ensures r.None? <==> exists i :: 0 <= i < |reports| && !reports[i].Obj?
    ensures r.Some? ==> r.value.totalDashboards == |dashboards| && r.value.totalReports == |reports|
    ensures r.Some? ==> r.value.customReports <= r.value.totalReports
  {
    match Records(reports)
    case None => None
    case Some(rs) =>
      Some(ReportingMetrics(
        totalDashboards := |dashboards|,
        totalReports := |rs|,
        customReports := |Filter(rs, IsCustomReport)|))
  }

  // ---- Sales ----

  /** The placeholder the source uses until deals are inspected. */
  const UnassignedDealsPlaceholder: real := 5.0

  /** Metrics of `_audit_sales`; pipelines are only counted, so this cannot fail. */
  function ExtractSales(pipelines: seq<Value>): (r: SalesMetrics)
    ensures r.totalPipelines == |pipelines|
    ensures r.unassignedDealsPercentage == 5.0
  {
    SalesMetrics(totalPipelines := |pipelines|, unassignedDealsPercentage := UnassignedDealsPlaceholder)
  }
}
