/**
 * The workflow analyzer (class `WorkflowAnalyzer` of enhanced_analyzers.py):
 * trigger-type and object-type histograms over the workflows' details, the
 * enrollment statistics of each workflow, and the two "most common" patterns.
 *
 * The details and the enrollment responses come from the HubSpot API; here
 * they are maps from a workflow id to the decoded response. Any exception in
 * the analysis resets it to the empty analysis.
 */
module WorkflowAnalysis {
  import opened Wrappers
  import opened Json
  import opened Seqs
  import opened Tally

  // ---- Enrollments ----

  /** The dict `_get_workflow_enrollments` returns when it finds results. */
  datatype EnrollmentStats = EnrollmentStats(totalEnrollments: nat, activeEnrollments: nat, completedEnrollments: nat)

  /** `e.get('status') == 'ENROLLED'` */
  predicate IsEnrolled(e: Record) { Field(e, "status", Null) == Str("ENROLLED") }

  /** `e.get('status') == 'COMPLETED'` */
  predicate IsCompleted(e: Record) { Field(e, "status", Null) == Str("COMPLETED") }

  /**
   * `_get_workflow_enrollments` on the response of the enrollments endpoint.
   * Only a dict with a `results` key gets past `data['results']` (a string or
   * list that merely contains "results" raises, and the method's own handler
   * returns `{}`); `None` stands for that `{}`.
   */
  function EnrollmentStatsOf(data: Value): (r: Option<EnrollmentStats>)
    ensures r.Some? ==> data.Obj? && "results" in data.fields
    ensures r.Some? ==> r.value.activeEnrollments + r.value.completedEnrollments <= r.value.totalEnrollments
    ensures data.Obj? && "results" in data.fields && data.fields["results"].Arr? ==>
      var results := data.fields["results"].items;
      && (r.Some? <==> forall i :: 0 <= i < |results| ==> results[i].Obj?)
      && (r.Some? ==> r.value.totalEnrollments == |results|)
  {
    if data.Obj? && "results" in data.fields then
      match RecordList(data.fields["results"])
      case None => None
      case Some(es) =>
        DisjointFilters(es, IsEnrolled, IsCompleted);
        Some(EnrollmentStats(|es|, |Filter(es, IsEnrolled)|, |Filter(es, IsCompleted)|))
    else
      None
  }

  // ---- One workflow ----

  /** What one workflow adds to the analysis. */
  datatype Visit =
    | Skip
    | Counted(id: Value, triggerTypes: seq<Value>, objectTypes: seq<Value>, stats: Option<EnrollmentStats>)

  /** `_get_workflow_details`: the fetched details, `{}` when no endpoint answered. */
  function DetailsOf(details: map<Value, Value>, id: Value): Value {
    if id in details then details[id] else Obj(map[])
  }

  /** The response of the enrollments endpoint, `None` when the call failed. */
  function EnrollmentResponse(enrollments: map<Value, Value>, id: Value): Value {
    if id in enrollments then enrollments[id] else Null
  }

  /** `trigger.get(key, 'unknown')` for every trigger. */
  function TriggerField(triggers: seq<Record>, key: string): (r: seq<Value>)
    ensures |r| == |triggers|
  {
    seq(|triggers|, i requires 0 <= i < |triggers| => Field(triggers[i], key, Str("unknown")))
  }

  /** Every value may serve as a dict key. */
  predicate AllHashable(vs: seq<Value>) {
    forall i :: 0 <= i < |vs| ==> Hashable(vs[i])
  }

  /**
   * One iteration of the loop over workflows: skipped without a truthy `id`
   * or with empty details; `None` when it raises (a workflow, details or
   * trigger that is not a dict, a trigger list that cannot be iterated, an
   * unhashable trigger type or object type, or an unhashable id that would
   * key the enrollment data).
   */
  function VisitWorkflow(w: Value, details: map<Value, Value>, enrollments: map<Value, Value>): (r: Option<Visit>)
    ensures !w.Obj? ==> r.None?
    ensures w.Obj? && !Truthy(Field(w.fields, "id", Null)) ==> r == Some(Skip)
    ensures w.Obj? && !Truthy(DetailsOf(details, Field(w.fields, "id", Null))) ==> r == Some(Skip)
    ensures r.Some? && r.value.Counted? ==>
      && |r.value.triggerTypes| == |r.value.objectTypes|
      && AllHashable(r.value.triggerTypes) && AllHashable(r.value.objectTypes)
      && r.value.stats == EnrollmentStatsOf(EnrollmentResponse(enrollments, r.value.id))
  {
    if !w.Obj? then None
    else
      var id := Field(w.fields, "id", Null);
      var d := DetailsOf(details, id);
      if !Truthy(id) || !Truthy(d) then Some(Skip)
      else if !d.Obj? then None
      else
        match RecordList(Field(d.fields, "triggers", Arr([])))
        case None => None
        case Some(triggers) =>
          var types, objects := TriggerField(triggers, "type"), TriggerField(triggers, "objectType");
          var stats := EnrollmentStatsOf(EnrollmentResponse(enrollments, id));
          if !AllHashable(types) || !AllHashable(objects) || (stats.Some? && !Hashable(id)) then None
          else Some(Counted(id, types, objects, stats))
  }

  // ---- All workflows ----

  /** What the loop has gathered: every trigger type and object type counted, and the enrollment data. */
  datatype Collected = Collected(triggerTypes: seq<Value>, objectTypes: seq<Value>, enrollmentData: map<Value, EnrollmentStats>)

  function AddVisit(c: Collected, v: Visit): Collected {
    match v
    case Skip => c
    case Counted(id, types, objects, stats) =>
      Collected(c.triggerTypes + types, c.objectTypes + objects,
        if stats.Some? then c.enrollmentData[id := stats.value] else c.enrollmentData)
  }

  /** The loop over `workflows`, or `None` when an iteration raises. */
  function Collect(workflows: seq<Value>, details: map<Value, Value>, enrollments: map<Value, Value>): (r: Option<Collected>)
    ensures r.Some? ==> |r.value.triggerTypes| == |r.value.objectTypes|
  {
    if workflows == [] then Some(Collected([], [], map[]))
    else
      match (Collect(workflows[..|workflows| - 1], details, enrollments), VisitWorkflow(workflows[|workflows| - 1], details, enrollments))
      case (Some(c), Some(v)) => Some(AddVisit(c, v))
      case _ => None
  }

  /** Once an iteration raises, the whole loop does. */
  lemma {:induction false} CollectFailureSticks(workflows: seq<Value>, n: nat, details: map<Value, Value>, enrollments: map<Value, Value>)
    requires n <= |workflows|
    requires Collect(workflows[..n], details, enrollments).None?
    ensures Collect(workflows, details, enrollments).None?
    decreases |workflows| - n
  {
    if n < |workflows| {
      assert workflows[..n + 1][..n] == workflows[..n];
      CollectFailureSticks(workflows, n + 1, details, enrollments);
    } else {
      assert workflows[..n] == workflows;
    }
  }

  /** One more iteration of the loop. */
  lemma CollectStep(workflows: seq<Value>, i: nat, details: map<Value, Value>, enrollments: map<Value, Value>)
    requires i < |workflows|
    ensures Collect(workflows[..i + 1], details, enrollments) ==
      match (Collect(workflows[..i], details, enrollments), VisitWorkflow(workflows[i], details, enrollments))
      case (Some(c), Some(v)) => Some(AddVisit(c, v))
      case _ => None
  {
    assert workflows[..i + 1][..i] == workflows[..i];
  }

  /** A skipped workflow leaves the analysis exactly as it was. */
  lemma SkippedWorkflowAddsNothing(workflows: seq<Value>, w: Value, details: map<Value, Value>, enrollments: map<Value, Value>)
    requires w.Obj?
    requires !Truthy(Field(w.fields, "id", Null)) || !Truthy(DetailsOf(details, Field(w.fields, "id", Null)))
    ensures Collect(workflows + [w], details, enrollments) == Collect(workflows, details, enrollments)
  {
    assert (workflows + [w])[..|workflows|] == workflows;
  }

  // ---- Patterns ----

  datatype PatternKind = CommonTrigger | CommonObject

  /** A pattern names the most common key and its count; its prose is not modelled. */
  datatype Pattern = Pattern(kind: PatternKind, key: Value, count: nat)

  /** `key` has the largest count in `m`. */
  predicate IsTop(m: map<Value, nat>, key: Value, count: nat) {
    key in m && m[key] == count && forall k :: k in m ==> m[k] <= count
  }

  /** The pattern kinds reported: a trigger pattern iff there are triggers, then an object pattern iff there are objects. */
  function ExpectedKinds(triggers: map<Value, nat>, objects: map<Value, nat>): seq<PatternKind> {
    (if triggers != map[] then [CommonTrigger] else []) + (if objects != map[] then [CommonObject] else [])
  }

  /** `_identify_trigger_patterns`: one pattern per non-empty histogram, in that order, each naming a top entry. */
  predicate ArePatterns(patterns: seq<Pattern>, triggers: map<Value, nat>, objects: map<Value, nat>) {
    var kinds := ExpectedKinds(triggers, objects);
    && |patterns| == |kinds|
    && forall i :: 0 <= i < |patterns| ==>
         && patterns[i].kind == kinds[i]
         && IsTop(if kinds[i] == CommonTrigger then triggers else objects, patterns[i].key, patterns[i].count)
  }

  /** The patterns are fixed up to the choice among tied keys: kinds and counts are determined. */
  lemma PatternsDetermined(p: seq<Pattern>, q: seq<Pattern>, triggers: map<Value, nat>, objects: map<Value, nat>)
    requires ArePatterns(p, triggers, objects) && ArePatterns(q, triggers, objects)
    ensures |p| == |q| <= 2
    ensures forall i :: 0 <= i < |p| ==> p[i].kind == q[i].kind && p[i].count == q[i].count
  {
    forall i | 0 <= i < |p|
      ensures p[i].count == q[i].count
    {
      var m := if p[i].kind == CommonTrigger then triggers else objects;
      assert m[q[i].key] <= p[i].count && m[p[i].key] <= q[i].count;
    }
  }

  /** The largest count of a histogram is at least one and at most the number of keys counted. */
  lemma TopOfHistogram(keys: seq<Value>, key: Value, count: nat)
    requires IsTop(Histogram(keys), key, count)
    ensures 1 <= count <= |keys|
  {
    HistogramCounts(keys);
    assert key in keys;
    assert count == multiset(keys)[key];
    assert multiset(keys)[key] <= |multiset(keys)|;
  }

  // ---- The analysis ----

  datatype TriggerAnalysis = TriggerAnalysis(
    commonTriggers: map<Value, nat>,
    objectTypes: map<Value, nat>,
    triggerPatterns: seq<Pattern>,
    enrollmentData: map<Value, EnrollmentStats>)

  /** The analysis the outer handler returns after any exception. */
  function EmptyTriggerAnalysis(): (a: TriggerAnalysis)
    ensures a.commonTriggers == map[] && a.objectTypes == map[] && a.triggerPatterns == [] && a.enrollmentData == map[]
  {
    TriggerAnalysis(map[], map[], [], map[])
  }

  /** What `analyze_workflow_triggers` returns for `workflows`. */
  predicate IsTriggerAnalysis(a: TriggerAnalysis, workflows: seq<Value>, details: map<Value, Value>, enrollments: map<Value, Value>) {
    match Collect(workflows, details, enrollments)
    case None => a == EmptyTriggerAnalysis()
    case Some(c) =>
      && a.commonTriggers == Histogram(c.triggerTypes)
      && a.objectTypes == Histogram(c.objectTypes)
      && a.enrollmentData == c.enrollmentData
      && ArePatterns(a.triggerPatterns, a.commonTriggers, a.objectTypes)
  }

  /**
   * Every processed trigger is counted once in each histogram, so both
   * histograms add up to the number of triggers processed, and every count
   * is the number of triggers carrying that key.
   */
  lemma HistogramsCountEveryTrigger(a: TriggerAnalysis, workflows: seq<Value>, details: map<Value, Value>, enrollments: map<Value, Value>)
    requires IsTriggerAnalysis(a, workflows, details, enrollments)
    ensures Total(a.commonTriggers) == Total(a.objectTypes)
    ensures Collect(workflows, details, enrollments).Some? ==>
      var c := Collect(workflows, details, enrollments).value;
      && Total(a.commonTriggers) == |c.triggerTypes|
      && (forall k :: k in a.commonTriggers <==> k in c.triggerTypes)
      && (forall k :: k in a.commonTriggers ==> a.commonTriggers[k] == multiset(c.triggerTypes)[k])
      && (forall k :: k in a.objectTypes <==> k in c.objectTypes)
      && (forall k :: k in a.objectTypes ==> a.objectTypes[k] == multiset(c.objectTypes)[k])
  {
    match Collect(workflows, details, enrollments)
    case None =>
    case Some(c) =>
      HistogramTotal(c.triggerTypes);
      HistogramTotal(c.objectTypes);
      HistogramCounts(c.triggerTypes);
      HistogramCounts(c.objectTypes);
  }

  /** The analyzer; the HubSpot service it asks is represented by its responses. */
  class WorkflowAnalyzer {
    /** Workflow id to the details `_get_workflow_details` obtains. */
    const workflowDetails: map<Value, Value>
    /** Workflow id to the response of the enrollments endpoint. */
    const enrollmentResponses: map<Value, Value>

    constructor(workflowDetails: map<Value, Value>, enrollmentResponses: map<Value, Value>)
      ensures this.workflowDetails == workflowDetails && this.enrollmentResponses == enrollmentResponses
    {
      this.workflowDetails := workflowDetails;
      this.enrollmentResponses := enrollmentResponses;
    }

    /** `max(m.items(), key=...)`: the first key met with the largest count. */
    method MostCommon(m: map<Value, nat>) returns (key: Value, count: nat)
      requires m != map[]
      ensures IsTop(m, key, count)
    {
      var rest := m.Keys;
      key :| key in rest;
      count := m[key];
      rest := rest - {key};
      while rest != {}
        invariant rest <= m.Keys
        invariant key in m && m[key] == count
        invariant forall k :: k in m && k !in rest ==> m[k] <= count
        decreases |rest|
      {
        var k :| k in rest;
        if m[k] > count {
          key, count := k, m[k];
        }
        rest := rest - {k};
      }
    }

    method IdentifyTriggerPatterns(triggers: map<Value, nat>, objects: map<Value, nat>) returns (patterns: seq<Pattern>)
      ensures ArePatterns(patterns, triggers, objects)
    {
      patterns := [];
      if triggers != map[] {
        var key, count := MostCommon(triggers);
        patterns := patterns + [Pattern(CommonTrigger, key, count)];
      }
      if objects != map[] {
        var key, count := MostCommon(objects);
        patterns := patterns + [Pattern(CommonObject, key, count)];
      }
    }

    /**
     * The loop over one workflow's triggers, given each trigger's type and
     * object type: both counters are bumped once per trigger. The caller has
     * already ruled out an unhashable key, which would have raised and
     * discarded the whole analysis.
     */
    method CountTriggers(tsTypes: seq<Value>, tsObjects: seq<Value>,
                         commonTriggers: map<Value, nat>, objectTypes: map<Value, nat>,
                         ghost types: seq<Value>, ghost objects: seq<Value>)
      returns (commonTriggers': map<Value, nat>, objectTypes': map<Value, nat>)
      requires |tsTypes| == |tsObjects|
      requires commonTriggers == Histogram(types) && objectTypes == Histogram(objects)
      ensures commonTriggers' == Histogram(types + tsTypes)
      ensures objectTypes' == Histogram(objects + tsObjects)
    {
      commonTriggers', objectTypes' := commonTriggers, objectTypes;
      ghost var seenTypes, seenObjects := types, objects;
      var j := 0;
      while j < |tsTypes|
        invariant 0 <= j <= |tsTypes|
        invariant seenTypes == types + tsTypes[..j] && seenObjects == objects + tsObjects[..j]
        invariant commonTriggers' == Histogram(seenTypes)
        invariant objectTypes' == Histogram(seenObjects)
      {
        HistogramSnoc(seenTypes, tsTypes[j], commonTriggers');
        HistogramSnoc(seenObjects, tsObjects[j], objectTypes');
        commonTriggers' := Bump(commonTriggers', tsTypes[j]);
        objectTypes' := Bump(objectTypes', tsObjects[j]);
        PrefixGrows(types, tsTypes, j);
        PrefixGrows(objects, tsObjects, j);
        seenTypes, seenObjects := seenTypes + [tsTypes[j]], seenObjects + [tsObjects[j]];
        j := j + 1;
      }
      assert tsTypes[..j] == tsTypes && tsObjects[..j] == tsObjects;
    }

    method AnalyzeWorkflowTriggers(workflows: seq<Value>) returns (analysis: TriggerAnalysis)
      ensures IsTriggerAnalysis(analysis, workflows, workflowDetails, enrollmentResponses)
    {
      var commonTriggers: map<Value, nat> := map[];
      var objectTypes: map<Value, nat> := map[];
      var enrollmentData: map<Value, EnrollmentStats> := map[];
      ghost var types: seq<Value> := [];
      ghost var objects: seq<Value> := [];
      var i := 0;
      while i < |workflows|
        invariant 0 <= i <= |workflows|
        invariant Collect(workflows[..i], workflowDetails, enrollmentResponses) == Some(Collected(types, objects, enrollmentData))
        invariant commonTriggers == Histogram(types) && objectTypes == Histogram(objects)
      {
        CollectStep(workflows, i, workflowDetails, enrollmentResponses);
        // What this iteration reads: the id, the details, the triggers and the enrollments.
        match VisitWorkflow(workflows[i], workflowDetails, enrollmentResponses) {
        case None =>
          CollectFailureSticks(workflows, i + 1, workflowDetails, enrollmentResponses);
          return EmptyTriggerAnalysis();
        case Some(Skip) =>
        case Some(Counted(workflowId, tsTypes, tsObjects, stats)) =>
          commonTriggers, objectTypes := CountTriggers(tsTypes, tsObjects, commonTriggers, objectTypes, types, objects);
          if stats.Some? {
            enrollmentData := enrollmentData[workflowId := stats.value];
          }
          types, objects := types + tsTypes, objects + tsObjects;
        }
        i := i + 1;
      }
      assert workflows[..i] == workflows;
      var patterns := IdentifyTriggerPatterns(commonTriggers, objectTypes);
      analysis := TriggerAnalysis(commonTriggers, objectTypes, patterns, enrollmentData);
    }
  }
}
