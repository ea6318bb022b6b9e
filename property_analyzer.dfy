/**
 * The property analyzer (class `PropertyAnalyzer` of enhanced_analyzers.py):
 * which forms use each property as a field, which properties nobody uses,
 * and which are used in three places or more.
 *
 * The forms and workflows come from the HubSpot service; here they are the
 * lists its fetchers returned. Any exception in the analysis resets it to
 * the empty analysis.
 */
module PropertyAnalysis {
  import opened Wrappers
  import opened Json
  import opened Seqs
  import opened Tally

  // ---- Form usage ----

  /** One named form field: the property it names and the name of its form. */
  datatype Use = Use(property: Value, form: Value)

  /** A usage dictionary: property name to the names of the forms (or workflows) using it. */
  type Usage = map<Value, seq<Value>>

  /**
   * One field: a use when its `name` is truthy, nothing otherwise, and
   * `None` when that name cannot key the dictionary (TypeError).
   */
  function FieldUse(field: Record, formName: Value): (r: Option<seq<Use>>)
    ensures r.Some? ==> forall u :: u in r.value ==> u.form == formName && Truthy(u.property) && Hashable(u.property)
  {
    var name := Field(field, "name", Null);
    if !Truthy(name) then Some([])
    else if !Hashable(name) then None
    else Some([Use(name, formName)])
  }

  function FieldStep(formName: Value): Record -> Option<seq<Use>> {
    field => FieldUse(field, formName)
  }

  /** The fields of one field group, `group.get('fields', [])`. */
  function GroupUses(group: Record, formName: Value): Option<seq<Use>> {
    match RecordList(Field(group, "fields", Arr([])))
    case None => None
    case Some(fields) => FlatMapOpt(fields, FieldStep(formName))
  }

  function GroupStep(formName: Value): Record -> Option<seq<Use>> {
    group => GroupUses(group, formName)
  }

  /** `form.get('name', 'Unknown Form')` */
  function FormName(form: Record): Value {
    Field(form, "name", Str("Unknown Form"))
  }

  /** The named fields of one form, over `form.get('formFieldGroups', [])`. */
  function FormUses(form: Value): Option<seq<Use>> {
    if !form.Obj? then None
    else
      match RecordList(Field(form.fields, "formFieldGroups", Arr([])))
      case None => None
      case Some(groups) => FlatMapOpt(groups, GroupStep(FormName(form.fields)))
  }

  /** Every named field of every form, in form order; `None` when the triple loop raises. */
  function AllUses(forms: seq<Value>): Option<seq<Use>> {
    FlatMapOpt(forms, FormUses)
  }

  /** `if name not in form_usage: form_usage[name] = []` then `form_usage[name].append(form_name)` */
  function AddUse(m: Usage, u: Use): (r: Usage)
    ensures r.Keys == m.Keys + {u.property}
  {
    m[u.property := (if u.property in m then m[u.property] else []) + [u.form]]
  }

  /** The dictionary the loop builds by recording the uses in order. */
  function UsageIndex(uses: seq<Use>): Usage {
    if uses == [] then map[] else AddUse(UsageIndex(uses[..|uses| - 1]), uses[|uses| - 1])
  }

  /** What `_analyze_form_property_usage` returns, or `None` when it raises. */
  function FormUsageOf(forms: seq<Value>): Option<Usage> {
    match AllUses(forms)
    case None => None
    case Some(uses) => Some(UsageIndex(uses))
  }

  /** Recording one more use. */
  lemma UsageIndexSnoc(uses: seq<Use>, u: Use)
    ensures UsageIndex(uses + [u]) == AddUse(UsageIndex(uses), u)
  {
    assert (uses + [u])[..|uses|] == uses;
  }

  /** Reference definition: the forms of the uses of `p`, in order and with repeats. */
  function FormsUsing(uses: seq<Use>, p: Value): seq<Value> {
    if uses == [] then []
    else (if uses[0].property == p then [uses[0].form] else []) + FormsUsing(uses[1..], p)
  }

  lemma {:induction false} FormsUsingSnoc(uses: seq<Use>, u: Use, p: Value)
    ensures FormsUsing(uses + [u], p) == FormsUsing(uses, p) + (if u.property == p then [u.form] else [])
  {
    if uses != [] {
      assert (uses + [u])[1..] == uses[1..] + [u];
      FormsUsingSnoc(uses[1..], u, p);
    }
  }

  /** `p` has forms exactly when some use names it. */
  lemma {:induction false} FormsUsingNonEmpty(uses: seq<Use>, p: Value)
    ensures FormsUsing(uses, p) != [] <==> exists i :: 0 <= i < |uses| && uses[i].property == p
  {
    if uses != [] {
      FormsUsingNonEmpty(uses[1..], p);
      assert forall i :: 0 < i < |uses| ==> uses[1..][i - 1] == uses[i];
    }
  }

  /**
   * The dictionary agrees with the reference definition: its keys are the
   * properties some use names, and each list holds that property's forms in
   * the order of the uses, duplicates kept.
   */
  lemma {:induction false} UsageIndexIsReference(uses: seq<Use>)
    ensures forall p :: p in UsageIndex(uses) <==> FormsUsing(uses, p) != []
    ensures forall p :: p in UsageIndex(uses) ==> UsageIndex(uses)[p] == FormsUsing(uses, p)
  {
    if uses != [] {
      var init, last := uses[..|uses| - 1], uses[|uses| - 1];
      assert uses == init + [last];
      UsageIndexIsReference(init);
      forall p
        ensures FormsUsing(uses, p) == FormsUsing(init, p) + (if last.property == p then [last.form] else [])
      {
        FormsUsingSnoc(init, last, p);
      }
    }
  }

  /** The length of every list of a usage dictionary. */
  function Lengths(m: Usage): map<Value, nat> {
    map p | p in m :: |m[p]|
  }

  /** The lengths of all lists add up to the number of uses recorded. */
  lemma {:induction false} UsageIndexTotal(uses: seq<Use>)
    ensures Total(Lengths(UsageIndex(uses))) == |uses|
  {
    if uses != [] {
      var init, last := uses[..|uses| - 1], uses[|uses| - 1];
      var m := UsageIndex(init);
      UsageIndexTotal(init);
      LengthsAddUse(m, last);
      TotalUpdate(Lengths(m), last.property, |UsesOf(m, last.property)| + 1);
    }
  }

  /** Recording a use lengthens one list by one. */
  lemma LengthsAddUse(m: Usage, u: Use)
    ensures Lengths(AddUse(m, u)) == Lengths(m)[u.property := |UsesOf(m, u.property)| + 1]
  {
  }

  /** Every use of a form names a truthy, hashable property and carries that form's name. */
  lemma FormUsesCarryFormName(form: Value)
    requires FormUses(form).Some?
    ensures form.Obj?
    ensures forall u :: u in FormUses(form).value ==>
      u.form == FormName(form.fields) && Truthy(u.property) && Hashable(u.property)
  {
    var groups := RecordList(Field(form.fields, "formFieldGroups", Arr([]))).value;
    var name := FormName(form.fields);
    forall u | u in FormUses(form).value
      ensures u.form == name && Truthy(u.property) && Hashable(u.property)
    {
      FlatMapOptMembership(groups, GroupStep(name), u);
      var i :| 0 <= i < |groups| && u in GroupStep(name)(groups[i]).value;
      var fields := RecordList(Field(groups[i], "fields", Arr([]))).value;
      FlatMapOptMembership(fields, FieldStep(name), u);
    }
  }

  /**
   * `_analyze_form_property_usage`, when it does not raise: the keys are the
   * truthy field names found in the forms, and every list entry is the name
   * of a form holding a field of that name.
   */
  lemma FormUsageKeysAndForms(forms: seq<Value>)
    requires FormUsageOf(forms).Some?
    ensures forall p :: p in FormUsageOf(forms).value ==> Truthy(p) && Hashable(p)
    ensures forall p, f :: p in FormUsageOf(forms).value && f in FormUsageOf(forms).value[p] ==>
      exists i :: 0 <= i < |forms| && forms[i].Obj? && f == FormName(forms[i].fields) && FormUses(forms[i]).Some? && Use(p, f) in FormUses(forms[i]).value
  {
    var uses := AllUses(forms).value;
    UsageIndexIsReference(uses);
    forall u | u in uses
      ensures exists i :: 0 <= i < |forms| && forms[i].Obj? && u.form == FormName(forms[i].fields) && FormUses(forms[i]).Some? && u in FormUses(forms[i]).value
      ensures Truthy(u.property) && Hashable(u.property)
    {
      FlatMapOptMembership(forms, FormUses, u);
      var i :| 0 <= i < |forms| && u in FormUses(forms[i]).value;
      FormUsesCarryFormName(forms[i]);
    }
    forall p | p in UsageIndex(uses)
      ensures Truthy(p) && Hashable(p)
    {
      FormsUsingNonEmpty(uses, p);
    }
    forall p, f | p in UsageIndex(uses) && f in UsageIndex(uses)[p]
      ensures Use(p, f) in uses
    {
      FormsUsingMembership(uses, p, f);
    }
  }

  /** The forms of `p` are those of the uses naming `p`. */
  lemma {:induction false} FormsUsingMembership(uses: seq<Use>, p: Value, f: Value)
    ensures f in FormsUsing(uses, p) <==> Use(p, f) in uses
  {
    if uses != [] {
      FormsUsingMembership(uses[1..], p, f);
      assert uses == [uses[0]] + uses[1..];
    }
  }

  // ---- Workflow usage ----

  /**
   * What `_analyze_workflow_property_usage` returns: it only reads each
   * workflow's name, so it is always empty, and raises on a workflow that is
   * not a dict.
   */
  function WorkflowUsageOf(workflows: seq<Value>): Option<Usage> {
    if Records(workflows).Some? then Some(map[]) else None
  }

  // ---- Unused properties ----

  /** An entry of `unused_properties`. */
  datatype UnusedProperty = UnusedProperty(name: Value, propertyType: Value, objectType: Value)

  /** `prop.get('name', '')` */
  function PropertyName(prop: Record): Value {
    Field(prop, "name", Str(""))
  }

  /** `{'name': …, 'type': prop.get('type', 'unknown'), 'object_type': prop.get('objectType', 'unknown')}` */
  function UnusedEntry(prop: Record): UnusedProperty {
    UnusedProperty(PropertyName(prop), Field(prop, "type", Str("unknown")), Field(prop, "objectType", Str("unknown")))
  }

  /** A property with a name that keys neither usage dictionary. */
  predicate IsUnused(prop: Record, formUsage: Usage, workflowUsage: Usage) {
    var name := PropertyName(prop);
    Truthy(name) && name !in formUsage && name !in workflowUsage
  }

  /** One iteration of `_identify_unused_properties`; `None` when it raises. */
  function UnusedCheck(prop: Value, formUsage: Usage, workflowUsage: Usage): Option<seq<UnusedProperty>> {
    if !prop.Obj? then None
    else if !Truthy(PropertyName(prop.fields)) then Some([])
    else if !Hashable(PropertyName(prop.fields)) then None
    else if IsUnused(prop.fields, formUsage, workflowUsage) then Some([UnusedEntry(prop.fields)])
    else Some([])
  }

  function UnusedStep(formUsage: Usage, workflowUsage: Usage): Value -> Option<seq<UnusedProperty>> {
    prop => UnusedCheck(prop, formUsage, workflowUsage)
  }

  /** What `_identify_unused_properties` returns, or `None` when it raises. */
  function UnusedOf(properties: seq<Value>, formUsage: Usage, workflowUsage: Usage): Option<seq<UnusedProperty>> {
    FlatMapOpt(properties, UnusedStep(formUsage, workflowUsage))
  }

  /**
   * `_identify_unused_properties` raises exactly on a property that is not a
   * dict or whose truthy name cannot key a dict; otherwise it lists exactly
   * the properties with a name that neither dictionary has.
   */
  lemma UnusedPropertiesExactly(properties: seq<Value>, formUsage: Usage, workflowUsage: Usage)
    ensures UnusedOf(properties, formUsage, workflowUsage).None? <==>
      exists i :: 0 <= i < |properties| &&
        (!properties[i].Obj? || (Truthy(PropertyName(properties[i].fields)) && !Hashable(PropertyName(properties[i].fields))))
    ensures UnusedOf(properties, formUsage, workflowUsage).Some? ==>
      forall x :: x in UnusedOf(properties, formUsage, workflowUsage).value <==>
        exists i :: 0 <= i < |properties| && properties[i].Obj? &&
          IsUnused(properties[i].fields, formUsage, workflowUsage) && x == UnusedEntry(properties[i].fields)
  {
    var step := UnusedStep(formUsage, workflowUsage);
    FlatMapOptNone(properties, step);
    if UnusedOf(properties, formUsage, workflowUsage).Some? {
      forall x
        ensures x in UnusedOf(properties, formUsage, workflowUsage).value <==>
          exists i :: 0 <= i < |properties| && properties[i].Obj? &&
            IsUnused(properties[i].fields, formUsage, workflowUsage) && x == UnusedEntry(properties[i].fields)
      {
        FlatMapOptMembership(properties, step, x);
      }
    }
  }

  /** The test of `_identify_unused_properties`, on a list element. */
  function UnusedTest(formUsage: Usage, workflowUsage: Usage): Value -> bool {
    (prop: Value) => prop.Obj? && IsUnused(prop.fields, formUsage, workflowUsage)
  }

  /** One entry per property, in order. */
  function EntriesOf(props: seq<Value>): (r: seq<UnusedProperty>)
    requires forall p :: p in props ==> p.Obj?
    ensures |r| == |props|
  {
    seq(|props|, i requires 0 <= i < |props| => UnusedEntry(props[i].fields))
  }

  /**
   * When `_identify_unused_properties` does not raise, its list is the
   * unused properties, filtered in input order, one entry each, with
   * repeated properties kept.
   */
  lemma {:induction false} UnusedPropertiesInOrder(properties: seq<Value>, formUsage: Usage, workflowUsage: Usage)
    ensures UnusedOf(properties, formUsage, workflowUsage).Some? ==>
      UnusedOf(properties, formUsage, workflowUsage).value == EntriesOf(Filter(properties, UnusedTest(formUsage, workflowUsage)))
  {
    var step, test := UnusedStep(formUsage, workflowUsage), UnusedTest(formUsage, workflowUsage);
    if properties != [] && UnusedOf(properties, formUsage, workflowUsage).Some? {
      var init, last := properties[..|properties| - 1], properties[|properties| - 1];
      assert properties == init + [last];
      UnusedPropertiesInOrder(init, formUsage, workflowUsage);
      FilterSnoc(init, last, test);
      var kept := Filter(init, test);
      var added: seq<Value> := if test(last) then [last] else [];
      assert step(last) == UnusedCheck(last, formUsage, workflowUsage);
      assert EntriesOf(kept + added) == EntriesOf(kept) + EntriesOf(added);
    }
  }

  // ---- High-value properties ----

  /** An entry of `high_value_properties`. */
  datatype HighValueProperty = HighValueProperty(
    name: Value,
    formUsageCount: nat,
    workflowUsageCount: nat,
    totalUsage: nat,
    formsUsing: seq<Value>,
    workflowsUsing: seq<Value>)

  /** `usage.get(name, [])` */
  function UsesOf(usage: Usage, name: Value): seq<Value> {
    if name in usage then usage[name] else []
  }

  /** The entry the source builds for `name`. */
  function HighValueEntry(name: Value, formUsage: Usage, workflowUsage: Usage): HighValueProperty {
    var forms, workflows := UsesOf(formUsage, name), UsesOf(workflowUsage, name);
    HighValueProperty(name, |forms|, |workflows|, |forms| + |workflows|, forms, workflows)
  }

  /** A key of either dictionary used in three places or more. */
  predicate IsHighValue(name: Value, formUsage: Usage, workflowUsage: Usage) {
    (name in formUsage || name in workflowUsage) && |UsesOf(formUsage, name)| + |UsesOf(workflowUsage, name)| >= 3
  }

  /** `sorted(…, key=lambda x: x['total_usage'], reverse=True)` leaves the list non-increasing. */
  predicate SortedByUsage(s: seq<HighValueProperty>) {
    forall i, j :: 0 <= i < j < |s| ==> s[i].totalUsage >= s[j].totalUsage
  }

  /**
   * `_identify_high_value_properties`: one entry per high-value name, each
   * built from the dictionaries, non-increasing in total usage. The order
   * among equal totals follows set iteration and is not determined.
   */
  ghost predicate AreHighValueProperties(s: seq<HighValueProperty>, formUsage: Usage, workflowUsage: Usage) {
    && CoversHighValue(s, formUsage, workflowUsage)
    && (forall i, j :: 0 <= i < j < |s| ==> s[i].name != s[j].name)
    && SortedByUsage(s)
  }

  /** Every entry is the entry of a high-value name, and every high-value name has one. */
  ghost predicate CoversHighValue(s: seq<HighValueProperty>, formUsage: Usage, workflowUsage: Usage) {
    && (forall i :: 0 <= i < |s| ==> IsHighValue(s[i].name, formUsage, workflowUsage))
    && (forall i :: 0 <= i < |s| ==> s[i] == HighValueEntry(s[i].name, formUsage, workflowUsage))
    && (forall name :: IsHighValue(name, formUsage, workflowUsage) ==> exists i :: 0 <= i < |s| && s[i].name == name)
  }

  /** The invariant of the loop over the keys: the keys already visited are covered, each once. */
  ghost predicate CollectedSoFar(found: seq<HighValueProperty>, rest: set<Value>, formUsage: Usage, workflowUsage: Usage) {
    && (forall i :: 0 <= i < |found| ==> found[i].name !in rest)
    && (forall i :: 0 <= i < |found| ==> IsHighValue(found[i].name, formUsage, workflowUsage))
    && (forall i :: 0 <= i < |found| ==> found[i] == HighValueEntry(found[i].name, formUsage, workflowUsage))
    && (forall name :: IsHighValue(name, formUsage, workflowUsage) && name !in rest ==>
          exists i :: 0 <= i < |found| && found[i].name == name)
    && (forall x :: multiset(found)[x] <= 1)
  }

  /** Visiting a key used fewer than three times keeps the invariant. */
  lemma CollectSkip(found: seq<HighValueProperty>, rest: set<Value>, name: Value, formUsage: Usage, workflowUsage: Usage)
    requires CollectedSoFar(found, rest, formUsage, workflowUsage)
    requires name in rest && !IsHighValue(name, formUsage, workflowUsage)
    ensures CollectedSoFar(found, rest - {name}, formUsage, workflowUsage)
  {
  }

  /** Visiting a high-value key and adding its entry keeps the invariant. */
  lemma CollectAdd(found: seq<HighValueProperty>, rest: set<Value>, name: Value, formUsage: Usage, workflowUsage: Usage)
    requires CollectedSoFar(found, rest, formUsage, workflowUsage)
    requires name in rest && IsHighValue(name, formUsage, workflowUsage)
    ensures CollectedSoFar(found + [HighValueEntry(name, formUsage, workflowUsage)], rest - {name}, formUsage, workflowUsage)
  {
    var entry := HighValueEntry(name, formUsage, workflowUsage);
    AppendKeepsOnce(found, entry);
    AppendKeepsCovered(found, rest, name, formUsage, workflowUsage);
  }

  /** Appending an element not yet present keeps every element occurring at most once. */
  lemma AppendKeepsOnce<T>(s: seq<T>, x: T)
    requires forall y :: multiset(s)[y] <= 1
    requires x !in s
    ensures forall y :: multiset(s + [x])[y] <= 1
  {
    assert forall y :: multiset(s + [x])[y] == multiset(s)[y] + (if y == x then 1 else 0);
  }

  /** After adding the entry of `name`, every high-value key visited so far has an entry. */
  lemma AppendKeepsCovered(found: seq<HighValueProperty>, rest: set<Value>, name: Value, formUsage: Usage, workflowUsage: Usage)
    requires forall n :: IsHighValue(n, formUsage, workflowUsage) && n !in rest ==>
      exists i :: 0 <= i < |found| && found[i].name == n
    ensures forall n :: IsHighValue(n, formUsage, workflowUsage) && n !in rest - {name} ==>
      exists i :: 0 <= i < |found| + 1 && (found + [HighValueEntry(name, formUsage, workflowUsage)])[i].name == n
  {
    var found' := found + [HighValueEntry(name, formUsage, workflowUsage)];
    forall n | IsHighValue(n, formUsage, workflowUsage) && n !in rest - {name}
      ensures exists i :: 0 <= i < |found'| && found'[i].name == n
    {
      if n == name {
        assert found'[|found|].name == n;
      } else {
        var i :| 0 <= i < |found| && found[i].name == n;
        assert found'[i] == found[i];
      }
    }
  }

  /** Reordering entries that occur once each keeps the cover and makes the names distinct. */
  lemma ReorderingKeepsCover(found: seq<HighValueProperty>, s: seq<HighValueProperty>, formUsage: Usage, workflowUsage: Usage)
    requires CoversHighValue(found, formUsage, workflowUsage)
    requires forall x :: multiset(found)[x] <= 1
    requires multiset(s) == multiset(found)
    ensures CoversHighValue(s, formUsage, workflowUsage)
    ensures forall i, j :: 0 <= i < j < |s| ==> s[i].name != s[j].name
  {
    forall i | 0 <= i < |s|
      ensures IsHighValue(s[i].name, formUsage, workflowUsage)
      ensures s[i] == HighValueEntry(s[i].name, formUsage, workflowUsage)
    {
      assert s[i] in multiset(found);
    }
    forall i, j | 0 <= i < j < |s|
      ensures s[i].name != s[j].name
    {
      if s[i].name == s[j].name {
        assert s[i] in multiset(found) && s[j] in multiset(found);
        TwoPositions(s, i, j);
      }
    }
    forall name | IsHighValue(name, formUsage, workflowUsage)
      ensures exists i :: 0 <= i < |s| && s[i].name == name
    {
      var k :| 0 <= k < |found| && found[k].name == name;
      assert found[k] in multiset(s);
    }
  }

  /** Every entry counts its uses correctly and is used at least three times. */
  lemma HighValueEntriesCount(s: seq<HighValueProperty>, formUsage: Usage, workflowUsage: Usage)
    requires AreHighValueProperties(s, formUsage, workflowUsage)
    ensures forall i :: 0 <= i < |s| ==>
      && s[i].totalUsage == s[i].formUsageCount + s[i].workflowUsageCount >= 3
      && s[i].formUsageCount == |s[i].formsUsing| && s[i].workflowUsageCount == |s[i].workflowsUsing|
  {
  }

  /** Two results differ only in the order of entries with equal totals: same length, same totals in order. */
  lemma HighValueTotalsDetermined(s: seq<HighValueProperty>, t: seq<HighValueProperty>, formUsage: Usage, workflowUsage: Usage)
    requires AreHighValueProperties(s, formUsage, workflowUsage)
    requires AreHighValueProperties(t, formUsage, workflowUsage)
    ensures multiset(s) == multiset(t)
  {
    HighValueMultiset(s, formUsage, workflowUsage);
    HighValueMultiset(t, formUsage, workflowUsage);
  }

  /** The entries of a result are the high-value entries, once each. */
  lemma HighValueMultiset(s: seq<HighValueProperty>, formUsage: Usage, workflowUsage: Usage)
    requires AreHighValueProperties(s, formUsage, workflowUsage)
    ensures forall x :: multiset(s)[x] == if IsHighValue(x.name, formUsage, workflowUsage) && x == HighValueEntry(x.name, formUsage, workflowUsage) then 1 else 0
  {
    forall x
      ensures multiset(s)[x] == if IsHighValue(x.name, formUsage, workflowUsage) && x == HighValueEntry(x.name, formUsage, workflowUsage) then 1 else 0
    {
      if IsHighValue(x.name, formUsage, workflowUsage) && x == HighValueEntry(x.name, formUsage, workflowUsage) {
        var i :| 0 <= i < |s| && s[i].name == x.name;
        OccursOnce(s, i);
      } else {
        assert x !in s;
      }
    }
  }

  /** With distinct names, the element at `i` occurs once. */
  lemma {:induction false} OccursOnce(s: seq<HighValueProperty>, i: nat)
    requires i < |s|
    requires forall a, b :: 0 <= a < b < |s| ==> s[a].name != s[b].name
    ensures multiset(s)[s[i]] == 1
  {
    var x := s[i];
    assert s == s[..i] + [x] + s[i + 1..];
    assert x !in s[..i];
    forall k | i + 1 <= k < |s|
      ensures s[k] != x
    {
    }
    assert x !in s[i + 1..];
  }

  // ---- The analysis ----

  /** The dictionary `analyze_property_usage` returns. */
  datatype PropertyUsage = PropertyUsage(
    formUsage: Usage,
    workflowUsage: Usage,
    populationStats: map<Value, Value>,
    unusedProperties: seq<UnusedProperty>,
    highValueProperties: seq<HighValueProperty>)

  /** The analysis the outer handler returns after any exception. */
  function EmptyPropertyUsage(): (a: PropertyUsage)
    ensures a.formUsage == map[] && a.workflowUsage == map[] && a.populationStats == map[]
    ensures a.unusedProperties == [] && a.highValueProperties == []
  {
    PropertyUsage(map[], map[], map[], [], [])
  }

  /** What `analyze_property_usage` returns for `properties`, given the fetched forms and workflows. */
  ghost predicate IsPropertyUsage(a: PropertyUsage, properties: seq<Value>, forms: seq<Value>, workflows: seq<Value>) {
    match (FormUsageOf(forms), WorkflowUsageOf(workflows))
    case (Some(formUsage), Some(workflowUsage)) =>
      (match UnusedOf(properties, formUsage, workflowUsage)
       case None => a == EmptyPropertyUsage()
       case Some(unused) =>
         && a.formUsage == formUsage
         && a.workflowUsage == workflowUsage
         && a.populationStats == map[]
         && a.unusedProperties == unused
         && AreHighValueProperties(a.highValueProperties, formUsage, workflowUsage))
    case _ => a == EmptyPropertyUsage()
  }

  /**
   * Since no workflow usage is recorded, a high-value property is one named
   * by at least three form fields, and an unused property never is one.
   */
  lemma HighValueMeansThreeFormFields(a: PropertyUsage, properties: seq<Value>, forms: seq<Value>, workflows: seq<Value>)
    requires IsPropertyUsage(a, properties, forms, workflows)
    ensures a.workflowUsage == map[]
    ensures forall i :: 0 <= i < |a.highValueProperties| ==>
      var h := a.highValueProperties[i];
      && h.name in a.formUsage && h.formsUsing == a.formUsage[h.name] && |h.formsUsing| >= 3
      && h.workflowUsageCount == 0 && h.workflowsUsing == []
    ensures forall i, j :: 0 <= i < |a.unusedProperties| && 0 <= j < |a.highValueProperties| ==>
      a.unusedProperties[i].name != a.highValueProperties[j].name
  {
    if FormUsageOf(forms).Some? && WorkflowUsageOf(workflows).Some? {
      var fu := FormUsageOf(forms).value;
      if UnusedOf(properties, fu, map[]).Some? {
        UnusedPropertiesExactly(properties, fu, map[]);
        forall i, j | 0 <= i < |a.unusedProperties| && 0 <= j < |a.highValueProperties|
          ensures a.unusedProperties[i].name != a.highValueProperties[j].name
        {
          assert a.unusedProperties[i] in a.unusedProperties;
        }
      }
    }
  }

  /** One iteration of the loop over a group's fields. */
  lemma FieldIteration(fields: seq<Record>, k: nat, formName: Value, acc: seq<Use>)
    requires k < |fields|
    requires FlatMapOpt(fields[..k], FieldStep(formName)) == Some(acc)
    ensures var name := Field(fields[k], "name", Null);
      && (!Truthy(name) ==> FlatMapOpt(fields[..k + 1], FieldStep(formName)) == Some(acc))
      && (Truthy(name) && !Hashable(name) ==> FlatMapOpt(fields, FieldStep(formName)).None?)
      && (Truthy(name) && Hashable(name) ==>
            FlatMapOpt(fields[..k + 1], FieldStep(formName)) == Some(acc + [Use(name, formName)]))
  {
    FlatMapOptStep(fields, k, FieldStep(formName));
    assert FieldStep(formName)(fields[k]) == FieldUse(fields[k], formName);
    assert acc + [] == acc;
    var name := Field(fields[k], "name", Null);
    if Truthy(name) && !Hashable(name) {
      FlatMapOptFailureSticks(fields, k + 1, FieldStep(formName));
    }
  }

  /** Recording one more use after `acc`. */
  lemma UsageIndexAppend(uses: seq<Use>, acc: seq<Use>, u: Use)
    ensures UsageIndex(uses + (acc + [u])) == AddUse(UsageIndex(uses + acc), u)
  {
    assert uses + (acc + [u]) == (uses + acc) + [u];
    UsageIndexSnoc(uses + acc, u);
  }

  /** The analyzer; the HubSpot service it asks is represented by the forms and workflows it returns. */
  class PropertyAnalyzer {
    /** What `get_forms` returns. */
    const forms: seq<Value>
    /** What `get_workflows` returns. */
    const workflows: seq<Value>

    constructor(forms: seq<Value>, workflows: seq<Value>)
      ensures this.forms == forms && this.workflows == workflows
    {
      this.forms := forms;
      this.workflows := workflows;
    }

    /** The innermost loop, over one group's fields; `None` when it raises. */
    method RecordFields(fields: seq<Record>, formName: Value, usage: Usage, ghost uses: seq<Use>)
      returns (usage': Option<Usage>)
      requires usage == UsageIndex(uses)
      ensures FlatMapOpt(fields, FieldStep(formName)).None? ==> usage'.None?
      ensures FlatMapOpt(fields, FieldStep(formName)).Some? ==>
        usage' == Some(UsageIndex(uses + FlatMapOpt(fields, FieldStep(formName)).value))
    {
      var m := usage;
      ghost var acc: seq<Use> := [];
      assert uses + acc == uses;
      var k := 0;
      while k < |fields|
        invariant 0 <= k <= |fields|
        invariant FlatMapOpt(fields[..k], FieldStep(formName)) == Some(acc)
        invariant m == UsageIndex(uses + acc)
      {
        FieldIteration(fields, k, formName, acc);
        var fieldName := Field(fields[k], "name", Null);
        if Truthy(fieldName) {
          if !Hashable(fieldName) {
            return None;
          }
          UsageIndexAppend(uses, acc, Use(fieldName, formName));
          var formsOfField := if fieldName in m then m[fieldName] else [];
          m := m[fieldName := formsOfField + [formName]];
          acc := acc + [Use(fieldName, formName)];
        }
        k := k + 1;
      }
      assert fields[..k] == fields;
      usage' := Some(m);
    }

    /** One field group: `group.get('fields', [])`, then the loop over its fields. */
    method RecordGroup(group: Record, formName: Value, usage: Usage, ghost uses: seq<Use>)
      returns (usage': Option<Usage>)
      requires usage == UsageIndex(uses)
      ensures GroupStep(formName)(group).None? ==> usage'.None?
      ensures GroupStep(formName)(group).Some? ==> usage' == Some(UsageIndex(uses + GroupStep(formName)(group).value))
    {
      assert GroupStep(formName)(group) == GroupUses(group, formName);
      var fields := RecordList(Field(group, "fields", Arr([])));
      if fields.None? {
        return None;
      }
      usage' := RecordFields(fields.value, formName, usage, uses);
    }

    /** The middle loop, over one form's field groups; `None` when it raises. */
    method RecordGroups(groups: seq<Record>, formName: Value, usage: Usage, ghost uses: seq<Use>)
      returns (usage': Option<Usage>)
      requires usage == UsageIndex(uses)
      ensures FlatMapOpt(groups, GroupStep(formName)).None? ==> usage'.None?
      ensures FlatMapOpt(groups, GroupStep(formName)).Some? ==>
        usage' == Some(UsageIndex(uses + FlatMapOpt(groups, GroupStep(formName)).value))
    {
      var m := usage;
      ghost var acc: seq<Use> := [];
      assert uses + acc == uses;
      var j := 0;
      while j < |groups|
        invariant 0 <= j <= |groups|
        invariant FlatMapOpt(groups[..j], GroupStep(formName)) == Some(acc)
        invariant m == UsageIndex(uses + acc)
      {
        FlatMapOptStep(groups, j, GroupStep(formName));
        var next := RecordGroup(groups[j], formName, m, uses + acc);
        if next.None? {
          FlatMapOptFailureSticks(groups, j + 1, GroupStep(formName));
          return None;
        }
        ghost var more := GroupStep(formName)(groups[j]).value;
        AppendAssoc(uses, acc, more);
        m := next.value;
        acc := acc + more;
        j := j + 1;
      }
      assert groups[..j] == groups;
      usage' := Some(m);
    }

    /** `_analyze_form_property_usage`; `None` when it raises. Its `properties` argument is never read. */
    method AnalyzeFormPropertyUsage(forms: seq<Value>) returns (formUsage: Option<Usage>)
      ensures formUsage == FormUsageOf(forms)
    {
      var m: Usage := map[];
      ghost var uses: seq<Use> := [];
      var i := 0;
      while i < |forms|
        invariant 0 <= i <= |forms|
        invariant AllUses(forms[..i]) == Some(uses)
        invariant m == UsageIndex(uses)
      {
        FlatMapOptStep(forms, i, FormUses);
        if !forms[i].Obj? {
          FlatMapOptFailureSticks(forms, i + 1, FormUses);
          return None;
        }
        var formName := FormName(forms[i].fields);
        var groups := RecordList(Field(forms[i].fields, "formFieldGroups", Arr([])));
        if groups.None? {
          FlatMapOptFailureSticks(forms, i + 1, FormUses);
          return None;
        }
        var next := RecordGroups(groups.value, formName, m, uses);
        if next.None? {
          FlatMapOptFailureSticks(forms, i + 1, FormUses);
          return None;
        }
        m := next.value;
        uses := uses + FlatMapOpt(groups.value, GroupStep(formName)).value;
        i := i + 1;
      }
      assert forms[..i] == forms;
      formUsage := Some(m);
    }

    /** `_analyze_workflow_property_usage`: reads each workflow's name and records nothing. */
    method AnalyzeWorkflowPropertyUsage(workflows: seq<Value>) returns (workflowUsage: Option<Usage>)
      ensures workflowUsage.None? <==> exists i :: 0 <= i < |workflows| && !workflows[i].Obj?
      ensures workflowUsage.Some? ==> workflowUsage.value == map[]
      ensures workflowUsage == WorkflowUsageOf(workflows)
    {
      var i := 0;
      while i < |workflows|
        invariant 0 <= i <= |workflows|
        invariant forall k :: 0 <= k < i ==> workflows[k].Obj?
      {
        if !workflows[i].Obj? {
          return None;
        }
        i := i + 1;
      }
      return Some(map[]);
    }

    /** `_identify_unused_properties`; `None` when it raises. */
    method IdentifyUnusedProperties(properties: seq<Value>, formUsage: Usage, workflowUsage: Usage)
      returns (unused: Option<seq<UnusedProperty>>)
      ensures unused == UnusedOf(properties, formUsage, workflowUsage)
    {
      var step := UnusedStep(formUsage, workflowUsage);
      var acc: seq<UnusedProperty> := [];
      var i := 0;
      while i < |properties|
        invariant 0 <= i <= |properties|
        invariant FlatMapOpt(properties[..i], step) == Some(acc)
      {
        FlatMapOptStep(properties, i, step);
        assert step(properties[i]) == UnusedCheck(properties[i], formUsage, workflowUsage);
        var prop := properties[i];
        if !prop.Obj? {
          FlatMapOptFailureSticks(properties, i + 1, step);
          return None;
        }
        var propName := PropertyName(prop.fields);
        if Truthy(propName) {
          if !Hashable(propName) {
            FlatMapOptFailureSticks(properties, i + 1, step);
            return None;
          }
          if propName !in formUsage && propName !in workflowUsage {
            acc := acc + [UnusedEntry(prop.fields)];
          } else {
            assert acc + [] == acc;
          }
        } else {
          assert acc + [] == acc;
        }
        i := i + 1;
      }
      assert properties[..i] == properties;
      return Some(acc);
    }

    /** Inserts `x` after every entry with at least its total usage. */
    method InsertByUsage(sorted: seq<HighValueProperty>, x: HighValueProperty) returns (r: seq<HighValueProperty>)
      requires SortedByUsage(sorted)
      ensures SortedByUsage(r)
      ensures multiset(r) == multiset(sorted) + multiset{x}
    {
      var p := 0;
      while p < |sorted| && sorted[p].totalUsage >= x.totalUsage
        invariant 0 <= p <= |sorted|
        invariant forall q :: 0 <= q < p ==> sorted[q].totalUsage >= x.totalUsage
      {
        p := p + 1;
      }
      r := sorted[..p] + [x] + sorted[p..];
      assert sorted == sorted[..p] + sorted[p..];
    }

    /** `sorted(high_value, key=lambda x: x['total_usage'], reverse=True)` */
    method SortByUsage(s: seq<HighValueProperty>) returns (r: seq<HighValueProperty>)
      ensures SortedByUsage(r)
      ensures multiset(r) == multiset(s)
    {
      r := [];
      var k := 0;
      while k < |s|
        invariant 0 <= k <= |s|
        invariant SortedByUsage(r)
        invariant multiset(r) == multiset(s[..k])
      {
        assert s[..k + 1] == s[..k] + [s[k]];
        r := InsertByUsage(r, s[k]);
        k := k + 1;
      }
      assert s[..k] == s;
    }

    /**
     * The loop of `_identify_high_value_properties` over the keys of both
     * dictionaries, before sorting: each high-value key gives one entry.
     */
    method CollectHighValue(formUsage: Usage, workflowUsage: Usage) returns (found: seq<HighValueProperty>)
      ensures CoversHighValue(found, formUsage, workflowUsage)
      ensures forall x :: multiset(found)[x] <= 1
    {
      var rest := formUsage.Keys + workflowUsage.Keys;
      found := [];
      while rest != {}
        invariant rest <= formUsage.Keys + workflowUsage.Keys
        invariant CollectedSoFar(found, rest, formUsage, workflowUsage)
        decreases |rest|
      {
        var propName :| propName in rest;
        if IsHighValue(propName, formUsage, workflowUsage) {
          CollectAdd(found, rest, propName, formUsage, workflowUsage);
        } else {
          CollectSkip(found, rest, propName, formUsage, workflowUsage);
        }
        found := VisitKey(propName, found, formUsage, workflowUsage);
        rest := rest - {propName};
      }
    }

    /** The body of that loop for one key: an entry when the key is used three times or more. */
    method VisitKey(propName: Value, found: seq<HighValueProperty>, formUsage: Usage, workflowUsage: Usage)
      returns (found': seq<HighValueProperty>)
      requires propName in formUsage || propName in workflowUsage
      ensures found' == if IsHighValue(propName, formUsage, workflowUsage)
        then found + [HighValueEntry(propName, formUsage, workflowUsage)] else found
    {
      found' := found;
      var formsUsing := if propName in formUsage then formUsage[propName] else [];
      var workflowsUsing := if propName in workflowUsage then workflowUsage[propName] else [];
      var totalUsage := |formsUsing| + |workflowsUsing|;
      if totalUsage >= 3 {
        found' := found' + [HighValueProperty(propName, |formsUsing|, |workflowsUsing|, totalUsage, formsUsing, workflowsUsing)];
      }
    }

    /** `_identify_high_value_properties` */
    method IdentifyHighValueProperties(formUsage: Usage, workflowUsage: Usage) returns (highValue: seq<HighValueProperty>)
      ensures AreHighValueProperties(highValue, formUsage, workflowUsage)
    {
      var found := CollectHighValue(formUsage, workflowUsage);
      highValue := SortByUsage(found);
      ReorderingKeepsCover(found, highValue, formUsage, workflowUsage);
    }

    /** `analyze_property_usage` */
    method AnalyzePropertyUsage(properties: seq<Value>) returns (usage: PropertyUsage)
      ensures IsPropertyUsage(usage, properties, forms, workflows)
    {
      var formUsage := AnalyzeFormPropertyUsage(forms);
      if formUsage.None? {
        return EmptyPropertyUsage();
      }
      var workflowUsage := AnalyzeWorkflowPropertyUsage(workflows);
      if workflowUsage.None? {
        return EmptyPropertyUsage();
      }
      var unused := IdentifyUnusedProperties(properties, formUsage.value, workflowUsage.value);
      if unused.None? {
        return EmptyPropertyUsage();
      }
      var highValue := IdentifyHighValueProperties(formUsage.value, workflowUsage.value);
      usage := PropertyUsage(formUsage.value, workflowUsage.value, map[], unused.value, highValue);
    }
  }

  /** An element found at two positions occurs at least twice. */
  lemma TwoPositions<T>(s: seq<T>, i: nat, j: nat)
    requires i < j < |s| && s[i] == s[j]
    ensures multiset(s)[s[i]] >= 2
  {
    assert s == s[..j] + s[j..];
    assert s[i] in s[..j];
    assert s[j..][0] == s[j];
  }
}
