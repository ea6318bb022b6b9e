/**
 * The results dictionary `run_full_audit` returns: one result per category
 * plus `overall_score` and `overall_grade`. `Entries` is the same dictionary
 * seen loosely, as an ordered list of key/value pairs whose values may or may
 * not be category dicts, which is how the overall step and the report
 * consumers read it.
 */
module Results {
  import opened Wrappers
  import opened Scoring

  /** One category's result dict. */
  datatype CategoryResult = CategoryResult(
    score: real,
    grade: Grade,
    metrics: Metrics,
    recommendations: seq<string>,
    criticalIssues: seq<string>)

  datatype AuditResults = AuditResults(
    admin: CategoryResult,
    properties: CategoryResult,
    workflows: CategoryResult,
    forms: CategoryResult,
    reporting: CategoryResult,
    sales: CategoryResult,
    overallScore: real,
    overallGrade: Grade)

  /** The six category scores, in the dictionary's key order. */
  function CategoryScores(r: AuditResults): seq<real> {
    [r.admin.score, r.properties.score, r.workflows.score, r.forms.score, r.reporting.score, r.sales.score]
  }

  /** A dict value with the keys a category result may carry; each key may be missing. */
  datatype CategoryFields = CategoryFields(
    score: Option<real>,
    grade: Option<string>,
    metrics: Option<Metrics>,
    criticalIssues: Option<seq<string>>,
    recommendations: Option<seq<string>>)

  /** A value of the results dictionary: a dict, a number, a string, or anything else. */
  datatype Entry = Category(fields: CategoryFields) | Number(value: real) | Text(text: string) | Other

  /** A dictionary in insertion order. */
  type Entries = seq<(string, Entry)>

  /** What every Python dict guarantees: no key occurs twice. */
  predicate DistinctKeys(entries: Entries) {
    forall i, j :: 0 <= i < j < |entries| ==> entries[i].0 != entries[j].0
  }

  /** `d.get(key)`: the value stored under `key`, if any. */
  function Lookup(entries: Entries, key: string): (r: Option<Entry>)
    ensures r.Some? ==> exists i :: 0 <= i < |entries| && entries[i] == (key, r.value)
    ensures r.None? ==> forall i :: 0 <= i < |entries| ==> entries[i].0 != key
  {
    if entries == [] then None
    else if entries[0].0 == key then Some(entries[0].1)
    else
      var r := Lookup(entries[1..], key);
      assert forall i :: 1 <= i < |entries| ==> entries[i] == entries[1..][i - 1];
      r
  }

  function AsEntry(c: CategoryResult): Entry {
    Category(CategoryFields(
      Some(c.score), Some(c.grade.Letter()), Some(c.metrics), Some(c.criticalIssues), Some(c.recommendations)))
  }

  /** The dictionary `run_full_audit` builds, in its key order. */
  function ToEntries(r: AuditResults): (entries: Entries)
    ensures |entries| == 8 && DistinctKeys(entries)
  {
    [ ("admin", AsEntry(r.admin)),
      ("properties", AsEntry(r.properties)),
      ("workflows", AsEntry(r.workflows)),
      ("forms", AsEntry(r.forms)),
      ("reporting", AsEntry(r.reporting)),
      ("sales", AsEntry(r.sales)),
      ("overall_score", Number(r.overallScore)),
      ("overall_grade", Text(r.overallGrade.Letter())) ]
  }

  /** `isinstance(v, dict) and 'score' in v` */
  predicate HasScore(e: Entry) {
    e.Category? && e.fields.score.Some?
  }

  /** `[v['score'] for v in d.values() if isinstance(v, dict) and 'score' in v]` */
  function Scores(entries: Entries): (scores: seq<real>)
    ensures |scores| <= |entries|
  {
    if entries == [] then []
    else (if HasScore(entries[0].1) then [entries[0].1.fields.score.value] else []) + Scores(entries[1..])
  }

  /** Prepending an entry prepends its score when it has one. */
  lemma ScoresCons(e: (string, Entry), rest: Entries)
    ensures Scores([e] + rest) == (if HasScore(e.1) then [e.1.fields.score.value] else []) + Scores(rest)
  {
    assert ([e] + rest)[1..] == rest;
  }

  lemma {:induction false} ScoresAppend(a: Entries, b: Entries)
    ensures Scores(a + b) == Scores(a) + Scores(b)
  {
    if a == [] {
      assert a + b == b;
    } else {
      var head := if HasScore(a[0].1) then [a[0].1.fields.score.value] else [];
      assert (a + b)[0] == a[0] && (a + b)[1..] == a[1..] + b;
      assert Scores(a + b) == head + Scores(a[1..] + b);
      ScoresAppend(a[1..], b);
      assert head + (Scores(a[1..]) + Scores(b)) == (head + Scores(a[1..])) + Scores(b);
    }
  }

  /** When every value is a dict with a score, the list holds every score, in order. */
  lemma {:induction false} ScoresAllScored(entries: Entries)
    requires forall i :: 0 <= i < |entries| ==> HasScore(entries[i].1)
    ensures |Scores(entries)| == |entries|
    ensures forall i :: 0 <= i < |entries| ==> HasScore(entries[i].1) && Scores(entries)[i] == entries[i].1.fields.score.value
  {
    if entries != [] {
      ScoresAllScored(entries[1..]);
    }
  }

  /** When no value carries a score, the list is empty. */
  lemma {:induction false} ScoresNoneScored(entries: Entries)
    requires forall i :: 0 <= i < |entries| ==> !HasScore(entries[i].1)
    ensures Scores(entries) == []
  {
    if entries != [] {
      ScoresNoneScored(entries[1..]);
    }
  }

  /** The overall step averages exactly the six category scores: `overall_score` and `overall_grade` are not dicts. */
  lemma ScoresOfResults(r: AuditResults)
    ensures Scores(ToEntries(r)) == CategoryScores(r)
  {
    var e := ToEntries(r);
    assert e == e[..6] + e[6..];
    ScoresAppend(e[..6], e[6..]);
    ScoresAllScored(e[..6]);
    ScoresNoneScored(e[6..]);
  }
}
