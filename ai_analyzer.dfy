/**
 * The deterministic part of the AI analyzer (class `AIAnalyzer` of
 * ai_analyzer.py): the summary data extracted from an audit result, the
 * dashboard's executive summary and the risk assessment. The calls to the
 * language model are not modelled.
 */
module AiAnalysis {
  import opened Wrappers
  import opened Scoring
  import opened Results
  import opened Engine

  // ---- Summary data ----

  /** One entry of `summary['categories']`. */
  datatype CategorySummary = CategorySummary(
    score: real,
    grade: string,
    metrics: Metrics,
    criticalIssues: seq<string>,
    recommendations: seq<string>)

  /** The dict `_extract_summary_data` returns; `categories` is kept in insertion order. */
  datatype SummaryData = SummaryData(overallScore: Entry, overallGrade: Entry, categories: seq<(string, CategorySummary)>)

  /** The copy of one category dict, each key defaulted when missing. */
  function Summarize(fields: CategoryFields): (c: CategorySummary)
    ensures fields.score.Some? ==> c.score == fields.score.value
    ensures fields.score.None? ==> c.score == 0.0
    ensures fields.grade.Some? ==> c.grade == fields.grade.value
    ensures fields.grade.None? ==> c.grade == "F"
    ensures fields.criticalIssues.None? ==> c.criticalIssues == []
  {
    CategorySummary(
      GetOr(fields.score, 0.0),
      GetOr(fields.grade, "F"),
      GetOr(fields.metrics, NoMetrics),
      GetOr(fields.criticalIssues, []),
      GetOr(fields.recommendations, []))
  }

  /**
   * The categories the loop keeps: the values that are dicts holding a
   * `score`, in the dictionary's order. The keys of a dict are distinct, so
   * each assignment adds a new key.
   */
  function CategoriesOf(entries: Entries): seq<(string, CategorySummary)> {
    if entries == [] then []
    else
      var last := entries[|entries| - 1];
      CategoriesOf(entries[..|entries| - 1]) + (if HasScore(last.1) then [(last.0, Summarize(last.1.fields))] else [])
  }

  /** What `_extract_summary_data` returns for `auditResults`. */
  function SummaryOf(auditResults: Entries): SummaryData {
    SummaryData(
      GetOr(Lookup(auditResults, "overall_score"), Number(0.0)),
      GetOr(Lookup(auditResults, "overall_grade"), Text("F")),
      CategoriesOf(auditResults))
  }

  lemma CategoriesAppend(a: Entries, b: Entries)
    ensures CategoriesOf(a + b) == CategoriesOf(a) + CategoriesOf(b)
    decreases |b|
  {
    if b == [] {
      assert a + b == a;
    } else {
      var init := b[..|b| - 1];
      assert (a + b)[..|a + b| - 1] == a + init;
      CategoriesAppend(a, init);
    }
  }

  /**
   * The categories are exactly the dict values holding a score, each under
   * its own key and copied with defaults.
   */
  lemma {:induction false} CategoriesExactly(entries: Entries, key: string, c: CategorySummary)
    ensures (key, c) in CategoriesOf(entries) <==>
      exists i :: 0 <= i < |entries| && entries[i].0 == key && HasScore(entries[i].1) && c == Summarize(entries[i].1.fields)
  {
    if entries != [] {
      var init := entries[..|entries| - 1];
      CategoriesExactly(init, key, c);
      assert forall i :: 0 <= i < |init| ==> init[i] == entries[i];
    }
  }

  /** When every value holds a score, every entry becomes a category, in order. */
  lemma {:induction false} CategoriesAllScored(entries: Entries)
    requires forall i :: 0 <= i < |entries| ==> HasScore(entries[i].1)
    ensures |CategoriesOf(entries)| == |entries|
    ensures forall i :: 0 <= i < |entries| ==>
      HasScore(entries[i].1) && CategoriesOf(entries)[i] == (entries[i].0, Summarize(entries[i].1.fields))
  {
    if entries != [] {
      CategoriesAllScored(entries[..|entries| - 1]);
    }
  }

  /** When no value holds a score, there are no categories. */
  lemma {:induction false} CategoriesNoneScored(entries: Entries)
    requires forall i :: 0 <= i < |entries| ==> !HasScore(entries[i].1)
    ensures CategoriesOf(entries) == []
  {
    if entries != [] {
      CategoriesNoneScored(entries[..|entries| - 1]);
    }
  }

  /** `_extract_summary_data` */
  method ExtractSummaryData(auditResults: Entries) returns (summary: SummaryData)
    ensures summary == SummaryOf(auditResults)
  {
    var overallScore := Lookup(auditResults, "overall_score");
    var overallGrade := Lookup(auditResults, "overall_grade");
    var categories: seq<(string, CategorySummary)> := [];
    var i := 0;
    while i < |auditResults|
      invariant 0 <= i <= |auditResults|
      invariant categories == CategoriesOf(auditResults[..i])
    {
      assert auditResults[..i + 1][..i] == auditResults[..i];
      var (category, data) := auditResults[i];
      if data.Category? && data.fields.score.Some? {
        categories := categories + [(category, Summarize(data.fields))];
      }
      i := i + 1;
    }
    assert auditResults[..i] == auditResults;
    summary := SummaryData(GetOr(overallScore, Number(0.0)), GetOr(overallGrade, Text("F")), categories);
  }

  // ---- Executive summary ----

  /** The four wordings of the executive summary, from worst to best. */
  datatype Tier = NeedsAttention | Developing | Good | Excellent {
    function Rank(): nat {
      match this
      case NeedsAttention => 0
      case Developing => 1
      case Good => 2
      case Excellent => 3
    }
  }

  /** The if/elif ladder on the overall score: 4.0, 3.0, 2.0. */
  function TierOf(score: real): (t: Tier)
    ensures t == Excellent <==> score >= 4.0
    ensures t == Good <==> 3.0 <= score < 4.0
    ensures t == Developing <==> 2.0 <= score < 3.0
    ensures t == NeedsAttention <==> score < 2.0
  {
    if score >= 4.0 then Excellent
    else if score >= 3.0 then Good
    else if score >= 2.0 then Developing
    else NeedsAttention
  }

  /** A higher score never gets a worse wording. */
  lemma TierMonotone(score: real, score': real)
    requires score <= score'
    ensures TierOf(score).Rank() <= TierOf(score').Rank()
  {
  }

  /** The wording and the grade ladder agree: each wording goes with two neighbouring grades. */
  lemma TierAndGradeAgree(score: real)
    ensures TierOf(score) == Excellent ==> ScoreToGrade(score) in {A, B}
    ensures TierOf(score) == Good ==> ScoreToGrade(score) in {B, C}
    ensures TierOf(score) == Developing ==> ScoreToGrade(score) in {C, D}
    ensures TierOf(score) == NeedsAttention ==> ScoreToGrade(score) in {D, F}
  {
  }

  /** The text before the grade, for each wording. */
  function Opening(tier: Tier): (s: string)
    ensures |s| > 0 && s[0] == Initial(tier)
  {
    match tier
    case Excellent => "Excellent HubSpot setup (Grade "
    case Good => "Good HubSpot foundation (Grade "
    case Developing => "Developing HubSpot setup (Grade "
    case NeedsAttention => "HubSpot setup needs attention (Grade "
  }

  /** The text after the grade, for each wording. */
  function Closing(tier: Tier): string {
    match tier
    case Excellent => "). Your marketing operations are well-optimized with minimal areas for improvement."
    case Good => ") with several optimization opportunities to maximize your marketing effectiveness."
    case Developing => ") with significant opportunities to improve lead generation and automation efficiency."
    case NeedsAttention => "). Critical gaps in your marketing operations require immediate focus."
  }

  /** The first letter of each wording's text. */
  function Initial(tier: Tier): char {
    match tier
    case Excellent => 'E'
    case Good => 'G'
    case Developing => 'D'
    case NeedsAttention => 'H'
  }

  /**
   * The text for a wording, with the grade embedded right after the
   * wording's opening. The four wordings start with four different letters,
   * so the text tells the wording.
   */
  function ExecutiveSummaryText(tier: Tier, grade: string): (s: string)
    ensures |s| > 0 && s[0] == Initial(tier)
    ensures |Opening(tier)| + |grade| <= |s|
    ensures s[|Opening(tier)|..|Opening(tier)| + |grade|] == grade
  {
    Opening(tier) + grade + Closing(tier)
  }

  lemma InitialTellsTier(tier: Tier, tier': Tier)
    requires Initial(tier) == Initial(tier')
    ensures tier == tier'
  {
  }

  /** Equal texts come from the same wording and the same grade. */
  lemma SummaryTextDeterminesTier(tier: Tier, grade: string, tier': Tier, grade': string)
    requires ExecutiveSummaryText(tier, grade) == ExecutiveSummaryText(tier', grade')
    ensures tier == tier'
    ensures grade == grade'
  {
    InitialTellsTier(tier, tier');
    MiddleOfFrame(Opening(tier), grade, grade', Closing(tier));
  }

  /** The grade as the f-string renders a string value. */
  function GradeText(grade: Entry): string {
    if grade.Text? then grade.text else ""
  }

  /**
   * `_generate_executive_summary`; `None` when the comparison with 4.0
   * raises, i.e. when the overall score is not a number.
   */
  function ExecutiveSummary(data: SummaryData): (r: Option<string>)
    ensures r.Some? <==> data.overallScore.Number?
    ensures r.Some? ==> r.value == ExecutiveSummaryText(TierOf(data.overallScore.value), GradeText(data.overallGrade))
  {
    if data.overallScore.Number? then
      Some(ExecutiveSummaryText(TierOf(data.overallScore.value), GradeText(data.overallGrade)))
    else
      None
  }

  // ---- Risk assessment ----

  /** `sum(len(c.get('critical_issues', [])) for c in categories.values())` */
  function IssueCount(categories: seq<(string, CategorySummary)>): nat {
    if categories == [] then 0
    else IssueCount(categories[..|categories| - 1]) + |categories[|categories| - 1].1.criticalIssues|
  }

  /** With at most one issue per category the count is at most the number of categories; one issue makes it positive. */
  lemma {:induction false} IssueCountBounds(categories: seq<(string, CategorySummary)>)
    ensures (forall i :: 0 <= i < |categories| ==> |categories[i].1.criticalIssues| <= 1) ==> IssueCount(categories) <= |categories|
    ensures (exists i :: 0 <= i < |categories| && |categories[i].1.criticalIssues| >= 1) ==> IssueCount(categories) >= 1
  {
    if categories != [] {
      var init := categories[..|categories| - 1];
      IssueCountBounds(init);
      assert forall i :: 0 <= i < |init| ==> init[i] == categories[i];
    }
  }

  datatype RiskLevel = Low | Medium | High {
    function Rank(): nat {
      match this
      case Low => 0
      case Medium => 1
      case High => 2
    }
  }

  /** No issue is low risk, one to three medium, more high. */
  function RiskLevelOf(count: nat): (level: RiskLevel)
    ensures level == Low <==> count == 0
    ensures level == Medium <==> 1 <= count <= 3
    ensures level == High <==> count > 3
  {
    if count == 0 then Low
    else if count <= 3 then Medium
    else High
  }

  /** More critical issues never lower the risk. */
  lemma RiskMonotone(count: nat, count': nat)
    requires count <= count'
    ensures RiskLevelOf(count).Rank() <= RiskLevelOf(count').Rank()
  {
  }

  /** `str(n)` for a count: decimal digits, no leading zero. */
  function NatToString(n: nat): (s: string)
    ensures |s| >= 1
    decreases n
  {
    if n < 10 then [DigitChar(n)] else NatToString(n / 10) + [DigitChar(n % 10)]
  }

  function DigitChar(d: nat): char
    requires d < 10
  {
    ('0' as int + d) as char
  }

  /** Reading a string of decimal digits. */
  function DecimalValue(s: string): nat {
    if s == [] then 0
    else
      var c := s[|s| - 1];
      DecimalValue(s[..|s| - 1]) * 10 + (if '0' <= c <= '9' then c as int - '0' as int else 0)
  }

  /** Reading back the digits gives the count: the count in the text is exact. */
  lemma {:induction false} NatToStringRoundTrip(n: nat)
    ensures DecimalValue(NatToString(n)) == n
    decreases n
  {
    if n >= 10 {
      NatToStringRoundTrip(n / 10);
      var s := NatToString(n);
      assert s[..|s| - 1] == NatToString(n / 10);
    }
  }

  /** The text before the count, for a level with issues. */
  function RiskOpening(level: RiskLevel): (s: string)
    requires level != Low
    ensures |s| > 0 && s[0] == RiskInitial(level)
  {
    if level == Medium then "Medium Risk: " else "High Risk: "
  }

  /** The text after the count, for a level with issues. */
  function RiskClosing(level: RiskLevel): string
    requires level != Low
  {
    if level == Medium then " critical issues require attention to prevent lead generation gaps."
    else " critical issues could significantly impact your marketing performance."
  }

  /** The first letter of each level's text. */
  function RiskInitial(level: RiskLevel): char {
    match level
    case Low => 'L'
    case Medium => 'M'
    case High => 'H'
  }

  lemma RiskInitialTellsLevel(level: RiskLevel, level': RiskLevel)
    requires RiskInitial(level) == RiskInitial(level')
    ensures level == level'
  {
  }

  /** The text for a count: its level, and for a level with issues the count itself. */
  function RiskText(count: nat): (s: string)
    ensures |s| > 0 && s[0] == RiskInitial(RiskLevelOf(count))
  {
    var level := RiskLevelOf(count);
    if level == Low then LowRiskText()
    else RiskOpening(level) + NatToString(count) + RiskClosing(level)
  }

  function LowRiskText(): (s: string)
    ensures |s| > 0 && s[0] == 'L'
  {
    "Low Risk: " + "No critical issues identified in your HubSpot setup."
  }

  /** `_generate_risk_assessment` */
  function RiskAssessment(data: SummaryData): (r: string)
    ensures r == RiskText(IssueCount(data.categories))
  {
    RiskText(IssueCount(data.categories))
  }

  /** The text gives back the count: different counts give different texts. */
  lemma RiskTextInjective(count: nat, count': nat)
    requires RiskText(count) == RiskText(count')
    ensures count == count'
  {
    var level := RiskLevelOf(count);
    RiskInitialTellsLevel(level, RiskLevelOf(count'));
    if level != Low {
      MiddleOfFrame(RiskOpening(level), NatToString(count), NatToString(count'), RiskClosing(level));
      NatToStringRoundTrip(count);
      NatToStringRoundTrip(count');
    }
  }

  /** Equal texts with the same frame have the same middle. */
  lemma MiddleOfFrame(prefix: string, m: string, m': string, suffix: string)
    requires prefix + m + suffix == prefix + m' + suffix
    ensures m == m'
  {
    var s := prefix + m + suffix;
    assert |m| == |m'|;
    assert m == s[|prefix|..|prefix| + |m|];
    assert m' == (prefix + m' + suffix)[|prefix|..|prefix| + |m'|];
  }

  // ---- On the engine's results ----

  /**
   * On an empty audit result the summary has score 0 and grade F, so the
   * executive summary is the "needs attention" text and the risk is low.
   */
  lemma EmptyAuditSummary()
    ensures SummaryOf([]) == SummaryData(Number(0.0), Text("F"), [])
    ensures ExecutiveSummary(SummaryOf([])) == Some(ExecutiveSummaryText(NeedsAttention, "F"))
    ensures RiskLevelOf(IssueCount(SummaryOf([]).categories)) == Low
  {
  }

  /** The summary of one category result of the engine: every key is present, so nothing is defaulted. */
  function ResultSummary(c: CategoryResult): (s: CategorySummary)
    ensures s == Summarize(AsEntry(c).fields)
  {
    CategorySummary(c.score, c.grade.Letter(), c.metrics, c.criticalIssues, c.recommendations)
  }

  /**
   * On the engine's results the summary holds the overall score and grade
   * and exactly the six categories, in order, each copied whole.
   */
  lemma SummaryOfEngineResults(r: AuditResults)
    ensures SummaryOf(ToEntries(r)) == SummaryData(Number(r.overallScore), Text(r.overallGrade.Letter()), [
      ("admin", ResultSummary(r.admin)),
      ("properties", ResultSummary(r.properties)),
      ("workflows", ResultSummary(r.workflows)),
      ("forms", ResultSummary(r.forms)),
      ("reporting", ResultSummary(r.reporting)),
      ("sales", ResultSummary(r.sales))])
  {
    var e := ToEntries(r);
    assert e == e[..6] + e[6..];
    CategoriesAppend(e[..6], e[6..]);
    CategoriesAllScored(e[..6]);
    CategoriesNoneScored(e[6..]);
  }

  /** The issue count of six categories is the sum of their counts. */
  lemma IssueCountOfSix(a: CategorySummary, b: CategorySummary, c: CategorySummary, d: CategorySummary, e: CategorySummary, f: CategorySummary,
                        na: string, nb: string, nc: string, nd: string, ne: string, nf: string)
    ensures IssueCount([(na, a), (nb, b), (nc, c), (nd, d), (ne, e), (nf, f)]) ==
      |a.criticalIssues| + |b.criticalIssues| + |c.criticalIssues| + |d.criticalIssues| + |e.criticalIssues| + |f.criticalIssues|
  {
    var s1 := [(na, a)];
    var s2 := s1 + [(nb, b)];
    var s3 := s2 + [(nc, c)];
    var s4 := s3 + [(nd, d)];
    var s5 := s4 + [(ne, e)];
    var s6 := s5 + [(nf, f)];
    IssueCountSnoc(s1, (nb, b));
    IssueCountSnoc(s2, (nc, c));
    IssueCountSnoc(s3, (nd, d));
    IssueCountSnoc(s4, (ne, e));
    IssueCountSnoc(s5, (nf, f));
    assert s6 == [(na, a), (nb, b), (nc, c), (nd, d), (ne, e), (nf, f)];
  }

  lemma IssueCountSnoc(categories: seq<(string, CategorySummary)>, category: (string, CategorySummary))
    ensures IssueCount(categories + [category]) == IssueCount(categories) + |category.1.criticalIssues|
  {
    assert (categories + [category])[..|categories|] == categories;
  }

  /** On consistent results the executive summary always exists and names the overall grade. */
  lemma ExecutiveSummaryOfEngineResults(r: AuditResults)
    requires ConsistentResults(r)
    ensures ExecutiveSummary(SummaryOf(ToEntries(r))) ==
      Some(ExecutiveSummaryText(TierOf(r.overallScore), ScoreToGrade(r.overallScore).Letter()))
  {
    SummaryOfEngineResults(r);
  }

  /**
   * On consistent results the risk counts one issue at most per category:
   * at most six in all, and at least one once a category has failed.
   */
  lemma RiskOfEngineResults(r: AuditResults)
    requires ConsistentResults(r)
    ensures IssueCount(SummaryOf(ToEntries(r)).categories) <= 6
    ensures 0.0 in CategoryScores(r) ==> RiskLevelOf(IssueCount(SummaryOf(ToEntries(r)).categories)) != Low
  {
    SummaryOfEngineResults(r);
    IssueCountOfSix(ResultSummary(r.admin), ResultSummary(r.properties), ResultSummary(r.workflows),
      ResultSummary(r.forms), ResultSummary(r.reporting), ResultSummary(r.sales),
      "admin", "properties", "workflows", "forms", "reporting", "sales");
  }
}
