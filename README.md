# HubSpot marketing-operations audit — a verified model

This project models the rule-based core of a HubSpot audit application:

- the **audit engine** (`AuditEngine`), which turns lists of loosely typed
  API records into six category results (admin, properties, workflows, forms,
  reporting, sales) and an overall score and grade;
- the **workflow analyzer**, which counts trigger types and object types over
  the workflows' details, gathers enrollment statistics and reports the most
  common trigger and object;
- the **property analyzer**, which indexes which forms use each property,
  lists the properties nobody uses and the ones used in three places or more;
- the **deterministic part of the AI analyzer**: the summary data extracted
  from an audit result, the dashboard's executive summary and the risk
  assessment.

Records are JSON values (`Json.Value`), and Python's reading of them is
spelled out: `dict.get` with its default, truthiness, `in` on strings, lists
and dicts, and hashability of dict keys. Where the Python code would raise,
the model returns `None`; the caller then takes the path the source takes on
an exception (the failed-category result, or the empty analysis).

Modules, one per file:

| file | module | what it holds |
|---|---|---|
| wrappers.dfy | `Wrappers` | `Option`, `GetOr` |
| json.dfy | `Json` | JSON values and Python's operations on them |
| seqs.dfy | `Seqs` | list comprehensions and loops that may raise |
| tally.dfy | `Tally` | counter dictionaries (`d[k] = d.get(k, 0) + 1`) |
| rounding.dfy | `Rounding` | `round(x, 1)`, half to even |
| scoring.dfy | `Scoring` | threshold table, metrics, tier scores, grade ladder |
| extraction.dfy | `Extraction` | metric extraction of the six `_audit_*` methods |
| advice.dfy | `Advice` | the twelve recommendation and critical-issue builders |
| results.dfy | `Results` | the results dictionary |
| engine.dfy | `Engine` | category audits, overall score, class `AuditEngine` |
| engine_facts.dfy | `EngineFacts` | properties of the engine as a whole |
| workflow_analyzer.dfy | `WorkflowAnalysis` | class `WorkflowAnalyzer` |
| property_analyzer.dfy | `PropertyAnalysis` | class `PropertyAnalyzer` |
| ai_analyzer.dfy | `AiAnalysis` | summary data, executive summary, risk assessment |

The pure parts of the source (score functions, the grade ladder, metric
extraction) are functions. The parts that work step by step are methods with
loops: the builders that append to a list, `run_full_audit` assigning the
overall score into its dictionary, the counter and usage-list loops of the
analyzers, and the loop of `_extract_summary_data`. Each such method is
proved equal to a specification function or to satisfy a specification
predicate, and the promised properties are proved about those.

**Failed categories are averaged.** A category whose audit raises gets the
result of `_empty_category_result`, whose `score` is 0. The overall step
keeps every dictionary value that has a `score` key
(audit_engine.py:60), so that 0 is part of the mean of six.
`EngineFacts.FailedCategoryIsAveraged` proves that scores 0, 5.0, 3.5, 2.0,
5.0, 3.5 give 3.2 (grade C), and that leaving the 0 out would give 3.8 (grade B).

## Model

| member | source | states |
|---|---|---|
| Json.Records | enhanced_analyzers.py:34-36 | a list can be read as dicts exactly when every element is a dict; the dicts are the elements, in order |
| Json.RecordList | enhanced_analyzers.py:33-34 | iterating a value and calling `.get` on each item: a list gives its dicts, `None`, numbers and booleans raise |
| Json.In | audit_engine.py:128-130 | Python's `in` is defined exactly for strings, lists and dicts and raises on anything else |
| Json.AsciiLower | audit_engine.py:157 | ASCII lower-casing keeps the length of the string |
| Json.Truthy | enhanced_analyzers.py:24 | Python truthiness of `if x:`: None, False, 0, "", [] and {} are false, every other value true; `FieldUse`, `VisitWorkflow` and `UnusedPropertiesExactly` state where it decides the result |
| Json.Field | enhanced_analyzers.py:35 | `d.get(key, default)` on a dict: the stored value when the key is present, the default otherwise; `UnusedEntry` and `TriggerField` use it |
| Json.Hashable | enhanced_analyzers.py:188-190 | a value can key a dict unless it is a list or a dict; `FieldUse`, `UnusedPropertiesExactly` and `VisitWorkflow` state where an unhashable key makes the source raise |
| Seqs.Filter | audit_engine.py:78 | a comprehension with a condition keeps only elements of the list that satisfy it, and no more of them than there are |
| Seqs.Reject | audit_engine.py:154 | a comprehension with `not` keeps only elements that fail the condition |
| Seqs.FilterRejectPartition | audit_engine.py:153-154 | the two comprehensions over one condition split the list: their lengths add up to its length |
| Seqs.DisjointFilters | enhanced_analyzers.py:92-93 | two comprehensions with conditions that never hold together take at most as many elements as the list has |
| Seqs.FilterKeeps | audit_engine.py:78 | every element that satisfies the condition is kept |
| Seqs.FilterSnoc | enhanced_analyzers.py:211-218 | a list with one more element filters to the old result plus that element exactly when it satisfies the condition |
| Seqs.FlatMapOptFailureSticks | enhanced_analyzers.py:174-190 | once a loop iteration raises, the whole loop raises |
| Seqs.FlatMapOptNone | enhanced_analyzers.py:174-190 | a loop raises exactly when one of its iterations raises |
| Seqs.FlatMapOptMembership | enhanced_analyzers.py:174-190 | when the loop completes, it holds exactly what its iterations produced |
| Seqs.FlatMapOpt | enhanced_analyzers.py:211-218 | a loop that appends each iteration's output in order and stops at the first iteration that raises; `FlatMapOptNone`, `FlatMapOptMembership` and `FlatMapOptFailureSticks` state its properties |
| Tally.TotalPick | enhanced_analyzers.py:39-46 | the sum of a counter dictionary does not depend on which key is taken first |
| Tally.TotalUpdate | enhanced_analyzers.py:41 | replacing one count changes the sum by the difference |
| Tally.Bump | enhanced_analyzers.py:39-41 | `d[k] = d.get(k, 0) + 1` adds exactly the key `k` |
| Tally.HistogramCounts | enhanced_analyzers.py:34-46 | a counter dictionary has exactly the keys counted, each mapped to its number of occurrences |
| Tally.HistogramTotal | enhanced_analyzers.py:34-46 | the counts add up to the number of keys counted |
| Tally.HistogramSnoc | enhanced_analyzers.py:39-41 | counting one more key is one more increment |
| Tally.Histogram | enhanced_analyzers.py:39-46 | the counter dict a loop builds by bumping each key in order; `HistogramCounts` and `HistogramTotal` state its keys, counts and total |
| Tally.Total | enhanced_analyzers.py:39-46 | the sum of a counter dict's counts; `TotalPick` and `TotalUpdate` state how it decomposes and changes |
| Rounding.RoundHalfEven | audit_engine.py:62 | the nearest integer, within one half |
| Rounding.Round1 | audit_engine.py:127 | `round(x, 1)` moves a value by at most 0.05 |
| Rounding.RoundHalfEvenMonotone | audit_engine.py:62 | rounding to an integer never reverses an order |
| Rounding.Round1Monotone | audit_engine.py:62 | rounding to one decimal never reverses an order |
| Rounding.Round1Tenths | audit_engine.py:62 | a value with one decimal place is left unchanged |
| Rounding.Round1Within | audit_engine.py:127 | rounding keeps a value inside any interval whose ends have one decimal place, such as [0, 100] or [0, 5] |
| Scoring.TierScore | audit_engine.py:284-293 | the three-tier rule: exactly one of 5.0, 3.5 and 2.0, excellent tested before good |
| Scoring.AdminExcellent | audit_engine.py:284-286 | the excellent admin row: users and Super Admins within their bands, integrations at least the row's minimum |
| Scoring.AdminGood | audit_engine.py:288-290 | the good admin row: users, Super Admins and integrations each within their bands |
| Scoring.PropertiesMeets | audit_engine.py:300-302 | the unused percentage is at most the row's upper bound |
| Scoring.WorkflowsExcellent | audit_engine.py:313-314 | at least the row's minimum number of workflows and an inactive percentage at most its bound |
| Scoring.WorkflowsGood | audit_engine.py:316-317 | a number of workflows within the row's band and an inactive percentage at most its bound |
| Scoring.FormsExcellent | audit_engine.py:328-329 | at least the row's minimum number of forms and an unembedded percentage at most its bound |
| Scoring.FormsGood | audit_engine.py:331-332 | a number of forms within the row's band and an unembedded percentage at most its bound |
| Scoring.ReportingMeets | audit_engine.py:343-347 | dashboards and custom reports each at least the row's minimum |
| Scoring.SalesMeets | audit_engine.py:358-362 | pipelines at least the row's minimum and an unassigned-deal percentage at most its bound |
| Scoring.AdminScore | audit_engine.py:276-293 | `_calculate_admin_score`: a tier score, 5.0 exactly when the excellent row matches and 3.5 exactly when only the good row does; `AdminScoreNotMonotoneInIntegrations` shows the two rows disagree |
| Scoring.PropertiesScore | audit_engine.py:295-305 | `_calculate_properties_score`: a tier score, 5.0 exactly when the excellent bound holds and 3.5 exactly when only the good one does; `PropertiesScoreAntitone` and `DefaultPropertiesTiers` state its order and thresholds |
| Scoring.WorkflowsScore | audit_engine.py:307-320 | `_calculate_workflows_score`: a tier score, 5.0 exactly when the excellent row matches and 3.5 exactly when only the good row does; `WorkflowsScoreAntitone` and `WorkflowsScoreNotMonotoneInTotal` state its order |
| Scoring.FormsScore | audit_engine.py:322-335 | `_calculate_forms_score`: a tier score, 5.0 exactly when the excellent row matches and 3.5 exactly when only the good row does; `FormsScoreAntitone` states its order |
| Scoring.ReportingScore | audit_engine.py:337-350 | `_calculate_reporting_score`: a tier score, 5.0 exactly when the excellent row matches and 3.5 exactly when only the good row does; `ReportingScoreMonotone` and `DefaultReportingPoor` state its order and poor case |
| Scoring.SalesScore | audit_engine.py:352-365 | `_calculate_sales_score`: a tier score, 5.0 exactly when the excellent row matches and 3.5 exactly when only the good row does; `SalesScoreMonotone` and `DefaultSalesPoor` state its order and poor case |
| Scoring.ScoreToGrade | audit_engine.py:367-378 | the grade ladder: A iff score ≥ 4.5, B iff 3.5 ≤ score < 4.5, C iff 2.5 ≤ score < 3.5, D iff 1.5 ≤ score < 2.5, F iff score < 1.5 |
| Scoring.GradeMonotone | audit_engine.py:367-378 | a higher score never gets a worse grade |
| Scoring.TierScoreMonotone | audit_engine.py:284-293 | making either tier test harder never raises the score |
| Scoring.PropertiesScoreAntitone | audit_engine.py:295-305 | under any table, more unused properties never raise the properties score |
| Scoring.WorkflowsScoreAntitone | audit_engine.py:307-320 | with the workflow count fixed, more inactive workflows never raise the score |
| Scoring.FormsScoreAntitone | audit_engine.py:322-335 | with the form count fixed, more unembedded forms never raise the score |
| Scoring.ReportingScoreMonotone | audit_engine.py:337-350 | more dashboards and more custom reports never lower the reporting score |
| Scoring.SalesScoreMonotone | audit_engine.py:352-365 | more pipelines and fewer unassigned deals never lower the sales score |
| Scoring.DefaultPropertiesTiers | audit_engine.py:18-22 | with the installed table: 5.0 iff at most 10% unused, 3.5 iff over 10% and at most 25%, 2.0 iff over 25% |
| Scoring.DefaultReportingPoor | audit_engine.py:33-37 | with the installed table, reporting scores 2.0 iff there is no dashboard |
| Scoring.DefaultSalesPoor | audit_engine.py:38-42 | with the installed table and the 5% placeholder, sales scores 2.0 iff there is no pipeline |
| Scoring.AdminScoreNotMonotoneInIntegrations | audit_engine.py:14-16 | with 15 users and 4 Super Admins, 2 integrations score 3.5 but 3 integrations score 2.0 |
| Scoring.WorkflowsScoreNotMonotoneInTotal | audit_engine.py:24-26 | with one inactive workflow, 4 workflows (25% inactive) score 3.5 but 5 workflows (20% inactive) score 2.0 |
| Extraction.Percent | audit_engine.py:122 | a guarded percentage lies in [0, 100]; it is 0 when the total is 0 or the part is 0, and 100 when the part is the total |
| Extraction.ExtractAdmin | audit_engine.py:74-87 | fails exactly when a user or integration is not a dict; total users is the list length, Super Admins ≤ users, one name per Super Admin and per active integration |
| Extraction.CountObjectType | audit_engine.py:128-130 | a count of matching properties is at most their number, and fails exactly when an object type cannot be searched |
| Extraction.ExtractProperties | audit_engine.py:106-131 | unused ≤ custom ≤ all properties, the percentage lies in [0, 100] and is 0 without custom properties, each object-type count ≤ custom; a property that is not a dict makes it fail |
| Extraction.LowerNames | audit_engine.py:157 | one lower-cased name per workflow; fails exactly when a name is not a string |
| Extraction.ExtractWorkflows | audit_engine.py:150-169 | total is the list length, active + inactive = total, the percentage lies in [0, 100] and is 0 without workflows, redundant ≤ total; an empty list never fails |
| Extraction.ExtractForms | audit_engine.py:188-201 | fails exactly when a form is not a dict; total is the list length, embedded + unembedded = total, the percentage lies in [0, 100] and is 0 without forms |
| Extraction.ExtractReporting | audit_engine.py:220-233 | fails exactly when a report is not a dict; dashboards and reports are counted and custom reports ≤ reports |
| Extraction.ExtractSales | audit_engine.py:252-260 | counts the pipelines and carries the 5% placeholder; it cannot fail |
| Advice.Fired | audit_engine.py:380-389 | a builder returns at most one message per rule, each the message of one of its rules |
| Advice.FiredMembership | audit_engine.py:380-389 | a message is returned exactly when a rule carrying it fires |
| Advice.FiredCons | audit_engine.py:382-389 | the messages come out in rule order |
| Advice.FiredAtMostOne | audit_engine.py:391-398 | rules that cannot fire together give at most one message, and one exactly when some rule fires |
| Advice.FiredNone | audit_engine.py:380-389 | when no rule fires the list is empty |
| Advice.AdminCriticalExclusive | audit_engine.py:391-398 | "no Super Admin" and "too many Super Admins" cannot both fire, so there is at most one admin critical issue |
| Advice.GetAdminRecommendations | audit_engine.py:380-389 | the list built by appending is exactly the messages of the admin rules that fire, in order |
| Advice.GetAdminCriticalIssues | audit_engine.py:391-398 | exactly the admin critical issues that fire, at most one |
| Advice.GetPropertiesRecommendations | audit_engine.py:400-407 | exactly the properties recommendations that fire, in order |
| Advice.GetPropertiesCriticalIssues | audit_engine.py:409-414 | exactly the properties critical issue when it fires, at most one |
| Advice.GetWorkflowsRecommendations | audit_engine.py:416-423 | exactly the workflows recommendations that fire, in order |
| Advice.GetWorkflowsCriticalIssues | audit_engine.py:425-430 | exactly the workflows critical issue when it fires, at most one |
| Advice.GetFormsRecommendations | audit_engine.py:432-439 | exactly the forms recommendations that fire, in order |
| Advice.GetFormsCriticalIssues | audit_engine.py:441-446 | exactly the forms critical issue when it fires, at most one |
| Advice.GetReportingRecommendations | audit_engine.py:448-455 | exactly the reporting recommendations that fire, in order |
| Advice.GetReportingCriticalIssues | audit_engine.py:457-462 | exactly the reporting critical issue when it fires, at most one |
| Advice.GetSalesRecommendations | audit_engine.py:464-471 | exactly the sales recommendations that fire, in order |
| Advice.GetSalesCriticalIssues | audit_engine.py:473-478 | exactly the sales critical issue when it fires, at most one |
| Advice.AdminRecommendationRules | audit_engine.py:380-389 | the admin recommendations in source order: more than 5 Super Admins, no active integration, more than 50 users; `FiredMembership` states what the builder returns |
| Advice.AdminCriticalRules | audit_engine.py:391-398 | the admin critical issues: no Super Admin, more than 10 Super Admins; `AdminCriticalExclusive` shows at most one fires |
| Advice.PropertiesRecommendationRules | audit_engine.py:400-407 | the properties recommendations: more than 25% unused, more than 100 custom properties |
| Advice.PropertiesCriticalRules | audit_engine.py:409-414 | the properties critical issue: more than 50% unused |
| Advice.WorkflowsRecommendationRules | audit_engine.py:416-423 | the workflows recommendations: fewer than 3 workflows, more than 25% inactive |
| Advice.WorkflowsCriticalRules | audit_engine.py:425-430 | the workflows critical issue: no workflow |
| Advice.FormsRecommendationRules | audit_engine.py:432-439 | the forms recommendations: fewer than 3 forms, more than 40% unembedded |
| Advice.FormsCriticalRules | audit_engine.py:441-446 | the forms critical issue: no form |
| Advice.ReportingRecommendationRules | audit_engine.py:448-455 | the reporting recommendations: fewer than 2 dashboards, no custom report |
| Advice.ReportingCriticalRules | audit_engine.py:457-462 | the reporting critical issue: no dashboard |
| Advice.SalesRecommendationRules | audit_engine.py:464-471 | the sales recommendations: fewer than 2 pipelines, more than 15% unassigned deals |
| Advice.SalesCriticalRules | audit_engine.py:473-478 | the sales critical issue: no pipeline |
| Results.Lookup | ai_analyzer.py:50-51 | `d.get(key)` finds a value stored under the key, and finds none only when no entry has that key |
| Results.ToEntries | audit_engine.py:48-57 | the results dictionary has eight distinct keys |
| Results.Scores | audit_engine.py:60 | the scores kept are at most as many as the entries |
| Results.ScoresCons | audit_engine.py:60 | an entry contributes its score exactly when it is a dict with a `score` |
| Results.ScoresAppend | audit_engine.py:60 | the scores of a dictionary are those of its parts, in order |
| Results.ScoresAllScored | audit_engine.py:60 | when every value has a score, every score is kept, in order |
| Results.ScoresNoneScored | audit_engine.py:60 | values without a score contribute nothing |
| Results.ScoresOfResults | audit_engine.py:55-60 | the overall step averages exactly the six category scores; `overall_score` and `overall_grade` are not dicts |
| Engine.EmptyCategoryResult | audit_engine.py:480-488 | a failed category: score 0, grade F (the ladder's grade for 0), empty metrics, one recommendation and one critical issue |
| Engine.TierGrades | audit_engine.py:367-378 | a tier score gets A, B or D: 5.0 is A, 3.5 is B, 2.0 is D |
| Engine.Graded | audit_engine.py:89-101 | what every category result satisfies: its grade is the ladder's grade of its score, it has at most one critical issue, a score of 0 is exactly the failed result, any other score is a tier score with metrics; the six audit functions ensure it |
| Engine.Sum | audit_engine.py:62 | `sum(scores)`; `SumBounds` bounds it |
| Engine.OverallScore | audit_engine.py:62 | `round(sum(scores) / len(scores), 1)` for a non-empty list; `OverallScoreBounds` keeps it in [0, 5] |
| Engine.AdminAudit | audit_engine.py:71-101 | the admin result is graded consistently; it scores 0 exactly when extraction raises, and otherwise carries the extracted metrics |
| Engine.PropertiesAudit | audit_engine.py:103-145 | the properties result is graded consistently; 0 exactly when extraction raises, the extracted metrics otherwise |
| Engine.WorkflowsAudit | audit_engine.py:147-183 | the workflows result is graded consistently; 0 exactly when extraction raises, the extracted metrics otherwise |
| Engine.FormsAudit | audit_engine.py:185-215 | the forms result is graded consistently; 0 exactly when extraction raises, the extracted metrics otherwise |
| Engine.ReportingAudit | audit_engine.py:217-247 | the reporting result is graded consistently; 0 exactly when extraction raises, the extracted metrics otherwise |
| Engine.SalesAudit | audit_engine.py:249-274 | the sales result is graded consistently and never fails |
| Engine.SumBounds | audit_engine.py:62 | a sum of values in [lo, hi] lies between n·lo and n·hi |
| Engine.OverallScoreBounds | audit_engine.py:62 | the rounded mean of scores in [0, 5] is in [0, 5] |
| Engine.CategoryScoresBounds | audit_engine.py:60-62 | the overall score of six graded categories is in [0, 5] |
| Engine.FullAudit | audit_engine.py:45-65 | each category is its own audit, the overall score is the rounded mean of the six scores, the grade is the ladder's grade of that score, and the score lies in [0, 5] |
| Engine.AuditEngine.constructor | audit_engine.py:8-43 | the engine keeps its service and installs the fixed threshold table |
| Engine.AuditEngine.AuditAdminSetup | audit_engine.py:71-101 | the method computes the admin audit with the engine's table and the service's users and integrations |
| Engine.AuditEngine.AuditProperties | audit_engine.py:103-145 | the method computes the properties audit over the three property lists |
| Engine.AuditEngine.AuditWorkflows | audit_engine.py:147-183 | the method computes the workflows audit |
| Engine.AuditEngine.AuditForms | audit_engine.py:185-215 | the method computes the forms audit |
| Engine.AuditEngine.AuditReporting | audit_engine.py:217-247 | the method computes the reporting audit |
| Engine.AuditEngine.AuditSales | audit_engine.py:249-274 | the method computes the sales audit |
| Engine.AuditEngine.RunFullAudit | audit_engine.py:45-65 | building the dictionary and then assigning the overall score and grade gives exactly the full audit |
| EngineFacts.SumWithZero | audit_engine.py:60-62 | one 0 among scores of at most 5 caps the sum at 5 per other score |
| EngineFacts.CategoryScoresRange | audit_engine.py:60 | every category score lies in [0, 5] |
| EngineFacts.FailedCategoryCapsOverall | audit_engine.py:60-63 | with one failed category the overall score is at most 4.2 and the grade is never A |
| EngineFacts.AllCategoriesSucceedFloor | audit_engine.py:60-63 | when no category fails the overall score is at least 2.0 and the grade is never F |
| EngineFacts.FailedCategoryIsAveraged | audit_engine.py:60-63 | scores 0, 5.0, 3.5, 2.0, 5.0, 3.5 give 3.2 and grade C; leaving out the 0 would give 3.8 and grade B |
| EngineFacts.SumOfExample | audit_engine.py:62 | the sums of that case |
| EngineFacts.RoundingOfExample | audit_engine.py:62 | 19/6 rounds to 3.2 and 19/5 is 3.8 |
| EngineFacts.SomeRuleFires | audit_engine.py:380-478 | a non-empty list means some rule fired |
| EngineFacts.AdminCriticalMeansPoor | audit_engine.py:391-398 | an admin critical issue always comes with the 2.0 score |
| EngineFacts.PropertiesCriticalMeansPoor | audit_engine.py:409-414 | a properties critical issue always comes with the 2.0 score |
| EngineFacts.WorkflowsCriticalMeansPoor | audit_engine.py:425-430 | a workflows critical issue always comes with the 2.0 score |
| EngineFacts.FormsCriticalMeansPoor | audit_engine.py:441-446 | a forms critical issue always comes with the 2.0 score |
| EngineFacts.ReportingCriticalIffPoor | audit_engine.py:457-462 | the reporting critical issue fires iff reporting scores 2.0 |
| EngineFacts.SalesCriticalIffPoor | audit_engine.py:473-478 | the sales critical issue fires iff sales scores 2.0 |
| EngineFacts.CriticalIssuesOnlyInPoorCategories | audit_engine.py:380-478 | in a full audit, a category with a critical issue scored 2.0 or failed |
| EngineFacts.PoorRowNeverConsulted | audit_engine.py:276-365 | changing only the poor rows of the table changes no result |
| EngineFacts.HealthyAdmin | audit_engine.py:284-287 | 8 users, 2 Super Admins, 4 integrations: 5.0, A, no recommendation, no critical issue |
| EngineFacts.MostlyUnusedProperties | audit_engine.py:295-305 | 30% unused: 2.0, D, the clean-up recommendation, no critical issue |
| EngineFacts.PropertiesPoorIffCleanUp | audit_engine.py:400-407 | properties scores 2.0 iff the clean-up recommendation is made |
| EngineFacts.NoWorkflowsAtAll | audit_engine.py:147-183 | no workflows: 0% inactive, 2.0, D, the missing-automation issue and the more-workflows recommendation |
| WorkflowAnalysis.EnrollmentStatsOf | enhanced_analyzers.py:82-99 | stats only for a dict with `results`; active + completed ≤ total; with a list of results, stats exist iff every result is a dict, and total is its length |
| WorkflowAnalysis.TriggerField | enhanced_analyzers.py:35-36 | one value of the named trigger field (type or objectType, defaulting to "unknown") per trigger |
| WorkflowAnalysis.VisitWorkflow | enhanced_analyzers.py:22-51 | a non-dict workflow raises; one without a truthy id or with empty details is skipped; a counted one has as many trigger types as object types, all hashable |
| WorkflowAnalysis.Collect | enhanced_analyzers.py:22-51 | the loop gathers as many trigger types as object types |
| WorkflowAnalysis.CollectFailureSticks | enhanced_analyzers.py:58-60 | once a workflow raises, the whole analysis is discarded |
| WorkflowAnalysis.CollectStep | enhanced_analyzers.py:22-51 | one more workflow adds its visit |
| WorkflowAnalysis.SkippedWorkflowAddsNothing | enhanced_analyzers.py:23-30 | a workflow without an id or with empty details contributes nothing |
| WorkflowAnalysis.PatternsDetermined | enhanced_analyzers.py:101-126 | at most two patterns, and their kinds and counts are determined: only the key among ties may vary |
| WorkflowAnalysis.TopOfHistogram | enhanced_analyzers.py:110 | the top count is at least 1 and at most the number of triggers counted |
| WorkflowAnalysis.IsTop | enhanced_analyzers.py:110 | a key with the largest count of the histogram, paired with that count |
| WorkflowAnalysis.ArePatterns | enhanced_analyzers.py:101-126 | the specification of `_identify_trigger_patterns`: a trigger pattern exactly when there are triggers, then an object pattern exactly when there are objects, each naming a top key and its count; `PatternsDetermined` states what it fixes |
| WorkflowAnalysis.EmptyTriggerAnalysis | enhanced_analyzers.py:58-60 | the analysis after an exception has empty histograms, patterns and enrollment data |
| WorkflowAnalysis.IsTriggerAnalysis | enhanced_analyzers.py:12-60 | the specification of `analyze_workflow_triggers`: the two histograms of the collected triggers, the enrollment data and admissible patterns, or the empty analysis when a workflow raises; `HistogramsCountEveryTrigger` states its counts |
| WorkflowAnalysis.HistogramsCountEveryTrigger | enhanced_analyzers.py:34-46 | both histograms add up to the number of triggers processed; in each of `common_triggers` and `object_types` the keys are exactly the values seen and each count is the number of triggers carrying that key |
| WorkflowAnalysis.WorkflowAnalyzer.constructor | enhanced_analyzers.py:9-10 | the analyzer keeps the service's details and enrollment responses |
| WorkflowAnalysis.WorkflowAnalyzer.MostCommon | enhanced_analyzers.py:110 | `max` over a non-empty counter returns a key with the largest count |
| WorkflowAnalysis.WorkflowAnalyzer.IdentifyTriggerPatterns | enhanced_analyzers.py:101-126 | a trigger pattern iff there are triggers, then an object pattern iff there are objects, each naming a top key and its count |
| WorkflowAnalysis.WorkflowAnalyzer.CountTriggers | enhanced_analyzers.py:34-46 | the counter loop bumps each trigger's type and object type once |
| WorkflowAnalysis.WorkflowAnalyzer.AnalyzeWorkflowTriggers | enhanced_analyzers.py:12-60 | the histograms count exactly the processed triggers, the enrollment data and patterns are as specified, and any exception gives the empty analysis |
| PropertyAnalysis.FieldUse | enhanced_analyzers.py:182-190 | a field contributes a use only with a truthy, hashable name, tagged with its form's name |
| PropertyAnalysis.GroupUses | enhanced_analyzers.py:181-190 | the uses of one field group's `fields`, in order, or none when iterating them raises; `RecordGroup` is proved to record exactly these uses |
| PropertyAnalysis.FormUses | enhanced_analyzers.py:174-190 | the uses of one form's field groups, in order, tagged with the form's name, or none when it raises; `FormUsesCarryFormName` states what they carry |
| PropertyAnalysis.AllUses | enhanced_analyzers.py:174-190 | the uses of every form in form order, or none when the triple loop raises; `FormUsageKeysAndForms` states what the index built from them holds |
| PropertyAnalysis.UsageIndex | enhanced_analyzers.py:188-190 | the dictionary built by recording the uses in order; `UsageIndexIsReference` and `UsageIndexTotal` state its keys, lists and total |
| PropertyAnalysis.FormUsageOf | enhanced_analyzers.py:170-192 | what `_analyze_form_property_usage` returns, or none when it raises; `AnalyzeFormPropertyUsage` is proved equal to it |
| PropertyAnalysis.FormsUsing | enhanced_analyzers.py:188-190 | the reference definition: the forms of the uses of one property, in order, with repeats; `FormsUsingMembership` and `FormsUsingNonEmpty` state its contents |
| PropertyAnalysis.AddUse | enhanced_analyzers.py:188-190 | recording a use adds exactly its property as a key |
| PropertyAnalysis.UsageIndexSnoc | enhanced_analyzers.py:188-190 | recording one more use appends one form name |
| PropertyAnalysis.FormsUsingSnoc | enhanced_analyzers.py:190 | the reference definition grows by the form of a use of that property |
| PropertyAnalysis.FormsUsingNonEmpty | enhanced_analyzers.py:188-189 | a property has forms exactly when some use names it |
| PropertyAnalysis.UsageIndexIsReference | enhanced_analyzers.py:170-192 | the usage dictionary's keys are exactly the named properties, each list the forms of its uses in order, duplicates kept |
| PropertyAnalysis.UsageIndexTotal | enhanced_analyzers.py:170-192 | the lengths of all lists add up to the number of named fields |
| PropertyAnalysis.LengthsAddUse | enhanced_analyzers.py:190 | recording a use lengthens exactly one list by one |
| PropertyAnalysis.FormUsesCarryFormName | enhanced_analyzers.py:174-190 | a form's uses carry its name and name truthy, hashable properties |
| PropertyAnalysis.FormUsageKeysAndForms | enhanced_analyzers.py:170-192 | every key is a truthy field name, and every entry of its list is the name of a form holding that field |
| PropertyAnalysis.FormsUsingMembership | enhanced_analyzers.py:188-190 | a form is listed under a property exactly when a use pairs them |
| PropertyAnalysis.UnusedPropertiesExactly | enhanced_analyzers.py:207-220 | raises exactly on a non-dict property or a truthy unhashable name; otherwise lists exactly the properties with a truthy name in neither dictionary |
| PropertyAnalysis.UnusedPropertiesInOrder | enhanced_analyzers.py:207-220 | when it does not raise, the list is the unused properties filtered in input order, one entry per unused property, repeats kept |
| PropertyAnalysis.UnusedEntry | enhanced_analyzers.py:214-218 | the entry of an unused property: its name, type and object type, defaulting to "unknown" |
| PropertyAnalysis.UnusedCheck | enhanced_analyzers.py:211-218 | one iteration: raises on a non-dict or an unhashable truthy name, one entry for an unused property, nothing otherwise |
| PropertyAnalysis.UnusedOf | enhanced_analyzers.py:207-220 | what `_identify_unused_properties` returns, or none when it raises; `UnusedPropertiesExactly` and `UnusedPropertiesInOrder` state its contents and order |
| PropertyAnalysis.CollectSkip | enhanced_analyzers.py:228-233 | a key used fewer than three times adds nothing |
| PropertyAnalysis.CollectAdd | enhanced_analyzers.py:228-241 | a key used three times or more adds its entry once |
| PropertyAnalysis.AppendKeepsCovered | enhanced_analyzers.py:228-241 | after adding a key's entry, every high-value key visited has an entry |
| PropertyAnalysis.ReorderingKeepsCover | enhanced_analyzers.py:243 | sorting keeps exactly the entries, and their names stay distinct |
| PropertyAnalysis.HighValueEntriesCount | enhanced_analyzers.py:229-241 | every entry has total = form count + workflow count ≥ 3, and lists the forms and workflows using it |
| PropertyAnalysis.HighValueTotalsDetermined | enhanced_analyzers.py:222-243 | two admissible results hold the same entries, so only the order among equal totals may differ |
| PropertyAnalysis.HighValueMultiset | enhanced_analyzers.py:222-243 | each high-value entry occurs exactly once, and nothing else occurs |
| PropertyAnalysis.IsHighValue | enhanced_analyzers.py:228-233 | a key of either dictionary whose form and workflow uses number at least 3 |
| PropertyAnalysis.AreHighValueProperties | enhanced_analyzers.py:222-243 | the specification of `_identify_high_value_properties`: one entry per high-value key, each built from the dictionaries, names distinct, non-increasing in total usage; `HighValueMultiset` and `HighValueTotalsDetermined` state what it fixes |
| PropertyAnalysis.EmptyPropertyUsage | enhanced_analyzers.py:163-168 | the analysis after an exception is empty |
| PropertyAnalysis.IsPropertyUsage | enhanced_analyzers.py:132-168 | the specification of `analyze_property_usage`: the form and workflow usage, no population stats, the unused list and admissible high-value list, or the empty analysis when a step raises; `HighValueMeansThreeFormFields` states a consequence |
| PropertyAnalysis.HighValueMeansThreeFormFields | enhanced_analyzers.py:132-168 | the workflow usage is empty, every high-value property is named by at least three form fields, and no unused property is high-value |
| PropertyAnalysis.PropertyAnalyzer.constructor | enhanced_analyzers.py:129-130 | the analyzer keeps the forms and workflows the service returns |
| PropertyAnalysis.PropertyAnalyzer.RecordFields | enhanced_analyzers.py:182-190 | the loop over a group's fields records exactly its uses, or raises when a use does |
| PropertyAnalysis.PropertyAnalyzer.RecordGroup | enhanced_analyzers.py:181-190 | one group records its fields' uses, or raises |
| PropertyAnalysis.PropertyAnalyzer.RecordGroups | enhanced_analyzers.py:180-190 | the loop over a form's groups records all their uses, or raises |
| PropertyAnalysis.PropertyAnalyzer.AnalyzeFormPropertyUsage | enhanced_analyzers.py:170-192 | the triple loop builds exactly the usage dictionary of all named fields, or raises |
| PropertyAnalysis.PropertyAnalyzer.AnalyzeWorkflowPropertyUsage | enhanced_analyzers.py:194-205 | always the empty dictionary, raising exactly on a workflow that is not a dict |
| PropertyAnalysis.PropertyAnalyzer.IdentifyUnusedProperties | enhanced_analyzers.py:207-220 | the loop appends exactly the entries of the unused properties, or raises |
| PropertyAnalysis.PropertyAnalyzer.InsertByUsage | enhanced_analyzers.py:243 | inserting keeps the list non-increasing in total usage and adds exactly the one entry |
| PropertyAnalysis.PropertyAnalyzer.SortByUsage | enhanced_analyzers.py:243 | `sorted(..., reverse=True)` gives a permutation that is non-increasing in total usage |
| PropertyAnalysis.PropertyAnalyzer.CollectHighValue | enhanced_analyzers.py:226-241 | the loop over the keys of both dictionaries yields one entry for each high-value key, each once |
| PropertyAnalysis.PropertyAnalyzer.VisitKey | enhanced_analyzers.py:229-241 | one key adds its entry exactly when its total is at least 3 |
| PropertyAnalysis.PropertyAnalyzer.IdentifyHighValueProperties | enhanced_analyzers.py:222-243 | one entry per high-value key, built from the dictionaries, names distinct, non-increasing in total usage |
| PropertyAnalysis.PropertyAnalyzer.AnalyzePropertyUsage | enhanced_analyzers.py:132-168 | the analysis combines the four steps; any exception gives the empty analysis |
| AiAnalysis.Summarize | ai_analyzer.py:57-63 | a category is copied with score defaulting to 0, grade to F and critical issues to an empty list |
| AiAnalysis.CategoriesExactly | ai_analyzer.py:55-63 | the categories are exactly the dict values holding a score, each under its key, copied with defaults |
| AiAnalysis.CategoriesAllScored | ai_analyzer.py:55-63 | when every value has a score, every entry becomes a category, in order |
| AiAnalysis.CategoriesNoneScored | ai_analyzer.py:55-63 | values without a score give no category |
| AiAnalysis.ExtractSummaryData | ai_analyzer.py:47-65 | the loop builds the summary data: the overall score (default 0) and grade (default F), and the categories |
| AiAnalysis.CategoriesOf | ai_analyzer.py:55-63 | the categories the loop keeps, in dictionary order; `CategoriesExactly`, `CategoriesAllScored` and `CategoriesNoneScored` state its contents |
| AiAnalysis.SummaryOf | ai_analyzer.py:47-65 | the specification of `_extract_summary_data`: the overall score and grade with defaults 0 and F, and the kept categories; `ExtractSummaryData` is proved equal to it |
| AiAnalysis.TierOf | ai_analyzer.py:167-175 | Excellent iff score ≥ 4.0, Good iff 3.0 ≤ score < 4.0, Developing iff 2.0 ≤ score < 3.0, needs attention iff score < 2.0 |
| AiAnalysis.TierMonotone | ai_analyzer.py:167-175 | a higher score never gets a worse wording |
| AiAnalysis.TierAndGradeAgree | ai_analyzer.py:167-175 | each wording goes with two neighbouring grades of the engine's ladder |
| AiAnalysis.Opening | ai_analyzer.py:168-175 | each wording's text begins with its own letter |
| AiAnalysis.ExecutiveSummaryText | ai_analyzer.py:168-175 | the text begins with its wording's letter and holds the grade right after the wording's opening |
| AiAnalysis.SummaryTextDeterminesTier | ai_analyzer.py:168-175 | equal texts come from the same wording and the same grade |
| AiAnalysis.Closing | ai_analyzer.py:169-175 | the text after the grade for each wording; `SummaryTextDeterminesTier` shows the whole text still tells wording and grade |
| AiAnalysis.GradeText | ai_analyzer.py:166 | the grade as the f-string renders a string grade |
| AiAnalysis.ExecutiveSummary | ai_analyzer.py:163-175 | a summary exists exactly when the overall score is a number, and it is the text of the score's wording with the grade |
| AiAnalysis.IssueCountBounds | ai_analyzer.py:179-182 | with at most one issue per category the count is at most the number of categories; one issue makes it positive |
| AiAnalysis.IssueCount | ai_analyzer.py:179-182 | the generator `sum` of critical issues over the categories; `IssueCountBounds` and `IssueCountOfSix` state its bounds and value on engine results |
| AiAnalysis.RiskLevelOf | ai_analyzer.py:184-189 | Low iff no issue, Medium iff 1 to 3, High iff more than 3 |
| AiAnalysis.RiskMonotone | ai_analyzer.py:184-189 | more critical issues never lower the risk level |
| AiAnalysis.NatToString | ai_analyzer.py:187 | `str(n)` has at least one digit |
| AiAnalysis.NatToStringRoundTrip | ai_analyzer.py:187 | reading back the digits gives the count |
| AiAnalysis.RiskOpening | ai_analyzer.py:187 | the Medium and High texts begin with their level's letter |
| AiAnalysis.RiskClosing | ai_analyzer.py:187-189 | the text after the count for the Medium and High levels; `RiskTextInjective` shows the whole text still tells the count |
| AiAnalysis.RiskText | ai_analyzer.py:184-189 | the text begins with its level's letter |
| AiAnalysis.LowRiskText | ai_analyzer.py:185 | the Low text begins with its level's letter |
| AiAnalysis.RiskAssessment | ai_analyzer.py:177-189 | the assessment is the text for the number of critical issues over all categories |
| AiAnalysis.RiskTextInjective | ai_analyzer.py:184-189 | equal texts come from equal counts: the level and the embedded count are exact |
| AiAnalysis.EmptyAuditSummary | ai_analyzer.py:47-65 | an empty audit result gives score 0 and grade F, the needs-attention text with F, and Low risk |
| AiAnalysis.ResultSummary | ai_analyzer.py:57-63 | an engine category is copied whole, without defaults |
| AiAnalysis.SummaryOfEngineResults | ai_analyzer.py:47-65 | on the engine's results the summary holds the overall score and grade and the six categories in order |
| AiAnalysis.IssueCountOfSix | ai_analyzer.py:179-182 | the count over six categories is the sum of their counts |
| AiAnalysis.ExecutiveSummaryOfEngineResults | ai_analyzer.py:163-175 | on consistent results the summary exists and names the ladder's grade of the overall score |
| AiAnalysis.RiskOfEngineResults | ai_analyzer.py:177-189 | on consistent results there are at most six critical issues, and a failed category makes the risk at least Medium |

## Left out

- The calls to the language model (`_generate_ai_summary`, `_generate_strategic_recommendations`, `_generate_action_plan`) and the fallback of `generate_comprehensive_report`: a foreign, nondeterministic service.
- The HTTP client (hubspot_service.py): every fetcher becomes an input list (`Engine.Gateway`, the analyzers' fields). Each fetcher is assumed to return a list; a non-list payload (which fails or miscounts the category in Python) is not modelled.
- `_get_workflow_details` and the API call inside `_get_workflow_enrollments`: their responses are given as maps from workflow id to the decoded response.
- pdf_generator.py, routes.py, app.py, email_gate.py and models.py are not part of this model: layout, web routing, sessions and persistence.
- Binary floating point: scores and percentages are exact reals and `round(x, 1)` rounds half to even on the exact value, so a percentage that a double would round differently at a tie is not modelled. `float('inf')` is an unbounded upper end.
- `Json.AsciiLower`: lower-cases ASCII letters only; Unicode case mapping is not modelled.
- Python's `1 == True` (and `0 == False`) as dict keys: numbers and booleans are distinct keys here.
- The prose of the trigger patterns (`description`, `recommendation`): a pattern keeps its kind, key and count.
- `WorkflowAnalysis.WorkflowAnalyzer.MostCommon`: `max` returns the first key with the largest count in dict order; the model returns some key with the largest count, because dict order is not modelled.
- `PropertyAnalysis.PropertyAnalyzer.IdentifyHighValueProperties`: the order among entries with equal totals follows set iteration order, which is not modelled; the contract fixes the entries and the sorted order of totals only.
- `WorkflowAnalysis.VisitWorkflow`: an unhashable trigger type or object type is rejected before any counter of that workflow is bumped; since an exception discards the whole analysis, the result is the same.
- The outer `except` of `run_full_audit` (returning `{}`): every category catches its own exceptions and the overall step cannot raise on the dictionary it built, so that branch is unreachable and is not modelled.
- The `properties` argument of `_analyze_form_property_usage` and `_analyze_workflow_property_usage` is never read, so the methods do not take it.
- `population_stats` is always the empty dictionary.
- `AiAnalysis.GradeText`: the grade is embedded as a string only when it is a string; the `str()` rendering of other values is not modelled.
- `AiAnalysis.ExecutiveSummary`: an overall score is a number or fails the comparison; a boolean score, which Python compares as 0 or 1, is not modelled.
- Logging is left out.
