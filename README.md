# VerifyHire score logic, page state and analysis function in Dafny

VerifyHire is a React and Supabase application. HR users upload resumes. An edge function asks a language model for a structured skill analysis and stores it. The pages then rank, colour, count and compare candidates by their scores. This project models the application's deterministic core and proves what it promises:

- the record and enum shapes (`Types`);
- the three-tier score classifier and the badge and bar built on it (`ScoreDisplay`);
- the relevancy/credibility blend and the demo dataset (`DemoData`);
- the demo ranking with its stable in-place sort (`DemoDashboard`);
- the HR dashboard counters (`Dashboard`);
- the compare page: selection, grouping, skill union, best-per-skill and summary (`Compare`);
- the report pages (`Report`, `DemoReport`);
- the candidate self-check page (`CandidateDashboard`);
- the bulk-upload list (`BulkUpload`);
- the `parse-resume` edge function (`ParseResume`);
- the route table and route guard (`App`).

Shared helpers:

- `Seqs`: `filter`, counts and order-preserving de-duplication.
- `Strings`: `startsWith`, and `replace` with a string pattern.
- `Rounding`: `Math.round(n / d)` in integer arithmetic, `RoundDiv(n, d) = (2n + d) div 2d`.

Code that works step by step is written as methods with loops and proved against specification functions:

- the `skillsByResume` grouping and `getBestForSkill` in `Compare`;
- the in-place sort in `DemoDashboard`;
- the bulk-upload list (a class whose `files` field the methods rewrite);
- the candidate page state;
- the edge function's handler (a class over the `resumes` table and the inserted `resume_skills` rows).

The rest is functions and lemmas.

The model follows the code as written, including where it differs from what the pages or the product copy suggest:

- **Thresholds.** The classifier uses 70/40. The dashboards count with 70/50. The candidate page colours with 75/50.
- **Derived scores.** No ATS score is derived from its breakdown. Credibility is not derived. `overall_score` is not clamped.
- **Malformed analyses.** A malformed analysis is not rejected: arguments that do not parse leave the resume "parsing".
- **Toggling twice.** On the compare page, toggling the same id twice restores the selection only when the id was absent or was the last one selected. Otherwise it moves the id to the end (`Compare.ToggleTwiceRestores`).
- **Retrying failed uploads.** Bulk-upload entries that failed are retried only on a later run. After a run nothing is pending, so the Analyze button stays disabled until a new file is added (`BulkUpload.RunLeavesNothingPending`).
- **Bulk-upload toast.** The success toast counts the list captured when the run started, so it can report failures as successes (`BulkUpload.BulkUploadPage.ProcessAll`, see Findings).
- **Route matching.** No route sets `caseSensitive`, so React Router 6 matches every path pattern regardless of ASCII case and with any number of trailing slashes: "/Dashboard" and "/dashboard/" show the HR dashboard (`App.RouteDependsOnCanonicalPath`).

## Model

| member | source | states |
|---|---|---|
| Types.ParseStatus | src/lib/types.ts:15 | a stored status is exactly one of pending, parsing, completed, failed; any other text is rejected |
| Types.ParseConfidence | src/lib/types.ts:36 | a confidence is exactly one of verified, partially_verified, unverified |
| Types.ParseTimeline | src/lib/types.ts:54 | a timeline consistency is exactly one of consistent, minor_gaps, inconsistent |
| Types.NamesRoundTrip | src/lib/types.ts:15-54 | parsing the wire name of every status, confidence and timeline value gives that value back |
| Types.Truthy | src/pages/Report.tsx:124 | JavaScript truthiness of a nullable string: present and non-empty |
| Types.OrElse | src/pages/Dashboard.tsx:144 | `a \|\| b` on a nullable string: the value when present and non-empty, otherwise the fallback |
| Rounding.RoundDiv | src/lib/demo-data.ts:430 | `Math.round(n/d)` is the integer r with 2dr - d <= 2n < 2dr + d (halves round up) |
| Rounding.RoundDivUnique | src/lib/demo-data.ts:430 | that bracket has exactly one solution |
| Rounding.RoundDivMonotone | src/pages/Compare.tsx:300 | rounding is monotone in the numerator |
| Rounding.RoundDivBetween | src/pages/Compare.tsx:300 | a rounded quotient of a numerator between d*lo and d*hi lies in [lo, hi] |
| ScoreDisplay.GetScoreLevel | src/components/ScoreDisplay.tsx:27-31 | high iff score >= 70, medium iff 40 <= score < 70, low iff score < 40 |
| ScoreDisplay.TextClass | src/components/ScoreDisplay.tsx:61 | the score text colour of a level: score-high, score-medium, score-low |
| ScoreDisplay.FillClass | src/components/ScoreDisplay.tsx:55 | the bar fill colour of a level: bg-score-high, bg-score-medium, bg-score-low |
| ScoreDisplay.BadgeClass | src/components/ScoreDisplay.tsx:7-24 | the badge variant of a level |
| ScoreDisplay.ScoreBadge | src/components/ScoreDisplay.tsx:38-45 | the badge: the variant of the score's level and the bare score |
| ScoreDisplay.ScoreBar | src/components/ScoreDisplay.tsx:53-70 | the bar: label, score% in the level's text colour, the level's fill colour and a width of score% |
| ScoreDisplay.LevelBoundaries | src/components/ScoreDisplay.tsx:27-31 | 70 is high, 69 medium, 40 medium, 39 low |
| ScoreDisplay.LevelMonotone | src/components/ScoreDisplay.tsx:27-31 | a <= b implies level(a) <= level(b) in the order low < medium < high |
| ScoreDisplay.ClassesIdentifyLevel | src/components/ScoreDisplay.tsx:14-24 | text, fill and badge classes are equal exactly when the levels are equal |
| ScoreDisplay.ComponentsColourByLevel | src/components/ScoreDisplay.tsx:39-68 | badge and bar colours agree exactly when the levels agree; the bar is score% wide and both show the score |
| DemoData.DemoIds | src/lib/demo-data.ts:31-422 | the dataset has 10 candidates, with ids demo-1 to demo-10 in order |
| DemoData.DemoIdsDistinct | src/lib/demo-data.ts:31-422 | the demo ids are pairwise distinct |
| DemoData.DemoScoresInRange | src/lib/demo-data.ts:31-422 | every relevancy, credibility and skill score of the dataset is in [0,100] |
| DemoData.CalculateOverallScore | src/lib/demo-data.ts:424-431 | the result is `Math.round` of the weighted mean r*w/100 + c*(100-w)/100: within half a point of it, halves rounding up |
| DemoData.BlendClosedForm | src/lib/demo-data.ts:424-431 | the blend is (r*w + c*(100-w) + 50) div 100 |
| DemoData.BlendExamples | src/lib/demo-data.ts:430 | blend(72,65,50) = 69 and blend(88,91,50) = 90 (half rounds up) |
| DemoData.BlendEndpoints | src/lib/demo-data.ts:429-430 | weight 0 gives credibility, weight 100 gives relevancy |
| DemoData.BlendOfEqualScores | src/lib/demo-data.ts:430 | equal scores blend to that score for every weight |
| DemoData.BlendSymmetric | src/lib/demo-data.ts:429-430 | blend(r,c,w) = blend(c,r,100-w) |
| DemoData.BlendBetween | src/lib/demo-data.ts:429-430 | for w in [0,100] the blend lies between min(r,c) and max(r,c) |
| DemoData.BlendInRange | src/lib/demo-data.ts:429-430 | scores and weight in [0,100] give a blend in [0,100] |
| DemoData.BlendMonotone | src/lib/demo-data.ts:430 | for w in [0,100] the blend does not decrease when r or c increases |
| DemoDashboard.SliderShares | src/pages/DemoDashboard.tsx:89-92 | on the 10..90 step-5 slider, weight and credibility share are both slider values and sum to 100 |
| DemoDashboard.OnSlider | src/pages/DemoDashboard.tsx:92 | the slider positions: 10 to 90 in steps of 5 |
| DemoDashboard.CredibilityShare | src/pages/DemoDashboard.tsx:90 | the displayed credibility share 100 - weight |
| DemoDashboard.WithScores | src/pages/DemoDashboard.tsx:27-30 | one row per candidate, in order, each with overallScore = blend(relevancy, credibility, weight) |
| DemoDashboard.SortRowsPermutation | src/pages/DemoDashboard.tsx:31 | the sorted rows are a permutation of the input rows |
| DemoDashboard.SortRowsOrdered | src/pages/DemoDashboard.tsx:31 | the sorted rows are non-decreasing by score when ascending, non-increasing otherwise |
| DemoDashboard.SortRowsStable | src/pages/DemoDashboard.tsx:31 | rows with equal scores keep their dataset order (stable sort) |
| DemoDashboard.SortRows | src/pages/DemoDashboard.tsx:31 | the comparator sort as repeated stable insertion; keeps the number of rows |
| DemoDashboard.SinkInto | src/pages/DemoDashboard.tsx:31 | one insertion step on the array: the prefix up to i becomes the sorted insertion of a[i], and the rest is unchanged |
| DemoDashboard.SortInPlace | src/pages/DemoDashboard.tsx:31 | sorting the array in place leaves exactly SortRows of its old contents |
| DemoDashboard.RankCandidates | src/pages/DemoDashboard.tsx:26-32 | the ranked list is SortRows(WithScores(dataset, weight)) on a fresh copy, so the dataset is not mutated |
| DemoDashboard.RankingFacts | src/pages/DemoDashboard.tsx:26-32 | the ranking is a permutation of the scored rows, every row carries its candidate's blend, and it is ordered |
| DemoDashboard.HighCount | src/pages/DemoDashboard.tsx:34 | rows scoring at least 70 |
| DemoDashboard.AtRiskCount | src/pages/DemoDashboard.tsx:35 | rows scoring below 50 |
| DemoDashboard.CountsBounded | src/pages/DemoDashboard.tsx:34-35 | high (>= 70) plus at-risk (< 50) counts are at most the candidate count, and sorting changes neither |
| Dashboard.CompletedExactly | src/pages/Dashboard.tsx:41 | completed resumes are exactly the resumes with status completed, in order (filtering distributes over concatenation) |
| Dashboard.CompletedResumes | src/pages/Dashboard.tsx:41 | a subsequence of the resumes holding only completed ones |
| Dashboard.VerifiedCount | src/pages/Dashboard.tsx:42 | completed resumes scoring at least 70; never more than the completed resumes |
| Dashboard.AtRiskCount | src/pages/Dashboard.tsx:43 | completed resumes scoring below 50; never more than the completed resumes |
| Dashboard.CountersSelectCompletedOnly | src/pages/Dashboard.tsx:42-43 | verified counts completed resumes with score >= 70, at-risk completed ones with score < 50; others are never counted |
| Dashboard.CountersBounded | src/pages/Dashboard.tsx:41-43 | verified + at-risk <= completed <= total |
| Dashboard.Rate | src/pages/Dashboard.tsx:47-48 | the rate text is the zero form exactly when nothing is completed, otherwise the share count/completed |
| Dashboard.RatesWellDefined | src/pages/Dashboard.tsx:47-48 | every share shown has a positive denominator and a numerator no larger than it |
| Dashboard.RecentResumes | src/pages/Dashboard.tsx:128 | at most the first 10 resumes are listed, as a prefix of the list |
| Dashboard.RowFallbacks | src/pages/Dashboard.tsx:129-163 | a non-completed row is medium level with badge score 0 and shows its status word; the name falls back to file_name and the subtitle to the status |
| Compare.GroupingStepAt | src/pages/Compare.tsx:73-76 | pushing skill i onto its resume's list extends the grouping of the first i skills to the first i+1 |
| Compare.GroupByResume | src/pages/Compare.tsx:72-76 | the map's keys are exactly the resume ids present, and each list is the skills of that resume in their original order |
| Compare.Entries | src/pages/Compare.tsx:83-87 | each skill row becomes an entry with its name, score and confidence, in order |
| Compare.BuildCandidates | src/pages/Compare.tsx:78-88 | one candidate per completed resume, in order |
| Compare.ToCandidate | src/pages/Compare.tsx:78-88 | one candidate: name falls back to the file name, role to Unknown, skills are the resume's grouped rows |
| Compare.CandidatesCarryOwnSkills | src/pages/Compare.tsx:78-88 | every candidate carries exactly its own resume's skills, in order, or none |
| Compare.Toggle | src/pages/Compare.tsx:93-99 | a present id is removed and the others are kept in order; an absent id is ignored at 3 and appended below 3 |
| Compare.ToggleKeepsValid | src/pages/Compare.tsx:93-99 | toggling preserves "at most 3 ids and no duplicates" |
| Compare.CardDisabled | src/pages/Compare.tsx:167-168 | a card is disabled when it is not selected and three candidates are |
| Compare.ToggleTwiceAbsent | src/pages/Compare.tsx:93-99 | toggling an absent id twice restores the selection |
| Compare.ToggleTwicePresent | src/pages/Compare.tsx:93-99 | toggling a present id twice moves it to the end |
| Compare.ToggleTwiceRestores | src/pages/Compare.tsx:93-99 | toggling twice restores the selection exactly when the id was absent or last |
| Compare.DisabledIffToggleIsNoOp | src/pages/Compare.tsx:167-173 | a card is disabled exactly when toggling it would change nothing |
| Compare.Selected | src/pages/Compare.tsx:101 | the fetched candidates whose id is selected, in fetched order |
| Compare.ShowComparison | src/pages/Compare.tsx:200 | the comparison shows from two selected candidates on |
| Compare.SelectedFacts | src/pages/Compare.tsx:101 | the selected candidates are those whose id is selected, in candidate-list order, independent of selection order |
| Compare.SkillNames | src/pages/Compare.tsx:104 | `flatMap` of the selected candidates' skill names, in order |
| Compare.SkillNamesMembers | src/pages/Compare.tsx:104 | the flattened names are exactly the skill names some selected candidate lists |
| Compare.AllSkillsFacts | src/pages/Compare.tsx:103-105 | the skill union has no duplicates, keeps first-appearance order and holds exactly the selected candidates' skill names |
| Compare.AllSkills | src/pages/Compare.tsx:103-105 | `Array.from(new Set(...))` over the selected candidates' skill names |
| Compare.GetSkill | src/pages/Compare.tsx:107-108 | `candidate.skills.find` by name: `Seqs.FindFirst` with the name predicate |
| Compare.Rating | src/pages/Compare.tsx:110-119 | the score a candidate competes with in `getBestForSkill`: its skill's score, or the starting -1 |
| Compare.GetBestForSkill | src/pages/Compare.tsx:110-121 | "" when no selected candidate has the skill with a score above -1; otherwise the id of the first candidate with the strictly greatest score |
| Compare.SumBetween | src/pages/Compare.tsx:300 | a sum of scores in [lo, hi] lies between len*lo and len*hi |
| Compare.AverageScore | src/pages/Compare.tsx:299-301 | `Math.round` of the mean skill score (within half a point of Sum/len, halves rounding up), 0 without skills |
| Compare.AverageBetween | src/pages/Compare.tsx:299-301 | the rounded mean lies between the least and greatest skill score |
| Compare.SummaryFacts | src/pages/Compare.tsx:297-301 | verified + at-risk <= number of skills; the mean of no skills is 0 |
| Report.ConfigFor | src/pages/Report.tsx:203 | a declared confidence gets its own entry; a name inherited from `Object.prototype` gets none, since the lookup finds a truthy value without an icon; any other text gets the unverified (Risk) entry |
| Report.ConfigForCases | src/pages/Report.tsx:203 | check icon iff "verified", warning iff "partially_verified", Risk title iff the text is neither and not an inherited `Object.prototype` name |
| Report.HasJD | src/pages/Report.tsx:124 | `!!resume.job_description` |
| Report.ScoreCard | src/pages/Report.tsx:437-449 | with a subtitle the card shows a dash in muted colour; without one it shows the score coloured by its level |
| Report.RelevancyCard | src/pages/Report.tsx:153 | the relevancy card: the stored score with a job description, otherwise a dash and "No JD provided" |
| Report.RelevancyCardFacts | src/pages/Report.tsx:124-153 | with a job description the relevancy card shows relevancy_score; without one it shows a dash and "No JD provided" |
| Report.RatiosBounded | src/pages/Report.tsx:296-300 | certificates are shown as verified/(verified+unverified) and projects as with-links/(with+without), each numerator within its denominator |
| Report.CertRatio | src/pages/Report.tsx:296 | certificates shown as verified/(verified + unverified) |
| Report.ProjectRatio | src/pages/Report.tsx:300 | projects shown as with-links/(with + without links) |
| Report.SkillConfigs | src/pages/Report.tsx:202-218 | one entry per skill, in order, or none exactly when some skill's confidence is an inherited name whose badge cannot be drawn |
| Report.ReportPage | src/pages/Report.tsx:69-218 | skeleton while loading, not-found without a resume, the analysing view while parsing, a render that throws when a skill badge has no icon, otherwise the full report with its defaults |
| Report.ReportViewStates | src/pages/Report.tsx:69-218 | loading, then not found for a null resume, then the analysing view for status parsing; otherwise the full report exactly when no skill confidence is an inherited name (rendering throws otherwise), with parsed_data defaulting to empty |
| Report.SkillCountsBounded | src/pages/Report.tsx:318-322 | verified and at-risk skill counts are each, and together, at most the number of skills |
| DemoReport.Find | src/pages/DemoReport.tsx:40 | `demoCandidates.find` by id: `Seqs.FindFirst` with the id predicate |
| Seqs.FindFirst | src/pages/DemoReport.tsx:40 | `Array.prototype.find`: the first element satisfying the predicate, or none exactly when no element does |
| DemoReport.FindById | src/pages/DemoReport.tsx:40 | with distinct ids, looking up candidate i's id finds candidate i |
| DemoReport.FindDemoCandidate | src/pages/DemoReport.tsx:40 | each of demo-1..demo-10 finds its dataset entry |
| DemoReport.FindUnknownId | src/pages/DemoReport.tsx:40-58 | an id not in the dataset finds nothing |
| DemoReport.StatusColor | src/pages/DemoReport.tsx:224 | verified, partially_verified and unverified get the high, medium and low classes; an inherited `Object.prototype` name puts that property's non-empty string form into the class; anything else gets "" |
| DemoReport.CertIcon | src/pages/DemoReport.tsx:261-267 | check iff "verified", warning iff "partially_verified", cross otherwise |
| DemoReport.DemoStatusesColoured | src/pages/DemoReport.tsx:224-241 | every status in the dataset is a known one and gets a non-empty class |
| DemoReport.ViewFor | src/pages/DemoReport.tsx:43-115 | not-found without a candidate; otherwise the blend at the slider weight, its badge, the credibility share and the status colours |
| DemoReport.ViewForFacts | src/pages/DemoReport.tsx:60-245 | the overall is blend(relevancy, credibility, weight), the credibility share is 100 - weight, the three score colours come from the level, and a status badge is uncoloured exactly when `statusColor` finds nothing for it, own or inherited |
| DemoReport.UnknownIdNotFound | src/pages/DemoReport.tsx:40-58 | an unknown id renders the not-found view for every weight |
| DemoReport.DemoReportPage | src/pages/DemoReport.tsx:40-63 | the candidate found by id, shown at the slider weight, or the not-found view |
| DemoReport.KnownIdFound | src/pages/DemoReport.tsx:40-60 | a dataset id renders that candidate with the blend at the slider weight |
| CandidateDashboard.ScoreColor | src/pages/CandidateDashboard.tsx:122-123 | high colour iff s >= 75, medium iff 50 <= s < 75, low iff s < 50 |
| CandidateDashboard.ScoreColorStricterThanLevel | src/pages/CandidateDashboard.tsx:122-123 | the 75/50 colours disagree with the 70/40 classifier on [70,75) and [40,50) |
| CandidateDashboard.OrZero | src/pages/CandidateDashboard.tsx:105-107 | a missing score becomes 0, a present one is kept |
| CandidateDashboard.ResultOf | src/pages/CandidateDashboard.tsx:104-110 | the result takes the three scores with 0 for null, an empty parsed_data for null and no skills for null |
| CandidateDashboard.TopSkills | src/pages/CandidateDashboard.tsx:271 | at most 8 skills are shown: the first 8 of the list |
| CandidateDashboard.TopSkillsAreHighest | src/pages/CandidateDashboard.tsx:271 | on a list fetched in descending score order, no hidden skill scores higher than a shown one |
| CandidateDashboard.ConfidenceSymbol | src/pages/CandidateDashboard.tsx:275 | check mark iff "verified", ~ iff "partially_verified", cross otherwise |
| CandidateDashboard.ConfidenceLabel | src/pages/CandidateDashboard.tsx:275 | `confidence.replace("_", " ")` with a string pattern |
| CandidateDashboard.ConfidenceLabelOf | src/pages/CandidateDashboard.tsx:275 | the labels read "verified", "partially verified" and "unverified" |
| CandidateDashboard.ConfidenceLabelFirstUnderscoreOnly | src/pages/CandidateDashboard.tsx:275 | for every confidence text, the first underscore becomes a space and every other character, later underscores included, is kept; without an underscore the text is unchanged |
| CandidateDashboard.TimelineLabel | src/pages/CandidateDashboard.tsx:125-129 | consistent, minor_gaps and inconsistent read Consistent, Minor Gaps and Inconsistent, coloured high, medium and low, with a check, a clock and a warning-triangle icon |
| CandidateDashboard.TimelineLabelsDistinct | src/pages/CandidateDashboard.tsx:125-129 | distinct timeline values get distinct texts, distinct colours and distinct icons |
| CandidateDashboard.CandidatePage.constructor | src/pages/CandidateDashboard.tsx:32-36 | no file, not analysing, no status text, no result |
| CandidateDashboard.CandidatePage.ChooseFile | src/pages/CandidateDashboard.tsx:55-59 | choosing a file sets it and changes nothing else |
| CandidateDashboard.CandidatePage.HandleAnalyze | src/pages/CandidateDashboard.tsx:62-120 | nothing happens without a file, user and profile; otherwise the result is set on success or kept on failure, the matching toast is raised, and analysis ends with analyzing off and no status text |
| CandidateDashboard.CandidatePage.UploadAnother | src/pages/CandidateDashboard.tsx:353-356 | "Upload Another" clears both the result and the file |
| BulkUpload.DropIndex | src/pages/BulkUpload.tsx:73-75 | removing index idx leaves s[..idx] + s[idx+1..]; an index out of range changes nothing |
| BulkUpload.Trace | src/pages/BulkUpload.tsx:87-127 | the versions of an entry a run writes: uploading, analyzing once the record exists, then completed or failed |
| BulkUpload.Settle | src/pages/BulkUpload.tsx:87-127 | the entry a run leaves behind: the last version written |
| BulkUpload.AfterRun | src/pages/BulkUpload.tsx:81-128 | the list after a run: completed entries skipped, every other entry settled by its outcome; same length |
| BulkUpload.Startable | src/pages/BulkUpload.tsx:78 | the guard of `processAll`: a user, a profile and a non-empty list |
| BulkUpload.ShowsResultsNotice | src/pages/BulkUpload.tsx:272 | the results notice shows when something is completed and no run is in progress |
| BulkUpload.SucceededCount | src/pages/BulkUpload.tsx:132 | the corrected toast count: entries not failed in the list the run left behind |
| BulkUpload.CompletionToast | src/pages/BulkUpload.tsx:133-135 | the toast is raised exactly for a positive count and carries it |
| BulkUpload.PendingCount | src/pages/BulkUpload.tsx:139 | the number of pending entries, at most the list's length |
| BulkUpload.CompletedFiles | src/pages/BulkUpload.tsx:138 | a subsequence of the list holding only completed entries |
| BulkUpload.AnalyzeDisabled | src/pages/BulkUpload.tsx:258 | disabled while a run is in progress or when nothing is pending |
| BulkUpload.CanRemove | src/pages/BulkUpload.tsx:248-249 | only a pending entry has a remove button |
| BulkUpload.ReportedCount | src/pages/BulkUpload.tsx:132 | the toast count as written: entries not failed in the list captured when the run started |
| BulkUpload.BulkUploadPage.constructor | src/pages/BulkUpload.tsx:38-43 | the list is empty and no run is in progress |
| BulkUpload.BulkUploadPage.AddFiles | src/pages/BulkUpload.tsx:54-60 | the new files are appended as pending entries after the unchanged existing ones |
| BulkUpload.BulkUploadPage.RemoveFile | src/pages/BulkUpload.tsx:73-75 | exactly the entry at idx is removed, and the others keep their order |
| BulkUpload.BulkUploadPage.UpdateAt | src/pages/BulkUpload.tsx:87-127 | a status update changes entry i only, keeping its other fields; all other entries are untouched |
| BulkUpload.BulkUploadPage.ProcessEntry | src/pages/BulkUpload.tsx:85-128 | file i passes through exactly the versions of its trace and ends settled; no other entry changes |
| BulkUpload.BulkUploadPage.ProcessAll | src/pages/BulkUpload.tsx:77-136 | a no-op without user, profile or files; otherwise every entry not completed at the start is settled by its outcome, completed ones are skipped, processing ends off, and the toast counts the entries not failed in the list as it was when the run started |
| BulkUpload.TraceProgression | src/pages/BulkUpload.tsx:87-127 | an entry goes uploading, then analyzing, then completed, and can fail from either working state; resumeId is set from analyzing on; the end is completed iff the analysis succeeded |
| BulkUpload.SettleFacts | src/pages/BulkUpload.tsx:83-128 | after a run each entry is completed or failed with its file name kept; completed entries are untouched; the resumeId and error are set as each outcome dictates |
| BulkUpload.RunLeavesNothingPending | src/pages/BulkUpload.tsx:83-139 | after a run nothing is pending, so Analyze is disabled, and no completed entry is lost |
| BulkUpload.AddingFilesReenablesAnalyze | src/pages/BulkUpload.tsx:54-60 | adding files after a run makes exactly those files pending and enables Analyze again |
| BulkUpload.EnabledButtonStarts | src/pages/BulkUpload.tsx:78 | an enabled Analyze button implies a non-empty list, so the empty-list guard never stops a click |
| BulkUpload.DropIndexCounts | src/pages/BulkUpload.tsx:73-75 | removing an entry lowers a count by one exactly when that entry was counted |
| BulkUpload.RemovePendingEntry | src/pages/BulkUpload.tsx:73-75 | removing a pending entry (the only kind with a remove button) lowers the pending count by one and keeps the completed count |
| BulkUpload.SucceededCountIsCompleted | src/pages/BulkUpload.tsx:132-138 | after a run the post-run count equals the number of completed entries shown by the results notice, and it is at least the number completed before |
| BulkUpload.StaleCountMisreports | src/pages/BulkUpload.tsx:132 | the count as written, taken from the list captured at the start, reports 1 for a single failed upload and 0 for a single retried success |
| ParseResume.BearerOk | supabase/functions/parse-resume/index.ts:18 | the header is present and starts with "Bearer " |
| ParseResume.ValidBody | supabase/functions/parse-resume/index.ts:43 | both resumeId and resumeText are present and non-empty |
| ParseResume.TokenIsSuffix | supabase/functions/parse-resume/index.ts:18-31 | past the prefix check the token is the header after its 7 prefix characters |
| ParseResume.TokenRoundTrip | supabase/functions/parse-resume/index.ts:18-31 | "Bearer " + t passes the check and yields the token t |
| ParseResume.Token | supabase/functions/parse-resume/index.ts:31 | `authHeader.replace("Bearer ", "")` with a string pattern |
| ParseResume.Clamp | supabase/functions/parse-resume/index.ts:214 | the clamped score is in [0,100]; it is the identity on [0,100] and 0 or 100 outside |
| ParseResume.ClampIdempotent | supabase/functions/parse-resume/index.ts:214 | clamping twice is clamping once |
| ParseResume.SkillRows | supabase/functions/parse-resume/index.ts:210-217 | one row per skill, in order, with resume_id set, name, category, confidence and evidence copied, and the score clamped |
| ParseResume.StoredParsedData | supabase/functions/parse-resume/index.ts:200-204 | parsed_data keeps the risk flags, experience items and certifications, and nothing else |
| ParseResume.Decimal | supabase/functions/parse-resume/index.ts:179 | the gateway status is printed as a non-empty string of decimal digits |
| ParseResume.DecimalRoundTrip | supabase/functions/parse-resume/index.ts:179 | the printed status reads back as the status |
| ParseResume.ResumeStore.constructor | supabase/functions/parse-resume/index.ts:25-29 | the store starts with the given resumes and no inserted skill rows |
| ParseResume.ResumeStore.UpdateStatus | supabase/functions/parse-resume/index.ts:163-186 | the status of the resume with that id changes, and only that; a missing id changes nothing |
| ParseResume.ResumeStore.StoreAnalysis | supabase/functions/parse-resume/index.ts:193-206 | the resume becomes completed with the names, the unclamped overall score and the reduced parsed_data |
| ParseResume.ResumeStore.InsertSkills | supabase/functions/parse-resume/index.ts:219 | the rows are appended to the skill table |
| ParseResume.ResumeStore.Handle | supabase/functions/parse-resume/index.ts:10-232 | the response is ResponseFor of the inputs; a request rejected before the body check writes nothing; an admitted one leaves the tables FinalResumes/InsertedRows describe |
| ParseResume.RowsToInsert | supabase/functions/parse-resume/index.ts:209-219 | the skill rows to insert: none when the list is absent or empty |
| ParseResume.Admitted | supabase/functions/parse-resume/index.ts:10-48 | the request passes the preflight, token and body checks, so the handler writes to the store |
| ParseResume.FinalResumes | supabase/functions/parse-resume/index.ts:51-206 | the resumes after an admitted request: marked parsing, then the last write applied |
| ParseResume.InsertedRows | supabase/functions/parse-resume/index.ts:209-219 | the skill rows an admitted request inserts: only after a completed analysis |
| ParseResume.LastWriteFor | supabase/functions/parse-resume/index.ts:51-206 | the last status write after "parsing": none on a missing key, a thrown error or unparseable arguments; failed on a refusal or no tool call; completed with the analysis otherwise |
| ParseResume.ResponseFor | supabase/functions/parse-resume/index.ts:10-232 | the response of each branch of the handler, from the preflight to the stored analysis |
| ParseResume.ResponseCodes | supabase/functions/parse-resume/index.ts:11-230 | statuses are among 200, 400, 401, 402, 429, 500; 200 iff preflight or stored analysis; 401 iff the header or token check fails; 400 iff a readable body lacks a field |
| ParseResume.StatusTransitions | supabase/functions/parse-resume/index.ts:51-206 | the requested resume ends parsing, failed or completed; failed iff the gateway refused or sent no tool call; completed iff the response is 200; other resumes are untouched |
| ParseResume.SuccessStored | supabase/functions/parse-resume/index.ts:193-220 | a success stores the names, the unclamped score and the reduced parsed_data, and inserts one clamped row per skill, none for an absent or empty list |
| ParseResume.GatewayErrorNamesStatus | supabase/functions/parse-resume/index.ts:176-179 | any other gateway failure gives 500 with a message ending in the gateway's status |
| App.ProtectedRoute | src/App.tsx:22-30 | nothing while loading; /auth when signed out; a home redirect iff both roles are known and differ; children otherwise |
| App.LowerChar | src/App.tsx:34-45 | a case-insensitive match of an ASCII pattern folds exactly A-Z to a-z; '/' is kept and produced only from '/' |
| App.TrimSlashes | src/App.tsx:34-45 | every route pattern accepts trailing slashes: the result is a prefix of the path, does not end in '/', and only slashes were removed |
| App.Param | src/App.tsx:37-43 | a `:id` parameter is one non-empty segment without '/' that follows the prefix, written in any case, before any trailing slashes |
| App.ParamOf | src/App.tsx:37-43 | conversely, the prefix in any case, a non-empty segment without '/' and any trailing slashes give back exactly that segment |
| App.RouteFor | src/App.tsx:32-46 | the page of each route, `*` for anything else; a route is guarded exactly when it demands a role |
| App.RouteDependsOnCanonicalPath | src/App.tsx:34-45 | paths equal up to ASCII case and trailing slashes reach the same route with the same guard; only an `:id` keeps its own case |
| App.RouterSpellings | src/App.tsx:38-39 | /Dashboard and /dashboard/ reach the HR dashboard; /candidate/ reaches the candidate dashboard |
| App.RouterParamCase | src/App.tsx:37 | /DEMO/Abc/ reaches the demo report for id Abc |
| App.MismatchRedirectLandsHome | src/App.tsx:26-39 | a role-mismatch redirect goes to the user's home route, which demands exactly that role and shows its page |
| App.SignedOutGoesToAuth | src/App.tsx:25-35 | a signed-out visitor of a guarded route is sent to /auth, which is open |
| App.OpenRoutes | src/App.tsx:34-37 | /, /auth, /demo and /demo/:id show their page in every sign-in state |
| App.GuardedRoutesRoles | src/App.tsx:38-44 | every guarded route except the candidate dashboard demands hr; the candidate dashboard is reached exactly by the paths that read /candidate up to case and trailing slashes |
| App.CandidateHomeRoute | src/App.tsx:38 | /candidate is the candidate dashboard, guarded for candidates |
| App.DashboardHomeRoute | src/App.tsx:39 | /dashboard is the HR dashboard, guarded for hr |
| App.GuardedPageShown | src/App.tsx:26-44 | a signed-in user sees a guarded page exactly when the role is unknown or matches |

## Left out

- Supabase storage, queries, inserts, authentication and function invocation are not modelled. Their outcomes are parameters: `outcomeOf` in the bulk-upload run, `AnalysisOutcome` on the candidate page, `validToken` and `GatewayReply` in the edge function.
- The language-model prompt and the gateway call are left out. The reply is an arbitrary input value.
- Row-level security and the database's own ids and timestamps are left out.
- The page's status-text steps ("Uploading file..." and so on) are written but their history is not recorded. `CandidateDashboard.CandidatePage.HandleAnalyze` states only the final state.
- Percentages formatted with `toFixed` and file sizes in KB are floating-point display and are not modelled. `Dashboard.Rate` keeps the count and denominator instead.
- Size variants, animation and other styling of the components are not modelled.
- `useAuth`, the sign-in and upload forms, and the reports list page are not modelled.
- User actions interleaved with a running bulk upload are not modelled. For example, removing a pending entry while `processAll` is awaiting would shift the indexes it updates. `BulkUpload.BulkUploadPage.ProcessAll` runs with the list otherwise untouched.
- Timeline values outside the three known names are not modelled. The candidate page would read an undefined entry for them.
- JSON values of the wrong type in the request body or the analysis (a number where a string is expected, a fractional score) are not modelled. Fields are typed as the schema declares them.
- DemoReport.InheritedText: the string form of an inherited native function follows V8's layout; other engines place `[native code]` differently. Only its being non-empty is relied on.
- Percent-decoding of the pathname before route matching is not modelled: a path is matched as written, so "/%64ashboard" is not recognised as "/dashboard". Matching is otherwise React Router 6's: ASCII case folding, trailing slashes, an empty pathname read as "/".

## Findings

| source | as written | input that shows it | evidently intended | confidence | as-written member | corrected member |
|---|---|---|---|---|---|---|
| src/pages/BulkUpload.tsx:132 | the success toast counts the entries that were not failed in the `files` list captured when the run started | one pending file whose upload fails reports "1 resume(s) analyzed successfully"; one previously failed file that now succeeds shows no toast | count the entries not failed in the list as the run left it, which equals the completed entries the results notice shows | not executed | BulkUpload.StaleCountMisreports | BulkUpload.SucceededCountIsCompleted |
