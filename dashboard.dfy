/**
 * The recruiter dashboard (src/pages/Dashboard.tsx): counters over the
 * recruiter's resumes, the two rates with their guard against an empty
 * denominator, and the list of the ten most recent resumes with the
 * fallbacks used for resumes whose analysis has not completed.
 */
module Dashboard {
  import opened Types
  import opened Seqs
  import opened ScoreDisplay

  predicate IsCompleted(r: Resume) { r.status == Completed }
  predicate IsHighScore(r: Resume) { r.overallScore >= 70 }
  predicate IsLowScore(r: Resume) { r.overallScore < 50 }

  /** `completedResumes`. */
  function CompletedResumes(resumes: seq<Resume>): (done: seq<Resume>)
    ensures |done| <= |resumes|
    ensures forall i :: 0 <= i < |done| ==> done[i] in resumes && done[i].status == Completed
  {
    Filter(resumes, IsCompleted)
  }

  /** `verifiedCount`: completed resumes scoring at least 70. */
  function VerifiedCount(resumes: seq<Resume>): (n: nat)
    ensures n <= |CompletedResumes(resumes)|
  {
    Count(CompletedResumes(resumes), IsHighScore)
  }

  /** `atRiskCount`: completed resumes scoring below 50. */
  function AtRiskCount(resumes: seq<Resume>): (n: nat)
    ensures n <= |CompletedResumes(resumes)|
  {
    Count(CompletedResumes(resumes), IsLowScore)
  }

  /** `completedResumes` is exactly the completed resumes, in their original order. */
  lemma {:induction false} CompletedExactly(resumes: seq<Resume>)
    ensures forall r :: r in CompletedResumes(resumes) <==> r in resumes && r.status == Completed
    ensures forall a, b :: CompletedResumes(a + b) == CompletedResumes(a) + CompletedResumes(b)
  {
    forall a, b ensures CompletedResumes(a + b) == CompletedResumes(a) + CompletedResumes(b) {
      FilterConcat(a, b, IsCompleted);
    }
  }

  /** A resume the "Verified" counter counts. */
  predicate CountedVerified(r: Resume) { r.status == Completed && r.overallScore >= 70 }

  /** A resume the "At Risk" counter counts. */
  predicate CountedAtRisk(r: Resume) { r.status == Completed && r.overallScore < 50 }

  /**
   * The counters select, among all resumes, exactly the completed ones
   * above or below the thresholds: a pending, parsing or failed resume is
   * never counted, whatever its stored score.
   */
  lemma CountersSelectCompletedOnly(resumes: seq<Resume>)
    ensures VerifiedCount(resumes) == Count(resumes, CountedVerified)
    ensures AtRiskCount(resumes) == Count(resumes, CountedAtRisk)
  {
    FilterFilter(resumes, IsCompleted, IsHighScore, CountedVerified);
    FilterFilter(resumes, IsCompleted, IsLowScore, CountedAtRisk);
  }

  /** verified + at-risk <= completed <= all resumes. */
  lemma CountersBounded(resumes: seq<Resume>)
    ensures VerifiedCount(resumes) + AtRiskCount(resumes) <= |CompletedResumes(resumes)| <= |resumes|
  {
    DisjointCounts(CompletedResumes(resumes), IsHighScore, IsLowScore);
  }

  /**
   * The text under a counter: with no completed resume it is the fixed
   * "0% rate" / "0% flagged"; otherwise it is the share `count / completed`
   * (printed as a whole percentage).
   */
  datatype RateText = ZeroRate | Share(count: nat, completed: nat)

  function Rate(count: nat, completed: nat): (t: RateText)
    ensures t == ZeroRate <==> completed == 0
    ensures t.Share? ==> t.count == count && t.completed == completed
  {
    if completed > 0 then Share(count, completed) else ZeroRate
  }

  /** Both rates are well defined: the denominator is never zero and the share never exceeds 1. */
  lemma RatesWellDefined(resumes: seq<Resume>)
    ensures Rate(VerifiedCount(resumes), |CompletedResumes(resumes)|).Share? ==>
      0 <= VerifiedCount(resumes) <= |CompletedResumes(resumes)| && 0 < |CompletedResumes(resumes)|
    ensures Rate(AtRiskCount(resumes), |CompletedResumes(resumes)|).Share? ==>
      0 <= AtRiskCount(resumes) <= |CompletedResumes(resumes)| && 0 < |CompletedResumes(resumes)|
  {
    CountersBounded(resumes);
  }

  /** `resumes.slice(0, 10)`. */
  function RecentResumes(resumes: seq<Resume>): (shown: seq<Resume>)
    ensures |shown| <= 10 && shown <= resumes
    ensures |shown| == if |resumes| < 10 then |resumes| else 10
  {
    if |resumes| <= 10 then resumes else resumes[..10]
  }

  /** The right-hand badge: the percentage coloured by level, or the raw status word. */
  datatype StatusBadge = ScorePercent(textClass: string, percent: int) | StatusWord(word: string)

  datatype ResumeRow = ResumeRow(
    badge: BadgeView,
    name: string,
    subtitle: string,
    statusBadge: StatusBadge,
    target: string)

  /** The `level` of a listed resume: its score's level once completed, "medium" before. */
  function RowLevel(r: Resume): Level
  {
    if r.status == Completed then GetScoreLevel(r.overallScore) else Medium
  }

  function ResumeRowView(r: Resume): ResumeRow
  {
    var level := RowLevel(r);
    ResumeRow(
      ScoreBadge(if r.status == Completed then r.overallScore else 0),
      OrElse(r.candidateName, r.fileName),
      OrElse(r.candidateRole, StatusName(r.status)),
      if r.status == Completed then ScorePercent(TextClass(level), r.overallScore) else StatusWord(StatusName(r.status)),
      "/reports/" + r.id)
  }

  /**
   * A completed resume shows its score in both badges, coloured by its
   * level. Any other resume shows a badge of 0 (hence in the low colour,
   * whatever the "medium" level computed for it) and its status word; its
   * name falls back to the file name and its subtitle to the status.
   */
  lemma {:induction false} RowFallbacks(r: Resume)
    ensures r.status == Completed ==>
      ResumeRowView(r).badge == ScoreBadge(r.overallScore) &&
      ResumeRowView(r).statusBadge == ScorePercent(TextClass(GetScoreLevel(r.overallScore)), r.overallScore)
    ensures r.status != Completed ==>
      RowLevel(r) == Medium &&
      ResumeRowView(r).badge.text == 0 &&
      ResumeRowView(r).badge.levelClass == BadgeClass(Low) &&
      ResumeRowView(r).statusBadge == StatusWord(StatusName(r.status))
    ensures ResumeRowView(r).name == (if Truthy(r.candidateName) then r.candidateName.value else r.fileName)
    ensures ResumeRowView(r).subtitle == (if Truthy(r.candidateRole) then r.candidateRole.value else StatusName(r.status))
  {
  }
}
