/**
 * The public demo report (src/pages/DemoReport.tsx): looks a demo
 * candidate up by the id in the address, blends its scores at the slider
 * weight and colours the credibility statuses.
 */
module DemoReport {
  import opened Types
  import opened DemoData
  import opened Seqs
  import opened ScoreDisplay
  import Report

  /**
   * The slider starts at 50; its bounds and step are those of
   * `DemoDashboard.OnSlider`.
   */
  const InitialWeight: int := 50

  function HasId(id: string): DemoCandidate -> bool
  {
    (c: DemoCandidate) => c.id == id
  }

  /** `demoCandidates.find(c => c.id === id)`. */
  function Find(cs: seq<DemoCandidate>, id: string): Option<DemoCandidate>
  {
    FindFirst(cs, HasId(id))
  }

  /** With distinct ids, each candidate is found by its own id. */
  lemma FindById(cs: seq<DemoCandidate>, i: int)
    requires 0 <= i < |cs|
    requires forall j, k :: 0 <= j < k < |cs| ==> cs[j].id != cs[k].id
    ensures Find(cs, cs[i].id) == Some(cs[i])
  {
    var r := Find(cs, cs[i].id);
    var k :| 0 <= k < |cs| && cs[k] == r.value && r.value.id == cs[i].id &&
             (forall m :: 0 <= m < k ==> cs[m].id != cs[i].id);
    assert k == i;
  }

  /** Every demo candidate is found by its id. */
  lemma FindDemoCandidate(i: int)
    requires 0 <= i < |DemoIdList|
    ensures Find(DemoCandidates, DemoIdList[i]) == Some(DemoCandidates[i])
  {
    DemoIdsDistinct();
    FindById(DemoCandidates, i);
    DemoIds();
  }

  /** An id outside `demo-1`..`demo-10` is not found. */
  lemma FindUnknownId(id: string)
    requires id !in DemoIdList
    ensures Find(DemoCandidates, id) == None
  {
    DemoIds();
    forall k | 0 <= k < |DemoCandidates|
      ensures DemoCandidates[k].id != id
    {
      assert DemoCandidates[k].id == DemoIdList[k];
    }
    FindAbsent(DemoCandidates, id);
  }

  lemma FindAbsent(cs: seq<DemoCandidate>, id: string)
    requires forall k :: 0 <= k < |cs| ==> cs[k].id != id
    ensures Find(cs, id) == None
  {
    assert forall k :: 0 <= k < |cs| ==> !HasId(id)(cs[k]);
  }

  /**
   * `statusColor[status] || ""`. A status naming a property inherited from
   * `Object.prototype` finds that property, so the class receives its
   * string form rather than "".
   */
  function StatusColor(status: string): (cls: string)
    ensures ParseConfidence(status).Some? ==> cls == TextClass(LevelOf(ParseConfidence(status).value))
    ensures InheritedKey(status) ==> cls == InheritedText(status) && cls != ""
    ensures ParseConfidence(status).None? && !InheritedKey(status) ==> cls == ""
  {
    if status == "verified" then "score-high"
    else if status == "partially_verified" then "score-medium"
    else if status == "unverified" then "score-low"
    else if InheritedKey(status) then InheritedText(status)
    else ""
  }

  /**
   * The string form of an inherited `Object.prototype` property as V8
   * writes it: the prototype object for `__proto__`, the `Object`
   * constructor for `constructor`, and a native method otherwise.
   */
  function InheritedText(key: string): string
  {
    if key == "__proto__" then "[object Object]"
    else if key == "constructor" then "function Object() { [native code] }"
    else "function " + key + "() { [native code] }"
  }

  /** The score level whose colour a confidence word borrows. */
  function LevelOf(c: Confidence): Level
  {
    match c
    case Verified => High
    case PartiallyVerified => Medium
    case Unverified => Low
  }

  /** The icon next to a certification: check, warning, or cross for anything else. */
  function CertIcon(status: string): (icon: Report.Icon)
    ensures icon == Report.CheckIcon <==> status == "verified"
    ensures icon == Report.WarningIcon <==> status == "partially_verified"
    ensures icon == Report.CrossIcon <==> status != "verified" && status != "partially_verified"
  {
    if status == "verified" then Report.CheckIcon
    else if status == "partially_verified" then Report.WarningIcon
    else Report.CrossIcon
  }

  predicate KnownStatus(s: string) { ParseConfidence(s).Some? }

  /** A status that finds nothing in `statusColor`, own or inherited, and so falls back to "". */
  predicate Uncoloured(s: string) { !KnownStatus(s) && !InheritedKey(s) }

  /** Every status word in the demo dataset is one of the three, so no status badge falls back to "". */
  lemma DemoStatusesColoured()
    ensures forall i :: 0 <= i < |DemoCandidates| ==>
      var cb := DemoCandidates[i].credibility;
      KnownStatus(cb.educationStatus) && KnownStatus(cb.experienceConsistencyStatus) &&
      KnownStatus(cb.projectEvidenceStatus) &&
      forall k :: 0 <= k < |cb.certifications| ==> KnownStatus(cb.certifications[k].status)
  {
  }

  /** What the page shows. */
  datatype DemoReportView =
    | NotFound
    | Found(
        candidate: DemoCandidate,
        overall: int,
        overallBadge: BadgeView,
        credibilityShare: int,
        relevancyClass: string,
        credibilityClass: string,
        overallClass: string,
        educationClass: string,
        experienceClass: string,
        projectClass: string)

  /** The view for the looked-up candidate, if any. */
  function ViewFor(found: Option<DemoCandidate>, relevancyWeight: int): DemoReportView
  {
    match found
    case None => NotFound
    case Some(c) =>
      var overall := CalculateOverallScore(c.relevancyScore, c.credibilityScore, relevancyWeight);
      Found(c, overall, ScoreBadge(overall), 100 - relevancyWeight,
        TextClass(GetScoreLevel(c.relevancyScore)), TextClass(GetScoreLevel(c.credibilityScore)),
        TextClass(GetScoreLevel(overall)),
        StatusColor(c.credibility.educationStatus), StatusColor(c.credibility.experienceConsistencyStatus),
        StatusColor(c.credibility.projectEvidenceStatus))
  }

  function DemoReportPage(id: string, relevancyWeight: int): DemoReportView
  {
    ViewFor(Find(DemoCandidates, id), relevancyWeight)
  }

  /**
   * A found candidate is shown with the overall blend at the slider
   * weight, the credibility share `100 - weight`, and score colours by
   * level; a status word that `statusColor` finds neither as its own key
   * nor as an inherited one gets no colour.
   */
  lemma ViewForFacts(c: DemoCandidate, w: int)
    ensures var v := ViewFor(Some(c), w);
      v.Found? && v.candidate == c &&
      v.overall == CalculateOverallScore(c.relevancyScore, c.credibilityScore, w) &&
      v.overallBadge == ScoreBadge(v.overall) &&
      v.credibilityShare == 100 - w &&
      v.overallClass == TextClass(GetScoreLevel(v.overall)) &&
      v.relevancyClass == TextClass(GetScoreLevel(c.relevancyScore)) &&
      v.credibilityClass == TextClass(GetScoreLevel(c.credibilityScore)) &&
      (v.educationClass == "" <==> Uncoloured(c.credibility.educationStatus)) &&
      (v.experienceClass == "" <==> Uncoloured(c.credibility.experienceConsistencyStatus)) &&
      (v.projectClass == "" <==> Uncoloured(c.credibility.projectEvidenceStatus))
  {
  }

  /** An id outside the dataset gives the not-found view. */
  lemma UnknownIdNotFound(id: string, w: int)
    requires id !in DemoIdList
    ensures DemoReportPage(id, w) == NotFound
  {
    FindUnknownId(id);
  }

  /** The id of the i-th demo candidate shows that candidate, with a colour for every status. */
  lemma KnownIdFound(i: int, w: int)
    requires 0 <= i < |DemoIdList|
    ensures DemoReportPage(DemoIdList[i], w) == ViewFor(Some(DemoCandidates[i]), w)
    ensures var cb := DemoCandidates[i].credibility;
      KnownStatus(cb.educationStatus) && KnownStatus(cb.experienceConsistencyStatus) &&
      KnownStatus(cb.projectEvidenceStatus)
  {
    FindDemoCandidate(i);
    DemoStatusesColoured();
  }
}
