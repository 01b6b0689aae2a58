/**
 * The candidate's self-check page (src/pages/CandidateDashboard.tsx): the
 * page state (chosen file, progress, result) and the analysis run that
 * fills it, plus the pure display rules for the result. Uploading,
 * inserting, invoking the analysis and fetching are not modelled: their
 * combined outcome is an input of the run.
 */
module CandidateDashboard {
  import opened Types
  import opened Strings
  import opened ScoreDisplay
  import opened Seqs
  import Report

  // ---------------------------------------------------------------------
  // Display rules
  // ---------------------------------------------------------------------

  /** `scoreColor`: breakpoints 75 and 50, not the 70/40 of `getScoreLevel`. */
  function ScoreColor(s: int): (color: string)
    ensures color == "hsl(var(--score-high))" <==> s >= 75
    ensures color == "hsl(var(--score-medium))" <==> 50 <= s < 75
    ensures color == "hsl(var(--score-low))" <==> s < 50
  {
    if s >= 75 then "hsl(var(--score-high))"
    else if s >= 50 then "hsl(var(--score-medium))"
    else "hsl(var(--score-low))"
  }

  /**
   * The page's colouring is stricter than the shared level: a high colour
   * implies a high level, but 70 to 74 are a high level in a medium
   * colour, and 40 to 49 a medium level in the low colour.
   */
  lemma ScoreColorStricterThanLevel(s: int)
    ensures ScoreColor(s) == "hsl(var(--score-high))" ==> GetScoreLevel(s) == High
    ensures ScoreColor(s) == "hsl(var(--score-low))" ==> GetScoreLevel(s) != High
    ensures 70 <= s < 75 ==> GetScoreLevel(s) == High && ScoreColor(s) == "hsl(var(--score-medium))"
    ensures 40 <= s < 50 ==> GetScoreLevel(s) == Medium && ScoreColor(s) == "hsl(var(--score-low))"
  {
  }

  /** `x || 0` on a fetched nullable score. */
  function OrZero(x: Option<int>): (r: int)
    ensures x.Some? ==> r == x.value
    ensures x.None? ==> r == 0
  {
    if x.Some? && x.value != 0 then x.value else 0
  }

  /** `result.skills.slice(0, 8)`. */
  function TopSkills(skills: seq<ResumeSkill>): (top: seq<ResumeSkill>)
    ensures top <= skills && |top| == if |skills| < 8 then |skills| else 8
  {
    if |skills| <= 8 then skills else skills[..8]
  }

  predicate ByScoreDescending(skills: seq<ResumeSkill>)
  {
    forall i, j :: 0 <= i < j < |skills| ==> skills[i].score >= skills[j].score
  }

  /** Skills fetched in descending score order: the eight shown score at least as high as any not shown. */
  lemma TopSkillsAreHighest(skills: seq<ResumeSkill>)
    requires ByScoreDescending(skills)
    ensures forall i, j :: 0 <= i < |TopSkills(skills)| <= j < |skills| ==> TopSkills(skills)[i].score >= skills[j].score
  {
  }

  /** The mark before a skill's confidence: check, tilde, or cross for anything else. */
  function ConfidenceSymbol(raw: string): (mark: string)
    ensures mark == "\U{2713}" <==> raw == "verified"
    ensures mark == "~" <==> raw == "partially_verified"
    ensures mark == "\U{2717}" <==> raw != "verified" && raw != "partially_verified"
  {
    if raw == "verified" then "\U{2713}"
    else if raw == "partially_verified" then "~"
    else "\U{2717}"
  }

  /** `skill.confidence.replace("_", " ")`. */
  function ConfidenceLabel(raw: string): string
  {
    ReplaceFirst(raw, "_", " ")
  }

  /** The declared confidences read "verified", "partially verified" and "unverified". */
  lemma ConfidenceLabelOf(c: Confidence)
    ensures ConfidenceLabel(ConfidenceName(c)) ==
      match c case Verified => "verified" case PartiallyVerified => "partially verified" case Unverified => "unverified"
  {
    match c
    case Verified =>
      ReplaceFirstCharAbsent("verified", '_', " ");
    case Unverified =>
      ReplaceFirstCharAbsent("unverified", '_', " ");
    case PartiallyVerified =>
      PartiallyVerifiedLabel();
  }

  lemma PartiallyVerifiedLabel()
    ensures ConfidenceLabel("partially_verified") == "partially verified"
  {
    ReplaceFirstChar("partially_verified", '_', " ", 9);
    assert "partially_verified"[..9] + " " + "partially_verified"[10..] == "partially verified";
  }

  /**
   * Only the first underscore is replaced, by a space; every other
   * character, later underscores included, is kept.
   */
  lemma ConfidenceLabelFirstUnderscoreOnly(raw: string)
    ensures |ConfidenceLabel(raw)| == |raw|
    ensures forall i :: 0 <= i < |raw| ==>
      ConfidenceLabel(raw)[i] == if raw[i] == '_' && '_' !in raw[..i] then ' ' else raw[i]
  {
    if '_' in raw {
      var k := FirstIndex(raw, '_');
      ReplaceFirstChar(raw, '_', " ", k);
      forall i | 0 <= i < |raw|
        ensures ConfidenceLabel(raw)[i] == if raw[i] == '_' && '_' !in raw[..i] then ' ' else raw[i]
      {
        if i > k {
          assert raw[..i][k] == '_';
        }
      }
    } else {
      ReplaceFirstCharAbsent(raw, '_', " ");
    }
  }

  /** The icons of the timeline panel. */
  datatype TimelineIcon = CheckCircleIcon | ClockIcon | AlertTriangleIcon

  /** The timeline panel: text, colour and icon for each value. */
  datatype TimelineView = TimelineView(text: string, colorClass: string, icon: TimelineIcon)

  function TimelineLevel(t: Timeline): Level
  {
    match t
    case Consistent => High
    case MinorGaps => Medium
    case Inconsistent => Low
  }

  /**
   * `timelineLabel`: consistent, minor gaps and inconsistent, in the high,
   * medium and low colours, with a check, a clock and a warning triangle.
   */
  function TimelineLabel(t: Timeline): (v: TimelineView)
    ensures v.colorClass == Report.CardColor(TimelineLevel(t))
    ensures v.text == (match t case Consistent => "Consistent" case MinorGaps => "Minor Gaps" case Inconsistent => "Inconsistent")
    ensures v.icon == CheckCircleIcon <==> t == Consistent
    ensures v.icon == ClockIcon <==> t == MinorGaps
    ensures v.icon == AlertTriangleIcon <==> t == Inconsistent
  {
    match t
    case Consistent => TimelineView("Consistent", "text-[hsl(var(--score-high))]", CheckCircleIcon)
    case MinorGaps => TimelineView("Minor Gaps", "text-[hsl(var(--score-medium))]", ClockIcon)
    case Inconsistent => TimelineView("Inconsistent", "text-[hsl(var(--score-low))]", AlertTriangleIcon)
  }

  /** Distinct timeline values are shown with distinct texts, colours and icons. */
  lemma TimelineLabelsDistinct(a: Timeline, b: Timeline)
    ensures TimelineLabel(a).text == TimelineLabel(b).text <==> a == b
    ensures TimelineLabel(a).colorClass == TimelineLabel(b).colorClass <==> a == b
    ensures TimelineLabel(a).icon == TimelineLabel(b).icon <==> a == b
  {
    if a != b {
      assert TimelineLabel(a).text[0] != TimelineLabel(b).text[0];
      assert TimelineLabel(a).colorClass[22] != TimelineLabel(b).colorClass[22];
    }
  }

  // ---------------------------------------------------------------------
  // The page state and the analysis run
  // ---------------------------------------------------------------------

  /** What the result panel holds. */
  datatype AnalysisResult = AnalysisResult(
    overallScore: int,
    atsScore: int,
    credibilityScore: int,
    parsedData: ParsedData,
    skills: seq<ResumeSkill>)

  /**
   * How the run's remote steps ended: some step threw (upload record,
   * analysis call, analysis error, re-fetch), or the resume row and its
   * skill rows (already ordered by descending score) were fetched.
   */
  datatype AnalysisOutcome =
    | Threw(message: string)
    | Fetched(overall: Option<int>, ats: Option<int>, credibility: Option<int>,
              parsed: Option<ParsedData>, skills: Option<seq<ResumeSkill>>)

  /** The result the page keeps from a fetched row: nullable scores read as 0, absent data as empty. */
  function ResultOf(o: AnalysisOutcome): (r: AnalysisResult)
    requires o.Fetched?
    ensures r.overallScore == OrZero(o.overall) && r.atsScore == OrZero(o.ats) && r.credibilityScore == OrZero(o.credibility)
    ensures o.parsed.None? ==> r.parsedData == EmptyParsedData
    ensures o.skills.None? ==> r.skills == []
  {
    AnalysisResult(OrZero(o.overall), OrZero(o.ats), OrZero(o.credibility),
      if o.parsed.Some? then o.parsed.value else EmptyParsedData,
      if o.skills.Some? then o.skills.value else [])
  }

  /** The notification a run ends with. */
  datatype Toast = Toast(title: string, destructive: bool)

  class CandidatePage {
    /** Name of the chosen file, if any. */
    var file: Option<string>
    var analyzing: bool
    var statusText: string
    var result: Option<AnalysisResult>

    constructor ()
      ensures file == None && !analyzing && statusText == "" && result == None
    {
      file := None;
      analyzing := false;
      statusText := "";
      result := None;
    }

    /** A file dropped or picked replaces the chosen one. */
    method ChooseFile(name: string)
      modifies this
      ensures file == Some(name)
      ensures analyzing == old(analyzing) && statusText == old(statusText) && result == old(result)
    {
      file := Some(name);
    }

    /**
     * `handleAnalyze`. Without a file, a signed-in user and a profile it
     * does nothing. Otherwise it walks through the progress texts, keeps
     * the fetched result on success (the previous result on failure), and
     * always ends idle with an empty progress text.
     */
    method HandleAnalyze(signedIn: bool, hasProfile: bool, outcome: AnalysisOutcome) returns (toast: Option<Toast>)
      modifies this
      ensures old(file).None? || !signedIn || !hasProfile ==>
        toast == None && file == old(file) && analyzing == old(analyzing) &&
        statusText == old(statusText) && result == old(result)
      ensures old(file).Some? && signedIn && hasProfile ==>
        && file == old(file) && !analyzing && statusText == ""
        && (outcome.Fetched? ==> result == Some(ResultOf(outcome)) && toast == Some(Toast("Analysis complete!", false)))
        && (outcome.Threw? ==> result == old(result) && toast == Some(Toast("Analysis failed", true)))
    {
      if file.None? || !signedIn || !hasProfile {
        return None;
      }
      analyzing := true;
      statusText := "Uploading file...";
      statusText := "Creating record...";
      statusText := "Extracting text...";
      statusText := "AI is analyzing your resume...";
      match outcome {
        case Threw(_) =>
          toast := Some(Toast("Analysis failed", true));
        case Fetched(_, _, _, _, _) =>
          result := Some(ResultOf(outcome));
          toast := Some(Toast("Analysis complete!", false));
      }
      analyzing := false;
      statusText := "";
    }

    /** "Upload Another Resume": clears both the result and the chosen file. */
    method UploadAnother()
      modifies this
      ensures result == None && file == None
      ensures analyzing == old(analyzing) && statusText == old(statusText)
    {
      result := None;
      file := None;
    }
  }
}
