/**
 * The recruiter's report page (src/pages/Report.tsx): which view a
 * request gets, the four score cards, the skill confidence badges with
 * their fallback, and the counts and ratios of the side panels. Fetching
 * the resume and its skills is not modelled: their results are inputs.
 */
module Report {
  import opened Types
  import opened Seqs
  import opened ScoreDisplay

  /** The three badge icons: check, warning triangle, cross. */
  datatype Icon = CheckIcon | WarningIcon | CrossIcon

  /** One entry of `confidenceConfig`. */
  datatype ConfigEntry = ConfigEntry(icon: Icon, title: string, fillClass: string)

  function ConfigOf(c: Confidence): ConfigEntry
  {
    match c
    case Verified => ConfigEntry(CheckIcon, "Verified", "bg-score-high")
    case PartiallyVerified => ConfigEntry(WarningIcon, "Partial", "bg-score-medium")
    case Unverified => ConfigEntry(CrossIcon, "Risk", "bg-score-low")
  }

  /**
   * `confidenceConfig[skill.confidence] || confidenceConfig.unverified`:
   * a stored confidence outside the three declared words gets the
   * "Risk" entry, except a name inherited from `Object.prototype`. That
   * lookup finds the inherited value, which is truthy and has no `icon`,
   * so the badge cannot be drawn: `None`.
   */
  function ConfigFor(raw: string): (e: Option<ConfigEntry>)
    ensures e.None? <==> InheritedKey(raw)
    ensures ParseConfidence(raw).Some? ==> e == Some(ConfigOf(ParseConfidence(raw).value))
    ensures ParseConfidence(raw).None? && !InheritedKey(raw) ==> e == Some(ConfigOf(Unverified))
  {
    if raw == "verified" then Some(ConfigEntry(CheckIcon, "Verified", "bg-score-high"))
    else if raw == "partially_verified" then Some(ConfigEntry(WarningIcon, "Partial", "bg-score-medium"))
    else if InheritedKey(raw) then None
    else Some(ConfigEntry(CrossIcon, "Risk", "bg-score-low"))
  }

  /**
   * Only "verified" earns the check and only "partially_verified" the
   * warning; every other text reads "Risk" unless it is an inherited name,
   * which gets no entry at all.
   */
  lemma ConfigForCases(raw: string)
    ensures ConfigFor(raw).Some? && ConfigFor(raw).value.icon == CheckIcon <==> raw == "verified"
    ensures ConfigFor(raw).Some? && ConfigFor(raw).value.icon == WarningIcon <==> raw == "partially_verified"
    ensures ConfigFor(raw).Some? && ConfigFor(raw).value.title == "Risk" <==>
      raw != "verified" && raw != "partially_verified" && !InheritedKey(raw)
  {
  }

  /** The value of a score card: the number, or a dash when a subtitle is shown. */
  datatype CardValue = Dash | Number(score: int)

  datatype ScoreCardView = ScoreCardView(title: string, value: CardValue, colorClass: string, subtitle: Option<string>)

  /** The colour class a score card uses for a level. */
  function CardColor(l: Level): string
  {
    match l
    case High => "text-[hsl(var(--score-high))]"
    case Medium => "text-[hsl(var(--score-medium))]"
    case Low => "text-[hsl(var(--score-low))]"
  }

  /** `ScoreCard`: a subtitle replaces the score by a dash in the muted colour. */
  function ScoreCard(title: string, score: int, subtitle: Option<string>): (v: ScoreCardView)
    ensures Truthy(subtitle) ==> v.value == Dash && v.colorClass == "text-muted-foreground" && v.subtitle == subtitle
    ensures !Truthy(subtitle) ==> v.value == Number(score) && v.colorClass == CardColor(GetScoreLevel(score)) && v.subtitle == None
    ensures v.title == title
  {
    var level := GetScoreLevel(score);
    var colorClass := CardColor(level);
    ScoreCardView(
      title,
      if Truthy(subtitle) then Dash else Number(score),
      if Truthy(subtitle) then "text-muted-foreground" else colorClass,
      if Truthy(subtitle) then subtitle else None)
  }

  /** `hasJD`: a job description was given and is not empty. */
  predicate HasJD(r: Resume)
  {
    Truthy(r.jobDescription)
  }

  /** The relevancy card: the stored score with a job description, otherwise a dash and "No JD provided". */
  function RelevancyCard(r: Resume): ScoreCardView
  {
    ScoreCard("Relevancy", if HasJD(r) then r.relevancyScore else 0, if !HasJD(r) then Some("No JD provided") else None)
  }

  lemma RelevancyCardFacts(r: Resume)
    ensures HasJD(r) ==> RelevancyCard(r).value == Number(r.relevancyScore) &&
                         RelevancyCard(r).colorClass == CardColor(GetScoreLevel(r.relevancyScore))
    ensures !HasJD(r) ==> RelevancyCard(r).value == Dash && RelevancyCard(r).subtitle == Some("No JD provided")
  {
  }

  /** A displayed ratio `numerator/denominator`. */
  datatype Ratio = Ratio(numerator: int, denominator: int)

  /** "Certs Verified" and "Projects w/ Links". */
  function CertRatio(cb: CredibilityBreakdown): Ratio
  {
    Ratio(cb.certificationsVerified, cb.certificationsVerified + cb.certificationsUnverified)
  }

  function ProjectRatio(cb: CredibilityBreakdown): Ratio
  {
    Ratio(cb.projectsWithLinks, cb.projectsWithLinks + cb.projectsWithoutLinks)
  }

  /** With non-negative counts, neither ratio exceeds 1; its remainder is the other count. */
  lemma RatiosBounded(cb: CredibilityBreakdown)
    requires cb.certificationsVerified >= 0 && cb.certificationsUnverified >= 0
    requires cb.projectsWithLinks >= 0 && cb.projectsWithoutLinks >= 0
    ensures 0 <= CertRatio(cb).numerator <= CertRatio(cb).denominator
    ensures CertRatio(cb).denominator - CertRatio(cb).numerator == cb.certificationsUnverified
    ensures 0 <= ProjectRatio(cb).numerator <= ProjectRatio(cb).denominator
    ensures ProjectRatio(cb).denominator - ProjectRatio(cb).numerator == cb.projectsWithoutLinks
  {
  }

  predicate SkillVerified(s: ResumeSkill) { s.confidence == "verified" }
  predicate SkillAtRisk(s: ResumeSkill) { s.confidence == "unverified" }

  /** The side panels of a full report. */
  datatype FullReport = FullReport(
    parsed: ParsedData,
    badge: BadgeView,
    name: string,
    role: string,
    cards: seq<ScoreCardView>,
    credibility: Option<(Ratio, Ratio)>,
    verifiedSkills: nat,
    atRiskSkills: nat,
    skillCount: nat,
    skillConfigs: seq<ConfigEntry>)

  /**
   * `RenderThrows`: drawing a skill badge threw; the app has no error
   * boundary, so no report is shown.
   */
  datatype ReportView = Loading | NotFound | Analyzing | Full(report: FullReport) | RenderThrows

  /** The badge entries of `skills.map(...)` in order, or `None` when one of them cannot be drawn. */
  function SkillConfigs(skills: seq<ResumeSkill>): (cs: Option<seq<ConfigEntry>>)
    ensures cs.None? <==> exists k :: 0 <= k < |skills| && InheritedKey(skills[k].confidence)
    ensures cs.Some? ==> |cs.value| == |skills|
    ensures cs.Some? ==> forall k :: 0 <= k < |skills| ==> ConfigFor(skills[k].confidence) == Some(cs.value[k])
  {
    if skills == [] then Some([])
    else
      var head := ConfigFor(skills[0].confidence);
      var rest := SkillConfigs(skills[1..]);
      if head.None? then None
      else if rest.None? then
        var k :| 0 <= k < |skills[1..]| && InheritedKey(skills[1..][k].confidence);
        assert InheritedKey(skills[k + 1].confidence);
        None
      else Some([head.value] + rest.value)
  }

  /** The page for the fetched resume (if any) and its skill rows. */
  function ReportPage(loading: bool, resume: Option<Resume>, skills: seq<ResumeSkill>): ReportView
  {
    if loading then Loading
    else if resume.None? then NotFound
    else
      var r := resume.value;
      if r.status == Parsing then Analyzing
      else
        var parsed := if r.parsedData.Some? then r.parsedData.value else EmptyParsedData;
        var configs := SkillConfigs(skills);
        if configs.None? then RenderThrows
        else
        Full(FullReport(
          parsed,
          ScoreBadge(r.overallScore),
          OrElse(r.candidateName, "Unknown Candidate"),
          OrElse(r.candidateRole, "Unknown Role"),
          [ScoreCard("Overall", r.overallScore, None), ScoreCard("ATS Score", r.atsScore, None),
           ScoreCard("Credibility", r.credibilityScore, None), RelevancyCard(r)],
          if parsed.credibilityBreakdown.Some?
          then Some((CertRatio(parsed.credibilityBreakdown.value), ProjectRatio(parsed.credibilityBreakdown.value)))
          else None,
          Count(skills, SkillVerified),
          Count(skills, SkillAtRisk),
          |skills|,
          configs.value))
  }

  /**
   * Loading shows nothing, a missing resume shows "not found", a resume
   * still being analysed shows the waiting view and no score; every other
   * status shows the report, with an absent `parsed_data` read as empty,
   * unless a skill's confidence is an inherited name and its badge throws.
   */
  lemma ReportViewStates(loading: bool, resume: Option<Resume>, skills: seq<ResumeSkill>)
    ensures loading ==> ReportPage(loading, resume, skills) == Loading
    ensures !loading && resume.None? ==> ReportPage(loading, resume, skills) == NotFound
    ensures !loading && resume.Some? && resume.value.status == Parsing ==>
      ReportPage(loading, resume, skills) == Analyzing
    ensures !loading && resume.Some? && resume.value.status != Parsing ==>
      (ReportPage(loading, resume, skills).Full? <==>
        forall k :: 0 <= k < |skills| ==> !InheritedKey(skills[k].confidence)) &&
      (ReportPage(loading, resume, skills).RenderThrows? <==>
        exists k :: 0 <= k < |skills| && InheritedKey(skills[k].confidence))
    ensures ReportPage(loading, resume, skills).Full? && resume.Some? && resume.value.parsedData.None? ==>
      ReportPage(loading, resume, skills).report.parsed == EmptyParsedData
  {
  }

  /** Verified and at-risk skills are each, and together, at most the number of skills. */
  lemma SkillCountsBounded(loading: bool, resume: Option<Resume>, skills: seq<ResumeSkill>)
    requires ReportPage(loading, resume, skills).Full?
    ensures ReportPage(loading, resume, skills).report.verifiedSkills <= |skills|
    ensures ReportPage(loading, resume, skills).report.atRiskSkills <= |skills|
    ensures ReportPage(loading, resume, skills).report.verifiedSkills +
            ReportPage(loading, resume, skills).report.atRiskSkills <= |skills|
  {
    DisjointCounts(skills, SkillVerified, SkillAtRisk);
  }
}
