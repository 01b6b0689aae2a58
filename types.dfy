/**
 * Record and enumeration shapes of the resume-verification application
 * (src/lib/types.ts). Enumerations that the source declares as string
 * unions become datatypes, each with its wire name and a parser that is
 * its inverse; optional and nullable fields become `Option`.
 */
module Types {

  datatype Option<+T> = None | Some(value: T)

  /** The four states of a stored resume. */
  datatype ResumeStatus = Pending | Parsing | Completed | Failed

  function StatusName(s: ResumeStatus): string
  {
    match s
    case Pending => "pending"
    case Parsing => "parsing"
    case Completed => "completed"
    case Failed => "failed"
  }

  /** Reads a stored status string; anything outside the declared union is rejected. */
  function ParseStatus(raw: string): (r: Option<ResumeStatus>)
    ensures r.Some? ==> StatusName(r.value) == raw
    ensures r.None? ==> forall s :: StatusName(s) != raw
  {
    if raw == "pending" then Some(Pending)
    else if raw == "parsing" then Some(Parsing)
    else if raw == "completed" then Some(Completed)
    else if raw == "failed" then Some(Failed)
    else None
  }

  /** The three confidence tiers a skill claim can carry. */
  datatype Confidence = Verified | PartiallyVerified | Unverified

  function ConfidenceName(c: Confidence): string
  {
    match c
    case Verified => "verified"
    case PartiallyVerified => "partially_verified"
    case Unverified => "unverified"
  }

  function ParseConfidence(raw: string): (r: Option<Confidence>)
    ensures r.Some? ==> ConfidenceName(r.value) == raw
    ensures r.None? ==> forall c :: ConfidenceName(c) != raw
  {
    if raw == "verified" then Some(Verified)
    else if raw == "partially_verified" then Some(PartiallyVerified)
    else if raw == "unverified" then Some(Unverified)
    else None
  }

  /** The three values of `timeline_consistency`. */
  datatype Timeline = Consistent | MinorGaps | Inconsistent

  function TimelineName(t: Timeline): string
  {
    match t
    case Consistent => "consistent"
    case MinorGaps => "minor_gaps"
    case Inconsistent => "inconsistent"
  }

  function ParseTimeline(raw: string): (r: Option<Timeline>)
    ensures r.Some? ==> TimelineName(r.value) == raw
    ensures r.None? ==> forall t :: TimelineName(t) != raw
  {
    if raw == "consistent" then Some(Consistent)
    else if raw == "minor_gaps" then Some(MinorGaps)
    else if raw == "inconsistent" then Some(Inconsistent)
    else None
  }

  /** The wire names of each enumeration are pairwise distinct, so parsing inverts naming. */
  lemma {:induction false} NamesRoundTrip(s: ResumeStatus, c: Confidence, t: Timeline)
    ensures ParseStatus(StatusName(s)) == Some(s)
    ensures ParseConfidence(ConfidenceName(c)) == Some(c)
    ensures ParseTimeline(TimelineName(t)) == Some(t)
  {
  }

  /**
   * The property names every object literal inherits from
   * `Object.prototype`. Indexing a literal with one of them finds the
   * inherited value (a function, or the prototype object itself for
   * `__proto__`) where an unknown name would give `undefined`.
   */
  predicate InheritedKey(key: string)
  {
    key in {"constructor", "__proto__", "__defineGetter__", "__defineSetter__",
            "__lookupGetter__", "__lookupSetter__", "hasOwnProperty", "isPrototypeOf",
            "propertyIsEnumerable", "toLocaleString", "toString", "valueOf"}
  }

  datatype ATSBreakdown = ATSBreakdown(
    formattingScore: int,
    keywordScore: int,
    structureScore: int,
    contactInfoPresent: bool,
    sectionsDetected: seq<string>,
    missingSections: seq<string>)

  datatype CredibilityBreakdown = CredibilityBreakdown(
    evidenceScore: int,
    githubLinked: bool,
    certificationsVerified: int,
    certificationsUnverified: int,
    projectsWithLinks: int,
    projectsWithoutLinks: int)

  datatype EducationItem = EducationItem(institution: string, degree: string, year: string)

  datatype ResumeLink = ResumeLink(linkType: string, url: string)

  datatype ExperienceItem = ExperienceItem(company: string, role: string, duration: string, verified: bool)

  datatype Certification = Certification(name: string, issuer: string, verified: bool)

  /** Everything the analysis stores besides the scores; every field is optional. */
  datatype ParsedData = ParsedData(
    riskFlags: Option<seq<string>>,
    experienceItems: Option<seq<ExperienceItem>>,
    certifications: Option<seq<Certification>>,
    relevancyScore: Option<int>,
    matchedSkills: Option<seq<string>>,
    missingSkills: Option<seq<string>>,
    matchedKeywords: Option<seq<string>>,
    atsBreakdown: Option<ATSBreakdown>,
    credibilityBreakdown: Option<CredibilityBreakdown>,
    education: Option<seq<EducationItem>>,
    links: Option<seq<ResumeLink>>,
    improvementSuggestions: Option<seq<string>>,
    timelineConsistency: Option<Timeline>,
    strengthSummary: Option<string>,
    missingEvidence: Option<seq<string>>)

  /** The `{}` that pages substitute for an absent `parsed_data`. */
  const EmptyParsedData: ParsedData :=
    ParsedData(None, None, None, None, None, None, None, None, None, None, None, None, None, None, None)

  /**
   * A stored resume row. `parsedData` is optional because the pages guard
   * against a null column (`parsed_data || {}`).
   */
  datatype Resume = Resume(
    id: string,
    profileId: string,
    fileName: string,
    fileUrl: Option<string>,
    status: ResumeStatus,
    candidateName: Option<string>,
    candidateRole: Option<string>,
    overallScore: int,
    atsScore: int,
    relevancyScore: int,
    credibilityScore: int,
    jobDescription: Option<string>,
    roleTitle: Option<string>,
    experienceRange: Option<string>,
    parsedData: Option<ParsedData>,
    createdAt: string)

  /**
   * A stored skill row. `confidence` is kept as the stored string: the
   * analysis function copies it unchecked from the model's answer, and
   * every page compares it as a string (see `ParseConfidence` for the
   * declared domain).
   */
  datatype ResumeSkill = ResumeSkill(
    id: string,
    resumeId: string,
    skillName: string,
    category: string,
    score: int,
    confidence: string,
    evidence: Option<string>)

  /** JavaScript truthiness of a nullable string: absent or empty is falsy. */
  predicate Truthy(s: Option<string>)
  {
    s.Some? && s.value != ""
  }

  /** `a || b` on a nullable string with a string fallback. */
  function OrElse(a: Option<string>, fallback: string): (r: string)
    ensures Truthy(a) ==> r == a.value
    ensures !Truthy(a) ==> r == fallback
  {
    if Truthy(a) then a.value else fallback
  }
}
