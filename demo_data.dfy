/**
 * The demo candidate record, its constant dataset and the overall-score
 * blend (src/lib/demo-data.ts). The dataset keeps every field a page
 * computes with or branches on; the free-text evidence and detail prose,
 * the relevancy breakdown lists, experience items and risk flags are not
 * part of this model.
 */
module DemoData {
  import opened Types
  import opened Rounding

  datatype SkillClaim = SkillClaim(name: string, score: int, confidence: Confidence, category: string)

  /** A named item of the credibility breakdown with its status word. */
  datatype StatusNote = StatusNote(name: string, status: string)

  datatype CredibilityNotes = CredibilityNotes(
    educationStatus: string,
    certifications: seq<StatusNote>,
    experienceConsistencyStatus: string,
    projectEvidenceStatus: string)

  datatype DemoCandidate = DemoCandidate(
    id: string,
    name: string,
    role: string,
    experience: string,
    relevancyScore: int,
    credibilityScore: int,
    skills: seq<SkillClaim>,
    credibility: CredibilityNotes,
    certifications: seq<Certification>)

  const DemoCandidates: seq<DemoCandidate> := [
    DemoCandidate(
      "demo-1", "Priya Sharma", "Senior Full-Stack Engineer", "6 years", 88, 91,
      [
        SkillClaim("React", 92, Verified, "framework"),
        SkillClaim("Node.js", 85, Verified, "programming"),
        SkillClaim("TypeScript", 88, Verified, "programming"),
        SkillClaim("PostgreSQL", 78, PartiallyVerified, "database"),
        SkillClaim("AWS", 82, Verified, "cloud"),
        SkillClaim("Docker", 75, PartiallyVerified, "devops")
      ],
      CredibilityNotes("verified", [StatusNote("AWS Solutions Architect – Associate", "verified")], "verified", "verified"),
      [Certification("AWS Solutions Architect – Associate", "Amazon Web Services", true)]),
    DemoCandidate(
      "demo-2", "James Wilson", "Data Scientist", "4 years", 72, 65,
      [
        SkillClaim("Python", 85, Verified, "programming"),
        SkillClaim("Machine Learning", 68, PartiallyVerified, "general"),
        SkillClaim("TensorFlow", 55, Unverified, "framework"),
        SkillClaim("SQL", 78, Verified, "database"),
        SkillClaim("Tableau", 62, PartiallyVerified, "general")
      ],
      CredibilityNotes("verified", [StatusNote("Google Data Analytics Certificate", "partially_verified"), StatusNote("TensorFlow Developer Certificate", "unverified")], "partially_verified", "partially_verified"),
      [Certification("Google Data Analytics Certificate", "Google / Coursera", false), Certification("TensorFlow Developer Certificate", "Google", false)]),
    DemoCandidate(
      "demo-3", "Maria Garcia", "UX/UI Designer", "5 years", 94, 88,
      [
        SkillClaim("Figma", 95, Verified, "design"),
        SkillClaim("User Research", 82, Verified, "general"),
        SkillClaim("Prototyping", 90, Verified, "design"),
        SkillClaim("Design Systems", 88, Verified, "design"),
        SkillClaim("HTML/CSS", 72, PartiallyVerified, "programming")
      ],
      CredibilityNotes("verified", [StatusNote("Google UX Design Certificate", "verified")], "verified", "verified"),
      [Certification("Google UX Design Certificate", "Google / Coursera", true)]),
    DemoCandidate(
      "demo-4", "Alex Chen", "DevOps Engineer", "7 years", 81, 76,
      [
        SkillClaim("Kubernetes", 88, Verified, "devops"),
        SkillClaim("Terraform", 82, Verified, "devops"),
        SkillClaim("AWS", 90, Verified, "cloud"),
        SkillClaim("Python", 65, PartiallyVerified, "programming"),
        SkillClaim("CI/CD", 85, Verified, "devops"),
        SkillClaim("Monitoring", 70, PartiallyVerified, "devops")
      ],
      CredibilityNotes("verified", [StatusNote("CKA (Certified Kubernetes Administrator)", "verified"), StatusNote("AWS DevOps Professional", "verified")], "partially_verified", "verified"),
      [Certification("CKA", "CNCF", true), Certification("AWS DevOps Professional", "Amazon Web Services", true)]),
    DemoCandidate(
      "demo-5", "Sarah Johnson", "Product Manager", "8 years", 77, 83,
      [
        SkillClaim("Product Strategy", 85, Verified, "general"),
        SkillClaim("Agile/Scrum", 90, Verified, "general"),
        SkillClaim("Data Analytics", 68, PartiallyVerified, "general"),
        SkillClaim("Stakeholder Management", 88, Verified, "soft_skill"),
        SkillClaim("SQL", 45, Unverified, "database")
      ],
      CredibilityNotes("verified", [StatusNote("Certified Scrum Master (CSM)", "verified")], "verified", "partially_verified"),
      [Certification("Certified Scrum Master", "Scrum Alliance", true)]),
    DemoCandidate(
      "demo-6", "Raj Patel", "Mobile Developer", "3 years", 69, 42,
      [
        SkillClaim("React Native", 58, PartiallyVerified, "framework"),
        SkillClaim("Swift", 35, Unverified, "programming"),
        SkillClaim("JavaScript", 72, Verified, "programming"),
        SkillClaim("Firebase", 65, PartiallyVerified, "cloud"),
        SkillClaim("Flutter", 30, Unverified, "framework")
      ],
      CredibilityNotes("partially_verified", [StatusNote("Meta React Native Specialization", "unverified")], "unverified", "partially_verified"),
      [Certification("Meta React Native Specialization", "Meta / Coursera", false)]),
    DemoCandidate(
      "demo-7", "Emily Zhang", "Backend Engineer", "5 years", 85, 92,
      [
        SkillClaim("Java", 90, Verified, "programming"),
        SkillClaim("Spring Boot", 88, Verified, "framework"),
        SkillClaim("Microservices", 85, Verified, "general"),
        SkillClaim("Kafka", 78, Verified, "general"),
        SkillClaim("Go", 60, PartiallyVerified, "programming")
      ],
      CredibilityNotes("verified", [StatusNote("Oracle Certified Professional, Java SE 17", "verified")], "verified", "verified"),
      [Certification("Oracle Certified Professional, Java SE 17", "Oracle", true)]),
    DemoCandidate(
      "demo-8", "Daniel Kim", "Cybersecurity Analyst", "4 years", 79, 71,
      [
        SkillClaim("Penetration Testing", 80, Verified, "general"),
        SkillClaim("SIEM Tools", 72, PartiallyVerified, "general"),
        SkillClaim("Network Security", 75, Verified, "general"),
        SkillClaim("Python", 68, PartiallyVerified, "programming"),
        SkillClaim("Cloud Security", 55, Unverified, "cloud")
      ],
      CredibilityNotes("verified", [StatusNote("CompTIA Security+", "verified"), StatusNote("OSCP", "partially_verified")], "verified", "partially_verified"),
      [Certification("CompTIA Security+", "CompTIA", true), Certification("OSCP (in progress)", "Offensive Security", false)]),
    DemoCandidate(
      "demo-9", "Olivia Brown", "Frontend Engineer", "3 years", 91, 86,
      [
        SkillClaim("React", 88, Verified, "framework"),
        SkillClaim("TypeScript", 85, Verified, "programming"),
        SkillClaim("CSS/Tailwind", 92, Verified, "design"),
        SkillClaim("Next.js", 80, Verified, "framework"),
        SkillClaim("Testing", 65, PartiallyVerified, "general")
      ],
      CredibilityNotes("verified", [], "verified", "verified"),
      []),
    DemoCandidate(
      "demo-10", "Michael Torres", "AI/ML Engineer", "5 years", 83, 58,
      [
        SkillClaim("Python", 90, Verified, "programming"),
        SkillClaim("PyTorch", 75, Verified, "framework"),
        SkillClaim("LLMs/NLP", 70, PartiallyVerified, "general"),
        SkillClaim("MLOps", 50, Unverified, "devops"),
        SkillClaim("Spark", 40, Unverified, "general"),
        SkillClaim("Computer Vision", 82, Verified, "general")
      ],
      CredibilityNotes("verified", [StatusNote("DeepLearning.AI TensorFlow Developer", "verified"), StatusNote("AWS Machine Learning Specialty", "unverified")], "partially_verified", "partially_verified"),
      [Certification("DeepLearning.AI TensorFlow Developer", "DeepLearning.AI / Coursera", true), Certification("AWS Machine Learning Specialty", "Amazon Web Services", false)])
  ]

  predicate ScoresInRange(c: DemoCandidate)
  {
    && 0 <= c.relevancyScore <= 100
    && 0 <= c.credibilityScore <= 100
    && forall k :: 0 <= k < |c.skills| ==> 0 <= c.skills[k].score <= 100
  }

  const DemoIdList: seq<string> :=
    ["demo-1", "demo-2", "demo-3", "demo-4", "demo-5", "demo-6", "demo-7", "demo-8", "demo-9", "demo-10"]

  /** Ten candidates with ids `demo-1` to `demo-10`. */
  lemma DemoIds()
    ensures |DemoCandidates| == |DemoIdList|
    ensures forall i :: 0 <= i < |DemoCandidates| ==> DemoCandidates[i].id == DemoIdList[i]
  {
  }

  /** The ids are pairwise distinct, so looking a candidate up by id is unambiguous. */
  lemma DemoIdsDistinct()
    ensures forall i, j :: 0 <= i < j < |DemoCandidates| ==> DemoCandidates[i].id != DemoCandidates[j].id
  {
    DemoIds();
    forall i, j | 0 <= i < j < |DemoIdList|
      ensures DemoIdList[i] != DemoIdList[j]
    {
      if |DemoIdList[i]| == |DemoIdList[j]| {
        assert DemoIdList[i][5] != DemoIdList[j][5];
      }
    }
  }

  /** Every relevancy, credibility and skill score of the dataset lies in [0,100]. */
  lemma DemoScoresInRange()
    ensures forall i :: 0 <= i < |DemoCandidates| ==> ScoresInRange(DemoCandidates[i])
  {
  }

  /**
   * `calculateOverallScore`: `Math.round` of the weighted mean of relevancy
   * (weight `relevancyWeight`) and credibility (weight `100 - relevancyWeight`).
   * Defined for every integer input, as in the source: the weight is not
   * checked and the result is not clamped.
   */
  function CalculateOverallScore(relevancy: int, credibility: int, relevancyWeight: int): (s: int)
    ensures 200 * s - 100 <= 2 * (relevancy * relevancyWeight + credibility * (100 - relevancyWeight)) < 200 * s + 100
  {
    var credibilityWeight := 100 - relevancyWeight;
    RoundDiv(relevancy * relevancyWeight + credibility * credibilityWeight, 100)
  }

  /** Half-up rounding written out: the blend is `(r*w + c*(100-w) + 50) / 100` with flooring division. */
  lemma BlendClosedForm(r: int, c: int, w: int)
    ensures CalculateOverallScore(r, c, w) == (r * w + c * (100 - w) + 50) / 100
  {
    var n := r * w + c * (100 - w);
    RoundDivUnique(n, 100, (n + 50) / 100);
  }

  lemma BlendExamples()
    ensures CalculateOverallScore(72, 65, 50) == 69
    ensures CalculateOverallScore(88, 91, 50) == 90
  {
  }

  /** Weight 0 gives the credibility score, weight 100 the relevancy score. */
  lemma BlendEndpoints(r: int, c: int)
    ensures CalculateOverallScore(r, c, 0) == c
    ensures CalculateOverallScore(r, c, 100) == r
  {
    RoundDivExact(c, 100);
    RoundDivExact(r, 100);
  }

  /** Equal inputs are a fixed point for every weight. */
  lemma BlendOfEqualScores(s: int, w: int)
    ensures CalculateOverallScore(s, s, w) == s
  {
    assert s * w + s * (100 - w) == 100 * s;
    RoundDivExact(s, 100);
  }

  /** Swapping the two scores and the two weights gives the same blend. */
  lemma BlendSymmetric(r: int, c: int, w: int)
    ensures CalculateOverallScore(r, c, w) == CalculateOverallScore(c, r, 100 - w)
  {
  }

  lemma MulMonotone(a: int, b: int, k: int)
    requires a <= b && 0 <= k
    ensures a * k <= b * k
  {
  }

  /** With a weight in [0,100] the blend lies between the smaller and the larger score. */
  lemma BlendBetween(r: int, c: int, w: int)
    requires 0 <= w <= 100
    ensures CalculateOverallScore(r, c, w) >= (if r <= c then r else c)
    ensures CalculateOverallScore(r, c, w) <= (if r <= c then c else r)
  {
    var lo := if r <= c then r else c;
    var hi := if r <= c then c else r;
    MulMonotone(lo, r, w);
    MulMonotone(lo, c, 100 - w);
    MulMonotone(r, hi, w);
    MulMonotone(c, hi, 100 - w);
    assert lo * w + lo * (100 - w) == 100 * lo;
    assert hi * w + hi * (100 - w) == 100 * hi;
    RoundDivBetween(r * w + c * (100 - w), 100, lo, hi);
  }

  /** Two scores in [0,100] blend to a score in [0,100]. */
  lemma BlendInRange(r: int, c: int, w: int)
    requires 0 <= r <= 100 && 0 <= c <= 100 && 0 <= w <= 100
    ensures 0 <= CalculateOverallScore(r, c, w) <= 100
  {
    BlendBetween(r, c, w);
  }

  /** With a weight in [0,100], raising either score never lowers the blend. */
  lemma BlendMonotone(r1: int, c1: int, r2: int, c2: int, w: int)
    requires 0 <= w <= 100 && r1 <= r2 && c1 <= c2
    ensures CalculateOverallScore(r1, c1, w) <= CalculateOverallScore(r2, c2, w)
  {
    MulMonotone(r1, r2, w);
    MulMonotone(c1, c2, 100 - w);
    RoundDivMonotone(r1 * w + c1 * (100 - w), r2 * w + c2 * (100 - w), 100);
  }
}
