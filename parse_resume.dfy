/**
 * The `parse-resume` edge function (supabase/functions/parse-resume/index.ts):
 * it checks the bearer header and the token, validates the request body,
 * marks the resume "parsing", asks the language-model gateway for a
 * structured analysis and then either marks the resume "failed", leaves it
 * "parsing" (when an error is thrown before any further write), or stores
 * the analysis, marks it "completed" and inserts one row per skill.
 *
 * The token check, the environment and the gateway's answer are inputs:
 * `validToken`, `apiKeyConfigured` and a `GatewayReply`.
 */
module ParseResume {
  import opened Types
  import opened Strings

  const BearerPrefix := "Bearer "

  /** Line 18: the header is present and starts with "Bearer ". */
  predicate BearerOk(header: Option<string>)
  {
    header.Some? && StartsWith(header.value, BearerPrefix)
  }

  /** `authHeader.replace("Bearer ", "")`: the first "Bearer " is removed. */
  function Token(header: string): string
  {
    ReplaceFirst(header, BearerPrefix, "")
  }

  /** Behind the prefix check, the token is everything after the seven prefix characters. */
  lemma TokenIsSuffix(header: string)
    requires BearerOk(Some(header))
    ensures Token(header) == header[7..]
    ensures header == BearerPrefix + Token(header)
  {
    StripPrefix(header, BearerPrefix);
  }

  /** A header built from a token passes the check and gives that same token back. */
  lemma TokenRoundTrip(token: string)
    ensures BearerOk(Some(BearerPrefix + token))
    ensures Token(BearerPrefix + token) == token
  {
    var header := BearerPrefix + token;
    assert header[..|BearerPrefix|] == BearerPrefix;
    TokenIsSuffix(header);
    assert header[7..] == token;
  }

  /** The JSON body: `resumeId` and `resumeText`, either of which may be missing. */
  datatype RequestBody = RequestBody(resumeId: Option<string>, resumeText: Option<string>)

  /** `req.json()` either throws (with the parser's message) or yields a body. */
  datatype Payload = Malformed(message: string) | Json(body: RequestBody)

  datatype Request = Request(httpMethod: string, authorization: Option<string>, payload: Payload)

  /** Line 43: both fields must be present and non-empty. */
  predicate ValidBody(b: RequestBody)
  {
    Truthy(b.resumeId) && Truthy(b.resumeText)
  }

  /** One skill as the model's tool call reports it. */
  datatype SkillClaim = SkillClaim(skillName: string, category: string, score: int, confidence: string, evidence: string)

  /** The arguments of `submit_resume_analysis`. */
  datatype Analysis = Analysis(
    candidateName: string,
    candidateRole: string,
    overallScore: int,
    skills: Option<seq<SkillClaim>>,
    riskFlags: Option<seq<string>>,
    experienceItems: Option<seq<ExperienceItem>>,
    certifications: Option<seq<Certification>>)

  /** What the first tool call of the reply holds: nothing, text `JSON.parse` rejects, or an analysis. */
  datatype ToolArguments = NoToolCall | Unparseable(message: string) | Parsed(analysis: Analysis)

  /** The gateway call either throws (no reply, or an unreadable one) or answers with an HTTP status. */
  datatype GatewayReply = Unreachable(message: string) | Reply(status: nat, arguments: ToolArguments)

  /** A row inserted into `resume_skills` (its id is assigned by the database). */
  datatype SkillRow = SkillRow(resumeId: string, skillName: string, category: string, score: int, confidence: string, evidence: string)

  datatype ResponseBody = NoBody | ErrorBody(error: string) | SuccessBody(resumeId: string, analysis: Analysis)

  datatype Response = Response(status: nat, body: ResponseBody)

  const RateLimitMessage := "Rate limit exceeded. Please try again later."
  const CreditsMessage := "AI credits exhausted. Please add more credits."
  const NoKeyMessage := "LOVABLE_API_KEY is not configured"
  const NoToolCallMessage := "AI did not return structured data"

  /** `Math.max(0, Math.min(100, score))`. */
  function Clamp(score: int): (r: int)
    ensures 0 <= r <= 100
    ensures 0 <= score <= 100 ==> r == score
    ensures score < 0 ==> r == 0
    ensures score > 100 ==> r == 100
  {
    var upper := if score < 100 then score else 100;
    if 0 < upper then upper else 0
  }

  lemma ClampIdempotent(score: int)
    ensures Clamp(Clamp(score)) == Clamp(score)
  {
  }

  /** `analysis.skills.map(...)`: one row per skill, in order, tied to `resumeId`, with the score clamped. */
  function SkillRows(resumeId: string, skills: seq<SkillClaim>): (rows: seq<SkillRow>)
    ensures |rows| == |skills|
    ensures forall i :: 0 <= i < |rows| ==>
      && rows[i].resumeId == resumeId
      && rows[i].skillName == skills[i].skillName
      && rows[i].category == skills[i].category
      && rows[i].confidence == skills[i].confidence
      && rows[i].evidence == skills[i].evidence
      && 0 <= rows[i].score <= 100
      && (0 <= skills[i].score <= 100 ==> rows[i].score == skills[i].score)
  {
    if skills == [] then []
    else
      var s := skills[0];
      [SkillRow(resumeId, s.skillName, s.category, Clamp(s.score), s.confidence, s.evidence)] + SkillRows(resumeId, skills[1..])
  }

  /** The skills to insert: none when the list is absent or empty (line 209). */
  function RowsToInsert(resumeId: string, a: Analysis): seq<SkillRow>
  {
    if a.skills.Some? && |a.skills.value| > 0 then SkillRows(resumeId, a.skills.value) else []
  }

  /** `parsed_data` as stored: only the risk flags, experience items and certifications. */
  function StoredParsedData(a: Analysis): (p: ParsedData)
    ensures p.riskFlags == a.riskFlags && p.experienceItems == a.experienceItems && p.certifications == a.certifications
    ensures p.(riskFlags := None, experienceItems := None, certifications := None) == EmptyParsedData
  {
    EmptyParsedData.(riskFlags := a.riskFlags, experienceItems := a.experienceItems, certifications := a.certifications)
  }

  /** `update({ status }).eq("id", id)`: a missing id updates no row. */
  function SetStatus(m: map<string, Resume>, id: string, s: ResumeStatus): map<string, Resume>
  {
    if id in m then m[id := m[id].(status := s)] else m
  }

  /** The success update of lines 193-206: the score is stored as given, without clamping. */
  function Complete(m: map<string, Resume>, id: string, a: Analysis): map<string, Resume>
  {
    if id in m then
      m[id := m[id].(status := Completed, candidateName := Some(a.candidateName), candidateRole := Some(a.candidateRole),
                     overallScore := a.overallScore, parsedData := Some(StoredParsedData(a)))]
    else m
  }

  /** Decimal digits of `n`, as a template string prints it. */
  function Decimal(n: nat): (s: string)
    ensures |s| >= 1
    ensures forall i :: 0 <= i < |s| ==> '0' <= s[i] <= '9'
  {
    var last := (('0' as int) + n % 10) as char;
    if n < 10 then [last] else Decimal(n / 10) + [last]
  }

  /** The value of a string of decimal digits. */
  function DigitsValue(s: string): int
  {
    if s == [] then 0 else DigitsValue(s[..|s| - 1]) * 10 + ((s[|s| - 1] as int) - ('0' as int))
  }

  /** The printed status reads back as the status. */
  lemma {:induction false} DecimalRoundTrip(n: nat)
    ensures DigitsValue(Decimal(n)) == n
  {
    var s := Decimal(n);
    if n >= 10 {
      DecimalRoundTrip(n / 10);
      assert s[..|s| - 1] == Decimal(n / 10);
    }
  }

  predicate IsOk(status: nat)
  {
    200 <= status <= 299
  }

  /** The request gets past authentication and body validation, so the handler touches the store. */
  predicate Admitted(req: Request, validToken: string -> bool)
  {
    && req.httpMethod != "OPTIONS"
    && BearerOk(req.authorization)
    && validToken(Token(req.authorization.value))
    && req.payload.Json?
    && ValidBody(req.payload.body)
  }

  /** The last write the handler makes to the resume after marking it "parsing". */
  datatype LastWrite = StaysParsing | MarkedFailed | MarkedCompleted(analysis: Analysis)

  function LastWriteFor(apiKeyConfigured: bool, gateway: GatewayReply): LastWrite
  {
    if !apiKeyConfigured then StaysParsing
    else match gateway
      case Unreachable(_) => StaysParsing
      case Reply(status, args) =>
        if !IsOk(status) then MarkedFailed
        else match args
          case NoToolCall => MarkedFailed
          case Unparseable(_) => StaysParsing
          case Parsed(a) => MarkedCompleted(a)
  }

  /** The resumes once an admitted request for `id` has been handled. */
  function FinalResumes(m: map<string, Resume>, id: string, apiKeyConfigured: bool, gateway: GatewayReply): map<string, Resume>
  {
    var parsing := SetStatus(m, id, Parsing);
    match LastWriteFor(apiKeyConfigured, gateway)
    case StaysParsing => parsing
    case MarkedFailed => SetStatus(parsing, id, Failed)
    case MarkedCompleted(a) => Complete(parsing, id, a)
  }

  /** The skill rows an admitted request for `id` inserts. */
  function InsertedRows(id: string, apiKeyConfigured: bool, gateway: GatewayReply): seq<SkillRow>
  {
    match LastWriteFor(apiKeyConfigured, gateway)
    case MarkedCompleted(a) => RowsToInsert(id, a)
    case _ => []
  }

  /** The response the handler sends, branch by branch. */
  function ResponseFor(req: Request, validToken: string -> bool, apiKeyConfigured: bool, gateway: GatewayReply): Response
  {
    if req.httpMethod == "OPTIONS" then Response(200, NoBody)
    else if !BearerOk(req.authorization) || !validToken(Token(req.authorization.value)) then
      Response(401, ErrorBody("Unauthorized"))
    else if req.payload.Malformed? then Response(500, ErrorBody(req.payload.message))
    else if !ValidBody(req.payload.body) then Response(400, ErrorBody("Missing resumeId or resumeText"))
    else if !apiKeyConfigured then Response(500, ErrorBody(NoKeyMessage))
    else match gateway
      case Unreachable(msg) => Response(500, ErrorBody(msg))
      case Reply(status, args) =>
        if !IsOk(status) then
          if status == 429 then Response(429, ErrorBody(RateLimitMessage))
          else if status == 402 then Response(402, ErrorBody(CreditsMessage))
          else Response(500, ErrorBody("AI gateway error: " + Decimal(status)))
        else match args
          case NoToolCall => Response(500, ErrorBody(NoToolCallMessage))
          case Unparseable(msg) => Response(500, ErrorBody(msg))
          case Parsed(a) => Response(200, SuccessBody(req.payload.body.resumeId.value, a))
  }

  /** The two tables the function writes: `resumes` by id, and the inserted `resume_skills` rows. */
  class ResumeStore {
    var resumes: map<string, Resume>
    var skillRows: seq<SkillRow>

    constructor(initial: map<string, Resume>)
      ensures resumes == initial && skillRows == []
    {
      resumes := initial;
      skillRows := [];
    }

    method UpdateStatus(id: string, s: ResumeStatus)
      modifies this
      ensures resumes == SetStatus(old(resumes), id, s)
      ensures skillRows == old(skillRows)
    {
      if id in resumes {
        resumes := resumes[id := resumes[id].(status := s)];
      }
    }

    method StoreAnalysis(id: string, a: Analysis)
      modifies this
      ensures resumes == Complete(old(resumes), id, a)
      ensures skillRows == old(skillRows)
    {
      if id in resumes {
        var r := resumes[id];
        resumes := resumes[id := r.(status := Completed, candidateName := Some(a.candidateName),
          candidateRole := Some(a.candidateRole), overallScore := a.overallScore,
          parsedData := Some(StoredParsedData(a)))];
      }
    }

    method InsertSkills(rows: seq<SkillRow>)
      modifies this
      ensures skillRows == old(skillRows) + rows
      ensures resumes == old(resumes)
    {
      skillRows := skillRows + rows;
    }

    /**
     * The request handler. A request that is not admitted leaves both tables
     * as they were; an admitted one ends in the state `FinalResumes` and
     * `InsertedRows` describe.
     */
    method Handle(req: Request, validToken: string -> bool, apiKeyConfigured: bool, gateway: GatewayReply)
      returns (resp: Response)
      modifies this
      ensures resp == ResponseFor(req, validToken, apiKeyConfigured, gateway)
      ensures !Admitted(req, validToken) ==> resumes == old(resumes) && skillRows == old(skillRows)
      ensures Admitted(req, validToken) ==>
        && resumes == FinalResumes(old(resumes), req.payload.body.resumeId.value, apiKeyConfigured, gateway)
        && skillRows == old(skillRows) + InsertedRows(req.payload.body.resumeId.value, apiKeyConfigured, gateway)
    {
      if req.httpMethod == "OPTIONS" {
        return Response(200, NoBody);
      }
      if !BearerOk(req.authorization) {
        return Response(401, ErrorBody("Unauthorized"));
      }
      var token := Token(req.authorization.value);
      if !validToken(token) {
        return Response(401, ErrorBody("Unauthorized"));
      }
      if req.payload.Malformed? {
        return Response(500, ErrorBody(req.payload.message));
      }
      var body := req.payload.body;
      if !Truthy(body.resumeId) || !Truthy(body.resumeText) {
        return Response(400, ErrorBody("Missing resumeId or resumeText"));
      }
      var id := body.resumeId.value;
      UpdateStatus(id, Parsing);
      if !apiKeyConfigured {
        return Response(500, ErrorBody(NoKeyMessage));
      }
      match gateway {
        case Unreachable(msg) =>
          return Response(500, ErrorBody(msg));
        case Reply(status, args) =>
          if !IsOk(status) {
            UpdateStatus(id, Failed);
            if status == 429 {
              return Response(429, ErrorBody(RateLimitMessage));
            }
            if status == 402 {
              return Response(402, ErrorBody(CreditsMessage));
            }
            return Response(500, ErrorBody("AI gateway error: " + Decimal(status)));
          }
          match args {
            case NoToolCall =>
              UpdateStatus(id, Failed);
              return Response(500, ErrorBody(NoToolCallMessage));
            case Unparseable(msg) =>
              return Response(500, ErrorBody(msg));
            case Parsed(a) =>
              StoreAnalysis(id, a);
              if a.skills.Some? && |a.skills.value| > 0 {
                InsertSkills(SkillRows(id, a.skills.value));
              }
              return Response(200, SuccessBody(id, a));
          }
      }
    }
  }

  /**
   * Response codes: preflight and success are the only 200s; 401 exactly
   * for a failed header or token check; 400 exactly for a readable body
   * lacking a field; 429 and 402 only for those gateway statuses.
   */
  lemma ResponseCodes(req: Request, validToken: string -> bool, apiKeyConfigured: bool, gateway: GatewayReply)
    ensures var r := ResponseFor(req, validToken, apiKeyConfigured, gateway);
      && r.status in {200, 400, 401, 402, 429, 500}
      && (r.status == 200 <==>
            (req.httpMethod == "OPTIONS" ||
             (Admitted(req, validToken) && LastWriteFor(apiKeyConfigured, gateway).MarkedCompleted?)))
      && (r.status == 401 <==>
            (req.httpMethod != "OPTIONS" &&
             (!BearerOk(req.authorization) || !validToken(Token(req.authorization.value)))))
      && (r.status == 400 <==>
            (req.httpMethod != "OPTIONS" && BearerOk(req.authorization) &&
             validToken(Token(req.authorization.value)) && req.payload.Json? && !ValidBody(req.payload.body)))
      && (r.status == 429 ==> gateway.Reply? && gateway.status == 429)
      && (r.status == 402 ==> gateway.Reply? && gateway.status == 402)
  {
  }

  /**
   * The status of the requested resume after an admitted request: "parsing"
   * while no later write happened, "failed" exactly when the gateway refused
   * or sent no tool call, "completed" exactly when the answer was stored,
   * which is also exactly when the response is 200. Every other resume is
   * untouched.
   */
  lemma StatusTransitions(m: map<string, Resume>, req: Request, validToken: string -> bool, apiKeyConfigured: bool, gateway: GatewayReply)
    requires Admitted(req, validToken)
    ensures var id := req.payload.body.resumeId.value;
      var after := FinalResumes(m, id, apiKeyConfigured, gateway);
      && after.Keys == m.Keys
      && (forall other :: other in m && other != id ==> after[other] == m[other])
      && (id in m ==>
            && after[id].status in {Parsing, Failed, Completed}
            && (after[id].status == Completed <==> ResponseFor(req, validToken, apiKeyConfigured, gateway).status == 200)
            && (after[id].status == Failed <==>
                  apiKeyConfigured && gateway.Reply? && (!IsOk(gateway.status) || gateway.arguments.NoToolCall?))
            && after[id].fileName == m[id].fileName && after[id].profileId == m[id].profileId)
  {
  }

  /**
   * A successful answer is stored as given: names, the unclamped overall
   * score, the three `parsed_data` lists, and exactly one clamped skill row
   * per reported skill, none when the list is absent or empty.
   */
  lemma SuccessStored(m: map<string, Resume>, id: string, a: Analysis)
    requires id in m
    ensures var after := FinalResumes(m, id, true, Reply(200, Parsed(a)));
      && after[id].status == Completed
      && after[id].candidateName == Some(a.candidateName)
      && after[id].candidateRole == Some(a.candidateRole)
      && after[id].overallScore == a.overallScore
      && after[id].parsedData == Some(StoredParsedData(a))
    ensures var rows := InsertedRows(id, true, Reply(200, Parsed(a)));
      && (a.skills.None? || a.skills.value == [] <==> rows == [])
      && (a.skills.Some? ==> |rows| == |a.skills.value|)
      && (forall i :: 0 <= i < |rows| ==> rows[i].resumeId == id && 0 <= rows[i].score <= 100)
  {
  }

  /** The response's gateway-error text names the status the gateway returned. */
  lemma GatewayErrorNamesStatus(req: Request, validToken: string -> bool, status: nat, args: ToolArguments)
    requires Admitted(req, validToken) && !IsOk(status) && status != 429 && status != 402
    ensures var r := ResponseFor(req, validToken, true, Reply(status, args));
      r.status == 500 && r.body.ErrorBody? && |r.body.error| > 18 &&
      DigitsValue(r.body.error[18..]) == status
  {
    var text := "AI gateway error: " + Decimal(status);
    assert text[18..] == Decimal(status);
    DecimalRoundTrip(status);
  }
}
