/**
 * The candidate comparison page (src/pages/Compare.tsx): completed
 * resumes with their skills grouped by resume, a selection of at most
 * three candidates, the union of their skill names, the best candidate
 * per skill and a per-candidate summary.
 */
module Compare {
  import opened Types
  import opened Seqs
  import opened Rounding

  /** One skill of a compared candidate. */
  datatype SkillEntry = SkillEntry(name: string, score: int, confidence: string)

  datatype CandidateWithSkills = CandidateWithSkills(
    id: string,
    name: string,
    role: string,
    overallScore: int,
    skills: seq<SkillEntry>)

  // ---------------------------------------------------------------------
  // Grouping the fetched skill rows by resume
  // ---------------------------------------------------------------------

  /** The skill rows of one resume, as a predicate for `Filter`. */
  function ForResume(resumeId: string): ResumeSkill -> bool
  {
    (s: ResumeSkill) => s.resumeId == resumeId
  }

  /**
   * `groups` is the grouping of `skills` by resume: one key per resume id
   * that occurs, holding that resume's rows in their fetched order.
   */
  ghost predicate IsGrouping(skills: seq<ResumeSkill>, groups: map<string, seq<ResumeSkill>>)
  {
    && (forall id :: id in groups <==> exists k :: 0 <= k < |skills| && skills[k].resumeId == id)
    && (forall id :: id in groups ==> groups[id] == Filter(skills, ForResume(id)))
  }

  /** The map after pushing row `s` onto the list of its resume. */
  function Pushed(groups: map<string, seq<ResumeSkill>>, s: ResumeSkill): map<string, seq<ResumeSkill>>
  {
    groups[s.resumeId := (if s.resumeId in groups then groups[s.resumeId] else []) + [s]]
  }

  lemma GroupingStep(done: seq<ResumeSkill>, s: ResumeSkill, groups: map<string, seq<ResumeSkill>>)
    requires IsGrouping(done, groups)
    ensures IsGrouping(done + [s], Pushed(groups, s))
  {
    var after := Pushed(groups, s);
    forall id
      ensures id in after <==> exists k :: 0 <= k < |done + [s]| && (done + [s])[k].resumeId == id
    {
      if id in groups {
        var k :| 0 <= k < |done| && done[k].resumeId == id;
        assert (done + [s])[k].resumeId == id;
      }
      if id == s.resumeId {
        assert (done + [s])[|done|].resumeId == id;
      }
      if exists k :: 0 <= k < |done + [s]| && (done + [s])[k].resumeId == id {
        var k :| 0 <= k < |done + [s]| && (done + [s])[k].resumeId == id;
        if k < |done| {
          assert done[k].resumeId == id;
        }
      }
    }
    forall id | id in after
      ensures after[id] == Filter(done + [s], ForResume(id))
    {
      FilterConcat(done, [s], ForResume(id));
      if id !in groups {
        FilterNone(done, ForResume(id));
      }
    }
  }

  lemma GroupingStepAt(skills: seq<ResumeSkill>, i: int, groups: map<string, seq<ResumeSkill>>)
    requires 0 <= i < |skills| && IsGrouping(skills[..i], groups)
    ensures IsGrouping(skills[..i + 1], Pushed(groups, skills[i]))
  {
    GroupingStep(skills[..i], skills[i], groups);
    assert skills[..i + 1] == skills[..i] + [skills[i]];
  }

  /** `skillsByResume`: a map filled by pushing each row onto its resume's list. */
  method GroupByResume(skills: seq<ResumeSkill>) returns (groups: map<string, seq<ResumeSkill>>)
    ensures IsGrouping(skills, groups)
  {
    groups := map[];
    var i := 0;
    while i < |skills|
      invariant 0 <= i <= |skills|
      invariant IsGrouping(skills[..i], groups)
    {
      var s := skills[i];
      GroupingStepAt(skills, i, groups);
      var rows := if s.resumeId in groups then groups[s.resumeId] else [];
      groups := groups[s.resumeId := rows + [s]];
      i := i + 1;
    }
    assert skills[..i] == skills;
  }

  /** The rows of a skill list as compared entries. */
  function Entries(rows: seq<ResumeSkill>): (es: seq<SkillEntry>)
    ensures |es| == |rows|
    ensures forall k :: 0 <= k < |rows| ==>
      es[k] == SkillEntry(rows[k].skillName, rows[k].score, rows[k].confidence)
  {
    if rows == [] then []
    else [SkillEntry(rows[0].skillName, rows[0].score, rows[0].confidence)] + Entries(rows[1..])
  }

  /** One compared candidate: name falls back to the file name, role to "Unknown". */
  function ToCandidate(r: Resume, groups: map<string, seq<ResumeSkill>>): CandidateWithSkills
  {
    var rows := if r.id in groups then groups[r.id] else [];
    CandidateWithSkills(r.id, OrElse(r.candidateName, r.fileName), OrElse(r.candidateRole, "Unknown"),
      r.overallScore, Entries(rows))
  }

  function BuildCandidates(resumes: seq<Resume>, groups: map<string, seq<ResumeSkill>>): (cs: seq<CandidateWithSkills>)
    ensures |cs| == |resumes|
    ensures forall i :: 0 <= i < |resumes| ==> cs[i] == ToCandidate(resumes[i], groups)
  {
    if resumes == [] then [] else [ToCandidate(resumes[0], groups)] + BuildCandidates(resumes[1..], groups)
  }

  /**
   * Every candidate carries exactly the skill rows of its own resume, in
   * fetched order (none when the resume has no rows), and its name and
   * role fall back as on the page.
   */
  lemma CandidatesCarryOwnSkills(resumes: seq<Resume>, skills: seq<ResumeSkill>, groups: map<string, seq<ResumeSkill>>)
    requires IsGrouping(skills, groups)
    ensures forall i :: 0 <= i < |resumes| ==>
      BuildCandidates(resumes, groups)[i].skills == Entries(Filter(skills, ForResume(resumes[i].id)))
    ensures forall i :: 0 <= i < |resumes| ==>
      BuildCandidates(resumes, groups)[i].id == resumes[i].id &&
      BuildCandidates(resumes, groups)[i].name == OrElse(resumes[i].candidateName, resumes[i].fileName) &&
      BuildCandidates(resumes, groups)[i].role == OrElse(resumes[i].candidateRole, "Unknown")
  {
    forall i | 0 <= i < |resumes| && resumes[i].id !in groups
      ensures Filter(skills, ForResume(resumes[i].id)) == []
    {
      FilterNone(skills, ForResume(resumes[i].id));
    }
  }

  // ---------------------------------------------------------------------
  // The selection
  // ---------------------------------------------------------------------

  const MaxSelected: nat := 3

  /** What the page keeps true of `selectedIds`. */
  predicate ValidSelection(ids: seq<string>)
  {
    |ids| <= MaxSelected && NoDuplicates(ids)
  }

  function NotId(id: string): string -> bool
  {
    (x: string) => x != id
  }

  /** `toggleCandidate`: remove if present, ignore when full, append otherwise. */
  function Toggle(prev: seq<string>, id: string): (next: seq<string>)
    ensures id in prev ==> next == Filter(prev, NotId(id)) && id !in next
    ensures id in prev ==> forall x :: x in next <==> x in prev && x != id
    ensures id !in prev && |prev| >= MaxSelected ==> next == prev
    ensures id !in prev && |prev| < MaxSelected ==> next == prev + [id]
  {
    if id in prev then Filter(prev, NotId(id))
    else if |prev| >= MaxSelected then prev
    else prev + [id]
  }

  /** Toggling keeps the selection at most three ids long and free of duplicates. */
  lemma ToggleKeepsValid(prev: seq<string>, id: string)
    requires ValidSelection(prev)
    ensures ValidSelection(Toggle(prev, id))
  {
    if id in prev {
      FilterNoDuplicates(prev, NotId(id));
    }
  }

  /** Toggling an id that is not selected, twice, restores the selection. */
  lemma ToggleTwiceAbsent(prev: seq<string>, id: string)
    requires id !in prev
    ensures Toggle(Toggle(prev, id), id) == prev
  {
    if |prev| < MaxSelected {
      FilterConcat(prev, [id], NotId(id));
      FilterAll(prev, NotId(id));
    }
  }

  /** Toggling a selected id twice moves it to the end of the selection. */
  lemma ToggleTwicePresent(prev: seq<string>, id: string)
    requires ValidSelection(prev) && id in prev
    ensures Toggle(Toggle(prev, id), id) == Filter(prev, NotId(id)) + [id]
  {
    var k :| 0 <= k < |prev| && prev[k] == id;
    FilterSplit(prev, k, NotId(id));
  }

  /**
   * Toggling the same id twice restores the selection exactly when the id
   * was not selected or was the last one selected; an id taken out of the
   * middle comes back at the end.
   */
  lemma ToggleTwiceRestores(prev: seq<string>, id: string)
    requires ValidSelection(prev)
    ensures Toggle(Toggle(prev, id), id) == prev <==> id !in prev || prev[|prev| - 1] == id
  {
    if id !in prev {
      ToggleTwiceAbsent(prev, id);
    } else {
      ToggleTwicePresent(prev, id);
      var twice := Filter(prev, NotId(id)) + [id];
      if prev[|prev| - 1] == id {
        var init := prev[..|prev| - 1];
        assert prev == init + [id];
        FilterConcat(init, [id], NotId(id));
        FilterAll(init, NotId(id));
        assert twice == prev;
      } else {
        assert twice[|twice| - 1] == id;
        assert |twice| != |prev| || twice[|prev| - 1] != prev[|prev| - 1];
      }
    }
  }

  /** Dropping the element at `k` that fails `p` leaves the filter below the length. */
  lemma FilterSplit(s: seq<string>, k: int, p: string -> bool)
    requires 0 <= k < |s| && !p(s[k])
    ensures |Filter(s, p)| < |s|
  {
    assert s == s[..k] + [s[k]] + s[k + 1..];
    FilterConcat(s[..k] + [s[k]], s[k + 1..], p);
    FilterConcat(s[..k], [s[k]], p);
  }

  /** A card is disabled when it is not selected and three are. */
  predicate CardDisabled(ids: seq<string>, id: string)
  {
    id !in ids && |ids| >= MaxSelected
  }

  /** The disabled cards are exactly the ones whose toggle would change nothing. */
  lemma DisabledIffToggleIsNoOp(ids: seq<string>, id: string)
    ensures CardDisabled(ids, id) <==> Toggle(ids, id) == ids
  {
    if id !in ids && |ids| < MaxSelected {
      assert |Toggle(ids, id)| == |ids| + 1;
    }
  }

  function InSelection(ids: seq<string>): CandidateWithSkills -> bool
  {
    (c: CandidateWithSkills) => c.id in ids
  }

  /** `selected`: the fetched candidates whose id is selected, in fetched order. */
  function Selected(candidates: seq<CandidateWithSkills>, ids: seq<string>): seq<CandidateWithSkills>
  {
    Filter(candidates, InSelection(ids))
  }

  /**
   * `selected` holds exactly the candidates whose id is selected, and its
   * order is the candidate list's: reordering the selected ids changes
   * nothing.
   */
  lemma SelectedFacts(candidates: seq<CandidateWithSkills>, ids: seq<string>, ids2: seq<string>)
    ensures forall c :: c in Selected(candidates, ids) <==> c in candidates && c.id in ids
    ensures (forall x :: x in ids <==> x in ids2) ==> Selected(candidates, ids) == Selected(candidates, ids2)
  {
    if forall x :: x in ids <==> x in ids2 {
      FilterSame(candidates, InSelection(ids), InSelection(ids2));
    }
  }

  /** The comparison is shown from two selected candidates on. */
  predicate ShowComparison(selected: seq<CandidateWithSkills>)
  {
    |selected| >= 2
  }

  // ---------------------------------------------------------------------
  // Skills across the selection
  // ---------------------------------------------------------------------

  /** `selected.flatMap(c => c.skills.map(s => s.name))`. */
  function SkillNames(selected: seq<CandidateWithSkills>): seq<string>
  {
    if selected == [] then []
    else NamesOf(selected[0].skills) + SkillNames(selected[1..])
  }

  function NamesOf(skills: seq<SkillEntry>): (names: seq<string>)
    ensures |names| == |skills| && forall k :: 0 <= k < |skills| ==> names[k] == skills[k].name
  {
    if skills == [] then [] else [skills[0].name] + NamesOf(skills[1..])
  }

  /** A candidate of the selection lists a skill called `name`. */
  predicate Lists(selected: seq<CandidateWithSkills>, name: string)
  {
    exists i, k :: 0 <= i < |selected| && 0 <= k < |selected[i].skills| && selected[i].skills[k].name == name
  }

  lemma {:induction false} SkillNamesMembers(selected: seq<CandidateWithSkills>, name: string)
    ensures name in SkillNames(selected) <==> Lists(selected, name)
  {
    if selected != [] {
      SkillNamesMembers(selected[1..], name);
      var head := NamesOf(selected[0].skills);
      if name in head {
        var k :| 0 <= k < |head| && head[k] == name;
        assert selected[0].skills[k].name == name;
      }
      if Lists(selected[1..], name) {
        var i, k :| 0 <= i < |selected[1..]| && 0 <= k < |selected[1..][i].skills| && selected[1..][i].skills[k].name == name;
        assert selected[i + 1].skills[k].name == name;
      }
      if Lists(selected, name) {
        var i, k :| 0 <= i < |selected| && 0 <= k < |selected[i].skills| && selected[i].skills[k].name == name;
        if i == 0 {
          assert head[k] == name;
        } else {
          assert selected[1..][i - 1].skills[k].name == name;
        }
      }
    }
  }

  /** `allSkills`. */
  function AllSkills(selected: seq<CandidateWithSkills>): seq<string>
  {
    Distinct(SkillNames(selected))
  }

  /**
   * `allSkills` names every skill listed by a selected candidate, each
   * once, in order of first appearance.
   */
  lemma AllSkillsFacts(selected: seq<CandidateWithSkills>)
    ensures NoDuplicates(AllSkills(selected))
    ensures forall name :: name in AllSkills(selected) <==> Lists(selected, name)
    ensures forall name :: name in AllSkills(selected) <==> name in SkillNames(selected)
    ensures forall i, j :: 0 <= i < j < |AllSkills(selected)| ==>
      FirstIndex(SkillNames(selected), AllSkills(selected)[i]) < FirstIndex(SkillNames(selected), AllSkills(selected)[j])
  {
    DistinctCorrect(SkillNames(selected));
    forall name ensures name in AllSkills(selected) <==> Lists(selected, name) {
      SkillNamesMembers(selected, name);
    }
  }

  function Named(name: string): SkillEntry -> bool
  {
    (s: SkillEntry) => s.name == name
  }

  /** `getSkill`: the first skill of the candidate with that name. */
  function GetSkill(skills: seq<SkillEntry>, name: string): Option<SkillEntry>
  {
    FindFirst(skills, Named(name))
  }

  /** The score a candidate competes with for a skill; -1, the starting best, when not listed. */
  function Rating(c: CandidateWithSkills, name: string): int
  {
    match GetSkill(c.skills, name)
    case Some(s) => s.score
    case None => -1
  }

  /** Candidate `k` is the earliest with the highest rating, and that rating beats -1. */
  predicate IsFirstBest(selected: seq<CandidateWithSkills>, name: string, k: int)
  {
    && 0 <= k < |selected|
    && Rating(selected[k], name) > -1
    && (forall i :: 0 <= i < |selected| ==> Rating(selected[i], name) <= Rating(selected[k], name))
    && (forall i :: 0 <= i < k ==> Rating(selected[i], name) < Rating(selected[k], name))
  }

  /**
   * `getBestForSkill`: the id of the first selected candidate with the
   * strictly highest score for the skill, or "" when no selected candidate
   * lists it with a score above -1.
   */
  method GetBestForSkill(selected: seq<CandidateWithSkills>, name: string) returns (bestId: string)
    ensures (forall i :: 0 <= i < |selected| ==> Rating(selected[i], name) <= -1) ==> bestId == ""
    ensures (exists i :: 0 <= i < |selected| && Rating(selected[i], name) > -1) ==>
      exists k :: IsFirstBest(selected, name, k) && bestId == selected[k].id
  {
    var best := -1;
    bestId := "";
    ghost var bestIdx := -1;
    var i := 0;
    while i < |selected|
      invariant 0 <= i <= |selected|
      invariant -1 <= bestIdx < i
      invariant bestIdx == -1 ==> best == -1 && bestId == "" && forall j :: 0 <= j < i ==> Rating(selected[j], name) <= -1
      invariant bestIdx >= 0 ==> best == Rating(selected[bestIdx], name) && best > -1 && bestId == selected[bestIdx].id
      invariant bestIdx >= 0 ==> forall j :: 0 <= j < i ==> Rating(selected[j], name) <= best
      invariant bestIdx >= 0 ==> forall j :: 0 <= j < bestIdx ==> Rating(selected[j], name) < best
    {
      var c := selected[i];
      var skill := GetSkill(c.skills, name);
      if skill.Some? && skill.value.score > best {
        best := skill.value.score;
        bestId := c.id;
        bestIdx := i;
      }
      i := i + 1;
    }
    if bestIdx >= 0 {
      assert IsFirstBest(selected, name, bestIdx);
    }
  }

  // ---------------------------------------------------------------------
  // Per-candidate summary
  // ---------------------------------------------------------------------

  predicate IsVerifiedEntry(s: SkillEntry) { s.confidence == "verified" }
  predicate IsUnverifiedEntry(s: SkillEntry) { s.confidence == "unverified" }

  function Sum(skills: seq<SkillEntry>): int
  {
    if skills == [] then 0 else skills[0].score + Sum(skills[1..])
  }

  /** "Avg. Score": the rounded mean of the skill scores, 0 without skills. */
  function AverageScore(skills: seq<SkillEntry>): (avg: int)
    ensures |skills| == 0 ==> avg == 0
    ensures |skills| > 0 ==> 2 * |skills| * avg - |skills| <= 2 * Sum(skills) < 2 * |skills| * avg + |skills|
  {
    if |skills| > 0 then RoundDiv(Sum(skills), |skills|) else 0
  }

  lemma {:induction false} SumBetween(skills: seq<SkillEntry>, lo: int, hi: int)
    requires forall k :: 0 <= k < |skills| ==> lo <= skills[k].score <= hi
    ensures |skills| * lo <= Sum(skills) <= |skills| * hi
  {
    if skills != [] {
      SumBetween(skills[1..], lo, hi);
    }
  }

  /** The average lies within any bounds of the scores, so between the minimum and the maximum. */
  lemma AverageBetween(skills: seq<SkillEntry>, lo: int, hi: int)
    requires |skills| > 0
    requires forall k :: 0 <= k < |skills| ==> lo <= skills[k].score <= hi
    ensures lo <= AverageScore(skills) <= hi
  {
    SumBetween(skills, lo, hi);
    RoundDivBetween(Sum(skills), |skills|, lo, hi);
  }

  /**
   * The summary of a candidate: verified and at-risk counts never exceed
   * the number of skills together; no skills gives an average of 0.
   */
  lemma SummaryFacts(c: CandidateWithSkills)
    ensures Count(c.skills, IsVerifiedEntry) + Count(c.skills, IsUnverifiedEntry) <= |c.skills|
    ensures |c.skills| == 0 ==> AverageScore(c.skills) == 0
  {
    DisjointCounts(c.skills, IsVerifiedEntry, IsUnverifiedEntry);
  }
}
