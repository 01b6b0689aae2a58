/**
 * The public demo dashboard (src/pages/DemoDashboard.tsx): every demo
 * candidate gets an overall score at the chosen relevancy weight, the
 * scored copies are sorted in place by that score (highest or lowest
 * first), and two counters are taken over the sorted list.
 *
 * `Array.prototype.sort` is stable, and with the comparators `a - b` and
 * `b - a` the sorted order is fully determined: ascending or descending
 * by score, rows with equal scores in dataset order. `SortRows` defines
 * that order by insertion from the back; `SortInPlace` is the in-place
 * sort on an array and is proved to produce it.
 */
module DemoDashboard {
  import opened Seqs
  import opened DemoData

  /** Initial slider weight and initial order (highest first). */
  const DefaultWeight: int := 50
  const DefaultSortAsc: bool := false

  /** Slider bounds: 10 to 90 in steps of 5. */
  const SliderMin: int := 10
  const SliderMax: int := 90
  const SliderStep: int := 5

  predicate OnSlider(w: int)
  {
    SliderMin <= w <= SliderMax && (w - SliderMin) % SliderStep == 0
  }

  /** The displayed credibility share `100 - w`. */
  function CredibilityShare(relevancyWeight: int): int
  {
    100 - relevancyWeight
  }

  /**
   * The default weight is a slider position, and for every slider position
   * both shares are themselves slider positions adding up to 100, so both
   * weights of the blend lie in [0,100].
   */
  lemma SliderShares(w: int)
    requires OnSlider(w)
    ensures OnSlider(DefaultWeight)
    ensures OnSlider(CredibilityShare(w)) && w + CredibilityShare(w) == 100
    ensures 0 <= w <= 100 && 0 <= CredibilityShare(w) <= 100
  {
  }

  /** A demo candidate with the overall score computed at the current weight. */
  datatype Row = Row(candidate: DemoCandidate, overallScore: int)

  /** `demoCandidates.map(c => ({...c, overallScore: ...}))`. */
  function WithScores(cs: seq<DemoCandidate>, relevancyWeight: int): (rows: seq<Row>)
    ensures |rows| == |cs|
    ensures forall i :: 0 <= i < |cs| ==> rows[i].candidate == cs[i]
    ensures forall i :: 0 <= i < |cs| ==>
      rows[i].overallScore == CalculateOverallScore(cs[i].relevancyScore, cs[i].credibilityScore, relevancyWeight)
  {
    if cs == [] then []
    else
      [Row(cs[0], CalculateOverallScore(cs[0].relevancyScore, cs[0].credibilityScore, relevancyWeight))]
      + WithScores(cs[1..], relevancyWeight)
  }

  /** Sort key: the score when ascending, its negation when descending. */
  function Key(r: Row, asc: bool): int
  {
    if asc then r.overallScore else -r.overallScore
  }

  /** Sorted by the comparator: non-decreasing scores when ascending, non-increasing when descending. */
  predicate Ordered(rows: seq<Row>, asc: bool)
  {
    forall i, j :: 0 <= i < j < |rows| ==> Key(rows[i], asc) <= Key(rows[j], asc)
  }

  /**
   * Inserts `x` into the sorted `s`, walking from the back past every row
   * that `x` strictly precedes, so it lands after rows with an equal score.
   */
  function InsertBack(s: seq<Row>, x: Row, asc: bool): (r: seq<Row>)
    ensures |r| == |s| + 1
  {
    if s == [] then [x]
    else if Key(x, asc) < Key(s[|s| - 1], asc) then InsertBack(s[..|s| - 1], x, asc) + [s[|s| - 1]]
    else s + [x]
  }

  /** The order the stable sort produces. */
  function SortRows(s: seq<Row>, asc: bool): (r: seq<Row>)
    ensures |r| == |s|
  {
    if s == [] then [] else InsertBack(SortRows(s[..|s| - 1], asc), s[|s| - 1], asc)
  }

  /** The rows of score `k`, as a predicate for `Filter`. */
  function ScoreIs(k: int): Row -> bool
  {
    (r: Row) => r.overallScore == k
  }

  lemma {:induction false} InsertBackPermutation(s: seq<Row>, x: Row, asc: bool)
    ensures multiset(InsertBack(s, x, asc)) == multiset(s) + multiset{x}
  {
    if s != [] {
      var init, last := s[..|s| - 1], s[|s| - 1];
      assert s == init + [last];
      if Key(x, asc) < Key(last, asc) {
        InsertBackPermutation(init, x, asc);
      }
    }
  }

  /** Inserting keeps every key at most `bound` when the rows and `x` are. */
  lemma {:induction false} InsertBackBounded(s: seq<Row>, x: Row, asc: bool, bound: int)
    requires forall i :: 0 <= i < |s| ==> Key(s[i], asc) <= bound
    requires Key(x, asc) <= bound
    ensures forall i :: 0 <= i < |InsertBack(s, x, asc)| ==> Key(InsertBack(s, x, asc)[i], asc) <= bound
  {
    if s != [] && Key(x, asc) < Key(s[|s| - 1], asc) {
      InsertBackBounded(s[..|s| - 1], x, asc, bound);
    }
  }

  lemma {:induction false} InsertBackOrdered(s: seq<Row>, x: Row, asc: bool)
    requires Ordered(s, asc)
    ensures Ordered(InsertBack(s, x, asc), asc)
  {
    if s != [] {
      var init, last := s[..|s| - 1], s[|s| - 1];
      if Key(x, asc) < Key(last, asc) {
        InsertBackOrdered(init, x, asc);
        InsertBackBounded(init, x, asc, Key(last, asc));
      }
    }
  }

  lemma {:induction false} InsertBackFilter(s: seq<Row>, x: Row, asc: bool, k: int)
    ensures Filter(InsertBack(s, x, asc), ScoreIs(k)) == Filter(s, ScoreIs(k)) + Filter([x], ScoreIs(k))
  {
    if s == [] {
      assert InsertBack(s, x, asc) == [x];
    } else {
      var init, last := s[..|s| - 1], s[|s| - 1];
      assert s == init + [last];
      if Key(x, asc) < Key(last, asc) {
        InsertBackFilter(init, x, asc, k);
        FilterConcat(InsertBack(init, x, asc), [last], ScoreIs(k));
        FilterConcat(init, [last], ScoreIs(k));
      } else {
        FilterConcat(s, [x], ScoreIs(k));
      }
    }
  }

  /** The sort only reorders: the result is a permutation of its input. */
  lemma {:induction false} SortRowsPermutation(s: seq<Row>, asc: bool)
    ensures multiset(SortRows(s, asc)) == multiset(s)
  {
    if s != [] {
      SortRowsPermutation(s[..|s| - 1], asc);
      InsertBackPermutation(SortRows(s[..|s| - 1], asc), s[|s| - 1], asc);
      assert s == s[..|s| - 1] + [s[|s| - 1]];
    }
  }

  /** Descending order gives non-increasing scores, ascending order non-decreasing ones. */
  lemma {:induction false} SortRowsOrdered(s: seq<Row>, asc: bool)
    ensures Ordered(SortRows(s, asc), asc)
    ensures forall i, j :: 0 <= i < j < |SortRows(s, asc)| ==>
      if asc then SortRows(s, asc)[i].overallScore <= SortRows(s, asc)[j].overallScore
      else SortRows(s, asc)[i].overallScore >= SortRows(s, asc)[j].overallScore
  {
    if s != [] {
      SortRowsOrdered(s[..|s| - 1], asc);
      InsertBackOrdered(SortRows(s[..|s| - 1], asc), s[|s| - 1], asc);
    }
  }

  /** Stability: the rows of any one score appear in the same relative order as in the input. */
  lemma {:induction false} SortRowsStable(s: seq<Row>, asc: bool, k: int)
    ensures Filter(SortRows(s, asc), ScoreIs(k)) == Filter(s, ScoreIs(k))
  {
    if s != [] {
      var init, last := s[..|s| - 1], s[|s| - 1];
      SortRowsStable(init, asc, k);
      InsertBackFilter(SortRows(init, asc), last, asc, k);
      assert s == init + [last];
      FilterConcat(init, [last], ScoreIs(k));
    }
  }

  /** Swapping `x` with a predecessor it strictly precedes moves one row out of the part still to be sorted. */
  lemma SinkStep(t: seq<Row>, j: int, x: Row, asc: bool)
    requires 0 < j < |t| && t[j] == x && Key(x, asc) < Key(t[j - 1], asc)
    ensures InsertBack(t[..j], x, asc) + t[j + 1..] ==
      InsertBack(t[..j - 1], x, asc) + t[j - 1 := x][j := t[j - 1]][j..]
  {
    assert t[..j][..j - 1] == t[..j - 1];
    assert t[j - 1 := x][j := t[j - 1]][j..] == [t[j - 1]] + t[j + 1..];
  }

  /** Where `x` stops, the rows before it already precede it: nothing is left to sort. */
  lemma SinkStop(t: seq<Row>, j: int, x: Row, asc: bool)
    requires 0 <= j < |t| && t[j] == x && (j == 0 || !(Key(x, asc) < Key(t[j - 1], asc)))
    ensures InsertBack(t[..j], x, asc) + t[j + 1..] == t
  {
    assert t == t[..j] + [x] + t[j + 1..];
  }

  /** One pass of the sort: sinks `a[i]` into the sorted prefix `a[..i]`. */
  method SinkInto(a: array<Row>, i: int, asc: bool)
    requires 0 <= i < a.Length
    modifies a
    ensures a[..i + 1] == InsertBack(old(a[..i]), old(a[i]), asc)
    ensures a[i + 1..] == old(a[i + 1..])
  {
    var x := a[i];
    ghost var cur := a[..i + 1];
    assert cur[..i] == a[..i];
    ghost var target := InsertBack(cur[..i], x, asc);
    var j := i;
    while j > 0 && Key(x, asc) < Key(a[j - 1], asc)
      invariant 0 <= j <= i && |cur| == i + 1
      invariant cur == a[..i + 1] && cur[j] == x
      invariant target == InsertBack(cur[..j], x, asc) + cur[j + 1..]
      invariant a[i + 1..] == old(a[i + 1..])
    {
      SinkStep(cur, j, x, asc);
      a[j - 1], a[j] := a[j], a[j - 1];
      cur := cur[j - 1 := x][j := cur[j - 1]];
      j := j - 1;
    }
    SinkStop(cur, j, x, asc);
  }

  /** The stable sort of `a`, in place. */
  method SortInPlace(a: array<Row>, asc: bool)
    modifies a
    ensures a[..] == SortRows(old(a[..]), asc)
  {
    ghost var s := a[..];
    var i := 0;
    while i < a.Length
      invariant 0 <= i <= a.Length
      invariant a[..i] == SortRows(s[..i], asc)
      invariant a[i..] == s[i..]
    {
      assert a[i] == s[i];
      SinkInto(a, i, asc);
      assert s[..i + 1][..i] == s[..i];
      i := i + 1;
    }
    assert a[..] == a[..a.Length] && s == s[..a.Length];
  }

  /**
   * The `candidates` memo: scores at the weight, copies them into a fresh
   * array and sorts that array. The dataset itself is a value and is left
   * as it was.
   */
  method RankCandidates(cs: seq<DemoCandidate>, relevancyWeight: int, sortAsc: bool) returns (ranked: seq<Row>)
    ensures ranked == SortRows(WithScores(cs, relevancyWeight), sortAsc)
  {
    var rows := WithScores(cs, relevancyWeight);
    var a := new Row[|rows|](i requires 0 <= i < |rows| => rows[i]);
    assert a[..] == rows;
    SortInPlace(a, sortAsc);
    ranked := a[..];
  }

  /**
   * The ranking is the demo set, each candidate once, with the overall
   * score computed at the weight, in the requested order.
   */
  lemma {:induction false} RankingFacts(cs: seq<DemoCandidate>, w: int, asc: bool)
    ensures multiset(SortRows(WithScores(cs, w), asc)) == multiset(WithScores(cs, w))
    ensures forall r :: r in SortRows(WithScores(cs, w), asc) ==>
      r.candidate in cs &&
      r.overallScore == CalculateOverallScore(r.candidate.relevancyScore, r.candidate.credibilityScore, w)
    ensures Ordered(SortRows(WithScores(cs, w), asc), asc)
  {
    var rows := WithScores(cs, w);
    SortRowsPermutation(rows, asc);
    SortRowsOrdered(rows, asc);
    forall r | r in SortRows(rows, asc)
      ensures r.candidate in cs
      ensures r.overallScore == CalculateOverallScore(r.candidate.relevancyScore, r.candidate.credibilityScore, w)
    {
      assert r in multiset(rows);
      var m :| 0 <= m < |rows| && rows[m] == r;
    }
  }

  predicate IsHigh(r: Row) { r.overallScore >= 70 }
  predicate IsAtRisk(r: Row) { r.overallScore < 50 }

  /** `highCount`. */
  function HighCount(rows: seq<Row>): nat
  {
    Count(rows, IsHigh)
  }

  /** `atRiskCount`. */
  function AtRiskCount(rows: seq<Row>): nat
  {
    Count(rows, IsAtRisk)
  }

  /**
   * No row is both high and at risk, so the two counters never exceed the
   * total; and neither counter depends on the sort direction.
   */
  lemma CountsBounded(cs: seq<DemoCandidate>, w: int, asc: bool)
    ensures HighCount(SortRows(WithScores(cs, w), asc)) + AtRiskCount(SortRows(WithScores(cs, w), asc)) <= |cs|
    ensures HighCount(SortRows(WithScores(cs, w), asc)) == HighCount(WithScores(cs, w))
    ensures AtRiskCount(SortRows(WithScores(cs, w), asc)) == AtRiskCount(WithScores(cs, w))
  {
    var rows := WithScores(cs, w);
    var ranked := SortRows(rows, asc);
    SortRowsPermutation(rows, asc);
    assert |ranked| == |rows| by {
      assert |multiset(ranked)| == |multiset(rows)|;
    }
    DisjointCounts(ranked, IsHigh, IsAtRisk);
    CountPermutation(ranked, rows, IsHigh);
    CountPermutation(ranked, rows, IsAtRisk);
  }

  /** What the page shows by default. */
  function DefaultRanking(): seq<Row>
  {
    SortRows(WithScores(DemoCandidates, DefaultWeight), DefaultSortAsc)
  }
}
