/**
 * The three-tier score classifier and the two components that colour a
 * score by it (src/components/ScoreDisplay.tsx).
 */
module ScoreDisplay {

  datatype Level = Low | Medium | High

  /** The order low < medium < high. */
  function Rank(l: Level): nat
  {
    match l
    case Low => 0
    case Medium => 1
    case High => 2
  }

  /** `getScoreLevel`: breakpoints 70 and 40; every integer gets exactly one level. */
  function GetScoreLevel(score: int): (l: Level)
    ensures l == High <==> 70 <= score
    ensures l == Medium <==> 40 <= score < 70
    ensures l == Low <==> score < 40
  {
    if score >= 70 then High
    else if score >= 40 then Medium
    else Low
  }

  lemma LevelBoundaries()
    ensures GetScoreLevel(70) == High && GetScoreLevel(69) == Medium
    ensures GetScoreLevel(40) == Medium && GetScoreLevel(39) == Low
  {
  }

  /** A higher score never gets a lower level. */
  lemma LevelMonotone(a: int, b: int)
    requires a <= b
    ensures Rank(GetScoreLevel(a)) <= Rank(GetScoreLevel(b))
  {
  }

  /** Text colour class the pages attach to a level (`score-high` and so on). */
  function TextClass(l: Level): string
  {
    match l
    case High => "score-high"
    case Medium => "score-medium"
    case Low => "score-low"
  }

  /** Fill colour class of a bar (`bg-score-high` and so on). */
  function FillClass(l: Level): string
  {
    match l
    case High => "bg-score-high"
    case Medium => "bg-score-medium"
    case Low => "bg-score-low"
  }

  /** The `level` variant of the badge. */
  function BadgeClass(l: Level): string
  {
    FillClass(l) + " text-accent-foreground"
  }

  /** Distinct levels get distinct classes, so a colour identifies its level. */
  lemma ClassesIdentifyLevel(a: Level, b: Level)
    ensures TextClass(a) == TextClass(b) <==> a == b
    ensures FillClass(a) == FillClass(b) <==> a == b
    ensures BadgeClass(a) == BadgeClass(b) <==> a == b
  {
    if a != b {
      assert TextClass(a)[7] != TextClass(b)[7];
      assert FillClass(a)[10] != FillClass(b)[10];
      assert BadgeClass(a)[10] != BadgeClass(b)[10];
    }
  }

  /** What `ScoreBadge` renders: the level variant and the bare score. */
  datatype BadgeView = BadgeView(levelClass: string, text: int)

  function ScoreBadge(score: int): BadgeView
  {
    BadgeView(BadgeClass(GetScoreLevel(score)), score)
  }

  /** What `ScoreBar` renders: label, `score%` text and its colour, the fill colour and the fill width in percent. */
  datatype BarView = BarView(title: string, percentText: int, textClass: string, fillClass: string, widthPercent: int)

  function ScoreBar(score: int, title: string): BarView
  {
    var level := GetScoreLevel(score);
    BarView(title, score, TextClass(level), FillClass(level), score)
  }

  /**
   * Both components colour strictly by the level: two scores get the same
   * colours exactly when they get the same level; the bar is `score%` wide
   * and both show the score itself.
   */
  lemma {:induction false} ComponentsColourByLevel(a: int, b: int, title: string)
    ensures ScoreBadge(a).levelClass == ScoreBadge(b).levelClass <==> GetScoreLevel(a) == GetScoreLevel(b)
    ensures ScoreBar(a, title).fillClass == ScoreBar(b, title).fillClass <==> GetScoreLevel(a) == GetScoreLevel(b)
    ensures ScoreBar(a, title).textClass == ScoreBar(b, title).textClass <==> GetScoreLevel(a) == GetScoreLevel(b)
    ensures ScoreBar(a, title).widthPercent == a && ScoreBar(a, title).percentText == a
    ensures ScoreBadge(a).text == a
  {
    ClassesIdentifyLevel(GetScoreLevel(a), GetScoreLevel(b));
  }
}
