/** The dashboard's table of recent evaluations: the colour of the score
    figure, the level label and the inline badge colour of each row. */
module AdminDashboard {
  import opened Catalog
  import AdminEvaluations

  /** `getScoreColor` of the dashboard. */
  function ScoreColor(score: int): (tone: Tone)
    ensures tone == Success <==> 50 <= score
    ensures tone == Primary <==> 40 <= score < 50
    ensures tone == Warning <==> 30 <= score < 40
    ensures tone == Destructive <==> score < 30
  {
    if score >= 50 then Success
    else if score >= 40 then Primary
    else if score >= 30 then Warning
    else Destructive
  }

  /** `getScoreLabel` of the dashboard. */
  function ScoreLabel(score: int): (name: string)
    ensures name == "Performant" <==> 50 <= score
    ensures name == "Stable" <==> 40 <= score < 50
    ensures name == "Fragile" <==> 30 <= score < 40
    ensures name == "Critique" <==> score < 30
  {
    if score >= 50 then "Performant"
    else if score >= 40 then "Stable"
    else if score >= 30 then "Fragile"
    else "Critique"
  }

  /** The badge colour written inline in the table row. */
  function RowBadgeTone(score: int): (tone: Tone)
    ensures tone == Success <==> 50 <= score
    ensures tone == Primary <==> 40 <= score < 50
    ensures tone == Warning <==> 30 <= score < 40
    ensures tone == Destructive <==> score < 30
  {
    if score >= 50 then Success
    else if score >= 40 then Primary
    else if score >= 30 then Warning
    else Destructive
  }

  /** Score colour, badge colour and label of a row name the same tier. */
  lemma RowTiersAgree(score: int)
    ensures RowBadgeTone(score) == ScoreColor(score)
    ensures ScoreLabel(score) == AdminEvaluations.TierLabel(ScoreColor(score))
  {
  }

  /** A higher score never falls into a lower tier. */
  lemma TierMonotone(a: int, b: int)
    requires a <= b
    ensures ToneRank(ScoreColor(a)) <= ToneRank(ScoreColor(b))
  {
  }

  /** The dashboard and the evaluation list classify every score alike. */
  lemma SameAsEvaluationList(score: int)
    ensures ScoreColor(score) == AdminEvaluations.ScoreColor(score)
    ensures ScoreLabel(score) == AdminEvaluations.ScoreLabel(score)
    ensures RowBadgeTone(score) == AdminEvaluations.BadgeTone(score)
  {
  }
}
