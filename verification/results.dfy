/** The score interpreter of the results view: resolving a total score to a
    band of the theme's table, the gauge, the icon and colour tiers, and the
    highlighted scale markers. */
module Results {
  import opened Seqs
  import opened Catalog

  /** Band `i` is the first band of `ranges` that contains `score`. */
  predicate IsFirstMatch(ranges: seq<ScoreRange>, score: int, i: int) {
    0 <= i < |ranges| && InRange(ranges[i], score) && forall j :: 0 <= j < i ==> !InRange(ranges[j], score)
  }

  /** Index of the first band of `ranges` that contains `score`
      (`Array.prototype.find` over `min <= score <= max`). */
  function FirstMatch(ranges: seq<ScoreRange>, score: int): (r: Option<nat>)
    ensures r.Some? ==> r.value < |ranges| && InRange(ranges[r.value], score)
    ensures r.Some? ==> forall j :: 0 <= j < r.value ==> !InRange(ranges[j], score)
    ensures r.None? <==> forall j :: 0 <= j < |ranges| ==> !InRange(ranges[j], score)
    decreases |ranges|
  {
    if |ranges| == 0 then None
    else if InRange(ranges[0], score) then Some(0)
    else match FirstMatch(ranges[1..], score)
      case None => None
      case Some(k) => Some(k + 1)
  }

  /** The first band containing `score`, or nothing: the lookup the admin
      detail dialog performs, with no fallback. */
  function FindRange(ranges: seq<ScoreRange>, score: int): (r: Option<ScoreRange>)
    ensures r.Some? ==> r.value in ranges && InRange(r.value, score)
    ensures forall i :: IsFirstMatch(ranges, score, i) ==> r == Some(ranges[i])
    ensures r.None? <==> forall j :: 0 <= j < |ranges| ==> !InRange(ranges[j], score)
  {
    match FirstMatch(ranges, score)
    case Some(k) => Some(ranges[k])
    case None => None
  }

  /** The band the results view shows: the first band containing `score`,
      falling back to the first band of the table when none does. The
      table must be non-empty, as the fallback reads its first element. */
  function Resolve(ranges: seq<ScoreRange>, score: int): (r: ScoreRange)
    requires |ranges| > 0
    ensures r in ranges
    ensures forall i :: IsFirstMatch(ranges, score, i) ==> r == ranges[i]
    ensures (forall i :: 0 <= i < |ranges| ==> !InRange(ranges[i], score)) ==> r == ranges[0]
  {
    match FindRange(ranges, score)
    case Some(band) => band
    case None => ranges[0]
  }

  /** On a tiling of [lo, hi], every score of the interval resolves to the
      one band that contains it, without needing the fallback. */
  lemma ResolveInTiling(ranges: seq<ScoreRange>, lo: int, hi: int, score: int, i: int)
    requires Tiles(ranges, lo, hi)
    requires 0 <= i < |ranges| && InRange(ranges[i], score)
    ensures FirstMatch(ranges, score) == Some(i)
    ensures FindRange(ranges, score) == Some(ranges[i])
    ensures Resolve(ranges, score) == ranges[i]
  {
    TilesDisjoint(ranges, lo, hi, score);
  }

  /** A score below a tiling falls back to the first band, exactly as the
      lowest score of the interval does. */
  lemma ResolveBelowTiling(ranges: seq<ScoreRange>, lo: int, hi: int, score: int)
    requires Tiles(ranges, lo, hi)
    requires score < lo
    ensures FindRange(ranges, score).None?
    ensures Resolve(ranges, score) == ranges[0] == Resolve(ranges, lo)
  {
    TilesOutside(ranges, lo, hi, score);
    assert InRange(ranges[0], lo);
    ResolveInTiling(ranges, lo, hi, lo, 0);
  }

  /** A score above a tiling also falls back to the first band. */
  lemma ResolveAboveTiling(ranges: seq<ScoreRange>, lo: int, hi: int, score: int)
    requires Tiles(ranges, lo, hi)
    requires hi < score
    ensures FindRange(ranges, score).None?
    ensures Resolve(ranges, score) == ranges[0]
  {
    TilesOutside(ranges, lo, hi, score);
  }

  /** The icon beside the label. */
  datatype Icon = CheckCircle | TrendingUp | Target | AlertTriangle

  /** `getScoreIcon`: fixed thresholds 50, 40 and 30. */
  function ScoreIcon(score: int): (icon: Icon)
    ensures icon == CheckCircle <==> 50 <= score
    ensures icon == TrendingUp <==> 40 <= score < 50
    ensures icon == Target <==> 30 <= score < 40
    ensures icon == AlertTriangle <==> score < 30
  {
    if score >= 50 then CheckCircle
    else if score >= 40 then TrendingUp
    else if score >= 30 then Target
    else AlertTriangle
  }

  /** `getScoreColor`: the colour family of the gauge gradient. */
  function GaugeTone(score: int): (tone: Tone)
    ensures tone == Success <==> 50 <= score
    ensures tone == Primary <==> 40 <= score < 50
    ensures tone == Warning <==> 30 <= score < 40
    ensures tone == Destructive <==> score < 30
  {
    if score >= 50 then Success
    else if score >= 40 then Primary
    else if score >= 30 then Warning
    else Destructive
  }

  /** A higher score never gets a lower colour tier. */
  lemma GaugeToneMonotone(a: int, b: int)
    requires a <= b
    ensures ToneRank(GaugeTone(a)) <= ToneRank(GaugeTone(b))
  {
  }

  /** The icon and the colour always name the same tier. */
  lemma IconMatchesTone(score: int)
    ensures ScoreIcon(score) == CheckCircle <==> GaugeTone(score) == Success
    ensures ScoreIcon(score) == TrendingUp <==> GaugeTone(score) == Primary
    ensures ScoreIcon(score) == Target <==> GaugeTone(score) == Warning
    ensures ScoreIcon(score) == AlertTriangle <==> GaugeTone(score) == Destructive
  {
  }

  /** Lower and upper end of the gauge. */
  const GaugeMin: int := 15
  const GaugeMax: int := 60

  /** Gauge fill in percent: the position of `score` on [15, 60], computed
      exactly (the view hands the unrounded number to CSS). The fill is
      linear: each point of score adds 100/45 percent. */
  function Gauge(score: int): (pct: real)
    ensures pct * (GaugeMax - GaugeMin) as real == 100.0 * (score - GaugeMin) as real
    ensures pct == 0.0 <==> score == GaugeMin
    ensures pct == 100.0 <==> score == GaugeMax
    ensures pct < 0.0 <==> score < GaugeMin
    ensures 0.0 <= pct <= 100.0 <==> GaugeMin <= score <= GaugeMax
  {
    ((score - GaugeMin) as real / (GaugeMax - GaugeMin) as real) * 100.0
  }

  /** The gauge is strictly increasing in the score. */
  lemma GaugeStrictlyIncreasing(a: int, b: int)
    requires a < b
    ensures Gauge(a) < Gauge(b)
  {
  }

  /** The scale marks under the gauge. */
  const Marks: seq<int> := [15, 30, 40, 50, 60]

  /** Which marks are drawn emphasised: those the score has reached. */
  function Highlighted(score: int): (h: seq<bool>)
    ensures |h| == |Marks|
    ensures forall i :: 0 <= i < |h| ==> (h[i] <==> Marks[i] <= score)
    ensures forall i, j :: 0 <= i <= j < |h| && h[j] ==> h[i]
    ensures (forall i :: 0 <= i < |h| ==> h[i]) <==> score >= 60
    ensures (forall i :: 0 <= i < |h| ==> !h[i]) <==> score < 15
  {
    var h := seq(|Marks|, i requires 0 <= i < |Marks| => score >= Marks[i]);
    assert h[0] == (score >= 15) && h[4] == (score >= 60);
    h
  }

  /** Below the top of the scale, the lit marks are the start of the
      score's own tier and every mark before it: one mark for the worst
      tier up to four for the best. */
  lemma HighlightedFollowsTone(score: int, i: int)
    requires 15 <= score < 60 && 0 <= i < |Marks|
    ensures Highlighted(score)[i] <==> i <= ToneRank(GaugeTone(score))
  {
  }

  /** The first four marks are the lower ends of the shared band table and
      the last is its upper end. */
  lemma MarksAreBandEnds()
    ensures forall i :: 0 <= i < 4 ==> Marks[i] == StandardBounds[i].0
    ensures Marks[4] == StandardBounds[3].1
  {
  }

  /** For a catalog theme, a score in [15, 60] resolves to band k where k is
      the rank of the gauge tone: the views' fixed 50/40/30 thresholds and
      the theme's own table agree, and the band's badge has the gauge's
      colour. */
  lemma CatalogBandAgreesWithGauge(t: Theme, score: int)
    requires t in Themes
    requires GaugeMin <= score <= GaugeMax
    ensures FindRange(t.scoreRanges, score) == Some(t.scoreRanges[ToneRank(GaugeTone(score))])
    ensures Resolve(t.scoreRanges, score) == t.scoreRanges[ToneRank(GaugeTone(score))]
    ensures Resolve(t.scoreRanges, score).labelClass == GaugeTone(score)
  {
    CatalogWellFormed();
    SharedBounds();
    var i :| 0 <= i < |Themes| && Themes[i] == t;
    var ranges := t.scoreRanges;
    assert WellFormedTheme(t);
    assert Bounds(ranges) == StandardBounds;
    var k := ToneRank(GaugeTone(score));
    assert Bounds(ranges)[k] == StandardBounds[k];
    ResolveInTiling(ranges, 15, 60, score, k);
    assert ToneRank(ranges[k].labelClass) == k;
  }
}
