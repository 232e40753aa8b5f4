/** The admin list of evaluations: score tiers for the table, search, theme
    and level filters, pagination by five, and the detail dialog that looks
    up the evaluation's band in its theme's table. */
module AdminEvaluations {
  import opened Seqs
  import opened Text
  import opened Catalog
  import opened Results

  /** One evaluation record of the list. */
  datatype Evaluation = Evaluation(
    id: string, company: string, theme: string, themeId: string, score: int,
    date: string, email: string, phone: string, location: string)

  /** The records the page lists. */
  const MockEvaluations: seq<Evaluation> := [
    Evaluation("1", "Entreprise ABC", "Climat Social", "climat-social", 45, "2024-01-15", "contact@abc.com", "+225 07 00 00 00", "Abidjan"),
    Evaluation("2", "Société XYZ", "Leadership", "leadership", 38, "2024-01-14", "info@xyz.ci", "+225 05 00 00 00", "Bouaké"),
    Evaluation("3", "Groupe Delta", "Performance", "performance", 52, "2024-01-14", "contact@delta.com", "+225 01 00 00 00", "Abidjan"),
    Evaluation("4", "Tech Corp", "Organisation", "organisation", 41, "2024-01-13", "hello@techcorp.ci", "+225 27 00 00 00", "Yamoussoukro"),
    Evaluation("5", "Innovate SA", "Talents", "talents", 55, "2024-01-13", "contact@innovate.com", "+225 07 11 11 11", "Abidjan"),
    Evaluation("6", "Global Services", "Climat Social", "climat-social", 28, "2024-01-12", "info@global.ci", "+225 05 22 22 22", "San Pedro"),
    Evaluation("7", "Future Industries", "Leadership", "leadership", 47, "2024-01-12", "contact@future.com", "+225 01 33 33 33", "Abidjan"),
    Evaluation("8", "Prime Solutions", "Performance", "performance", 33, "2024-01-11", "hello@prime.ci", "+225 07 44 44 44", "Korhogo")
  ]

  /** `getScoreColor`: the colour of the score figure. */
  function ScoreColor(score: int): (tone: Tone)
    ensures tone == Success <==> 50 <= score
    ensures tone == Primary <==> 40 <= score < 50
    ensures tone == Warning <==> 30 <= score < 40
    ensures tone == Destructive <==> score < 30
  {
    if score >= 50 then Success
    else if score >= 40 then Primary
    else if score >= 30 then Warning
    else Destructive
  }

  /** `getScoreLabel`: the level shown in the table. */
  function ScoreLabel(score: int): (name: string)
    ensures name == "Performant" <==> 50 <= score
    ensures name == "Stable" <==> 40 <= score < 50
    ensures name == "Fragile" <==> 30 <= score < 40
    ensures name == "Critique" <==> score < 30
  {
    if score >= 50 then "Performant"
    else if score >= 40 then "Stable"
    else if score >= 30 then "Fragile"
    else "Critique"
  }

  /** `getScoreBadgeClass`: the colour of the level badge. */
  function BadgeTone(score: int): (tone: Tone)
    ensures tone == Success <==> 50 <= score
    ensures tone == Primary <==> 40 <= score < 50
    ensures tone == Warning <==> 30 <= score < 40
    ensures tone == Destructive <==> score < 30
  {
    if score >= 50 then Success
    else if score >= 40 then Primary
    else if score >= 30 then Warning
    else Destructive
  }

  /** The level name of each tier, worst first. */
  function TierLabel(tone: Tone): string {
    match tone
    case Destructive => "Critique"
    case Warning => "Fragile"
    case Primary => "Stable"
    case Success => "Performant"
  }

  /** The three classifiers share their thresholds with each other and with
      the results page: score colour, badge colour and label name the same
      tier for every score. */
  lemma ClassifiersAgree(score: int)
    ensures ScoreColor(score) == BadgeTone(score) == GaugeTone(score)
    ensures ScoreLabel(score) == TierLabel(ScoreColor(score))
  {
  }

  /** The filter settings: the search text and the two selects. */
  datatype Filters = Filters(query: string, theme: string, level: string)

  /** The search matches the company name or the email, ignoring case. */
  predicate MatchesSearch(e: Evaluation, query: string) {
    IncludesIgnoringCase(e.company, query) || IncludesIgnoringCase(e.email, query)
  }

  /** "all" or the record's theme id. */
  predicate MatchesTheme(e: Evaluation, theme: string) {
    theme == "all" || e.themeId == theme
  }

  /** "all" or the score bucket the level select names. */
  predicate MatchesLevel(e: Evaluation, level: string) {
    || level == "all"
    || (level == "performant" && e.score >= 50)
    || (level == "stable" && e.score >= 40 && e.score < 50)
    || (level == "fragile" && e.score >= 30 && e.score < 40)
    || (level == "critique" && e.score < 30)
  }

  predicate Matches(e: Evaluation, f: Filters) {
    MatchesSearch(e, f.query) && MatchesTheme(e, f.theme) && MatchesLevel(e, f.level)
  }

  /** `filteredEvaluations`: the records passing all three tests, in list
      order, each as often as it is listed. */
  function FilterEvaluations(evals: seq<Evaluation>, f: Filters): (r: seq<Evaluation>)
    ensures IsSubsequence(r, evals)
    ensures forall e :: e in r <==> e in evals && Matches(e, f)
    ensures forall e :: multiset(r)[e] == if Matches(e, f) then multiset(evals)[e] else 0
  {
    Filter(evals, e => Matches(e, f))
  }

  /** An empty search with both selects at "all" keeps every record. */
  lemma NoFilterKeepsAll(evals: seq<Evaluation>)
    ensures FilterEvaluations(evals, Filters("", "all", "all")) == evals
  {
    forall e | e in evals
      ensures Matches(e, Filters("", "all", "all"))
    {
      EmptyQueryFound(e.company);
    }
    FilterAll(evals, e => Matches(e, Filters("", "all", "all")));
  }

  /** The lowercase name of a score's bucket in the level select. */
  function Bucket(score: int): string {
    if score >= 50 then "performant"
    else if score >= 40 then "stable"
    else if score >= 30 then "fragile"
    else "critique"
  }

  /** Each score falls in exactly one of the four buckets, the one named
      by its table label in lower case; "all" takes every score. */
  lemma BucketsPartition(e: Evaluation, level: string)
    ensures MatchesLevel(e, level) <==> level == "all" || level == Bucket(e.score)
    ensures Bucket(e.score) == Lower(ScoreLabel(e.score))
  {
    var name := ScoreLabel(e.score);
    var low := Lower(name);
    assert |low| == |name|;
    if e.score >= 50 {
      assert low == "performant" by {
        assert forall i :: 0 <= i < |name| ==> low[i] == LowerChar(name[i]);
      }
    } else if e.score >= 40 {
      assert low == "stable" by {
        assert forall i :: 0 <= i < |name| ==> low[i] == LowerChar(name[i]);
      }
    } else if e.score >= 30 {
      assert low == "fragile" by {
        assert forall i :: 0 <= i < |name| ==> low[i] == LowerChar(name[i]);
      }
    } else {
      assert low == "critique" by {
        assert forall i :: 0 <= i < |name| ==> low[i] == LowerChar(name[i]);
      }
    }
  }

  const ItemsPerPage: nat := 5

  /** `Math.ceil(n / 5)`. */
  function TotalPages(n: nat): (t: nat)
    ensures n <= t * ItemsPerPage
    ensures t > 0 ==> (t - 1) * ItemsPerPage < n
  {
    (n + ItemsPerPage - 1) / ItemsPerPage
  }

  /** `slice((page - 1) * 5, page * 5)` for a page number of at least 1:
      up to five records from position (page - 1) * 5, none when that
      position is past the end. */
  function PageOf<T>(xs: seq<T>, page: int): (r: seq<T>)
    requires page >= 1
    ensures |r| <= ItemsPerPage
    ensures |r| == 0 <==> page > TotalPages(|xs|)
    ensures forall k :: 0 <= k < |r| ==> (page - 1) * ItemsPerPage + k < |xs| && r[k] == xs[(page - 1) * ItemsPerPage + k]
  {
    var start := (page - 1) * ItemsPerPage;
    var end := page * ItemsPerPage;
    if start >= |xs| then [] else xs[start..if end < |xs| then end else |xs|]
  }

  /** Pages `first` to `last`, one after the other. */
  function Pages<T>(xs: seq<T>, first: int, last: int): seq<T>
    requires first >= 1
    decreases last - first
  {
    if first > last then [] else PageOf(xs, first) + Pages(xs, first + 1, last)
  }

  /** Pages `first` onwards reassemble the list from where page `first`
      starts. */
  lemma {:induction false} PagesFrom<T>(xs: seq<T>, first: int)
    requires first >= 1
    ensures (first - 1) * ItemsPerPage <= |xs| ==> Pages(xs, first, TotalPages(|xs|)) == xs[(first - 1) * ItemsPerPage..]
    decreases TotalPages(|xs|) - first
  {
    var start := (first - 1) * ItemsPerPage;
    if first <= TotalPages(|xs|) && start <= |xs| {
      var page := PageOf(xs, first);
      if first * ItemsPerPage <= |xs| {
        PagesFrom(xs, first + 1);
        assert xs[start..] == xs[start..first * ItemsPerPage] + xs[first * ItemsPerPage..];
      } else {
        assert Pages(xs, first + 1, TotalPages(|xs|)) == [];
      }
    }
  }

  /** Pages 1 to `totalPages` put together give back the whole list. */
  lemma PagesReassemble<T>(xs: seq<T>)
    ensures Pages(xs, 1, TotalPages(|xs|)) == xs
  {
    PagesFrom(xs, 1);
  }

  /** The page's state: filters, current page, and the record whose dialog
      is open. */
  datatype ListView = ListView(filters: Filters, page: int, selected: Option<Evaluation>)

  const InitialView: ListView := ListView(Filters("", "all", "all"), 1, None)

  /** The records passing the current filters. */
  function Shown(evals: seq<Evaluation>, v: ListView): seq<Evaluation> {
    FilterEvaluations(evals, v.filters)
  }

  /** The rows of the table. */
  function Rows(evals: seq<Evaluation>, v: ListView): seq<Evaluation>
    requires v.page >= 1
  {
    PageOf(Shown(evals, v), v.page)
  }

  /** The pagination bar is drawn only when there is more than one page. */
  predicate ControlsShown(evals: seq<Evaluation>, v: ListView) {
    TotalPages(|Shown(evals, v)|) > 1
  }

  /** The previous-page handler, `Math.max(1, p - 1)`. */
  function PrevPage(v: ListView): (r: ListView)
    ensures r.page == if v.page > 1 then v.page - 1 else 1
    ensures r.filters == v.filters && r.selected == v.selected
  {
    v.(page := if v.page - 1 > 1 then v.page - 1 else 1)
  }

  /** The next-page handler, `Math.min(totalPages, p + 1)`. */
  function NextPage(evals: seq<Evaluation>, v: ListView): (r: ListView)
    ensures r.page == if v.page < TotalPages(|Shown(evals, v)|) then v.page + 1 else TotalPages(|Shown(evals, v)|)
    ensures r.filters == v.filters && r.selected == v.selected
  {
    var total := TotalPages(|Shown(evals, v)|);
    v.(page := if total < v.page + 1 then total else v.page + 1)
  }

  /** The buttons are offered only with the bar drawn, "previous" when not
      on page 1 and "next" when not on the last page; pressed, they never
      leave the range 1 to totalPages. */
  lemma PageButtonsClamp(evals: seq<Evaluation>, v: ListView)
    requires 1 <= v.page <= TotalPages(|Shown(evals, v)|)
    ensures 1 <= PrevPage(v).page <= v.page
    ensures v.page <= NextPage(evals, v).page <= TotalPages(|Shown(evals, v)|)
  {
  }

  /** A filter change as the page writes it: the setter changes the
      filters and leaves the current page where it was. */
  function RefilterAsWritten(v: ListView, f: Filters): (r: ListView)
    ensures r.filters == f && r.page == v.page && r.selected == v.selected
  {
    v.(filters := f)
  }

  /** A filter change that also returns to the first page. */
  function Refilter(v: ListView, f: Filters): (r: ListView)
    ensures r.filters == f && r.page == 1 && r.selected == v.selected
  {
    v.(filters := f, page := 1)
  }

  /** The current page exists: it is page 1 or a page of the filtered
      list. */
  predicate PageInRange(evals: seq<Evaluation>, v: ListView) {
    1 <= v.page && (v.page == 1 || v.page <= TotalPages(|Shown(evals, v)|))
  }

  /** While the page is in range, the table is empty exactly when no
      record passes the filters. */
  lemma RowsEmptyOnlyWhenNothingMatches(evals: seq<Evaluation>, v: ListView)
    requires PageInRange(evals, v)
    ensures Rows(evals, v) == [] <==> Shown(evals, v) == []
  {
  }

  /** The opening state, the page buttons and the corrected filter change
      keep the page in range. */
  lemma PageStaysInRange(evals: seq<Evaluation>, v: ListView, f: Filters)
    requires PageInRange(evals, v)
    ensures PageInRange(evals, InitialView)
    ensures PageInRange(evals, PrevPage(v))
    ensures ControlsShown(evals, v) ==> PageInRange(evals, NextPage(evals, v))
    ensures PageInRange(evals, Refilter(v, f))
  {
  }

  /** The theme filter "climat-social" on its own. */
  predicate InClimatSocial(e: Evaluation) {
    e.themeId == "climat-social"
  }

  /** Eight records of which exactly the first and the sixth are
      climat-social evaluations, as in the page's own list. */
  predicate ClimatSocialAtFirstAndSixth(evals: seq<Evaluation>) {
    |evals| == 8 &&
    forall i :: 0 <= i < |evals| ==> (InClimatSocial(evals[i]) <==> i == 0 || i == 5)
  }

  /** The page's own records have that shape. */
  lemma MockShape()
    ensures ClimatSocialAtFirstAndSixth(MockEvaluations)
  {
  }

  /** In such a list the climat-social filter keeps the first and the sixth
      record. */
  lemma ClimatSocialRecords(evals: seq<Evaluation>)
    requires ClimatSocialAtFirstAndSixth(evals)
    ensures Filter(evals, InClimatSocial) == [evals[0], evals[5]]
  {
    ClimatSocialTail(evals);
    assert Filter(evals[1..], InClimatSocial) == [evals[5]];
  }

  lemma ClimatSocialTail(evals: seq<Evaluation>)
    requires ClimatSocialAtFirstAndSixth(evals)
    ensures Filter(evals[2..], InClimatSocial) == [evals[5]]
  {
    assert InClimatSocial(evals[5]);
    assert Filter(evals[7..], InClimatSocial) == [];
    assert Filter(evals[6..], InClimatSocial) == [];
    assert Filter(evals[5..], InClimatSocial) == [evals[5]];
    assert Filter(evals[4..], InClimatSocial) == [evals[5]];
    assert Filter(evals[3..], InClimatSocial) == [evals[5]];
  }

  /** With an empty search and every level, the theme select alone decides. */
  lemma ThemeFilterAlone(evals: seq<Evaluation>, theme: string)
    requires theme != "all"
    ensures FilterEvaluations(evals, Filters("", theme, "all")) == Filter(evals, (e: Evaluation) => e.themeId == theme)
  {
    forall e | e in evals
      ensures Matches(e, Filters("", theme, "all")) <==> e.themeId == theme
    {
      EmptyQueryFound(e.company);
    }
    FilterCongruent(evals, (e: Evaluation) => Matches(e, Filters("", theme, "all")), (e: Evaluation) => e.themeId == theme);
  }

  /** Whenever the unfiltered list has a second page and a filter leaves
      between one and five records: from page 2, a filter change as written
      keeps page 2 of a one-page result, so the table is empty although
      records match, and the pagination bar that would lead back is not
      drawn. The corrected change shows every matching record. */
  lemma StalePageAfterFilter(evals: seq<Evaluation>, f: Filters)
    requires |evals| > ItemsPerPage
    requires 1 <= |FilterEvaluations(evals, f)| <= ItemsPerPage
    ensures var v := NextPage(evals, InitialView);
      var w := RefilterAsWritten(v, f);
      && v.page == 2
      && |Shown(evals, w)| > 0
      && Rows(evals, w) == []
      && !ControlsShown(evals, w)
      && Rows(evals, Refilter(v, f)) == Shown(evals, w)
  {
    NoFilterKeepsAll(evals);
    var shown := FilterEvaluations(evals, f);
    assert PageOf(shown, 1) == shown;
  }

  /** On a list shaped like the page's own: from page 2, choosing the theme
      "climat-social" leaves two records, both hidden as written. */
  lemma StaleClimatSocialPage(evals: seq<Evaluation>)
    requires ClimatSocialAtFirstAndSixth(evals)
    ensures var f := Filters("", "climat-social", "all");
      var w := RefilterAsWritten(NextPage(evals, InitialView), f);
      && w.page == 2
      && Shown(evals, w) == [evals[0], evals[5]]
      && Rows(evals, w) == []
  {
    var f := Filters("", "climat-social", "all");
    ThemeFilterAlone(evals, "climat-social");
    FilterCongruent(evals, (e: Evaluation) => e.themeId == "climat-social", InClimatSocial);
    ClimatSocialRecords(evals);
    StalePageAfterFilter(evals, f);
  }

  /** The detail dialog's band: the evaluation's theme, then the first band
      containing the score, with no fallback. */
  function DialogRange(e: Evaluation): (r: Option<ScoreRange>)
    ensures r.Some? ==> FindTheme(e.themeId).Some? && r.value in FindTheme(e.themeId).value.scoreRanges
    ensures r.Some? ==> InRange(r.value, e.score)
    ensures FindTheme(e.themeId).Some? ==>
      forall i :: IsFirstMatch(FindTheme(e.themeId).value.scoreRanges, e.score, i) ==>
        r == Some(FindTheme(e.themeId).value.scoreRanges[i])
    ensures r.None? <==> (
      || FindTheme(e.themeId).None?
      || forall j :: 0 <= j < |FindTheme(e.themeId).value.scoreRanges| ==> !InRange(FindTheme(e.themeId).value.scoreRanges[j], e.score))
  {
    match FindTheme(e.themeId)
    case None => None
    case Some(t) => FindRange(t.scoreRanges, e.score)
  }

  /** The dialog body is drawn only when a record is selected and both its
      theme and its band are found. */
  predicate DialogShown(v: ListView) {
    v.selected.Some? && DialogRange(v.selected.value).Some?
  }

  /** For a catalog theme the dialog opens exactly for scores in [15, 60]:
      a score outside, which the results page would still show under the
      first band, gives an empty dialog. */
  lemma DialogWithoutFallback(e: Evaluation, t: Theme)
    requires t in Themes && e.themeId == t.id
    ensures DialogRange(e).Some? <==> 15 <= e.score <= 60
    ensures e.score < 15 ==> DialogRange(e).None? && Resolve(t.scoreRanges, e.score) == t.scoreRanges[0]
  {
    var i :| 0 <= i < |Themes| && Themes[i] == t;
    FindThemeById(i);
    CatalogWellFormed();
    assert WellFormedTheme(t);
    var ranges := t.scoreRanges;
    if 15 <= e.score <= 60 {
      TilesCover(ranges, 15, 60, e.score);
    } else if e.score < 15 {
      ResolveBelowTiling(ranges, 15, 60, e.score);
      TilesOutside(ranges, 15, 60, e.score);
    } else {
      TilesOutside(ranges, 15, 60, e.score);
    }
  }

  /** The band labels of the themes that use the generic level names. */
  lemma GenericBandLabels(t: Theme)
    requires t == ClimatSocial || t == Leadership || t == Performance
    ensures |t.scoreRanges| == 4
    ensures forall k :: 0 <= k < 4 ==> t.scoreRanges[k].labelText == TierLabel([Destructive, Warning, Primary, Success][k])
  {
  }

  /** For climat-social, leadership and performance, the table's label and
      the dialog's band label agree on every score of [15, 60], and the
      dialog badge has the band's own colour. */
  lemma TableAndDialogAgree(e: Evaluation, t: Theme)
    requires (t == ClimatSocial || t == Leadership || t == Performance) && e.themeId == t.id
    requires 15 <= e.score <= 60
    ensures DialogRange(e).Some?
    ensures DialogRange(e).value.labelText == ScoreLabel(e.score)
    ensures DialogRange(e).value.labelClass == BadgeTone(e.score)
  {
    var i := if t == ClimatSocial then 0 else if t == Leadership then 1 else 2;
    FindThemeById(i);
    CatalogBandAgreesWithGauge(t, e.score);
    GenericBandLabels(t);
    var k := ToneRank(GaugeTone(e.score));
    assert [Destructive, Warning, Primary, Success][k] == GaugeTone(e.score);
  }

  /** The organisation theme names its bands differently: a score of the
      third band is "Stable" in the table and "Fonctionnelle" in the dialog,
      as for "Tech Corp" at 41. */
  lemma OrganisationLabelsDiffer(e: Evaluation)
    requires e.themeId == "organisation" && 40 <= e.score < 50
    ensures ScoreLabel(e.score) == "Stable"
    ensures DialogRange(e).Some? && DialogRange(e).value.labelText == "Fonctionnelle"
  {
    FindThemeById(3);
    OrganisationWellFormed();
    assert InRange(Organisation.scoreRanges[2], e.score);
    ResolveInTiling(Organisation.scoreRanges, 15, 60, e.score, 2);
  }
}
