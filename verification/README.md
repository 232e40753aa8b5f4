# imc_front in Dafny

A model of the logic inside imc_front, a static single-page client for
organisational self-assessments. A visitor picks one of five themes (climat
social, leadership, performance, organisation, talents) and gives the
company's details. The visitor then answers fifteen questions on a 1–4
scale. The page adds up the answers and reads the total against the theme's
table of score bands. The admin pages list mock evaluations and companies,
with search, filters and pagination.

The model has one module per source component:

- `Catalog` (`src/data/evaluationThemes.ts`) holds the five themes as
  constants. Long French texts are named by a `TextKey` and spelled out by
  `Wording`. It also holds the answer scale and the lemmas that check the
  shape of the catalog.
- `Questionnaire` (`QuestionnaireForm.tsx`) covers the flattened question
  list, the cursor and answer map, answering, next, previous, quick
  navigation, progress and the total.
- `Results` (`ResultsView.tsx`) covers band resolution with its
  first-band fallback, the 50/40/30 tiers, the gauge and the markers.
- `Wizard` (`EvaluationPage.tsx`) is the four-step page as a state and
  event machine. It has an invariant that every event preserves.
- `AdminEvaluations`, `AdminDashboard`, `AdminEntreprises` and `AdminLayout`
  cover the admin pages: score tiers, search and filters, pagination, the
  detail dialog and the highlighted sidebar entry.
- `Text` and `Seqs` are helpers. They model `toLowerCase`, `includes`,
  `startsWith`, decimal rendering, `Array.prototype.filter`, and `Option`
  for `undefined`/`null`.

The restart handler (`src/pages/EvaluationPage.tsx:60-65`) keeps the
company details; `Wizard.RestartKeepsDetails` states that.

## Model

| member | source | states |
|---|---|---|
| Text.IncludesSpec | src/pages/admin/AdminEvaluations.tsx:91-92 | `includes` holds exactly when the needle occurs at some position of the text |
| Text.EmptyQueryFound | src/pages/admin/AdminEvaluations.tsx:91-92 | an empty search text is found in every field |
| Text.QueryCaseIrrelevant | src/pages/admin/AdminEntreprises.tsx:51-53 | a query and its lowercase form find exactly the same fields |
| Text.LowerIdempotent | src/pages/admin/AdminEntreprises.tsx:51-53 | lowercasing an already lowercased string changes nothing |
| Text.ParseNatToString | src/components/evaluation/QuestionnaireForm.tsx:21 | reading back the decimal rendering of a number gives the number |
| Seqs.Filter | src/pages/admin/AdminEvaluations.tsx:90 | `filter` keeps order and keeps exactly the elements satisfying the test, each as often as in the input |
| Catalog.ThemeIdsDistinct | src/data/evaluationThemes.ts:29-480 | the catalog has five themes with pairwise distinct ids |
| Catalog.CatalogWellFormed | src/data/evaluationThemes.ts:29-480 | every theme has 3 categories of 5 questions, bands tiling [15, 60] in order, 3 recommendations per band, and band k drawn in the k-th tone from worst to best |
| Catalog.ClimatSocialWellFormed | src/data/evaluationThemes.ts:30-119 | the climat-social theme has the common shape |
| Catalog.LeadershipWellFormed | src/data/evaluationThemes.ts:120-209 | the leadership theme has the common shape |
| Catalog.PerformanceWellFormed | src/data/evaluationThemes.ts:210-299 | the performance theme has the common shape |
| Catalog.OrganisationWellFormed | src/data/evaluationThemes.ts:300-389 | the organisation theme has the common shape |
| Catalog.TalentsWellFormed | src/data/evaluationThemes.ts:390-479 | the talents theme has the common shape |
| Catalog.SharedBounds | src/data/evaluationThemes.ts:29-480 | all five band tables have the bounds [15,29], [30,39], [40,49], [50,60] |
| Catalog.AnswerScale | src/data/evaluationThemes.ts:482-487 | the answer options are 1, 2, 3, 4 in ascending order, and a value is on the scale iff it lies in [1, 4] |
| Catalog.TilesOrdered | src/data/evaluationThemes.ts:69-117 | in a tiling, every earlier band ends before any later band starts |
| Catalog.TilesDisjoint | src/data/evaluationThemes.ts:69-117 | in a tiling, no score lies in two bands |
| Catalog.TilesCover | src/data/evaluationThemes.ts:69-117 | in a tiling of [lo, hi], every score of [lo, hi] lies in some band |
| Catalog.TilesOutside | src/data/evaluationThemes.ts:69-117 | in a tiling of [lo, hi], a score outside [lo, hi] lies in no band |
| Catalog.FindThemeIn | src/pages/EvaluationPage.tsx:42 | `find` by id returns the first theme with that id, and nothing iff no theme has it |
| Catalog.FindThemeById | src/pages/EvaluationPage.tsx:42 | looking up a catalog theme's own id finds that theme |
| Results.FirstMatch | src/components/evaluation/ResultsView.tsx:25-26 | the index found is the first band containing the score, and there is none iff no band contains it |
| Results.FindRange | src/components/evaluation/ResultsView.tsx:25-26 | the band found contains the score and is the first such band, and there is none iff no band contains it |
| Results.Resolve | src/components/evaluation/ResultsView.tsx:25-27 | resolution gives the first band containing the score, or the first band when none does |
| Results.ResolveInTiling | src/components/evaluation/ResultsView.tsx:25-27 | in a tiling, a band containing the score is the one found and resolved |
| Results.ResolveBelowTiling | src/components/evaluation/ResultsView.tsx:25-27 | a score below a tiling matches no band and resolves like the tiling's lowest score |
| Results.ResolveAboveTiling | src/components/evaluation/ResultsView.tsx:25-27 | a score above a tiling matches no band and falls back to the first band |
| Results.ScoreIcon | src/components/evaluation/ResultsView.tsx:35-40 | the icon is chosen by the 50/40/30 thresholds, one icon per tier |
| Results.GaugeTone | src/components/evaluation/ResultsView.tsx:42-47 | the gauge colour is chosen by the 50/40/30 thresholds, one colour per tier |
| Results.GaugeToneMonotone | src/components/evaluation/ResultsView.tsx:42-47 | a higher score never gets a worse colour |
| Results.IconMatchesTone | src/components/evaluation/ResultsView.tsx:35-47 | icon and colour name the same tier for every score |
| Results.Gauge | src/components/evaluation/ResultsView.tsx:30-32 | the percentage is linear in the score, (score − 15) / 45 · 100: 0 exactly at 15, 100 exactly at 60, negative exactly below 15, and within [0, 100] exactly on [15, 60] |
| Results.GaugeStrictlyIncreasing | src/components/evaluation/ResultsView.tsx:30-32 | a higher score gives a strictly higher percentage |
| Results.Highlighted | src/components/evaluation/ResultsView.tsx:91-94 | a marker is lit exactly when the score has reached it, so the lit markers form a prefix of 15, 30, 40, 50, 60; all are lit iff the score is at least 60, none iff it is below 15 |
| Results.HighlightedFollowsTone | src/components/evaluation/ResultsView.tsx:91-94 | for a score in [15, 60), the lit markers are those up to the start of the score's colour tier: one for the worst tier, four for the best |
| Results.MarksAreBandEnds | src/components/evaluation/ResultsView.tsx:91 | the markers are the four band starts followed by the top of the last band |
| Results.CatalogBandAgreesWithGauge | src/components/evaluation/ResultsView.tsx:25-47 | for a catalog theme and a score in [15, 60], the band found is the one of the score's tier, and it is drawn in the gauge's colour |
| Questionnaire.FlattenFrom | src/components/evaluation/QuestionnaireForm.tsx:19-26 | flattening from a category on holds as many entries as those categories have questions, each placed at its category's offset plus its index |
| Questionnaire.FlattenLayout | src/components/evaluation/QuestionnaireForm.tsx:19-26 | the flat list is the categories in order, each category's questions in order, with id (category, index) and the category's name and position |
| Questionnaire.FlattenIdsDistinct | src/components/evaluation/QuestionnaireForm.tsx:21-24 | the ids of the flat list are pairwise distinct |
| Questionnaire.IdStringRoundTrip | src/components/evaluation/QuestionnaireForm.tsx:21 | the "c-q" id string parses back to the (category, index) pair |
| Questionnaire.IdStringInjective | src/components/evaluation/QuestionnaireForm.tsx:21 | two different pairs never render to the same id string |
| Questionnaire.Start | src/components/evaluation/QuestionnaireForm.tsx:15-16 | a form starts at question 0 with no answers over the flat list, and a theme without questions gives no form |
| Questionnaire.Answer | src/components/evaluation/QuestionnaireForm.tsx:33-36 | answering sets the current question's entry, overwriting an earlier one, and leaves every other entry and the cursor as they were |
| Questionnaire.Next | src/components/evaluation/QuestionnaireForm.tsx:38-46 | before the last question the cursor moves on by one; at the last it completes with the recorded answers and their total |
| Questionnaire.Previous | src/components/evaluation/QuestionnaireForm.tsx:48-52 | the cursor moves back by one and stays at 0 at the first question |
| Questionnaire.JumpTo | src/components/evaluation/QuestionnaireForm.tsx:187 | quick navigation moves the cursor to any question and leaves the answers alone |
| Questionnaire.QuickNavStatus | src/components/evaluation/QuestionnaireForm.tsx:189-193 | a quick-navigation button is current iff it is the cursor, answered iff another question with an answer, open otherwise |
| Questionnaire.Progress | src/components/evaluation/QuestionnaireForm.tsx:30 | progress times the question count is 100 times (cursor + 1); it lies in (0, 100] and is 100 exactly at the last question |
| Questionnaire.ProgressIncreases | src/components/evaluation/QuestionnaireForm.tsx:30 | over the same questions, a later cursor gives strictly more progress |
| Questionnaire.MapSumRemove | src/components/evaluation/QuestionnaireForm.tsx:43 | the total of the recorded values is any one entry plus the total of the rest |
| Questionnaire.ScoreIsMapSum | src/components/evaluation/QuestionnaireForm.tsx:43 | summing the answers along the question list equals summing every recorded value when the answers belong to those questions |
| Questionnaire.ScoreBounds | src/components/evaluation/QuestionnaireForm.tsx:43 | with k questions answered on the 1–4 scale, k is at most the number of questions and the total lies in [k, 4k] |
| Questionnaire.UniformScore | src/components/evaluation/QuestionnaireForm.tsx:43 | answering every question with v gives v times the number of questions |
| Questionnaire.CatalogQuestionCount | src/data/evaluationThemes.ts:37-68 | every catalog theme flattens to 15 questions, so its form can start |
| Questionnaire.CompletionWithOneAnswer | src/components/evaluation/QuestionnaireForm.tsx:184-187 | jumping to the last question and answering it lets the questionnaire complete with that single answer as the total |
| Wizard.SetField | src/pages/EvaluationPage.tsx:185-251 | editing a details field sets that field and leaves the five others alone |
| Wizard.Init | src/pages/EvaluationPage.tsx:26-30 | the page opens on the details step iff a non-empty theme parameter is given, with that theme selected and nothing recorded |
| Wizard.CurrentTheme | src/pages/EvaluationPage.tsx:42 | the current theme is a catalog theme with the selected id, and there is none iff no id is selected or no theme has it |
| Wizard.Render | src/pages/EvaluationPage.tsx:108-298 | the theme grid shows exactly on the first step; with the selected id in the catalog, the details step shows that theme's form, the questions step the mounted questionnaire, and the results step that theme's results with the stored score and the company name; otherwise the screen is blank |
| Wizard.Indicator | src/pages/EvaluationPage.tsx:73-77 | in the step indicator the current step is active, the steps before it are done and those after it are pending |
| Wizard.OneActiveMarker | src/pages/EvaluationPage.tsx:73-77 | at most one marker of the indicator is active |
| Wizard.Apply | src/pages/EvaluationPage.tsx:44-65 | selecting a theme moves to details; an edit changes one field and nothing else; submission starts a fresh questionnaire for the theme iff all six fields are filled; answering and navigation change only the form; the last "next" stores the form's answers and their total and is the only way to the results; the back links change only the step; restart clears theme, answers and score but not the details |
| Wizard.CompletionShowsResults | src/pages/EvaluationPage.tsx:54-58 | finishing the questionnaire stores exactly the form's answers and shows the theme's results with their sum and the company name |
| Wizard.InitInv | src/pages/EvaluationPage.tsx:26-40 | the page opens in a state satisfying the invariant |
| Wizard.ApplyPreservesInv | src/pages/EvaluationPage.tsx:44-65 | every event the screen offers keeps the invariant: a questionnaire step has a form over the theme's questions, the results step has recorded answers and their total |
| Wizard.OutcomeScore | src/pages/EvaluationPage.tsx:54-58 | on the results step the score is the total of the recorded answers and lies in [1, 60], so a partial questionnaire can land below 15 |
| Wizard.UnknownThemeDeadEnd | src/pages/EvaluationPage.tsx:140 | a deep link with an unknown theme id leaves a blank details step that offers no action |
| Wizard.KnownThemeDeepLink | src/pages/EvaluationPage.tsx:26-42 | a deep link with a catalog theme id opens that theme's details form |
| Wizard.RestartKeepsDetails | src/pages/EvaluationPage.tsx:60-65 | restarting and choosing a theme gives a fresh record on the details step with the details already typed |
| AdminEvaluations.ScoreColor | src/pages/admin/AdminEvaluations.tsx:68-73 | the score colour follows the 50/40/30 thresholds, one colour per tier |
| AdminEvaluations.ScoreLabel | src/pages/admin/AdminEvaluations.tsx:75-80 | the label is Performant, Stable, Fragile or Critique exactly on the score's tier |
| AdminEvaluations.BadgeTone | src/pages/admin/AdminEvaluations.tsx:82-87 | the badge colour follows the 50/40/30 thresholds, one colour per tier |
| AdminEvaluations.ClassifiersAgree | src/pages/admin/AdminEvaluations.tsx:68-87 | score colour, badge colour and label name the same tier as the results page |
| AdminEvaluations.FilterEvaluations | src/pages/admin/AdminEvaluations.tsx:90-101 | the filtered list keeps order and keeps exactly the records passing search, theme and level |
| AdminEvaluations.NoFilterKeepsAll | src/pages/admin/AdminEvaluations.tsx:90-101 | an empty search with both selects at "all" keeps every record |
| AdminEvaluations.ThemeFilterAlone | src/pages/admin/AdminEvaluations.tsx:93 | with an empty search and every level, a record is kept iff its theme id is the chosen one |
| AdminEvaluations.BucketsPartition | src/pages/admin/AdminEvaluations.tsx:94-98 | a level choice keeps a score iff it is "all" or the score's own bucket, which is the lowercase table label |
| AdminEvaluations.TotalPages | src/pages/admin/AdminEvaluations.tsx:104 | the page count is the ceiling of the count over five |
| AdminEvaluations.PageOf | src/pages/admin/AdminEvaluations.tsx:103-108 | a page holds at most five records, the ones at its offset, and is empty iff it lies past the last page |
| AdminEvaluations.PagesReassemble | src/pages/admin/AdminEvaluations.tsx:103-108 | pages 1 to the last, put together, give back the filtered list |
| AdminEvaluations.PrevPage | src/pages/admin/AdminEvaluations.tsx:246 | "previous" goes back one page and never below page 1 |
| AdminEvaluations.NextPage | src/pages/admin/AdminEvaluations.tsx:254 | "next" goes on one page and never past the last page |
| AdminEvaluations.PageButtonsClamp | src/pages/admin/AdminEvaluations.tsx:246-255 | from a page in range, both buttons land in [1, last page] |
| AdminEvaluations.RefilterAsWritten | src/pages/admin/AdminEvaluations.tsx:136-156 | a change of search or select replaces the filters and keeps the current page |
| AdminEvaluations.Refilter | src/pages/admin/AdminEvaluations.tsx:136-156 | the corrected change replaces the filters and returns to page 1 |
| AdminEvaluations.RowsEmptyOnlyWhenNothingMatches | src/pages/admin/AdminEvaluations.tsx:103-108 | when the page is in range, the table is empty iff no record matches |
| AdminEvaluations.PageStaysInRange | src/pages/admin/AdminEvaluations.tsx:246-255 | the first view, both buttons and the corrected filter change keep the page in range |
| AdminEvaluations.MockShape | src/pages/admin/AdminEvaluations.tsx:57-66 | the page's eight records have climat-social evaluations exactly at the first and sixth places |
| AdminEvaluations.ClimatSocialRecords | src/pages/admin/AdminEvaluations.tsx:93 | in such a list the climat-social filter keeps the first and sixth records |
| AdminEvaluations.StalePageAfterFilter | src/pages/admin/AdminEvaluations.tsx:103-108 | from page 2, a filter leaving one to five records shows an empty table with no pagination bar, as written; the corrected change shows them all |
| AdminEvaluations.StaleClimatSocialPage | src/pages/admin/AdminEvaluations.tsx:57-66 | on the page's own records, page 2 and then theme climat-social hides both matching records |
| AdminEvaluations.DialogRange | src/pages/admin/AdminEvaluations.tsx:110-116 | the dialog's band is a band of the record's theme that contains the score, the first such; there is none exactly when the theme is unknown or no band contains the score, with no fallback |
| AdminEvaluations.DialogWithoutFallback | src/pages/admin/AdminEvaluations.tsx:114-116 | for a catalog theme the dialog has a band iff the score lies in [15, 60]; below 15 it has none while the results page falls back to the first band |
| AdminEvaluations.TableAndDialogAgree | src/pages/admin/AdminEvaluations.tsx:210-289 | for climat-social, leadership and performance, the dialog's band label equals the table label and its colour equals the badge colour on [15, 60] |
| AdminEvaluations.OrganisationLabelsDiffer | src/pages/admin/AdminEvaluations.tsx:210-289 | for an organisation record scoring 40–49 the table says "Stable" and the dialog "Fonctionnelle" |
| AdminDashboard.ScoreColor | src/pages/admin/AdminDashboard.tsx:93-98 | the score colour follows the 50/40/30 thresholds, one colour per tier |
| AdminDashboard.ScoreLabel | src/pages/admin/AdminDashboard.tsx:100-105 | the label is Performant iff score ≥ 50, Stable iff 40–49, Fragile iff 30–39, Critique otherwise |
| AdminDashboard.RowBadgeTone | src/pages/admin/AdminDashboard.tsx:294-299 | the inline badge colour follows the same thresholds |
| AdminDashboard.RowTiersAgree | src/pages/admin/AdminDashboard.tsx:289-301 | in a row, badge colour, score colour and label name the same tier |
| AdminDashboard.TierMonotone | src/pages/admin/AdminDashboard.tsx:93-98 | a higher score never gets a lower tier |
| AdminDashboard.SameAsEvaluationList | src/pages/admin/AdminDashboard.tsx:93-105 | the dashboard classifies every score as the evaluation list does |
| AdminEntreprises.FilterCompanies | src/pages/admin/AdminEntreprises.tsx:50-54 | the list keeps order and keeps a company iff the query occurs, ignoring case, in its name, email or domain |
| AdminEntreprises.NoneFoundIff | src/pages/admin/AdminEntreprises.tsx:158 | the "no company found" message shows iff no company matches |
| AdminEntreprises.EmptyQueryKeepsAll | src/pages/admin/AdminEntreprises.tsx:50-54 | an empty query shows every company |
| AdminEntreprises.CaseInsensitive | src/pages/admin/AdminEntreprises.tsx:51-53 | queries differing only in letter case give the same list |
| AdminEntreprises.LowercasedQuery | src/pages/admin/AdminEntreprises.tsx:51-53 | a query and its lowercase form give the same list |
| AdminLayout.DashboardIsPrefixOfAll | src/components/layout/AdminLayout.tsx:21-26 | only the dashboard entry asks for an exact match, and its path is a prefix of every entry's path |
| AdminLayout.DashboardOnlyAtRoot | src/components/layout/AdminLayout.tsx:28-31 | the dashboard entry is highlighted iff the route is exactly "/admin" |
| AdminLayout.OneActiveInSection | src/components/layout/AdminLayout.tsx:28-31 | on a section's route or below it, exactly that section's entry is highlighted |
| AdminLayout.OneActivePerRoute | src/components/layout/AdminLayout.tsx:21-31 | on each of the four admin routes exactly one entry is highlighted, the route's own |
| AdminLayout.TrailingSlashHighlightsNothing | src/components/layout/AdminLayout.tsx:21-31 | on "/admin/" no entry is highlighted |

## Left out

- Rendering is left out: JSX, Tailwind classes, framer-motion and icons. Colour classes become the `Tone` enum and icons the `Icon` enum.
- React state and remounting are not modelled. Each entry into the questionnaire step is a fresh `Questionnaire.Start`, and leaving it drops the form.
- The dashboard's charts and fixed statistics (`src/pages/admin/AdminDashboard.tsx:33-91`) are left out: they are fixture data with no logic.
- Date formatting with `toLocaleDateString` and the footer's clock depend on locale and time. They are left out.
- Text.Lower: folds ASCII A–Z and the Latin-1 capitals U+00C0–U+00DE except U+00D7. Full Unicode `toLowerCase` is not modelled.
- Wizard.Apply: a submission counts as complete when all six fields are non-empty. The browser's email-format check is not modelled.
- Questionnaire.Progress: exact reals stand in for JavaScript floating point. The `Math.round` of the displayed percentage is not modelled.
- Results.Gauge: exact reals, no floating-point rounding.
- Routing, `App.tsx`, the home page and theme cards are left out as rendering. A theme card's click passes its id to the page's `handleThemeSelect` (`Wizard.Apply` with `SelectTheme`); the home page's links pass a `?theme=` parameter, which feeds `Wizard.Init`.
- `AdminSettings.tsx` and `Footer.tsx` are left out: static forms and markup with no behaviour.
- The sidebar and mobile-menu open toggles are left out: UI booleans with no logic.
- Catalog texts are spelled out only through `Catalog.Wording`. The themes hold `TextKey` names instead of the strings, so that proofs about the catalog do not carry the long French texts.
- Questionnaire.Start: a theme without questions gives no form. The source would read an undefined current question there. No catalog theme is empty (`Questionnaire.CatalogQuestionCount`).
- The "Supprimer" item of the company menu is left out: it has no handler.
- Opening and closing the detail dialog is not modelled as an operation. Those handlers only set or clear the selected record, which is the `selected` field of the list view.

## Findings

| source | as written | input that shows it | evidently intended | confidence | as-written member | corrected member |
|---|---|---|---|---|---|---|
| src/pages/admin/AdminEvaluations.tsx:103-108 | changing the search text or a select keeps `currentPage` (the setters at lines 139, 143 and 156 do not reset it) | on the page's eight records, go to page 2, then choose the theme "climat-social": two records match, page 2 of a one-page result is empty, and the pagination bar that would lead back is hidden | a filter change returns to page 1, so matching records are always reachable | medium, not executed | AdminEvaluations.RefilterAsWritten (shown by AdminEvaluations.StalePageAfterFilter and AdminEvaluations.StaleClimatSocialPage) | AdminEvaluations.Refilter (proved by AdminEvaluations.PageStaysInRange and AdminEvaluations.RowsEmptyOnlyWhenNothingMatches) |
