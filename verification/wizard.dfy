/** The public evaluation page: a four-step wizard (theme, company details,
    questionnaire, results) holding the selected theme id, the company
    details, and the answers and total of the last completed
    questionnaire. The questionnaire's own state lives in the form while
    the questionnaire step is shown and is discarded when it is left. */
module Wizard {
  import opened Seqs
  import opened Catalog
  import opened Questionnaire
  import opened Results

  /** The four steps, in the order the indicator shows them. */
  datatype Step = ThemeSelection | CompanyDetails | Questions | Outcome

  /** Position of a step on the indicator. */
  function StepIndex(s: Step): nat {
    match s
    case ThemeSelection => 0
    case CompanyDetails => 1
    case Questions => 2
    case Outcome => 3
  }

  /** The company details form; every field is marked required. */
  datatype CompanyInfo = CompanyInfo(
    name: string, domain: string, phone: string,
    email: string, location: string, objective: string)

  const EmptyInfo: CompanyInfo := CompanyInfo("", "", "", "", "", "")

  /** The field an edit changes. */
  datatype Field = Name | Domain | Phone | Email | Location | Objective

  /** The value of one field. */
  function FieldValue(info: CompanyInfo, f: Field): string {
    match f
    case Name => info.name
    case Domain => info.domain
    case Phone => info.phone
    case Email => info.email
    case Location => info.location
    case Objective => info.objective
  }

  /** Typing into one field: that field takes the new value, the others keep
      theirs. */
  function SetField(info: CompanyInfo, f: Field, value: string): (r: CompanyInfo)
    ensures FieldValue(r, f) == value
    ensures forall g :: g != f ==> FieldValue(r, g) == FieldValue(info, g)
  {
    match f
    case Name => info.(name := value)
    case Domain => info.(domain := value)
    case Phone => info.(phone := value)
    case Email => info.(email := value)
    case Location => info.(location := value)
    case Objective => info.(objective := value)
  }

  /** The browser lets the form submit only when no required field is
      empty. */
  predicate Complete(info: CompanyInfo) {
    forall f :: FieldValue(info, f) != ""
  }

  /** The page state. `form` is the questionnaire component's state, present
      while it is mounted. */
  datatype Page = Page(
    step: Step,
    selected: Option<string>,
    info: CompanyInfo,
    answers: map<QuestionId, int>,
    score: int,
    form: Option<Form>)

  /** Opening the page, possibly with a `?theme=` query parameter: a
      non-empty parameter skips straight to the company details with that
      theme selected; an absent or empty one starts at theme selection. */
  function Init(param: Option<string>): (p: Page)
    ensures p.step == CompanyDetails <==> param.Some? && param.value != ""
    ensures p.step == ThemeSelection <==> !(param.Some? && param.value != "")
    ensures p.selected == param && p.info == EmptyInfo
    ensures p.answers == map[] && p.score == 0 && p.form.None?
  {
    var step := if param.Some? && param.value != "" then CompanyDetails else ThemeSelection;
    Page(step, param, EmptyInfo, map[], 0, None)
  }

  /** The theme the selected id names, if any. */
  function CurrentTheme(p: Page): (r: Option<Theme>)
    ensures r.Some? ==> r.value in Themes && p.selected == Some(r.value.id)
    ensures r.None? <==> p.selected.None? || forall i :: 0 <= i < |Themes| ==> Themes[i].id != p.selected.value
  {
    if p.selected.Some? then FindTheme(p.selected.value) else None
  }

  /** What the page draws below the step indicator. */
  datatype Screen =
    | ThemeGrid
    | DetailsForm(theme: Theme)
    | QuestionnaireScreen(theme: Theme, form: Form)
    | ResultsScreen(theme: Theme, score: int, companyName: string)
    | Blank

  /** Each step renders only when the selected theme is found (the theme
      grid needs none), and the questionnaire only while its form exists. */
  function Render(p: Page): (s: Screen)
    ensures s.Blank? <==> p.step != ThemeSelection && (CurrentTheme(p).None? || (p.step == Questions && p.form.None?))
    ensures s.ThemeGrid? <==> p.step == ThemeSelection
    ensures !s.Blank? && !s.ThemeGrid? ==> Some(s.theme) == CurrentTheme(p)
    ensures s.DetailsForm? <==> p.step == CompanyDetails && CurrentTheme(p).Some?
    ensures s.QuestionnaireScreen? <==> p.step == Questions && CurrentTheme(p).Some? && p.form.Some?
    ensures s.QuestionnaireScreen? ==> s.form == p.form.value
    ensures s.ResultsScreen? <==> p.step == Outcome && CurrentTheme(p).Some?
    ensures s.ResultsScreen? ==> s.score == p.score && s.companyName == p.info.name
  {
    match p.step
    case ThemeSelection => ThemeGrid
    case CompanyDetails =>
      if CurrentTheme(p).Some? then DetailsForm(CurrentTheme(p).value) else Blank
    case Questions =>
      if CurrentTheme(p).Some? && p.form.Some? then QuestionnaireScreen(CurrentTheme(p).value, p.form.value) else Blank
    case Outcome =>
      if CurrentTheme(p).Some? then ResultsScreen(CurrentTheme(p).value, p.score, p.info.name) else Blank
  }

  /** How one circle of the step indicator is drawn. */
  datatype Marker = Done | Active | Pending

  /** The step indicator: steps before the current one are done, the
      current one is active, later ones are pending. */
  function Indicator(step: Step): (m: seq<Marker>)
    ensures |m| == 4
    ensures forall i :: 0 <= i < 4 ==> (m[i] == Active <==> i == StepIndex(step))
    ensures forall i :: 0 <= i < 4 ==> (m[i] == Done <==> i < StepIndex(step))
    ensures forall i :: 0 <= i < 4 ==> (m[i] == Pending <==> i > StepIndex(step))
  {
    seq(4, i requires 0 <= i < 4 =>
      if i < StepIndex(step) then Done else if i == StepIndex(step) then Active else Pending)
  }

  /** Exactly one circle of the indicator is active. */
  lemma OneActiveMarker(step: Step, i: int, j: int)
    requires 0 <= i < 4 && 0 <= j < 4
    requires Indicator(step)[i] == Active && Indicator(step)[j] == Active
    ensures i == j
  {
  }

  /** The user's actions, each tied to a button or field of a screen. */
  datatype Event =
    | SelectTheme(id: string)
    | EditInfo(field: Field, value: string)
    | SubmitInfo
    | ChangeTheme
    | AnswerQuestion(choice: int)
    | NextQuestion
    | PreviousQuestion
    | JumpToQuestion(index: nat)
    | BackToInfo
    | Restart

  /** The questionnaire screen is up, with a form whose cursor is valid. */
  predicate QuestionnaireShown(p: Page) {
    p.step == Questions && CurrentTheme(p).Some? && p.form.Some? && Valid(p.form.value)
  }

  /** Whether the current screen offers the event, with its enabled state:
      the theme cards on the grid, the details form's fields, submit button
      and "change theme" link, the questionnaire's options, enabled
      navigation buttons and quick navigation, and the results' restart
      button. */
  predicate Available(p: Page, e: Event) {
    match e
    case SelectTheme(id) => p.step == ThemeSelection && FindTheme(id).Some?
    case EditInfo(_, _) => Render(p).DetailsForm?
    case SubmitInfo => Render(p).DetailsForm?
    case ChangeTheme => Render(p).DetailsForm?
    case AnswerQuestion(v) => QuestionnaireShown(p) && IsAnswerValue(v)
    case NextQuestion => QuestionnaireShown(p) && CanProceed(p.form.value)
    case PreviousQuestion => QuestionnaireShown(p) && p.form.value.cursor > 0
    case JumpToQuestion(i) => QuestionnaireShown(p) && i < |p.form.value.questions|
    case BackToInfo => QuestionnaireShown(p)
    case Restart => Render(p).ResultsScreen?
  }

  /** The page's handlers. */
  function Apply(p: Page, e: Event): (r: Page)
    requires Available(p, e)
    ensures e.SelectTheme? ==> r == p.(selected := Some(e.id), step := CompanyDetails)
    ensures e.SubmitInfo? ==> (r.step == Questions <==> Complete(p.info))
    ensures e.SubmitInfo? && !Complete(p.info) ==> r == p
    ensures e.SubmitInfo? && Complete(p.info) ==>
      && r.form == Start(CurrentTheme(p).value)
      && r.selected == p.selected && r.info == p.info && r.answers == p.answers && r.score == p.score
    ensures e.EditInfo? ==> r == p.(info := SetField(p.info, e.field, e.value))
    ensures e.EditInfo? ==> r.step == p.step && FieldValue(r.info, e.field) == e.value
    ensures e.AnswerQuestion? ==> r == p.(form := Some(Answer(p.form.value, e.choice)))
    ensures e.PreviousQuestion? ==> r == p.(form := Some(Previous(p.form.value)))
    ensures e.JumpToQuestion? ==> r == p.(form := Some(JumpTo(p.form.value, e.index)))
    ensures e.NextQuestion? ==> (r.step == Outcome <==> IsLast(p.form.value))
    ensures e.NextQuestion? && !IsLast(p.form.value) ==>
      r == p.(form := Some(p.form.value.(cursor := p.form.value.cursor + 1)))
    ensures e.NextQuestion? && IsLast(p.form.value) ==>
      && r.answers == p.form.value.answers
      && r.score == Score(p.form.value.questions, p.form.value.answers)
      && r.form.None? && r.selected == p.selected && r.info == p.info
    ensures e.Restart? ==> r.step == ThemeSelection && r.selected.None? && r.answers == map[] && r.score == 0 && r.info == p.info
    ensures e.ChangeTheme? ==> r == p.(step := ThemeSelection)
    ensures e.BackToInfo? ==> r == p.(step := CompanyDetails, form := None)
    ensures r.step == Outcome && p.step != Outcome ==> e.NextQuestion? && IsLast(p.form.value)
  {
    match e
    case SelectTheme(id) => p.(selected := Some(id), step := CompanyDetails)
    case EditInfo(f, v) => p.(info := SetField(p.info, f, v))
    case SubmitInfo =>
      if Complete(p.info) then p.(step := Questions, form := Start(CurrentTheme(p).value)) else p
    case ChangeTheme => p.(step := ThemeSelection)
    case AnswerQuestion(v) => p.(form := Some(Answer(p.form.value, v)))
    case NextQuestion =>
      (match Next(p.form.value)
       case Advanced(g) => p.(form := Some(g))
       case Completed(total, recorded) => p.(step := Outcome, score := total, answers := recorded, form := None))
    case PreviousQuestion => p.(form := Some(Previous(p.form.value)))
    case JumpToQuestion(i) => p.(form := Some(JumpTo(p.form.value, i)))
    case BackToInfo => p.(step := CompanyDetails, form := None)
    case Restart => p.(step := ThemeSelection, selected := None, answers := map[], score := 0)
  }

  /** The questions of the selected theme. */
  function ThemeQuestions(p: Page): seq<Question>
    requires CurrentTheme(p).Some?
  {
    Flatten(CurrentTheme(p).value.categories)
  }

  /** What the page keeps true from any opening and through every event:
      the questionnaire and results steps have a known theme and complete
      details; the form exists exactly on the questionnaire step and runs
      over the theme's questions; outside the results step nothing is
      recorded; on the results step the recorded answers are scale values
      for the theme's questions, at least one of them, and the score is
      their total. */
  predicate Inv(p: Page) {
    && ((p.step == Questions || p.step == Outcome) ==> CurrentTheme(p).Some? && Complete(p.info))
    && (p.step == Questions <==> p.form.Some?)
    && (p.form.Some? ==> CurrentTheme(p).Some? && Consistent(p.form.value) && p.form.value.questions == ThemeQuestions(p))
    && (p.step != Outcome ==> p.answers == map[] && p.score == 0)
    && (p.step == Outcome ==> OutcomeFacts(p))
  }

  /** The results-step part of `Inv`. */
  predicate OutcomeFacts(p: Page)
    requires CurrentTheme(p).Some? || p.step != Outcome
  {
    && CurrentTheme(p).Some?
    && p.answers.Keys <= Ids(ThemeQuestions(p))
    && (forall id :: id in p.answers ==> IsAnswerValue(p.answers[id]))
    && (exists k :: 0 <= k < |ThemeQuestions(p)| && ThemeQuestions(p)[k].id in p.answers)
    && p.score == Score(ThemeQuestions(p), p.answers)
  }

  /** Opening the page establishes the invariant. */
  lemma InitInv(param: Option<string>)
    ensures Inv(Init(param))
  {
  }

  /** Every available event preserves the invariant. */
  lemma ApplyPreservesInv(p: Page, e: Event)
    requires Inv(p) && Available(p, e)
    ensures Inv(Apply(p, e))
  {
    match e
    case SubmitInfo => SubmitPreservesInv(p);
    case NextQuestion => NextPreservesInv(p);
    case AnswerQuestion(_) => FormEventPreservesInv(p, e);
    case PreviousQuestion => FormEventPreservesInv(p, e);
    case JumpToQuestion(_) => FormEventPreservesInv(p, e);
    case SelectTheme(_) => DetailsEventPreservesInv(p, e);
    case EditInfo(_, _) => DetailsEventPreservesInv(p, e);
    case ChangeTheme => DetailsEventPreservesInv(p, e);
    case BackToInfo => LeaveEventPreservesInv(p, e);
    case Restart => LeaveEventPreservesInv(p, e);
  }

  /** Submitting complete details starts the theme's questionnaire. */
  lemma SubmitPreservesInv(p: Page)
    requires Inv(p) && Available(p, SubmitInfo)
    ensures Inv(Apply(p, SubmitInfo))
  {
    if Complete(p.info) {
      CatalogQuestionCount(CurrentTheme(p).value);
    }
  }

  /** Moving on from the last question records a consistent set of answers. */
  lemma NextPreservesInv(p: Page)
    requires Inv(p) && Available(p, NextQuestion)
    ensures Inv(Apply(p, NextQuestion))
  {
    var f := p.form.value;
    if IsLast(f) {
      var r := Apply(p, NextQuestion);
      var k := f.cursor;
      assert f.questions[k].id in f.answers;
      assert ThemeQuestions(r) == f.questions;
      assert r.answers == f.answers;
    }
  }

  /** Choosing a theme and editing the details happen before any question
      is shown. */
  lemma DetailsEventPreservesInv(p: Page, e: Event)
    requires Inv(p) && Available(p, e)
    requires e.SelectTheme? || e.EditInfo? || e.ChangeTheme?
    ensures Inv(Apply(p, e))
  {
  }

  /** Leaving the questionnaire or the results clears the step's state. */
  lemma LeaveEventPreservesInv(p: Page, e: Event)
    requires Inv(p) && Available(p, e)
    requires e.BackToInfo? || e.Restart?
    ensures Inv(Apply(p, e))
  {
  }

  /** Answering and moving inside the questionnaire keep the form
      consistent with the theme. */
  lemma FormEventPreservesInv(p: Page, e: Event)
    requires Inv(p) && Available(p, e)
    requires e.AnswerQuestion? || e.PreviousQuestion? || e.JumpToQuestion?
    ensures Inv(Apply(p, e))
  {
  }

  /** On the results step the score is the total of every recorded answer,
      and for a catalog theme it lies between 1 and 60: at least the final
      question was answered, at most fifteen answers of at most 4. A total
      below 15 can therefore reach the results, where the band lookup falls
      back to the first band. */
  lemma OutcomeScore(p: Page)
    requires Inv(p) && p.step == Outcome
    ensures p.score == MapSum(p.answers)
    ensures 1 <= p.score <= 60
  {
    var qs := ThemeQuestions(p);
    FlattenIdsDistinct(CurrentTheme(p).value.categories);
    ScoreIsMapSum(qs, p.answers);
    ScoreBounds(qs, p.answers);
    CatalogQuestionCount(CurrentTheme(p).value);
    FlattenLayout(CurrentTheme(p).value.categories);
    var k :| 0 <= k < |qs| && qs[k].id in p.answers;
    AnsweredCountPositive(qs, p.answers, k);
  }

  /** Finishing the questionnaire shows the results for the selected theme
      with the company's name and the total of exactly the answers the form
      had recorded. */
  lemma CompletionShowsResults(p: Page)
    requires Inv(p) && Available(p, NextQuestion) && IsLast(p.form.value)
    ensures var r := Apply(p, NextQuestion);
      && r.answers == p.form.value.answers
      && Render(r) == ResultsScreen(CurrentTheme(p).value, MapSum(p.form.value.answers), p.info.name)
  {
    ScoreIsMapSum(p.form.value.questions, p.form.value.answers);
  }

  /** A deep link whose theme id names no theme leaves the page blank at the
      company details step, and no screen offers any action to leave it. */
  lemma UnknownThemeDeadEnd(id: string, e: Event)
    requires id != ""
    requires forall i :: 0 <= i < |Themes| ==> Themes[i].id != id
    ensures Render(Init(Some(id))) == Blank
    ensures !Available(Init(Some(id)), e)
  {
  }

  /** A deep link naming a catalog theme opens that theme's details form. */
  lemma KnownThemeDeepLink(i: int)
    requires 0 <= i < |Themes|
    ensures Render(Init(Some(Themes[i].id))) == DetailsForm(Themes[i])
  {
    FindThemeById(i);
  }

  /** Restarting after results and picking a theme again starts from a clean
      record but keeps the company details already typed. */
  lemma RestartKeepsDetails(p: Page, id: string)
    requires Inv(p) && Render(p).ResultsScreen?
    requires FindTheme(id).Some?
    ensures var q := Apply(Apply(p, Restart), SelectTheme(id));
      && q.step == CompanyDetails && q.info == p.info
      && q.answers == map[] && q.score == 0 && Render(q).DetailsForm?
  {
  }
}
