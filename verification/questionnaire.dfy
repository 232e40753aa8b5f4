/** The questionnaire engine: a theme's categories flattened into one
    ordered list of questions, a cursor over that list, the answers recorded
    so far, and the total computed when the user asks for the results. */
module Questionnaire {
  import opened Seqs
  import opened Catalog
  import opened Text

  /** The id of a flattened question: its category index and its index
      inside that category. The page renders it as "{category}-{index}"
      (see `IdString`). */
  datatype QuestionId = QuestionId(category: nat, index: nat)

  /** One flattened question: id, text, originating category name and
      category index. */
  datatype Question = Question(id: QuestionId, text: TextKey, category: TextKey, categoryIndex: nat)

  /** Number of questions in the categories before `c`. */
  function Offset(cats: seq<Category>, c: nat): nat
    requires c <= |cats|
  {
    if c == 0 then 0 else Offset(cats, c - 1) + |cats[c - 1].questions|
  }

  /** Number of questions of a theme. */
  function QuestionCount(cats: seq<Category>): nat {
    Offset(cats, |cats|)
  }

  /** Offsets grow with the category index, by at least the size of each
      category passed. */
  lemma {:induction false} OffsetMonotone(cats: seq<Category>, a: nat, b: nat)
    requires a < b <= |cats|
    ensures Offset(cats, a) + |cats[a].questions| <= Offset(cats, b)
    decreases b - a
  {
    if b > a + 1 {
      OffsetMonotone(cats, a, b - 1);
    }
  }

  /** `e` is the flattened form of question `e.id.index` of category
      `e.categoryIndex`: right id, right text, right category name. */
  predicate WellPlaced(cats: seq<Category>, e: Question) {
    && e.categoryIndex < |cats|
    && e.id.category == e.categoryIndex
    && e.id.index < |cats[e.categoryIndex].questions|
    && e.text == cats[e.categoryIndex].questions[e.id.index]
    && e.category == cats[e.categoryIndex].name
  }

  /** The questions of one category, tagged with their ids. */
  function CategoryEntries(cat: Category, c: nat): seq<Question> {
    seq(|cat.questions|, q requires 0 <= q < |cat.questions| =>
      Question(QuestionId(c, q), cat.questions[q], cat.name, c))
  }

  /** The flattening of the categories from index `c0` on. Every entry is
      well placed, and entry `k` is question `id.index` of category
      `categoryIndex`, counted from the first question of category `c0`. */
  function FlattenFrom(cats: seq<Category>, c0: nat): (r: seq<Question>)
    requires c0 <= |cats|
    ensures |r| == QuestionCount(cats) - Offset(cats, c0)
    ensures forall k :: 0 <= k < |r| ==>
      && WellPlaced(cats, r[k])
      && c0 <= r[k].categoryIndex
      && k + Offset(cats, c0) == Offset(cats, r[k].categoryIndex) + r[k].id.index
    decreases |cats| - c0
  {
    if c0 == |cats| then []
    else
      var head := CategoryEntries(cats[c0], c0);
      var rest := FlattenFrom(cats, c0 + 1);
      var r := head + rest;
      assert forall k :: |head| <= k < |r| ==> r[k] == rest[k - |head|];
      r
  }

  /** `allQuestions`: every category's questions in order, the categories
      in order. */
  function Flatten(cats: seq<Category>): seq<Question> {
    FlattenFrom(cats, 0)
  }

  /** Question `q` of category `c` sits at position `Offset(c) + q` of the
      flattened list, with id (c, q), its own text, and its category's name
      and index. */
  predicate EntryAt(cats: seq<Category>, c: nat, q: nat)
    requires c < |cats| && q < |cats[c].questions|
  {
    && Offset(cats, c) + q < |Flatten(cats)|
    && Flatten(cats)[Offset(cats, c) + q] == Question(QuestionId(c, q), cats[c].questions[q], cats[c].name, c)
  }

  /** The flattened list has one entry per question, each where `EntryAt`
      says; with `FlattenFrom`'s contract this fixes the whole list. */
  lemma FlattenLayout(cats: seq<Category>)
    ensures |Flatten(cats)| == QuestionCount(cats)
    ensures forall c: nat, q: nat :: c < |cats| && q < |cats[c].questions| ==> EntryAt(cats, c, q)
  {
    forall c: nat, q: nat | c < |cats| && q < |cats[c].questions|
      ensures EntryAt(cats, c, q)
    {
      FlattenEntry(cats, c, q);
    }
  }

  /** One entry of `FlattenLayout`. */
  lemma FlattenEntry(cats: seq<Category>, c: nat, q: nat)
    requires c < |cats| && q < |cats[c].questions|
    ensures EntryAt(cats, c, q)
  {
    var r := Flatten(cats);
    OffsetMonotone(cats, c, |cats|);
    var k := Offset(cats, c) + q;
    var e := r[k];
    var d := e.categoryIndex;
    assert WellPlaced(cats, e);
    assert k == Offset(cats, d) + e.id.index;
    if d < c {
      OffsetMonotone(cats, d, c);
    } else if c < d {
      OffsetMonotone(cats, c, d);
    }
  }

  /** No two flattened questions share an id. */
  lemma FlattenIdsDistinct(cats: seq<Category>)
    ensures forall i, j :: 0 <= i < j < |Flatten(cats)| ==> Flatten(cats)[i].id != Flatten(cats)[j].id
  {
  }

  /** The ids of a list of questions. */
  function Ids(qs: seq<Question>): set<QuestionId> {
    set k | 0 <= k < |qs| :: qs[k].id
  }

  /** No two questions of the list share an id. */
  predicate DistinctIds(qs: seq<Question>) {
    forall i, j :: 0 <= i < j < |qs| ==> qs[i].id != qs[j].id
  }

  /** The component's state: the flattened questions, the cursor
      (`currentQuestionIndex`) and the answers recorded so far. */
  datatype Form = Form(questions: seq<Question>, cursor: nat, answers: map<QuestionId, int>)

  /** The cursor points at a question. */
  predicate Valid(f: Form) {
    f.cursor < |f.questions|
  }

  /** What the engine keeps true as the user works: the cursor is valid, the
      ids are distinct, answers exist only for questions of the list and
      each is a value of the answer scale. */
  predicate Consistent(f: Form) {
    && Valid(f)
    && DistinctIds(f.questions)
    && f.answers.Keys <= Ids(f.questions)
    && forall id :: id in f.answers ==> IsAnswerValue(f.answers[id])
  }

  /** Mounting the questionnaire for a theme: cursor 0, no answers. A theme
      without questions has no current question, which the page cannot
      render; that case yields nothing. */
  function Start(t: Theme): (r: Option<Form>)
    ensures r.None? <==> QuestionCount(t.categories) == 0
    ensures r.Some? ==> r.value.cursor == 0 && r.value.answers == map[]
    ensures r.Some? ==> r.value.questions == Flatten(t.categories) && Consistent(r.value)
  {
    var qs := Flatten(t.categories);
    FlattenIdsDistinct(t.categories);
    if |qs| == 0 then None else Some(Form(qs, 0, map[]))
  }

  /** The question under the cursor. */
  function Current(f: Form): Question
    requires Valid(f)
  {
    f.questions[f.cursor]
  }

  /** `handleAnswer`: record `value` for the current question, replacing any
      earlier answer to it. */
  function Answer(f: Form, value: int): (r: Form)
    requires Valid(f)
    ensures r.questions == f.questions && r.cursor == f.cursor && Valid(r)
    ensures Current(f).id in r.answers && r.answers[Current(f).id] == value
    ensures r.answers.Keys == f.answers.Keys + {Current(f).id}
    ensures forall id :: id in f.answers && id != Current(f).id ==> r.answers[id] == f.answers[id]
    ensures Consistent(f) && IsAnswerValue(value) ==> Consistent(r)
  {
    f.(answers := f.answers[Current(f).id := value])
  }

  /** The outcome of pressing "Suivant" / "Voir les résultats". */
  datatype NextResult =
    | Advanced(form: Form)
    | Completed(score: int, answers: map<QuestionId, int>)

  /** The sum of the recorded answers of the listed questions. */
  function Score(qs: seq<Question>, answers: map<QuestionId, int>): int {
    if |qs| == 0 then 0
    else (if qs[0].id in answers then answers[qs[0].id] else 0) + Score(qs[1..], answers)
  }

  /** How many of the listed questions have an answer. */
  function AnsweredCount(qs: seq<Question>, answers: map<QuestionId, int>): nat {
    if |qs| == 0 then 0
    else (if qs[0].id in answers then 1 else 0) + AnsweredCount(qs[1..], answers)
  }

  /** `handleNext`: below the last question the cursor moves on by one and
      nothing else changes; at the last question the cursor stays and the
      form completes with the sum of every recorded answer. */
  function Next(f: Form): (r: NextResult)
    requires Valid(f)
    ensures r.Advanced? <==> f.cursor < |f.questions| - 1
    ensures r.Advanced? ==> r.form.cursor == f.cursor + 1 && Valid(r.form)
    ensures r.Advanced? ==> r.form.questions == f.questions && r.form.answers == f.answers
    ensures r.Advanced? && Consistent(f) ==> Consistent(r.form)
    ensures r.Completed? ==> r.answers == f.answers
    ensures r.Completed? && Consistent(f) ==> r.score == MapSum(f.answers)
  {
    if f.cursor < |f.questions| - 1 then Advanced(f.(cursor := f.cursor + 1))
    else
      var total := Score(f.questions, f.answers);
      assert Consistent(f) ==> total == MapSum(f.answers) by {
        if Consistent(f) {
          ScoreIsMapSum(f.questions, f.answers);
        }
      }
      Completed(total, f.answers)
  }

  /** `handlePrevious`: one step back, staying at 0 at the first question. */
  function Previous(f: Form): (r: Form)
    requires Valid(f)
    ensures r.questions == f.questions && r.answers == f.answers && Valid(r)
    ensures f.cursor == 0 ==> r.cursor == 0
    ensures f.cursor > 0 ==> r.cursor + 1 == f.cursor
    ensures Consistent(f) ==> Consistent(r)
  {
    if f.cursor > 0 then f.(cursor := f.cursor - 1) else f
  }

  /** The quick navigation buttons: move the cursor to any question,
      answered or not. */
  function JumpTo(f: Form, index: nat): (r: Form)
    requires index < |f.questions|
    ensures r.questions == f.questions && r.answers == f.answers
    ensures r.cursor == index && Valid(r)
    ensures Consistent(f) ==> Consistent(r)
  {
    f.(cursor := index)
  }

  /** `canProceed`: the next button is enabled only once the current
      question has an answer. */
  predicate CanProceed(f: Form)
    requires Valid(f)
  {
    Current(f).id in f.answers
  }

  /** `isLastQuestion`. */
  predicate IsLast(f: Form) {
    f.cursor + 1 == |f.questions|
  }

  /** How a quick navigation button is drawn. */
  datatype NavStatus = Here | Answered | Open

  /** The status of the quick navigation button for question `index`. */
  function QuickNavStatus(f: Form, index: nat): (s: NavStatus)
    requires index < |f.questions|
    ensures s == Here <==> index == f.cursor
    ensures s == Answered <==> index != f.cursor && f.questions[index].id in f.answers
    ensures s == Open <==> index != f.cursor && f.questions[index].id !in f.answers
  {
    if index == f.cursor then Here
    else if f.questions[index].id in f.answers then Answered
    else Open
  }

  /** The progress bar value, (cursor + 1) / N * 100, computed exactly. */
  function Progress(f: Form): (p: real)
    requires Valid(f)
    ensures p * (|f.questions| as real) == 100.0 * ((f.cursor + 1) as real)
    ensures 0.0 < p <= 100.0
    ensures p == 100.0 <==> IsLast(f)
  {
    var n := |f.questions| as real;
    var x := (f.cursor + 1) as real / n;
    assert x * n == (f.cursor + 1) as real;
    assert x <= 1.0 by {
      assert (f.cursor + 1) as real <= n;
    }
    assert x == 1.0 <==> f.cursor + 1 == |f.questions|;
    x * 100.0
  }
  /** Over the same questions, a later cursor shows a strictly fuller
      progress bar, so each "Suivant" that advances moves the bar on. */
  lemma ProgressIncreases(f: Form, g: Form)
    requires Valid(f) && Valid(g) && f.questions == g.questions
    requires f.cursor < g.cursor
    ensures Progress(f) < Progress(g)
  {
    var n := |f.questions| as real;
    assert Progress(f) * n < Progress(g) * n;
  }


  /** Some key of a non-empty map. */
  ghost function Pick(m: map<QuestionId, int>): (k: QuestionId)
    requires |m| > 0
    ensures k in m
  {
    var k :| k in m; k
  }

  /** The sum of the values of a map, in no particular order
      (`Object.values(answers).reduce((s, v) => s + v, 0)`). */
  ghost function MapSum(m: map<QuestionId, int>): int
    decreases |m|
  {
    if |m| == 0 then 0 else m[Pick(m)] + MapSum(m - {Pick(m)})
  }

  /** Taking any key out first gives the same sum. */
  lemma {:induction false} MapSumRemove(m: map<QuestionId, int>, k: QuestionId)
    requires k in m
    ensures MapSum(m) == m[k] + MapSum(m - {k})
    decreases |m|
  {
    assert |m| > 0 by { assert m.Keys == (m - {k}).Keys + {k}; }
    var j := Pick(m);
    if j != k {
      var mj := m - {j};
      var mk := m - {k};
      MapSumRemove(mj, k);
      MapSumRemove(mk, j);
      assert mj - {k} == mk - {j};
    }
  }

  /** The ids of a non-empty list are its head's id and its tail's ids;
      with distinct ids the head's id is not among the tail's. */
  lemma IdsOfTail(qs: seq<Question>)
    requires |qs| > 0
    ensures Ids(qs) == {qs[0].id} + Ids(qs[1..])
    ensures DistinctIds(qs) ==> DistinctIds(qs[1..]) && qs[0].id !in Ids(qs[1..])
  {
    assert forall k :: 0 <= k < |qs[1..]| ==> qs[1..][k] == qs[k + 1];
    forall x | x in Ids(qs)
      ensures x in {qs[0].id} + Ids(qs[1..])
    {
      var k :| 0 <= k < |qs| && qs[k].id == x;
      if k > 0 {
        assert qs[1..][k - 1].id == x;
      }
    }
  }

  /** Answers to questions outside the list do not enter its score. */
  lemma {:induction false} ScoreOnlyListed(qs: seq<Question>, answers: map<QuestionId, int>, id: QuestionId)
    requires id !in Ids(qs)
    ensures Score(qs, answers) == Score(qs, answers - {id})
    ensures AnsweredCount(qs, answers) == AnsweredCount(qs, answers - {id})
  {
    if |qs| > 0 {
      IdsOfTail(qs);
      ScoreOnlyListed(qs[1..], answers, id);
    }
  }

  /** For distinct ids and answers to listed questions only, the score
      over the list is the sum of every recorded answer. */
  lemma {:induction false} ScoreIsMapSum(qs: seq<Question>, answers: map<QuestionId, int>)
    requires DistinctIds(qs)
    requires answers.Keys <= Ids(qs)
    ensures Score(qs, answers) == MapSum(answers)
  {
    if |qs| == 0 {
      assert answers.Keys == {};
      assert |answers| == 0;
    } else {
      var id := qs[0].id;
      var rest := answers - {id};
      IdsOfTail(qs);
      ScoreOnlyListed(qs[1..], answers, id);
      ScoreIsMapSum(qs[1..], rest);
      ScoreHead(qs, answers);
    }
  }

  /** One step of `ScoreIsMapSum`: the head's answer plus the sum of the
      others. */
  lemma ScoreHead(qs: seq<Question>, answers: map<QuestionId, int>)
    requires |qs| > 0
    requires Score(qs[1..], answers) == MapSum(answers - {qs[0].id})
    ensures Score(qs, answers) == MapSum(answers)
  {
    var id := qs[0].id;
    if id in answers {
      MapSumRemove(answers, id);
    } else {
      assert answers - {id} == answers;
    }
  }

  /** With every answer on the 1-4 scale, a score over k answered questions
      lies in [k, 4k], and k never exceeds the number of questions. */
  lemma {:induction false} ScoreBounds(qs: seq<Question>, answers: map<QuestionId, int>)
    requires forall id :: id in answers ==> IsAnswerValue(answers[id])
    ensures AnsweredCount(qs, answers) <= |qs|
    ensures AnsweredCount(qs, answers) <= Score(qs, answers) <= 4 * AnsweredCount(qs, answers)
  {
    AnswerScale();
    if |qs| > 0 {
      ScoreBounds(qs[1..], answers);
    }
  }

  /** Answering every question with the same value v gives v times the
      number of questions. */
  lemma {:induction false} UniformScore(qs: seq<Question>, answers: map<QuestionId, int>, v: int)
    requires forall k :: 0 <= k < |qs| ==> qs[k].id in answers && answers[qs[k].id] == v
    ensures Score(qs, answers) == v * |qs|
    ensures AnsweredCount(qs, answers) == |qs|
  {
    if |qs| > 0 {
      assert forall k :: 0 <= k < |qs[1..]| ==> qs[1..][k] == qs[k + 1];
      UniformScore(qs[1..], answers, v);
    }
  }

  /** The id as the page writes it: `${catIndex}-${qIndex}`. */
  function IdString(id: QuestionId): string {
    NatToString(id.category) + "-" + NatToString(id.index)
  }

  /** Length of the run of digits at the start of `s`. */
  function LeadingDigits(s: string): (n: nat)
    ensures n <= |s|
    ensures forall i :: 0 <= i < n ==> IsDigit(s[i])
    ensures n < |s| ==> !IsDigit(s[n])
  {
    if |s| == 0 || !IsDigit(s[0]) then 0 else 1 + LeadingDigits(s[1..])
  }

  /** Reads "{c}-{q}" back into an id; anything else gives nothing. */
  function ParseId(s: string): Option<QuestionId> {
    var n := LeadingDigits(s);
    if 0 < n && n + 1 < |s| && s[n] == '-' && LeadingDigits(s[n + 1..]) == |s| - n - 1 then
      Some(QuestionId(ParseNat(s[..n]), ParseNat(s[n + 1..])))
    else None
  }

  /** The digit run of a rendered number followed by a non-digit ends
      exactly where the number does. */
  lemma {:induction false} LeadingDigitsOfRendered(d: string, tail: string)
    requires forall i :: 0 <= i < |d| ==> IsDigit(d[i])
    requires |tail| > 0 && !IsDigit(tail[0])
    ensures LeadingDigits(d + tail) == |d|
  {
    if |d| > 0 {
      assert (d + tail)[1..] == d[1..] + tail;
      LeadingDigitsOfRendered(d[1..], tail);
    }
  }

  /** Parsing the rendered id gives the id back. */
  lemma IdStringRoundTrip(id: QuestionId)
    ensures ParseId(IdString(id)) == Some(id)
  {
    var c := NatToString(id.category);
    var q := NatToString(id.index);
    var s := IdString(id);
    LeadingDigitsOfRendered(c, "-" + q);
    assert s == c + ("-" + q);
    var n := |c|;
    assert s[n + 1..] == q;
    assert s[..n] == c;
    assert LeadingDigits(q) == |q|;
    ParseNatToString(id.category);
    ParseNatToString(id.index);
  }

  /** So the string form of the id is injective, as the answer map keyed
      by it requires. */
  lemma IdStringInjective(a: QuestionId, b: QuestionId)
    requires IdString(a) == IdString(b)
    ensures a == b
  {
    IdStringRoundTrip(a);
    IdStringRoundTrip(b);
  }

  /** Every catalog theme asks fifteen questions, so its questionnaire
      always starts. */
  lemma CatalogQuestionCount(t: Theme)
    requires t in Themes
    ensures QuestionCount(t.categories) == 15
    ensures Start(t).Some?
  {
    CatalogWellFormed();
    var i :| 0 <= i < |Themes| && Themes[i] == t;
    var cats := t.categories;
    assert WellFormedTheme(t);
    assert cats[0] in cats && cats[1] in cats && cats[2] in cats;
    assert Offset(cats, 1) == 5;
    assert Offset(cats, 2) == 10;
  }

  /** An answered listed question makes the answered count positive. */
  lemma {:induction false} AnsweredCountPositive(qs: seq<Question>, answers: map<QuestionId, int>, k: nat)
    requires k < |qs| && qs[k].id in answers
    ensures AnsweredCount(qs, answers) >= 1
  {
    if k > 0 {
      assert qs[1..][k - 1] == qs[k];
      AnsweredCountPositive(qs[1..], answers, k - 1);
    }
  }

  /** The next button asks only for the current question's answer: from a
      fresh form, jumping to the last question and answering it with v
      completes the questionnaire with v as the total, fourteen questions
      of a catalog theme left unanswered. */
  lemma CompletionWithOneAnswer(f: Form, v: int)
    requires Consistent(f) && f.cursor == 0 && f.answers == map[]
    requires IsAnswerValue(v)
    ensures var g := Answer(JumpTo(f, |f.questions| - 1), v);
      && CanProceed(g)
      && Next(g).Completed?
      && Next(g).answers == map[f.questions[|f.questions| - 1].id := v]
      && Next(g).score == v
  {
    var g := Answer(JumpTo(f, |f.questions| - 1), v);
    var id := f.questions[|f.questions| - 1].id;
    assert g.answers == map[id := v];
    MapSumRemove(g.answers, id);
    assert |g.answers - {id}| == 0 by {
      assert (g.answers - {id}).Keys == {};
    }
  }
}
