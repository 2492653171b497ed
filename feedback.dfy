/**
 * The per-question feedback report of the result card (components/ResultCard.tsx): the
 * resolver getFeedbackForQuestion, the score colour of each row, and the rows that the
 * report shows, in catalog order.
 */
module Feedback {
  import opened Wrappers
  import opened QuizTypes

  // ---------------------------------------------------------------------------
  // The two first-match searches

  /** `k` is the first position of an option with id `id`. */
  ghost predicate FirstOptionAt(options: seq<QuizOption>, id: string, k: int)
  {
    0 <= k < |options| && options[k].id == id &&
    forall j :: 0 <= j < k ==> options[j].id != id
  }

  /** `options.find(o => o.id === id)` */
  function FindOption(options: seq<QuizOption>, id: string): (r: Option<QuizOption>)
    ensures r.None? <==> forall k :: 0 <= k < |options| ==> options[k].id != id
    ensures r.Some? ==> exists k :: FirstOptionAt(options, id, k) && r.value == options[k]
  {
    if options == [] then None
    else if options[0].id == id then
      assert FirstOptionAt(options, id, 0);
      Some(options[0])
    else
      var r := FindOption(options[1..], id);
      assert r.Some? ==> exists k :: FirstOptionAt(options, id, k) && r.value == options[k] by {
        if r.Some? {
          var k :| FirstOptionAt(options[1..], id, k) && r.value == options[1..][k];
          assert FirstOptionAt(options, id, k + 1);
        }
      }
      r
  }

  /** `k` is the first bracket whose range holds `value`. */
  ghost predicate FirstBracketAt(brackets: seq<QuestionFeedback>, value: int, k: int)
  {
    0 <= k < |brackets| && value in brackets[k].range &&
    forall j :: 0 <= j < k ==> value !in brackets[j].range
  }

  /** `feedback.find(f => f.range.includes(value))` */
  function FindBracket(brackets: seq<QuestionFeedback>, value: int): (r: Option<QuestionFeedback>)
    ensures r.None? <==> forall k :: 0 <= k < |brackets| ==> value !in brackets[k].range
    ensures r.Some? ==> exists k :: FirstBracketAt(brackets, value, k) && r.value == brackets[k]
  {
    if brackets == [] then None
    else if value in brackets[0].range then
      assert FirstBracketAt(brackets, value, 0);
      Some(brackets[0])
    else
      var r := FindBracket(brackets[1..], value);
      assert r.Some? ==> exists k :: FirstBracketAt(brackets, value, k) && r.value == brackets[k] by {
        if r.Some? {
          var k :| FirstBracketAt(brackets[1..], value, k) && r.value == brackets[1..][k];
          assert FirstBracketAt(brackets, value, k + 1);
        }
      }
      r
  }

  /** The first match is unique. */
  lemma FirstOptionUnique(options: seq<QuizOption>, id: string, k: int, k': int)
    requires FirstOptionAt(options, id, k) && FirstOptionAt(options, id, k')
    ensures k == k'
  {
  }

  lemma FirstBracketUnique(brackets: seq<QuestionFeedback>, value: int, k: int, k': int)
    requires FirstBracketAt(brackets, value, k) && FirstBracketAt(brackets, value, k')
    ensures k == k'
  {
  }

  // ---------------------------------------------------------------------------
  // The resolver

  /** What getFeedbackForQuestion returns when the answer names an option. */
  datatype Resolved = Resolved(value: int, feedback: Option<QuestionFeedback>)

  /**
   * getFeedbackForQuestion(q, answers[q.id]). An answer that is undefined, or names no
   * option of the question, gives null; otherwise the value of the first option with that
   * id, with the first bracket that holds the value if there is one.
   */
  function GetFeedbackForQuestion(q: Question, answerId: Option<string>): (r: Option<Resolved>)
    ensures r.None? <==>
      answerId.None? || forall k :: 0 <= k < |q.options| ==> q.options[k].id != answerId.value
    ensures r.Some? ==>
      exists k :: FirstOptionAt(q.options, answerId.value, k) && r.value.value == q.options[k].value
    ensures r.Some? && r.value.feedback.None? ==>
      forall j :: 0 <= j < |q.feedback| ==> r.value.value !in q.feedback[j].range
    ensures r.Some? && r.value.feedback.Some? ==>
      exists j :: FirstBracketAt(q.feedback, r.value.value, j) &&
        r.value.feedback.value == q.feedback[j]
  {
    match answerId
    case None => None
    case Some(id) =>
      match FindOption(q.options, id)
      case None => None
      case Some(option) =>
        var value := option.value;
        Some(Resolved(value, FindBracket(q.feedback, value)))
  }

  /** A question with brackets {1,2}, {3}, {4,5} answered with an option of value 4 gets
      the third bracket. */
  lemma ThirdBracketForFour(q: Question, answerId: string, low: QuestionFeedback,
                            mid: QuestionFeedback, high: QuestionFeedback)
    requires q.feedback == [low, mid, high]
    requires low.range == [1, 2] && mid.range == [3] && high.range == [4, 5]
    requires exists k :: FirstOptionAt(q.options, answerId, k) && q.options[k].value == 4
    ensures GetFeedbackForQuestion(q, Some(answerId)) == Some(Resolved(4, Some(high)))
  {
    var k :| FirstOptionAt(q.options, answerId, k) && q.options[k].value == 4;
    var r := GetFeedbackForQuestion(q, Some(answerId));
    var k' :| FirstOptionAt(q.options, answerId, k') && r.value.value == q.options[k'].value;
    FirstOptionUnique(q.options, answerId, k, k');
    assert 4 in q.feedback[2].range;
    var j :| FirstBracketAt(q.feedback, 4, j) && r.value.feedback.value == q.feedback[j];
    assert FirstBracketAt(q.feedback, 4, 2);
    FirstBracketUnique(q.feedback, 4, j, 2);
  }

  // ---------------------------------------------------------------------------
  // Score colour

  /** The three colours a row's score can take. */
  datatype ScoreColor = Emerald | Amber | Red

  /** Amber by default, emerald from 4 up, red up to 2. */
  function ScoreColorFor(value: int): (c: ScoreColor)
    ensures c == Emerald <==> value >= 4
    ensures c == Red <==> value <= 2
    ensures c == Amber <==> value == 3
  {
    if value >= 4 then Emerald else if value <= 2 then Red else Amber
  }

  // ---------------------------------------------------------------------------
  // The report rows

  /** One row of the report: the catalog position, the question, the chosen value, the
      bracket and the score colour. */
  datatype ReportRow = ReportRow(index: nat, question: Question, value: int,
                                 feedback: QuestionFeedback, color: ScoreColor)

  /**
   * A question gets a row when it was answered with one of its options and some bracket
   * holds the value of the first option with that id.
   */
  ghost predicate Kept(q: Question, answers: Answers)
  {
    q.id in answers &&
    exists k :: FirstOptionAt(q.options, answers[q.id], k) &&
      exists j :: 0 <= j < |q.feedback| && q.options[k].value in q.feedback[j].range
  }

  /** The callback of `questions.map((q, index) => ...)`: null, or the row. */
  function RenderQuestion(q: Question, index: nat, answers: Answers): (r: Option<ReportRow>)
    ensures r.Some? <==> Kept(q, answers)
    ensures r.Some? ==>
      && r.value.index == index && r.value.question == q
      && GetFeedbackForQuestion(q, Lookup(answers, q.id)) == Some(Resolved(r.value.value, Some(r.value.feedback)))
      && r.value.color == ScoreColorFor(r.value.value)
  {
    var data := GetFeedbackForQuestion(q, Lookup(answers, q.id));
    assert data.Some? && data.value.feedback.Some? ==> Kept(q, answers);
    assert Kept(q, answers) ==> data.Some? && data.value.feedback.Some? by {
      if Kept(q, answers) {
        var k :| FirstOptionAt(q.options, answers[q.id], k) &&
          exists j :: 0 <= j < |q.feedback| && q.options[k].value in q.feedback[j].range;
        var k' :| FirstOptionAt(q.options, answers[q.id], k') && data.value.value == q.options[k'].value;
        FirstOptionUnique(q.options, answers[q.id], k, k');
      }
    }
    match data
    case None => None
    case Some(Resolved(value, feedback)) =>
      match feedback
      case None => None
      case Some(f) => Some(ReportRow(index, q, value, f, ScoreColorFor(value)))
  }

  /** The mapped list, one entry per catalog question (null where nothing is shown). */
  function RenderRows(questions: seq<Question>, answers: Answers): (r: seq<Option<ReportRow>>)
    ensures |r| == |questions|
    ensures forall i :: 0 <= i < |r| ==> r[i] == RenderQuestion(questions[i], i, answers)
  {
    seq(|questions|, i requires 0 <= i < |questions| => RenderQuestion(questions[i], i, answers))
  }

  /** What is on screen: the non-null entries, in order. */
  function Shown(rows: seq<Option<ReportRow>>): (r: seq<ReportRow>)
    ensures |r| <= |rows|
    ensures forall m :: 0 <= m < |r| ==> Some(r[m]) in rows
    ensures (forall i :: 0 <= i < |rows| ==> rows[i].None?) ==> r == []
  {
    if rows == [] then []
    else
      var front := Shown(rows[..|rows| - 1]);
      match rows[|rows| - 1]
      case None => front
      case Some(row) => front + [row]
  }

  /** Every shown row comes from a non-null entry at its own position, positions increase
      strictly, and every non-null entry is shown. */
  lemma {:induction false} ShownRows(rows: seq<Option<ReportRow>>)
    requires forall i :: 0 <= i < |rows| && rows[i].Some? ==> rows[i].value.index == i
    ensures forall m :: 0 <= m < |Shown(rows)| ==>
      Shown(rows)[m].index < |rows| && rows[Shown(rows)[m].index] == Some(Shown(rows)[m])
    ensures forall m, n :: 0 <= m < n < |Shown(rows)| ==> Shown(rows)[m].index < Shown(rows)[n].index
    ensures forall i :: 0 <= i < |rows| && rows[i].Some? ==> rows[i].value in Shown(rows)
  {
    if rows != [] {
      var init := rows[..|rows| - 1];
      ShownRows(init);
      var last := |rows| - 1;
      forall i | 0 <= i < |rows| && rows[i].Some? ensures rows[i].value in Shown(rows) {
        if i < last {
          assert init[i] == rows[i];
        }
      }
    }
  }

  /**
   * The report shows exactly the questions that were answered with an option whose value
   * some bracket holds, each once, in catalog order, with the resolver's value and bracket.
   */
  lemma ReportInCatalogOrder(questions: seq<Question>, answers: Answers)
    ensures var shown := Shown(RenderRows(questions, answers));
      && (forall m :: 0 <= m < |shown| ==>
            shown[m].index < |questions| && shown[m].question == questions[shown[m].index] &&
            Kept(questions[shown[m].index], answers) &&
            RenderQuestion(questions[shown[m].index], shown[m].index, answers) == Some(shown[m]))
      && (forall m, n :: 0 <= m < n < |shown| ==> shown[m].index < shown[n].index)
      && (forall i :: 0 <= i < |questions| && Kept(questions[i], answers) ==>
            exists m :: 0 <= m < |shown| && shown[m].index == i)
  {
    var rows := RenderRows(questions, answers);
    ShownRows(rows);
    var shown := Shown(rows);
    forall i | 0 <= i < |questions| && Kept(questions[i], answers)
      ensures exists m :: 0 <= m < |shown| && shown[m].index == i
    {
      var m :| 0 <= m < |shown| && shown[m] == rows[i].value;
    }
  }
}
