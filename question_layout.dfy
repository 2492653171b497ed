/**
 * The question card of components/QuestionCard.tsx: whether a question is drawn as a
 * 1-5 scale or as a list, which option is marked as chosen, and what a click reports.
 */
module QuestionLayout {
  import opened Wrappers
  import opened QuizTypes
  import Navigator

  /** `options.every(o => o.text.length <= 2)` */
  function AllShort(options: seq<QuizOption>): (r: bool)
    ensures r <==> forall k :: 0 <= k < |options| ==> |options[k].text| <= 2
  {
    options == [] || (|options[0].text| <= 2 && AllShort(options[1..]))
  }

  /** A question is drawn as a 1-5 scale when it has five options, all with short texts. */
  function IsNumericScale(q: Question): (r: bool)
    ensures r <==> |q.options| == 5 && forall k :: 0 <= k < 5 ==> |q.options[k].text| <= 2
  {
    |q.options| == 5 && AllShort(q.options)
  }

  /** `selectedOptionId === option.id`; an undefined selection matches no option. */
  function IsSelected(selectedOptionId: Option<string>, option: QuizOption): (r: bool)
    ensures selectedOptionId.None? ==> !r
    ensures r <==> selectedOptionId.Some? && selectedOptionId.value == option.id
  {
    selectedOptionId == Some(option.id)
  }

  datatype Layout = Grid | List

  /** One rendered option: its key, its caption, whether it is marked, and the id its click
      hands to `onSelect`. */
  datatype OptionButton = OptionButton(key: string, caption: string, selected: bool, reports: string)

  datatype Card = Card(layout: Layout, buttons: seq<OptionButton>, scaleLegend: bool)

  function RenderButton(option: QuizOption, selectedOptionId: Option<string>): OptionButton
  {
    OptionButton(option.id, option.text, IsSelected(selectedOptionId, option), option.id)
  }

  /** `question.options.map(...)` in either layout. */
  function RenderButtons(options: seq<QuizOption>, selectedOptionId: Option<string>): (r: seq<OptionButton>)
    ensures |r| == |options|
    ensures forall i :: 0 <= i < |r| ==>
      r[i].key == options[i].id && r[i].caption == options[i].text && r[i].reports == options[i].id &&
      (r[i].selected <==> selectedOptionId == Some(options[i].id))
  {
    if options == [] then []
    else [RenderButton(options[0], selectedOptionId)] + RenderButtons(options[1..], selectedOptionId)
  }

  /** The whole option area of the card: the grid and the 1/5 legend for a scale, a list
      otherwise; one button per option, in order, in both layouts. */
  function RenderCard(q: Question, selectedOptionId: Option<string>): (c: Card)
    ensures c.layout == Grid <==> IsNumericScale(q)
    ensures c.scaleLegend <==> c.layout == Grid
    ensures |c.buttons| == |q.options|
    ensures forall i :: 0 <= i < |c.buttons| ==>
      c.buttons[i].caption == q.options[i].text && c.buttons[i].reports == q.options[i].id &&
      (c.buttons[i].selected <==> IsSelected(selectedOptionId, q.options[i]))
  {
    var scale := IsNumericScale(q);
    Card(if scale then Grid else List, RenderButtons(q.options, selectedOptionId), scale)
  }

  /** Any option count other than five gives the list layout. */
  lemma ListUnlessFiveOptions(q: Question, selectedOptionId: Option<string>)
    requires |q.options| != 5
    ensures RenderCard(q, selectedOptionId).layout == List
  {
  }

  /** With nothing chosen, no option is marked. */
  lemma NothingMarkedWithoutSelection(q: Question)
    ensures forall i :: 0 <= i < |q.options| ==> !RenderCard(q, None).buttons[i].selected
  {
  }

  predicate UniqueOptionIds(options: seq<QuizOption>)
  {
    forall i, j :: 0 <= i < j < |options| ==> options[i].id != options[j].id
  }

  /** With distinct option ids, at most one option is marked. */
  lemma AtMostOneMarked(q: Question, selectedOptionId: Option<string>)
    requires UniqueOptionIds(q.options)
    ensures var c := RenderCard(q, selectedOptionId);
      forall i, j ::
        (0 <= i < |c.buttons| && 0 <= j < |c.buttons| && c.buttons[i].selected && c.buttons[j].selected)
        ==> i == j
  {
  }

  /**
   * Clicking option i of the current question records that option's id, and the card
   * drawn afterwards marks option i and, with distinct ids, no other.
   */
  lemma ClickMarksClickedOption(s: QuizState, catalog: seq<Question>, i: nat)
    requires s.currentQuestionIndex < |catalog|
    requires i < |catalog[s.currentQuestionIndex].options|
    ensures var q := catalog[s.currentQuestionIndex];
      var clicked := RenderCard(q, Lookup(s.answers, q.id)).buttons[i].reports;
      var after := Navigator.Step(s, catalog, Navigator.Select(clicked));
      && clicked == q.options[i].id
      && Lookup(after.answers, q.id) == Some(q.options[i].id)
      && RenderCard(q, Lookup(after.answers, q.id)).buttons[i].selected
      && (UniqueOptionIds(q.options) ==>
            forall j :: 0 <= j < |q.options| && j != i ==>
              !RenderCard(q, Lookup(after.answers, q.id)).buttons[j].selected)
  {
  }
}
