/** The records of types.ts. Ids of questions are numbers, ids of options are strings. */
module QuizTypes {
  import opened Wrappers

  /** One answer choice of a question (the `Option` interface). */
  datatype QuizOption = QuizOption(id: string, text: string, value: int)

  /** A feedback bracket: the option values it covers and what the report says for them. */
  datatype QuestionFeedback = QuestionFeedback(range: seq<int>, diagnosis: string, recommendation: string)

  datatype Question = Question(
    id: int,
    text: string,
    example: Option<string>,
    options: seq<QuizOption>,
    feedback: seq<QuestionFeedback>)

  /** The answer map: question id to the id of the chosen option. */
  type Answers = map<int, string>

  /** The navigator's state (the `QuizState` interface). */
  datatype QuizState = QuizState(currentQuestionIndex: nat, answers: Answers, isFinished: bool)

  /** The lead-capture form (the `ConsultationForm` interface). */
  datatype ConsultationForm = ConsultationForm(name: string, whatsapp: string, website: string, problems: string)

  /** `answers[id]`: the recorded option id, or `undefined` when the question was never answered. */
  function Lookup(answers: Answers, questionId: int): (r: Option<string>)
    ensures r.Some? <==> questionId in answers
    ensures r.Some? ==> r.value == answers[questionId]
  {
    if questionId in answers then Some(answers[questionId]) else None
  }
}
