/** The single-player quiz engine (components/classic-mode.tsx).

    Each React handler reads the state of the render it was created in and
    issues setters that take effect together, so every handler is one atomic
    step from the old state to the new one. The step functions `After...`
    state these steps on a `State` value; the class `Game` holds the same
    fields and performs the steps in place. `loadQuestions` is split at its
    `await`: `LoadQuestions` is the part before it (the fetch is issued), and
    `ReceiveQuestions` is the part after it, given what `getQuestions`
    produced. */
module ClassicMode {
  import opened Wrappers
  import opened QuestionApi

  const NoQuestionsFound := "No se encontraron preguntas"
  const LoadFailed := "Error al cargar las preguntas"
  const NoQuestionsAvailable := "No hay preguntas disponibles"

  /** The component's state hooks. */
  datatype State = State(
    questions: seq<Question>,
    currentIndex: nat,
    score: nat,
    selectedAnswer: Option<string>,
    showResult: bool,
    gameFinished: bool,
    loading: bool,
    error: Option<string>)

  /** The `useState` initial values; the mount effect's fetch is pending. */
  function Initial(): State {
    State([], 0, 0, None, false, false, true, None)
  }

  /** `loadQuestions` up to its `await`. */
  function AfterLoadStart(s: State): (r: State)
    ensures r.loading && r.error == None
    ensures r.(loading := s.loading, error := s.error) == s
  {
    s.(loading := true, error := None)
  }

  /** `loadQuestions` after its `await`, given what `getQuestions` produced. */
  function AfterLoadSettled(s: State, fetched: Result<seq<Question>, ApiError>): (r: State)
    ensures !r.loading
    ensures fetched.Success? && |fetched.value| > 0 ==> r == s.(questions := fetched.value, loading := false)
    ensures fetched.Success? && |fetched.value| == 0 ==>
              r == s.(error := Some(NoQuestionsFound), loading := false)
    ensures fetched.Failure? ==> r == s.(error := Some(LoadFailed), loading := false)
  {
    match fetched
    case Success(data) =>
      if |data| > 0 then s.(questions := data, loading := false)
      else s.(error := Some(NoQuestionsFound), loading := false)
    case Failure(_) => s.(error := Some(LoadFailed), loading := false)
  }

  /** The early return of `handleAnswer`: a truthy answer is already selected,
      or there is no question at the current index. */
  predicate AnswerBlocked(s: State) {
    Truthy(s.selectedAnswer) || s.currentIndex >= |s.questions|
  }

  /** `handleAnswer(answer)`. */
  function AfterAnswer(s: State, answer: string): (r: State)
    ensures AnswerBlocked(s) ==> r == s
    ensures !AnswerBlocked(s) ==>
              && r.selectedAnswer == Some(answer) && r.showResult
              && (r.score == s.score + 1 <==> answer == s.questions[s.currentIndex].correctAnswer)
              && (r.score == s.score || r.score == s.score + 1)
              && r.(selectedAnswer := s.selectedAnswer, showResult := s.showResult, score := s.score) == s
  {
    if AnswerBlocked(s) then s
    else
      var score := if answer == s.questions[s.currentIndex].correctAnswer then s.score + 1 else s.score;
      s.(selectedAnswer := Some(answer), showResult := true, score := score)
  }

  /** `nextQuestion`: move on, or finish after the last question. */
  function AfterNext(s: State): (r: State)
    ensures s.currentIndex < |s.questions| - 1 ==>
              && r.currentIndex == s.currentIndex + 1
              && r.selectedAnswer == None && !r.showResult
              && r.(currentIndex := s.currentIndex, selectedAnswer := s.selectedAnswer, showResult := s.showResult) == s
    ensures s.currentIndex >= |s.questions| - 1 ==> r.gameFinished && r.(gameFinished := s.gameFinished) == s
  {
    if s.currentIndex < |s.questions| - 1 then
      s.(currentIndex := s.currentIndex + 1, selectedAnswer := None, showResult := false)
    else
      s.(gameFinished := true)
  }

  /** `resetGame`: counters and flags back to their initial values, then `loadQuestions`. */
  function AfterReset(s: State): (r: State)
    ensures r.currentIndex == 0 && r.score == 0 && r.selectedAnswer == None
    ensures !r.showResult && !r.gameFinished && r.error == None && r.loading
    ensures r.questions == s.questions
  {
    AfterLoadStart(s.(currentIndex := 0, score := 0, selectedAnswer := None, showResult := false,
                      gameFinished := false, error := None))
  }

  /** The "Finalizar" button: only the finished flag is set. */
  function AfterFinalize(s: State): (r: State)
    ensures r.gameFinished
    ensures r.score == s.score && r.currentIndex == s.currentIndex
    ensures r.(gameFinished := s.gameFinished) == s
  {
    s.(gameFinished := true)
  }

  /** The user's intents and the settling of a pending fetch. */
  datatype Event =
    | Settle(fetched: Result<seq<Question>, ApiError>)  // the pending `getQuestions` call returns or throws
    | Retry                                              // "Reintentar": `loadQuestions`
    | Answer(answer: string)                             // an answer button: `handleAnswer`
    | Next                                               // "Siguiente Pregunta" / "Ver Resultados": `nextQuestion`
    | Finalize                                           // "Finalizar"
    | PlayAgain                                          // "Jugar de Nuevo": `resetGame`

  function Apply(s: State, e: Event): State {
    match e
    case Settle(fetched) => AfterLoadSettled(s, fetched)
    case Retry => AfterLoadStart(s)
    case Answer(a) => AfterAnswer(s, a)
    case Next => AfterNext(s)
    case Finalize => AfterFinalize(s)
    case PlayAgain => AfterReset(s)
  }

  /** The state after the events, in order. */
  function Run(s: State, events: seq<Event>): State
    decreases |events|
  {
    if events == [] then s else Run(Apply(s, events[0]), events[1..])
  }

  /** Every answer given is a non-empty string. */
  predicate NonEmptyAnswers(events: seq<Event>) {
    forall i :: 0 <= i < |events| && events[i].Answer? ==> events[i].answer != ""
  }

  /** No "Jugar de Nuevo" among the events. */
  predicate NoReset(events: seq<Event>) {
    forall i :: 0 <= i < |events| ==> !events[i].PlayAgain?
  }

  /** The score is at most the number of questions passed, plus one for the
      current question once a (truthy) answer is recorded for it. */
  predicate ScoreWithinAnswered(s: State) {
    s.score <= s.currentIndex + (if Truthy(s.selectedAnswer) then 1 else 0)
  }

  /** A second `handleAnswer` on the same question changes nothing once a
      non-empty answer is recorded. */
  lemma AnswerOncePerQuestion(s: State, first: string, second: string)
    requires first != ""
    ensures AfterAnswer(AfterAnswer(s, first), second) == AfterAnswer(s, first)
  {
  }

  /** The guard is a truthiness test: an empty answer does not block a second
      call, and with an empty correct answer the score rises twice on one
      question. */
  lemma EmptyAnswerDoesNotBlock()
    ensures var q := Question(1.0, "", [JStr(""), JStr("a"), JStr("b"), JStr("c")], "");
            var s := State([q], 0, 0, None, false, false, false, None);
            WellFormed(q) && AfterAnswer(AfterAnswer(s, ""), "").score == 2
  {
  }

  /** With non-empty answers, every handler keeps the score within the number
      of questions answered, whatever order the handlers run in. */
  lemma {:induction false} ScoreBoundedByAnswered(s: State, events: seq<Event>)
    requires ScoreWithinAnswered(s) && NonEmptyAnswers(events)
    ensures ScoreWithinAnswered(Run(s, events))
    decreases |events|
  {
    if events != [] {
      assert NonEmptyAnswers(events[1..]) by {
        forall i | 0 <= i < |events[1..]| && events[1..][i].Answer?
          ensures events[1..][i].answer != ""
        {
          assert events[1..][i] == events[i + 1];
        }
      }
      ScoreBoundedByAnswered(Apply(s, events[0]), events[1..]);
    }
  }

  /** Without a reset, the score never goes down. */
  lemma {:induction false} ScoreNeverDecreases(s: State, events: seq<Event>)
    requires NoReset(events)
    ensures Run(s, events).score >= s.score
    decreases |events|
  {
    if events != [] {
      assert !events[0].PlayAgain?;
      assert NoReset(events[1..]) by {
        forall i | 0 <= i < |events[1..]|
          ensures !events[1..][i].PlayAgain?
        {
          assert events[1..][i] == events[i + 1];
        }
      }
      ScoreNeverDecreases(Apply(s, events[0]), events[1..]);
    }
  }

  /** When fed by `getQuestions`, a load never takes the "No se encontraron
      preguntas" branch, since a successful batch is never empty: it ends with
      no error exactly when the fetch succeeded. */
  lemma FetchedBatchIsNeverEmpty(s: State, response: Option<Json>)
    ensures var r := AfterLoadSettled(AfterLoadStart(s), GetQuestions(response));
            && (r.error == None || r.error == Some(LoadFailed))
            && (r.error == None <==> GetQuestions(response).Success?)
  {
  }

  /** The screen the component renders for a state. */
  datatype Screen =
    | Loading                   // "Cargando preguntas..."
    | ErrorScreen(message: string)  // the error or "No hay preguntas disponibles", with "Reintentar"
    | Results                   // "¡Terminado!", with "Jugar de Nuevo"
    | MissingQuestion           // "Error: Pregunta no encontrada"
    | Playing                   // the current question and its answer buttons

  function View(s: State): (r: Screen)
    ensures r == Loading <==> s.loading
    ensures r == Playing ==> s.currentIndex < |s.questions| && !s.gameFinished && !Truthy(s.error)
    ensures r.ErrorScreen? ==> r.message != ""
  {
    if s.loading then Loading
    else if Truthy(s.error) || |s.questions| == 0 then
      ErrorScreen(if Truthy(s.error) then s.error.value else NoQuestionsAvailable)
    else if s.gameFinished then Results
    else if s.currentIndex >= |s.questions| then MissingQuestion
    else Playing
  }

  /** Whether the rendered screen offers the event: a fetch settles only while
      one is pending; answer buttons are disabled once the result shows; the
      next and finish buttons appear only with the result. */
  predicate Enabled(s: State, e: Event)
    ensures Enabled(s, e) && !e.Settle? ==> !s.loading
    ensures Enabled(s, e) && e.Answer? ==> s.currentIndex < |s.questions| && !s.showResult
    ensures Enabled(s, e) && (e.Next? || e.Finalize?) ==> s.showResult && !s.gameFinished
  {
    match e
    case Settle(_) => s.loading
    case Retry => View(s).ErrorScreen?
    case Answer(a) =>
      View(s) == Playing && !s.showResult && JStr(a) in s.questions[s.currentIndex].answers
    case Next => View(s) == Playing && s.showResult
    case Finalize => View(s) == Playing && s.showResult
    case PlayAgain => View(s) == Results
  }

  /** Every event is offered by the screen it is applied to. */
  predicate EnabledRun(s: State, events: seq<Event>)
    decreases |events|
  {
    events == [] || (Enabled(s, events[0]) && EnabledRun(Apply(s, events[0]), events[1..]))
  }

  /** What holds in every state the user can reach. */
  predicate Consistent(s: State) {
    && (s.selectedAnswer.Some? <==> s.showResult)
    && (s.questions == [] ==> s.currentIndex == 0)
    && (s.questions != [] ==> s.currentIndex < |s.questions|)
    && s.score <= s.currentIndex + (if s.showResult then 1 else 0)
    && (s.error == None || s.error == Some(NoQuestionsFound) || s.error == Some(LoadFailed))
    && (s.loading ==> s.error == None)
    && (s.loading || s.error.Some? || s.questions == [] ==>
          s.currentIndex == 0 && s.score == 0 && !s.showResult)
  }

  lemma {:induction false} StepKeepsConsistent(s: State, e: Event)
    requires Consistent(s) && Enabled(s, e)
    ensures Consistent(Apply(s, e))
  {
  }

  lemma {:induction false} RunKeepsConsistent(s: State, events: seq<Event>)
    requires Consistent(s) && EnabledRun(s, events)
    ensures Consistent(Run(s, events))
    decreases |events|
  {
    if events != [] {
      StepKeepsConsistent(s, events[0]);
      RunKeepsConsistent(Apply(s, events[0]), events[1..]);
    }
  }

  /** From mount on, whatever the user does and whatever the fetches return,
      the "Pregunta no encontrada" screen never shows and the score never
      exceeds the number of questions. */
  lemma ReachableStatesAreSound(events: seq<Event>)
    requires EnabledRun(Initial(), events)
    ensures View(Run(Initial(), events)) != MissingQuestion
    ensures Run(Initial(), events).score <= |Run(Initial(), events).questions|
  {
    RunKeepsConsistent(Initial(), events);
  }

  /** The component: its state hooks as fields, its handlers as methods. */
  class Game {
    var questions: seq<Question>
    var currentIndex: nat
    var score: nat
    var selectedAnswer: Option<string>
    var showResult: bool
    var gameFinished: bool
    var loading: bool
    var error: Option<string>

    function Snapshot(): State
      reads this
    {
      State(questions, currentIndex, score, selectedAnswer, showResult, gameFinished, loading, error)
    }

    constructor ()
      ensures Snapshot() == Initial()
    {
      questions, currentIndex, score := [], 0, 0;
      selectedAnswer, showResult, gameFinished := None, false, false;
      loading, error := true, None;
    }

    method LoadQuestions()
      modifies this
      ensures Snapshot() == AfterLoadStart(old(Snapshot()))
    {
      loading := true;
      error := None;
    }

    method ReceiveQuestions(fetched: Result<seq<Question>, ApiError>)
      modifies this
      ensures Snapshot() == AfterLoadSettled(old(Snapshot()), fetched)
    {
      if fetched.Failure? {
        error := Some(LoadFailed);
      } else if |fetched.value| > 0 {
        questions := fetched.value;
      } else {
        error := Some(NoQuestionsFound);
      }
      loading := false;
    }

    method HandleAnswer(answer: string)
      modifies this
      ensures Snapshot() == AfterAnswer(old(Snapshot()), answer)
    {
      if Truthy(selectedAnswer) || currentIndex >= |questions| {
        return;
      }
      selectedAnswer := Some(answer);
      showResult := true;
      if answer == questions[currentIndex].correctAnswer {
        score := score + 1;
      }
    }

    method NextQuestion()
      modifies this
      ensures Snapshot() == AfterNext(old(Snapshot()))
    {
      if currentIndex < |questions| - 1 {
        currentIndex := currentIndex + 1;
        selectedAnswer := None;
        showResult := false;
      } else {
        gameFinished := true;
      }
    }

    method ResetGame()
      modifies this
      ensures Snapshot() == AfterReset(old(Snapshot()))
    {
      currentIndex := 0;
      score := 0;
      selectedAnswer := None;
      showResult := false;
      gameFinished := false;
      error := None;
      LoadQuestions();
    }

    method Finalize()
      modifies this
      ensures Snapshot() == AfterFinalize(old(Snapshot()))
    {
      gameFinished := true;
    }
  }
}
