/** The two-player quiz engine (components/battle-mode.tsx): the classic
    engine's machine with one score per player and a turn flag that flips on
    every move to the next question. As in the classic engine, every handler
    is one atomic step, `loadQuestions` is split at its `await`, the step
    functions `After...` state the steps on a `State` value and the class
    `Game` performs them in place. */
module BattleMode {
  import opened Wrappers
  import opened QuestionApi

  const NoQuestionsFound := "No se encontraron preguntas"
  const LoadFailed := "Error al cargar las preguntas"
  const NoQuestionsAvailable := "No hay preguntas disponibles"

  /** The TypeScript type `1 | 2`. */
  type Player = p: int | p == 1 || p == 2 witness 1

  /** The component's state hooks. */
  datatype State = State(
    questions: seq<Question>,
    currentIndex: nat,
    currentPlayer: Player,
    player1Score: nat,
    player2Score: nat,
    selectedAnswer: Option<string>,
    showResult: bool,
    gameFinished: bool,
    loading: bool,
    error: Option<string>)

  /** The `useState` initial values; the mount effect's fetch is pending. */
  function Initial(): State {
    State([], 0, 1, 0, 0, None, false, false, true, None)
  }

  /** `data.length % 2 === 0 ? data : data.slice(0, -1)`: the longest
      even-length prefix, so both players get the same number of turns. */
  function EvenBatch(data: seq<Question>): (batch: seq<Question>)
    ensures |batch| % 2 == 0
    ensures |batch| == |data| - |data| % 2
    ensures batch == data[..|batch|]
  {
    if |data| % 2 == 0 then data else data[..|data| - 1]
  }

  /** The winner shown on the results screen; `None` is a tie ("¡Empate!"). */
  function Winner(player1Score: nat, player2Score: nat): (w: Option<Player>)
    ensures w == Some(1) <==> player1Score > player2Score
    ensures w == Some(2) <==> player2Score > player1Score
    ensures w == None <==> player1Score == player2Score
  {
    if player1Score > player2Score then Some(1)
    else if player2Score > player1Score then Some(2)
    else None
  }

  /** `loadQuestions` up to its `await`. */
  function AfterLoadStart(s: State): (r: State)
    ensures r.loading && r.error == None
    ensures r.(loading := s.loading, error := s.error) == s
  {
    s.(loading := true, error := None)
  }

  /** `loadQuestions` after its `await`, given what `getQuestions` produced. */
  function AfterLoadSettled(s: State, fetched: Result<seq<Question>, ApiError>): (r: State)
    ensures !r.loading
    ensures fetched.Success? && |fetched.value| > 0 ==>
              && |r.questions| % 2 == 0
              && r.questions == fetched.value[..|fetched.value| - |fetched.value| % 2]
              && r.(questions := s.questions, loading := s.loading) == s
    ensures fetched.Success? && |fetched.value| == 0 ==>
              r == s.(error := Some(NoQuestionsFound), loading := false)
    ensures fetched.Failure? ==> r == s.(error := Some(LoadFailed), loading := false)
  {
    match fetched
    case Success(data) =>
      if |data| > 0 then s.(questions := EvenBatch(data), loading := false)
      else s.(error := Some(NoQuestionsFound), loading := false)
    case Failure(_) => s.(error := Some(LoadFailed), loading := false)
  }

  /** The early return of `handleAnswer`: a truthy answer is already selected,
      or there is no question at the current index. */
  predicate AnswerBlocked(s: State) {
    Truthy(s.selectedAnswer) || s.currentIndex >= |s.questions|
  }

  /** `handleAnswer(answer)`: a correct answer scores for the player whose turn it is. */
  function AfterAnswer(s: State, answer: string): (r: State)
    ensures AnswerBlocked(s) ==> r == s
    ensures !AnswerBlocked(s) ==>
              var correct := answer == s.questions[s.currentIndex].correctAnswer;
              && r.selectedAnswer == Some(answer) && r.showResult
              && r.player1Score == (if correct && s.currentPlayer == 1 then s.player1Score + 1 else s.player1Score)
              && r.player2Score == (if correct && s.currentPlayer == 2 then s.player2Score + 1 else s.player2Score)
              && r.(selectedAnswer := s.selectedAnswer, showResult := s.showResult,
                    player1Score := s.player1Score, player2Score := s.player2Score) == s
  {
    if AnswerBlocked(s) then s
    else if answer != s.questions[s.currentIndex].correctAnswer then
      s.(selectedAnswer := Some(answer), showResult := true)
    else if s.currentPlayer == 1 then
      s.(selectedAnswer := Some(answer), showResult := true, player1Score := s.player1Score + 1)
    else
      s.(selectedAnswer := Some(answer), showResult := true, player2Score := s.player2Score + 1)
  }

  /** `nextQuestion`: move on and hand the turn over, or finish after the last question. */
  function AfterNext(s: State): (r: State)
    ensures s.currentIndex < |s.questions| - 1 ==>
              && r.currentIndex == s.currentIndex + 1
              && r.currentPlayer != s.currentPlayer
              && r.selectedAnswer == None && !r.showResult
              && r.(currentIndex := s.currentIndex, currentPlayer := s.currentPlayer,
                    selectedAnswer := s.selectedAnswer, showResult := s.showResult) == s
    ensures s.currentIndex >= |s.questions| - 1 ==> r.gameFinished && r.(gameFinished := s.gameFinished) == s
  {
    if s.currentIndex < |s.questions| - 1 then
      s.(currentIndex := s.currentIndex + 1, currentPlayer := if s.currentPlayer == 1 then 2 else 1,
         selectedAnswer := None, showResult := false)
    else
      s.(gameFinished := true)
  }

  /** `resetGame`: counters, turn and flags back to their initial values, then `loadQuestions`. */
  function AfterReset(s: State): (r: State)
    ensures r.currentIndex == 0 && r.currentPlayer == 1
    ensures r.player1Score == 0 && r.player2Score == 0 && r.selectedAnswer == None
    ensures !r.showResult && !r.gameFinished && r.error == None && r.loading
    ensures r.questions == s.questions
  {
    AfterLoadStart(s.(currentIndex := 0, currentPlayer := 1, player1Score := 0, player2Score := 0,
                      selectedAnswer := None, showResult := false, gameFinished := false, error := None))
  }

  /** The "Finalizar" button: only the finished flag is set. */
  function AfterFinalize(s: State): (r: State)
    ensures r.gameFinished
    ensures r.currentIndex == s.currentIndex && r.currentPlayer == s.currentPlayer
    ensures r.player1Score == s.player1Score && r.player2Score == s.player2Score
    ensures r.(gameFinished := s.gameFinished) == s
  {
    s.(gameFinished := true)
  }

  /** The user's intents and the settling of a pending fetch. */
  datatype Event =
    | Settle(fetched: Result<seq<Question>, ApiError>)  // the pending `getQuestions` call returns or throws
    | Retry                                              // "Reintentar": `loadQuestions`
    | Answer(answer: string)                             // an answer button: `handleAnswer`
    | Next                                               // "Turno Jugador n" / "Ver Resultados": `nextQuestion`
    | Finalize                                           // "Finalizar"
    | PlayAgain                                          // "Jugar de Nuevo": `resetGame`

  function Apply(s: State, e: Event): State {
    match e
    case Settle(fetched) => AfterLoadSettled(s, fetched)
    case Retry => AfterLoadStart(s)
    case Answer(a) => AfterAnswer(s, a)
    case Next => AfterNext(s)
    case Finalize => AfterFinalize(s)
    case PlayAgain => AfterReset(s)
  }

  /** The state after the events, in order. */
  function Run(s: State, events: seq<Event>): State
    decreases |events|
  {
    if events == [] then s else Run(Apply(s, events[0]), events[1..])
  }

  /** Player 1 holds the turn exactly on the even-numbered questions
      (0-based), so the turns go 1, 2, 1, 2, ... */
  predicate TurnMatchesIndex(s: State) {
    s.currentPlayer == 1 <==> s.currentIndex % 2 == 0
  }

  /** Every handler, in any order, keeps the turn in step with the question
      index. */
  lemma {:induction false} TurnsAlternate(s: State, events: seq<Event>)
    requires TurnMatchesIndex(s)
    ensures TurnMatchesIndex(Run(s, events))
    decreases |events|
  {
    if events != [] {
      TurnsAlternate(Apply(s, events[0]), events[1..]);
    }
  }

  /** Every answer given is a non-empty string. */
  predicate NonEmptyAnswers(events: seq<Event>) {
    forall i :: 0 <= i < |events| && events[i].Answer? ==> events[i].answer != ""
  }

  /** The two scores together are at most the number of questions passed,
      plus one for the current question once a (truthy) answer is recorded. */
  predicate ScoresWithinAnswered(s: State) {
    s.player1Score + s.player2Score <= s.currentIndex + (if Truthy(s.selectedAnswer) then 1 else 0)
  }

  /** A second `handleAnswer` on the same question changes nothing once a
      non-empty answer is recorded. */
  lemma AnswerOncePerQuestion(s: State, first: string, second: string)
    requires first != ""
    ensures AfterAnswer(AfterAnswer(s, first), second) == AfterAnswer(s, first)
  {
  }

  /** With non-empty answers, every handler keeps the scores within the number
      of questions answered, whatever order the handlers run in. */
  lemma {:induction false} ScoresBoundedByAnswered(s: State, events: seq<Event>)
    requires ScoresWithinAnswered(s) && NonEmptyAnswers(events)
    ensures ScoresWithinAnswered(Run(s, events))
    decreases |events|
  {
    if events != [] {
      assert NonEmptyAnswers(events[1..]) by {
        forall i | 0 <= i < |events[1..]| && events[1..][i].Answer?
          ensures events[1..][i].answer != ""
        {
          assert events[1..][i] == events[i + 1];
        }
      }
      ScoresBoundedByAnswered(Apply(s, events[0]), events[1..]);
    }
  }

  /** No "Jugar de Nuevo" among the events. */
  predicate NoReset(events: seq<Event>) {
    forall i :: 0 <= i < |events| ==> !events[i].PlayAgain?
  }

  /** Without a reset, neither player's score ever goes down. */
  lemma {:induction false} ScoresNeverDecrease(s: State, events: seq<Event>)
    requires NoReset(events)
    ensures Run(s, events).player1Score >= s.player1Score
    ensures Run(s, events).player2Score >= s.player2Score
    decreases |events|
  {
    if events != [] {
      assert !events[0].PlayAgain?;
      assert NoReset(events[1..]) by {
        forall i | 0 <= i < |events[1..]|
          ensures !events[1..][i].PlayAgain?
        {
          assert events[1..][i] == events[i + 1];
        }
      }
      ScoresNeverDecrease(Apply(s, events[0]), events[1..]);
    }
  }

  /** The screen the component renders for a state. */
  datatype Screen =
    | Loading                       // "Cargando preguntas..."
    | ErrorScreen(message: string)  // the error or "No hay preguntas disponibles", with "Reintentar"
    | Results(winner: Option<Player>)  // "¡Jugador n Gana!" or "¡Empate!", with "Jugar de Nuevo"
    | MissingQuestion               // "Error: Pregunta no encontrada"
    | Playing                       // the current question, the turn and the answer buttons

  function View(s: State): (r: Screen)
    ensures r == Loading <==> s.loading
    ensures r == Playing ==> s.currentIndex < |s.questions| && !s.gameFinished && !Truthy(s.error)
    ensures r.ErrorScreen? ==> r.message != ""
  {
    if s.loading then Loading
    else if Truthy(s.error) || |s.questions| == 0 then
      ErrorScreen(if Truthy(s.error) then s.error.value else NoQuestionsAvailable)
    else if s.gameFinished then Results(Winner(s.player1Score, s.player2Score))
    else if s.currentIndex >= |s.questions| then MissingQuestion
    else Playing
  }

  /** A fetch that returns a single question leaves an empty batch and the
      "No hay preguntas disponibles" screen. */
  lemma SingleQuestionLeavesNoQuestions(s: State, q: Question)
    requires s.error == None
    ensures var r := AfterLoadSettled(s, Success([q]));
            r.questions == [] && View(r) == ErrorScreen(NoQuestionsAvailable)
  {
  }

  /** Whether the rendered screen offers the event: a fetch settles only while
      one is pending; answer buttons are disabled once the result shows; the
      next and finish buttons appear only with the result. */
  predicate Enabled(s: State, e: Event)
    ensures Enabled(s, e) && !e.Settle? ==> !s.loading
    ensures Enabled(s, e) && e.Answer? ==> s.currentIndex < |s.questions| && !s.showResult
    ensures Enabled(s, e) && (e.Next? || e.Finalize?) ==> s.showResult && !s.gameFinished
  {
    match e
    case Settle(_) => s.loading
    case Retry => View(s).ErrorScreen?
    case Answer(a) =>
      View(s) == Playing && !s.showResult && JStr(a) in s.questions[s.currentIndex].answers
    case Next => View(s) == Playing && s.showResult
    case Finalize => View(s) == Playing && s.showResult
    case PlayAgain => View(s).Results?
  }

  /** Every event is offered by the screen it is applied to. */
  predicate EnabledRun(s: State, events: seq<Event>)
    decreases |events|
  {
    events == [] || (Enabled(s, events[0]) && EnabledRun(Apply(s, events[0]), events[1..]))
  }

  /** Correct answers player 1 can have given: one per even-numbered question
      passed, plus the current one if it is theirs and answered. */
  function Player1Turns(s: State): nat {
    (s.currentIndex + 1) / 2 + (if s.showResult && s.currentIndex % 2 == 0 then 1 else 0)
  }

  /** The same for player 2 and the odd-numbered questions. */
  function Player2Turns(s: State): nat {
    s.currentIndex / 2 + (if s.showResult && s.currentIndex % 2 == 1 then 1 else 0)
  }

  /** What holds in every state the users can reach. */
  predicate Consistent(s: State) {
    && (s.selectedAnswer.Some? <==> s.showResult)
    && TurnMatchesIndex(s)
    && |s.questions| % 2 == 0
    && (s.questions == [] ==> s.currentIndex == 0)
    && (s.questions != [] ==> s.currentIndex < |s.questions|)
    && s.player1Score <= Player1Turns(s)
    && s.player2Score <= Player2Turns(s)
    && (s.error == None || s.error == Some(NoQuestionsFound) || s.error == Some(LoadFailed))
    && (s.loading ==> s.error == None)
    && (s.loading || s.error.Some? || s.questions == [] ==>
          s.currentIndex == 0 && s.player1Score == 0 && s.player2Score == 0 && !s.showResult)
  }

  lemma {:induction false} StepKeepsConsistent(s: State, e: Event)
    requires Consistent(s) && Enabled(s, e)
    ensures Consistent(Apply(s, e))
  {
  }

  lemma {:induction false} RunKeepsConsistent(s: State, events: seq<Event>)
    requires Consistent(s) && EnabledRun(s, events)
    ensures Consistent(Run(s, events))
    decreases |events|
  {
    if events != [] {
      StepKeepsConsistent(s, events[0]);
      RunKeepsConsistent(Apply(s, events[0]), events[1..]);
    }
  }

  /** Each player's score is at most half the batch in a consistent state. */
  lemma ScoresWithinHalf(s: State)
    requires Consistent(s)
    ensures s.player1Score <= |s.questions| / 2 && s.player2Score <= |s.questions| / 2
  {
  }

  /** From mount on, whatever the users do and whatever the fetches return,
      the batch has even length, the turn follows the question index, the
      "Pregunta no encontrada" screen never shows, and neither player scores
      more than half the batch. */
  lemma ReachableStatesAreSound(events: seq<Event>)
    requires EnabledRun(Initial(), events)
    ensures var r := Run(Initial(), events);
            && |r.questions| % 2 == 0
            && TurnMatchesIndex(r)
            && View(r) != MissingQuestion
            && r.player1Score <= |r.questions| / 2 && r.player2Score <= |r.questions| / 2
  {
    RunKeepsConsistent(Initial(), events);
    ScoresWithinHalf(Run(Initial(), events));
  }

  /** The component: its state hooks as fields, its handlers as methods. */
  class Game {
    var questions: seq<Question>
    var currentIndex: nat
    var currentPlayer: Player
    var player1Score: nat
    var player2Score: nat
    var selectedAnswer: Option<string>
    var showResult: bool
    var gameFinished: bool
    var loading: bool
    var error: Option<string>

    function Snapshot(): State
      reads this
    {
      State(questions, currentIndex, currentPlayer, player1Score, player2Score,
            selectedAnswer, showResult, gameFinished, loading, error)
    }

    constructor ()
      ensures Snapshot() == Initial()
    {
      questions, currentIndex, currentPlayer := [], 0, 1;
      player1Score, player2Score := 0, 0;
      selectedAnswer, showResult, gameFinished := None, false, false;
      loading, error := true, None;
    }

    method LoadQuestions()
      modifies this
      ensures Snapshot() == AfterLoadStart(old(Snapshot()))
    {
      loading := true;
      error := None;
    }

    method ReceiveQuestions(fetched: Result<seq<Question>, ApiError>)
      modifies this
      ensures Snapshot() == AfterLoadSettled(old(Snapshot()), fetched)
    {
      if fetched.Failure? {
        error := Some(LoadFailed);
      } else if |fetched.value| > 0 {
        questions := EvenBatch(fetched.value);
      } else {
        error := Some(NoQuestionsFound);
      }
      loading := false;
    }

    method HandleAnswer(answer: string)
      modifies this
      ensures Snapshot() == AfterAnswer(old(Snapshot()), answer)
    {
      if Truthy(selectedAnswer) || currentIndex >= |questions| {
        return;
      }
      selectedAnswer := Some(answer);
      showResult := true;
      if answer == questions[currentIndex].correctAnswer {
        if currentPlayer == 1 {
          player1Score := player1Score + 1;
        } else {
          player2Score := player2Score + 1;
        }
      }
    }

    method NextQuestion()
      modifies this
      ensures Snapshot() == AfterNext(old(Snapshot()))
    {
      if currentIndex < |questions| - 1 {
        currentIndex := currentIndex + 1;
        currentPlayer := if currentPlayer == 1 then 2 else 1;
        selectedAnswer := None;
        showResult := false;
      } else {
        gameFinished := true;
      }
    }

    method ResetGame()
      modifies this
      ensures Snapshot() == AfterReset(old(Snapshot()))
    {
      currentIndex := 0;
      currentPlayer := 1;
      player1Score := 0;
      player2Score := 0;
      selectedAnswer := None;
      showResult := false;
      gameFinished := false;
      error := None;
      LoadQuestions();
    }

    method Finalize()
      modifies this
      ensures Snapshot() == AfterFinalize(old(Snapshot()))
    {
      gameFinished := true;
    }
  }
}
