/** The math game's state machine: start and restart, answering a question,
    changing difficulty and ending the game. Each question the handlers
    store is the one the generator returned, passed in as `next`. */
module MathGame {
  import opened Wrappers
  import QuestionGenerator
  import GameScore

  const QuestionsPerGame: nat := 10

  class Game {
    var score: nat
    var questionCount: nat
    var currentQuestion: Option<QuestionGenerator.Question>
    var gameStarted: bool
    var gameOver: bool
    var difficulty: string

    /** At most ten questions and never more points than questions; while a
        game is running the current question has not been scored yet. */
    predicate Valid()
      reads this
    {
      && score <= questionCount <= QuestionsPerGame
      && (gameStarted && !gameOver ==> score < questionCount)
    }

    constructor ()
      ensures score == 0 && questionCount == 0 && currentQuestion == None
      ensures !gameStarted && !gameOver && difficulty == "easy"
      ensures Valid()
    {
      score := 0;
      questionCount := 0;
      currentQuestion := None;
      gameStarted := false;
      gameOver := false;
      difficulty := "easy";
    }

    /** `startGame` (and `restartGame`): score 0, first question shown, game
        running. */
    method StartGame(next: QuestionGenerator.Question)
      modifies this
      ensures score == 0 && questionCount == 1 && currentQuestion == Some(next)
      ensures gameStarted && !gameOver && difficulty == old(difficulty)
      ensures Valid()
    {
      score := 0;
      questionCount := 0;
      gameStarted := true;
      gameOver := false;
      currentQuestion := Some(next);
      questionCount := 1;
    }

    /** `handleOptionClick(selected)`, reachable only on the question screen of
        a running game. Nothing happens without a current question. A right
        answer scores one point; at the tenth question the game ends, before
        it the next question is shown and counted. */
    method HandleOptionClick(selected: int, next: QuestionGenerator.Question)
      requires Valid() && gameStarted && !gameOver
      modifies this
      ensures Valid() && gameStarted && difficulty == old(difficulty)
      ensures old(currentQuestion).None? ==>
                score == old(score) && questionCount == old(questionCount) && !gameOver
                && currentQuestion == old(currentQuestion)
      ensures old(currentQuestion).Some? ==>
                score == old(score) + (if selected == old(currentQuestion).value.answer then 1 else 0)
      ensures old(currentQuestion).Some? && old(questionCount) >= QuestionsPerGame ==>
                gameOver && questionCount == old(questionCount) && currentQuestion == old(currentQuestion)
      ensures old(currentQuestion).Some? && old(questionCount) < QuestionsPerGame ==>
                !gameOver && questionCount == old(questionCount) + 1 && currentQuestion == Some(next)
    {
      if currentQuestion.None? {
        return;
      }
      if selected == currentQuestion.value.answer {
        score := score + 1;
      }
      if questionCount >= QuestionsPerGame {
        gameOver := true;
      } else {
        currentQuestion := Some(next);
        questionCount := questionCount + 1;
      }
    }

    /** `changeDifficulty(d)`: the difficulty changes, and a started game is
        restarted. The handler's generator was made for the difficulty before
        the change, so `next` comes from that one. */
    method ChangeDifficulty(newDifficulty: string, next: QuestionGenerator.Question)
      requires Valid()
      modifies this
      ensures difficulty == newDifficulty && gameStarted == old(gameStarted)
      ensures old(gameStarted) ==> score == 0 && questionCount == 1 && currentQuestion == Some(next) && !gameOver
      ensures !old(gameStarted) ==>
                score == old(score) && questionCount == old(questionCount)
                && currentQuestion == old(currentQuestion) && gameOver == old(gameOver)
      ensures Valid()
    {
      difficulty := newDifficulty;
      if gameStarted {
        StartGame(next);
      }
    }

    /** The End Game button. */
    method EndGame()
      requires Valid()
      modifies this
      ensures gameOver
      ensures score == old(score) && questionCount == old(questionCount) && currentQuestion == old(currentQuestion)
      ensures gameStarted == old(gameStarted) && difficulty == old(difficulty)
      ensures Valid()
    {
      gameOver := true;
    }

    /** The score screen's message: the score out of ten. */
    function FinalMessage(): (m: string)
      reads this
      requires Valid()
      ensures score == QuestionsPerGame ==> m == GameScore.Excellent
    {
      GameScore.TenQuestionBands(score);
      GameScore.Message(GameScore.Percentage(score, QuestionsPerGame))
    }
  }

  /** How many of the answers are right for the questions shown, answer k
      belonging to question k. */
  function RightAnswers(choices: seq<int>, questions: seq<QuestionGenerator.Question>): (n: nat)
    requires |choices| <= |questions|
    ensures n <= |choices|
  {
    if choices == [] then 0
    else
      var k := |choices| - 1;
      RightAnswers(choices[..k], questions) + (if choices[k] == questions[k].answer then 1 else 0)
  }

  /** From a fresh start, with any sequence of clicks and any generated
      questions, the game ends after exactly ten answers: the first question
      and the next nine generated ones are shown in turn, and the final score
      is the number of those ten answered right. */
  method TenAnswersEndGame(first: QuestionGenerator.Question, nexts: seq<QuestionGenerator.Question>,
                           choices: seq<int>)
    returns (answered: nat, finalScore: nat)
    requires |choices| >= QuestionsPerGame && |nexts| >= QuestionsPerGame
    ensures answered == QuestionsPerGame
    ensures finalScore == RightAnswers(choices[..QuestionsPerGame], [first] + nexts[..QuestionsPerGame - 1])
    ensures finalScore <= QuestionsPerGame
  {
    ghost var shown := [first] + nexts[..QuestionsPerGame - 1];
    var game := new Game();
    game.StartGame(first);
    answered := 0;
    while !game.gameOver
      invariant answered <= QuestionsPerGame
      invariant game.Valid() && game.gameStarted && game.currentQuestion.Some?
      invariant !game.gameOver ==> game.questionCount == answered + 1 && answered < QuestionsPerGame
      invariant !game.gameOver ==> game.currentQuestion == Some(shown[answered])
      invariant game.gameOver ==> answered == QuestionsPerGame
      invariant game.score == RightAnswers(choices[..answered], shown)
      decreases QuestionsPerGame - answered
    {
      assert choices[..answered + 1][..answered] == choices[..answered];
      game.HandleOptionClick(choices[answered], nexts[answered]);
      answered := answered + 1;
    }
    finalScore := game.score;
  }
}
