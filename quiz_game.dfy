/**
 * The touchscreen quiz (main.cpp): a welcome screen, a category menu, five
 * questions drawn at random from the chosen category's bank of ten, and a
 * game-over screen with a restart button. Touches arrive as screen
 * coordinates already mapped from the raw touch panel; each handler compares
 * them with fixed button rectangles and updates the game's globals.
 *
 * `Game` is the value of those globals and the functions over it say what
 * one touch does; `QuizBoard` holds the globals themselves, with the question
 * array, and its handlers are proved to do what the functions say.
 */
module QuizGame {

  datatype GameState = Welcome | Menu | Quiz | GameOver

  datatype QuizCategory = Math | Science

  /** `correctAnswer` is 1 for the first option and 2 for the second. */
  datatype Question = Question(question: string, option1: string, option2: string, correctAnswer: int)

  /** A default-constructed `Question`, as the global array holds before the first draw. */
  const Blank: Question := Question("", "", "", 0)

  /** Questions drawn per game. */
  const QuestionsPerGame: int := 5

  /** Questions in each category's bank. */
  const BankSize: int := 10

  function MathQuestions(): (bank: seq<Question>)
    ensures |bank| == BankSize
  {
    [ Question("What is 1 + 1?", "2", "3", 1),
      Question("What is 2 + 3?", "5", "4", 1),
      Question("What is 4 x 2?", "8", "6", 1),
      Question("What is 10 - 5?", "5", "4", 1),
      Question("What comes after 7?", "8", "9", 1),
      Question("What is 6 + 4?", "10", "9", 1),
      Question("How many sides does a square have?", "4", "3", 1),
      Question("What is 3 x 3?", "9", "6", 1),
      Question("How many fingers are in one hand?", "5", "4", 1),
      Question("What is 20 / 4?", "5", "6", 1) ]
  }

  function ScienceQuestions(): (bank: seq<Question>)
    ensures |bank| == BankSize
  {
    [ Question("What do plants need to grow?", "Water", "Oil", 1),
      Question("Which planet is closest to the sun?", "Mercury", "Venus", 1),
      Question("What gas do humans breathe?", "Oxygen", "Carbon", 1),
      Question("What is the color of grass?", "Green", "Blue", 1),
      Question("Which animal can fly?", "Bird", "Dog", 1),
      Question("What do we drink to stay hydrated?", "Water", "Juice", 1),
      Question("What do bees make?", "Honey", "Milk", 1),
      Question("What is the tallest animal?", "Giraffe", "Elephant", 1),
      Question("What do fish use to breathe?", "Gills", "Lungs", 1),
      Question("What is Earth's natural satellite?", "Moon", "Sun", 1) ]
  }

  /** The bank a category draws from; in both banks the first option is the right one. */
  function Bank(c: QuizCategory): (bank: seq<Question>)
    ensures |bank| == BankSize
    ensures forall i :: 0 <= i < |bank| ==> bank[i].correctAnswer == 1
  {
    if c == Math then MathQuestions() else ScienceQuestions()
  }

  /** Horizontal extent shared by every button. */
  predicate InButtonColumn(x: int) {
    50 <= x <= 270
  }

  /** Vertical extent of the upper button (Math, option 1). */
  predicate InUpperButton(y: int) {
    100 <= y <= 150
  }

  /** Vertical extent of the lower button (Science, option 2, Restart). */
  predicate InLowerButton(y: int) {
    180 <= y <= 230
  }

  /** Five results of `random(0, 10)`, one per question drawn. */
  predicate ValidPicks(picks: seq<int>) {
    |picks| == QuestionsPerGame && forall i :: 0 <= i < |picks| ==> 0 <= picks[i] < BankSize
  }

  /** The question list `selectRandomQuestions` draws from the bank of `c` with the random indices `picks`. */
  function SelectQuestions(c: QuizCategory, picks: seq<int>): (questions: seq<Question>)
    requires ValidPicks(picks)
    ensures |questions| == QuestionsPerGame
    ensures forall i :: 0 <= i < |questions| ==> questions[i] in Bank(c)
    ensures forall i :: 0 <= i < |questions| ==> questions[i] == Bank(c)[picks[i]]
  {
    seq(QuestionsPerGame, i requires 0 <= i < QuestionsPerGame => Bank(c)[picks[i]])
  }

  /** The game's globals: `currentState`, `selectedCategory`, `currentQuestions`, `currentQuestionIndex`, `score`. */
  datatype Game = Game(state: GameState, category: QuizCategory, questions: seq<Question>, index: int, score: int)

  /** The globals at power-up; `selectedCategory` is zero-initialised, which is `MATH`. */
  function Initial(): (g: Game)
    ensures g.state == Welcome && g.category == Math && g.index == 0 && g.score == 0
    ensures |g.questions| == QuestionsPerGame
  {
    Game(Welcome, Math, seq(QuestionsPerGame, _ => Blank), 0, 0)
  }

  /**
   * What holds of the globals between touches: the score never exceeds the
   * number of questions answered; before a quiz nothing is answered; during
   * a quiz fewer than five are, at game over exactly five; and from the
   * first draw on the questions come from the selected category's bank.
   */
  ghost predicate Inv(g: Game) {
    |g.questions| == QuestionsPerGame &&
    0 <= g.score <= g.index &&
    match g.state
    case Welcome => g.index == 0
    case Menu => g.index == 0
    case Quiz => g.index < QuestionsPerGame && FromBank(g)
    case GameOver => g.index == QuestionsPerGame && FromBank(g)
  }

  ghost predicate FromBank(g: Game) {
    forall i :: 0 <= i < |g.questions| ==> g.questions[i] in Bank(g.category)
  }

  /** `handleWelcomeTouch`: any touch opens the menu and nothing else changes. */
  function WelcomeTouch(g: Game, x: int, y: int): (r: Game)
    ensures r.state == Menu
    ensures r.category == g.category && r.questions == g.questions
    ensures r.index == g.index && r.score == g.score
  {
    g.(state := Menu)
  }

  /**
   * `handleMenuTouch`: a touch inside the button column starts a quiz with
   * five fresh questions, choosing Math on the upper button, Science on the
   * lower one and keeping the previous category between them; any other
   * touch is ignored.
   */
  function MenuTouch(g: Game, x: int, y: int, picks: seq<int>): (r: Game)
    requires ValidPicks(picks)
    ensures !InButtonColumn(x) ==> r == g
    ensures InButtonColumn(x) ==> r.state == Quiz && r.index == g.index && r.score == g.score
    ensures InButtonColumn(x) && InUpperButton(y) ==> r.category == Math
    ensures InButtonColumn(x) && InLowerButton(y) ==> r.category == Science
    ensures !InUpperButton(y) && !InLowerButton(y) ==> r.category == g.category
    ensures InButtonColumn(x) ==> r.questions == SelectQuestions(r.category, picks)
  {
    if InButtonColumn(x) then
      var c := if InUpperButton(y) then Math else if InLowerButton(y) then Science else g.category;
      g.(state := Quiz, category := c, questions := SelectQuestions(c, picks))
    else
      g
  }

  /**
   * `handleQuizTouch`: every touch answers the current question; the score
   * goes up by one exactly when the touched button is the correct option;
   * after the fifth answer the game is over.
   */
  function QuizTouch(g: Game, x: int, y: int): (r: Game)
    requires 0 <= g.index < |g.questions|
    ensures r.index == g.index + 1
    ensures r.score == g.score || r.score == g.score + 1
    ensures r.score == g.score + 1 <==>
      (InUpperButton(y) && g.questions[g.index].correctAnswer == 1) ||
      (InLowerButton(y) && g.questions[g.index].correctAnswer == 2)
    ensures r.state == if r.index < QuestionsPerGame then g.state else GameOver
    ensures r.category == g.category && r.questions == g.questions
  {
    var answer := g.questions[g.index].correctAnswer;
    var correct :=
      if InUpperButton(y) then answer == 1
      else if InLowerButton(y) then answer == 2
      else false;
    var index := g.index + 1;
    g.(score := if correct then g.score + 1 else g.score,
       index := index,
       state := if index < QuestionsPerGame then g.state else GameOver)
  }

  /** `handleGameOverTouch`: the Restart button clears the progress and returns to the welcome screen. */
  function GameOverTouch(g: Game, x: int, y: int): (r: Game)
    ensures InLowerButton(y) ==> r.state == Welcome && r.index == 0 && r.score == 0
    ensures InLowerButton(y) ==> r.category == g.category && r.questions == g.questions
    ensures !InLowerButton(y) ==> r == g
  {
    if InLowerButton(y) then g.(index := 0, score := 0, state := Welcome) else g
  }

  /** The dispatch in `loop`: the handler of the current state takes the touch. */
  function Touch(g: Game, x: int, y: int, picks: seq<int>): (r: Game)
    requires Inv(g)
    requires ValidPicks(picks)
    ensures Inv(r)
  {
    match g.state
    case Welcome => WelcomeTouch(g, x, y)
    case Menu => MenuTouch(g, x, y, picks)
    case Quiz => QuizTouch(g, x, y)
    case GameOver => GameOverTouch(g, x, y)
  }

  /** A touch: its mapped coordinates and the random indices a menu touch would draw. */
  datatype TouchInput = TouchInput(x: int, y: int, picks: seq<int>)

  predicate ValidInputs(touches: seq<TouchInput>) {
    forall i :: 0 <= i < |touches| ==> ValidPicks(touches[i].picks)
  }

  /**
   * The globals after `touches`, in order. From any state satisfying the
   * invariant, in particular from power-up, the invariant still holds: in a
   * quiz `0 <= score <= currentQuestionIndex < 5`, at game over the index is 5
   * and the score at most 5.
   */
  function Run(g: Game, touches: seq<TouchInput>): (r: Game)
    requires Inv(g)
    requires ValidInputs(touches)
    ensures Inv(r)
    ensures r.state == Quiz ==> 0 <= r.score <= r.index < QuestionsPerGame
    ensures r.state == GameOver ==> r.index == QuestionsPerGame && 0 <= r.score <= QuestionsPerGame
    decreases |touches|
  {
    if touches == [] then g
    else Run(Touch(g, touches[0].x, touches[0].y, touches[0].picks), touches[1..])
  }

  /** Power-up satisfies the invariant, so `Run(Initial(), touches)` is defined for every touch sequence. */
  lemma InitialInv()
    ensures Inv(Initial())
  {
  }

  /** With every correct answer on the upper button, a quiz touch scores exactly when it lands on that button. */
  lemma QuizScoresOnUpperButton(g: Game, x: int, y: int)
    requires Inv(g) && g.state == Quiz
    ensures QuizTouch(g, x, y).score == g.score + 1 <==> InUpperButton(y)
  {
  }

  /**
   * A quiz ends after exactly as many further touches as there are unanswered
   * questions: each touch answers one, fewer touches leave the game in the
   * quiz, and that many reach game over.
   */
  lemma {:induction false} QuizEndsAfterFiveAnswers(g: Game, touches: seq<TouchInput>)
    requires Inv(g) && g.state == Quiz
    requires ValidInputs(touches)
    requires |touches| <= QuestionsPerGame - g.index
    ensures Run(g, touches).index == g.index + |touches|
    ensures Run(g, touches).state == if |touches| < QuestionsPerGame - g.index then Quiz else GameOver
    decreases |touches|
  {
    if touches != [] {
      var t := touches[0];
      var next := Touch(g, t.x, t.y, t.picks);
      if next.index < QuestionsPerGame {
        QuizEndsAfterFiveAnswers(next, touches[1..]);
      } else {
        assert touches[1..] == [];
      }
    }
  }

  /** A restart followed by any touch on the welcome screen reaches the menu with the score cleared. */
  lemma {:induction false} RestartReturnsToMenu(g: Game, restart: TouchInput, start: TouchInput)
    requires Inv(g) && g.state == GameOver
    requires InLowerButton(restart.y)
    requires ValidPicks(restart.picks) && ValidPicks(start.picks)
    ensures Run(g, [restart, start]).state == Menu
    ensures Run(g, [restart, start]).index == 0 && Run(g, [restart, start]).score == 0
  {
    var once := Touch(g, restart.x, restart.y, restart.picks);
    var twice := Touch(once, start.x, start.y, start.picks);
    assert [restart, start][1..] == [start];
    assert Run(g, [restart, start]) == Run(once, [start]);
    assert Run(once, [start]) == Run(twice, [start][1..]);
    assert [start][1..] == [];
  }

  /** The globals of main.cpp, with `currentQuestions` the five-element array. */
  class QuizBoard {
    var currentState: GameState
    var selectedCategory: QuizCategory
    var currentQuestions: array<Question>
    var currentQuestionIndex: int
    var score: int

    function Model(): Game
      reads this, currentQuestions
    {
      Game(currentState, selectedCategory, currentQuestions[..], currentQuestionIndex, score)
    }

    ghost predicate Valid()
      reads this, currentQuestions
    {
      currentQuestions.Length == QuestionsPerGame && Inv(Model())
    }

    constructor ()
      ensures Valid() && fresh(currentQuestions)
      ensures Model() == Initial()
    {
      currentState := Welcome;
      selectedCategory := Math;
      currentQuestions := new Question[QuestionsPerGame](_ => Blank);
      currentQuestionIndex := 0;
      score := 0;
    }

    /** `selectRandomQuestions`: fill the array with `picks[i]`-th question of the selected bank, in place. */
    method SelectRandomQuestions(picks: seq<int>)
      requires currentQuestions.Length == QuestionsPerGame
      requires ValidPicks(picks)
      modifies currentQuestions
      ensures currentQuestions[..] == SelectQuestions(selectedCategory, picks)
    {
      var category := if selectedCategory == Math then MathQuestions() else ScienceQuestions();
      for i := 0 to QuestionsPerGame
        invariant forall k :: 0 <= k < i ==> currentQuestions[k] == Bank(selectedCategory)[picks[k]]
      {
        currentQuestions[i] := category[picks[i]];
      }
    }

    method HandleWelcomeTouch(x: int, y: int)
      requires Valid() && currentState == Welcome
      modifies this`currentState
      ensures Valid()
      ensures Model() == WelcomeTouch(old(Model()), x, y)
    {
      currentState := Menu;
    }

    method HandleMenuTouch(x: int, y: int, picks: seq<int>)
      requires Valid() && currentState == Menu
      requires ValidPicks(picks)
      modifies this`currentState, this`selectedCategory, currentQuestions
      ensures Valid()
      ensures Model() == MenuTouch(old(Model()), x, y, picks)
    {
      if 50 <= x <= 270 {
        if 100 <= y <= 150 {
          selectedCategory := Math;
        } else if 180 <= y <= 230 {
          selectedCategory := Science;
        }
        currentState := Quiz;
        SelectRandomQuestions(picks);
      }
    }

    method HandleQuizTouch(x: int, y: int)
      requires Valid() && currentState == Quiz
      modifies this`score, this`currentQuestionIndex, this`currentState
      ensures Valid()
      ensures Model() == QuizTouch(old(Model()), x, y)
    {
      if 100 <= y <= 150 {
        if currentQuestions[currentQuestionIndex].correctAnswer == 1 {
          score := score + 1;
        }
      } else if 180 <= y <= 230 {
        if currentQuestions[currentQuestionIndex].correctAnswer == 2 {
          score := score + 1;
        }
      }
      currentQuestionIndex := currentQuestionIndex + 1;
      if currentQuestionIndex >= QuestionsPerGame {
        currentState := GameOver;
      }
    }

    method HandleGameOverTouch(x: int, y: int)
      requires Valid() && currentState == GameOver
      modifies this`score, this`currentQuestionIndex, this`currentState
      ensures Valid()
      ensures Model() == GameOverTouch(old(Model()), x, y)
    {
      if 180 <= y <= 230 {
        currentQuestionIndex := 0;
        score := 0;
        currentState := Welcome;
      }
    }

    /** The touch dispatch of `loop`. */
    method HandleTouch(x: int, y: int, picks: seq<int>)
      requires Valid()
      requires ValidPicks(picks)
      modifies this`currentState, this`selectedCategory, this`score, this`currentQuestionIndex, currentQuestions
      ensures Valid()
      ensures Model() == Touch(old(Model()), x, y, picks)
    {
      if currentState == Welcome {
        HandleWelcomeTouch(x, y);
      } else if currentState == Menu {
        HandleMenuTouch(x, y, picks);
      } else if currentState == Quiz {
        HandleQuizTouch(x, y);
      } else if currentState == GameOver {
        HandleGameOverTouch(x, y);
      }
    }

    /** `getCategoryName`: the label the score page shows for the selected category. */
    function GetCategoryName(): (name: string)
      reads this
      ensures name == "Math Quiz" <==> selectedCategory == Math
      ensures selectedCategory == Science ==> name == "Science Quiz"
    {
      if selectedCategory == Math then "Math Quiz" else "Science Quiz"
    }
  }
}
