/**
 * The three screens of the quiz app and the state each one keeps.
 *
 * `OptionsView` collects the configuration and snaps the difficulty slider.
 * `GameView` runs one game: it asks questions, judges the tapped answers and
 * raises the game-over alert.  `ContentView` holds the configuration a game
 * starts from and switches between the two screens.
 *
 * Layout, styling, animation and the alert's presentation are not modelled.
 * The widgets' ranges (table 2...12, question counts 5, 10 or 20, slider
 * 1...100) appear only as `OptionsView.Valid()`.
 */
module Edutainment {
  import opened Difficulty
  import opened Quiz

  class OptionsView {
    var table: int
    var numQuestions: int
    var slider: real
    var difficulty: int

    /** What the options screen's widgets allow. */
    ghost predicate Valid()
      reads this
    {
      && 2 <= table <= 12
      && (numQuestions == 5 || numQuestions == 10 || numQuestions == 20)
      && 1.0 <= slider <= 100.0
      && IsTier(difficulty)
    }

    /** The screen opens with table 2, five questions and the middle tier. */
    constructor ()
      ensures table == 2 && numQuestions == 5 && slider == 50.0 && difficulty == 50
      ensures Valid()
    {
      table, numQuestions, slider, difficulty := 2, 5, 50.0, 50;
    }

    /** Called when the slider is grabbed or released; on release the
        difficulty becomes the slider value rounded up to a tier. */
    method SliderChanged(isChanging: bool)
      requires Valid()
      modifies this`difficulty
      ensures Valid()
      ensures isChanging ==> difficulty == old(difficulty)
      ensures !isChanging ==> difficulty == Snap(slider)
      ensures !isChanging ==> slider <= difficulty as real < slider + 25.0
    {
      if !isChanging {
        SnapIsTier(slider);
        difficulty := Snap(slider);
      }
    }
  }

  class GameView {
    const table: int
    const numQuestions: int
    const difficulty: int

    var multiplier: int
    var asked: int
    var options: seq<int>
    var score: int
    var showAlert: bool

    /** The counters stay ordered, there are always four options, and the
        game-over alert is up exactly when every question has been answered. */
    ghost predicate Valid()
      reads this
    {
      && 0 <= score <= asked <= numQuestions
      && |options| == 4
      && (showAlert <==> asked == numQuestions)
    }

    /** The current question is one `AskQuestion` can produce: its multiplier is in
        range, its correct product is among the options, and every option is a
        product of the table with a multiplier in range. */
    ghost predicate QuestionReady()
      reads this
    {
      && 2 <= multiplier <= MaxMult(difficulty)
      && |options| == 4
      && Product(table, multiplier) in options
      && forall v :: v in options ==> InTable(v, table, MaxMult(difficulty))
    }

    /** The score board as a value. */
    ghost function Score(): Tally
      reads this
      requires Valid()
    {
      Tally(asked, score, showAlert)
    }

    /** A game screen for the given configuration, before its first question
        is asked (the screen asks it when it appears). */
    constructor (table: int, numQuestions: int, difficulty: int)
      requires 0 < numQuestions
      ensures this.table == table && this.numQuestions == numQuestions && this.difficulty == difficulty
      ensures multiplier == 5 && asked == 0 && options == [1, 1, 1, 1] && score == 0 && !showAlert
      ensures Valid()
    {
      this.table, this.numQuestions, this.difficulty := table, numQuestions, difficulty;
      multiplier, asked, options, score, showAlert := 5, 0, [1, 1, 1, 1], 0, false;
    }

    /** Draws a new question: the multiplier, three decoys and the order of the choices. */
    method AskQuestion(d: Draw)
      requires Valid()
      requires DrawFits(d, MaxMult(difficulty))
      modifies this`multiplier, this`options
      ensures Valid()
      ensures multiplier == d.multiplier
      ensures options == Choices(table, d)
      ensures multiset(options) == multiset(Candidates(table, d))
      ensures QuestionReady()
    {
      multiplier := d.multiplier;
      options := Choices(table, d);
      ChoicesHoldAnswer(table, MaxMult(difficulty), d);
    }

    /** The user tapped the option showing `num`.  The draw is used only when
        the game goes on to another question. */
    method Answer(num: int, d: Draw)
      requires Valid()
      requires asked < numQuestions
      requires DrawFits(d, MaxMult(difficulty))
      modifies this`asked, this`score, this`multiplier, this`options, this`showAlert
      ensures Valid()
      ensures asked == old(asked) + 1
      ensures score == old(score) + (if num == Product(table, old(multiplier)) then 1 else 0)
      ensures Score() == Record(old(Score()), num == Product(table, old(multiplier)), numQuestions)
      ensures asked == numQuestions ==>
        showAlert && multiplier == old(multiplier) && options == old(options)
      ensures asked < numQuestions ==>
        !showAlert && multiplier == d.multiplier && options == Choices(table, d) && QuestionReady()
    {
      asked := asked + 1;
      if num == Product(table, multiplier) {
        score := score + 1;
      }
      if asked == numQuestions {
        showAlert := true;
      } else {
        AskQuestion(d);
      }
    }
  }

  class ContentView {
    var table: int
    var numQuestions: int
    var difficulty: int
    var showOptions: bool

    /** The app opens on the options screen with the default configuration. */
    constructor ()
      ensures table == 2 && numQuestions == 5 && difficulty == 50 && showOptions
    {
      table, numQuestions, difficulty, showOptions := 2, 5, 50, true;
    }

    /** Returns to the options screen; the stored configuration stays as it was. */
    method GoBack()
      modifies this`showOptions
      ensures showOptions
      ensures table == old(table) && numQuestions == old(numQuestions) && difficulty == old(difficulty)
    {
      showOptions := true;
    }

    /** Stores the configuration chosen on the options screen and shows the game. */
    method Start(table: int, numQuestions: int, difficulty: int)
      modifies this
      ensures this.table == table && this.numQuestions == numQuestions && this.difficulty == difficulty
      ensures !showOptions
    {
      this.table := table;
      this.numQuestions := numQuestions;
      this.difficulty := difficulty;
      showOptions := false;
    }
  }

  /** Starting a game from the options screen: table 3, five questions,
      the slider released at its default position. */
  method StartScenario() returns (game: GameView)
    ensures fresh(game) && game.Valid()
    ensures game.table == 3 && game.numQuestions == 5 && game.difficulty == 50
    ensures game.asked == 0 && game.score == 0
  {
    var app := new ContentView();
    var opts := new OptionsView();
    opts.SliderChanged(false);
    assert opts.difficulty == 50;
    app.Start(3, opts.numQuestions, opts.difficulty);
    game := new GameView(app.table, app.numQuestions, app.difficulty);
  }

  /** A five-question game through the contracts alone: four right answers
      and one wrong one give a score of 4 of 5 and the game-over alert. */
  method PlayScenario(game: GameView)
    requires game.Valid()
    requires game.table == 3 && game.numQuestions == 5 && game.difficulty == 50
    requires game.asked == 0 && game.score == 0
    modifies game
  {
    assert MaxMult(game.difficulty) == 15;
    var d := Draw(7, 7, 2, 15, [0, 1, 2, 3]);
    assert IsPermutation(d.order, 4);
    game.AskQuestion(d);
    game.Answer(21, d);
    game.Answer(21, d);
    game.Answer(6, d);
    assert game.score == 2 && game.asked == 3 && !game.showAlert;
    game.Answer(21, d);
    game.Answer(21, d);
    assert game.score == 4 && game.asked == 5 && game.showAlert;
  }
}
