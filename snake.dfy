/**
 * The snake game engine of tools/snakegame.py: a discrete state machine on a
 * 20-pixel grid over a 400 x 400 board.  Cells are pixel coordinates; the
 * snake is a sequence of cells, head first.
 */
module SnakeGame {
  import opened Wrappers

  const GridSize: int := 20
  const CanvasWidth: int := 400
  const CanvasHeight: int := 400

  /** The values `random.randrange(0, CANVAS_WIDTH // GRID_SIZE)` can yield. */
  type Column = i: int | 0 <= i < CanvasWidth / GridSize
  /** The values `random.randrange(0, CANVAS_HEIGHT // GRID_SIZE)` can yield. */
  type Row = i: int | 0 <= i < CanvasHeight / GridSize

  type Cell = (int, int)

  datatype Direction = Left | Right | Up | Down

  /** One pair of random draws made by one round of create_food's loop. */
  datatype Draw = Draw(col: Column, row: Row)

  /** The whole engine state: the fields of SnakeGameTool the logic touches. */
  datatype Game = Game(
    snake: seq<Cell>,
    food: Option<Cell>,
    direction: Direction,
    score: int,
    over: bool,
    highScore: int)

  /** The three segments start_game lays out, head first. */
  const InitialSnake: seq<Cell> := [(100, 100), (80, 100), (60, 100)]

  // ---------------------------------------------------------------------
  // Grid geometry

  predicate OnGrid(c: Cell) {
    c.0 % GridSize == 0 && c.1 % GridSize == 0
  }

  predicate OnBoard(c: Cell) {
    0 <= c.0 < CanvasWidth && 0 <= c.1 < CanvasHeight
  }

  /** a and b are one grid step apart along exactly one axis. */
  predicate Neighbours(a: Cell, b: Cell) {
    || (a.1 == b.1 && (a.0 - b.0 == GridSize || b.0 - a.0 == GridSize))
    || (a.0 == b.0 && (a.1 - b.1 == GridSize || b.1 - a.1 == GridSize))
  }

  ghost predicate AllOnGrid(s: seq<Cell>) {
    forall i :: 0 <= i < |s| ==> OnGrid(s[i])
  }

  ghost predicate AllOnBoard(s: seq<Cell>) {
    forall i :: 0 <= i < |s| ==> OnBoard(s[i])
  }

  /** Consecutive segments are grid neighbours: the snake has no gaps and no diagonal steps. */
  ghost predicate Connected(s: seq<Cell>) {
    forall i :: 0 <= i < |s| - 1 ==> Neighbours(s[i], s[i + 1])
  }

  ghost predicate Distinct(s: seq<Cell>) {
    forall i, j :: 0 <= i < j < |s| ==> s[i] != s[j]
  }

  /** The cell one grid step from c in direction d. */
  function Moved(c: Cell, d: Direction): (r: Cell)
    ensures Neighbours(r, c)
    ensures OnGrid(c) ==> OnGrid(r)
    ensures d == Left ==> r.0 < c.0
    ensures d == Right ==> r.0 > c.0
    ensures d == Up ==> r.1 < c.1
    ensures d == Down ==> r.1 > c.1
  {
    match d
    case Left => (c.0 - GridSize, c.1)
    case Right => (c.0 + GridSize, c.1)
    case Up => (c.0, c.1 - GridSize)
    case Down => (c.0, c.1 + GridSize)
  }

  // ---------------------------------------------------------------------
  // Directions

  function ParseDirection(s: string): Option<Direction> {
    if s == "Left" then Some(Left)
    else if s == "Right" then Some(Right)
    else if s == "Up" then Some(Up)
    else if s == "Down" then Some(Down)
    else None
  }

  function Opposite(d: Direction): Direction {
    match d
    case Left => Right
    case Right => Left
    case Up => Down
    case Down => Up
  }

  /**
   * The direction after a key press naming `requested`: a direction other
   * than the reverse of the current one is adopted, anything else is ignored.
   */
  function Turn(current: Direction, requested: string): Direction {
    match ParseDirection(requested)
    case Some(d) => if d == Opposite(current) then current else d
    case None => current
  }

  /** A key press never turns the snake straight back on its current direction. */
  lemma TurnNeverReverses(current: Direction, requested: string)
    ensures Turn(current, requested) != Opposite(current)
  {
  }

  /** Pressing the same key twice has the effect of pressing it once. */
  lemma TurnIdempotent(current: Direction, requested: string)
    ensures Turn(Turn(current, requested), requested) == Turn(current, requested)
  {
  }

  /**
   * Presses are checked against the direction already updated by the
   * previous press, not against the direction of the last move: moving
   * Right, "Up" followed by "Left" before the next tick makes the snake head Left.
   */
  lemma PressesChain()
    ensures Turn(Turn(Right, "Up"), "Left") == Left
  {
  }

  // ---------------------------------------------------------------------
  // Food placement

  /** Some draw lands on a cell the snake does not occupy. */
  predicate HasFree(draws: seq<Draw>, snake: seq<Cell>) {
    exists i :: 0 <= i < |draws| && CellOf(draws[i]) !in snake
  }

  function CellOf(d: Draw): (c: Cell)
    ensures OnGrid(c) && OnBoard(c)
    ensures 0 <= c.0 <= CanvasWidth - GridSize && 0 <= c.1 <= CanvasHeight - GridSize
  {
    (d.col * GridSize, d.row * GridSize)
  }

  /** The round at which create_food's rejection loop stops. */
  function FirstFree(draws: seq<Draw>, snake: seq<Cell>): (i: nat)
    requires HasFree(draws, snake)
    ensures i < |draws| && CellOf(draws[i]) !in snake
    ensures forall j :: 0 <= j < i ==> CellOf(draws[j]) in snake
    decreases |draws|
  {
    if CellOf(draws[0]) !in snake then 0
    else
      var k :| 0 <= k < |draws| && CellOf(draws[k]) !in snake;
      assert CellOf(draws[1..][k - 1]) !in snake;
      1 + FirstFree(draws[1..], snake)
  }

  /** The food cell create_food settles on. */
  function PlacedFood(draws: seq<Draw>, snake: seq<Cell>): (c: Cell)
    requires HasFree(draws, snake)
    ensures c !in snake
    ensures OnGrid(c) && OnBoard(c)
    ensures exists i :: 0 <= i < |draws| && c == CellOf(draws[i])
  {
    CellOf(draws[FirstFree(draws, snake)])
  }

  // ---------------------------------------------------------------------
  // The state machine

  /** The state start_game sets up before its first tick. */
  function Restarted(highScore: int, draws: seq<Draw>): Game
    requires HasFree(draws, InitialSnake)
  {
    Game(InitialSnake, Some(PlacedFood(draws, InitialSnake)), Right, 0, false, highScore)
  }

  /** Rendering aside, everything a reachable state satisfies. */
  ghost predicate Inv(g: Game) {
    && AllOnGrid(g.snake)
    && Connected(g.snake)
    && g.score >= 0
    && (g.snake != [] ==> |g.snake| == 3 + g.score)
    && (g.food.Some? ==> OnGrid(g.food.value) && OnBoard(g.food.value) && g.food.value !in g.snake)
    && (!g.over && g.snake != [] ==> AllOnBoard(g.snake) && Distinct(g.snake) && g.food.Some?)
  }

  /** A tick can run: the game is over (nothing happens) or there is a head to move. */
  predicate CanTick(g: Game) {
    g.over || g.snake != []
  }

  function NextHead(g: Game): Cell
    requires g.snake != []
  {
    Moved(g.snake[0], g.direction)
  }

  /** The snake with the next head prepended, before any tail removal. */
  function Grown(g: Game): seq<Cell>
    requires g.snake != []
  {
    [NextHead(g)] + g.snake
  }

  /** The next tick lands on the food. */
  predicate Eats(g: Game) {
    !g.over && g.snake != [] && g.food == Some(NextHead(g))
  }

  /** The oracle suffices for the tick: if the snake eats, some draw is free. */
  predicate TickReady(g: Game, draws: seq<Draw>) {
    CanTick(g) && (Eats(g) ==> HasFree(draws, Grown(g)))
  }

  /** The snake after the tail removal: the grown snake, or the grown snake less its last cell. */
  function Body(g: Game): seq<Cell>
    requires g.snake != []
  {
    if g.food == Some(NextHead(g)) then Grown(g) else Grown(g)[..|g.snake|]
  }

  /** The new head leaves the board or hits one of the other cells. */
  predicate Crashed(g: Game)
    requires g.snake != []
  {
    !OnBoard(NextHead(g)) || NextHead(g) in Body(g)[1..]
  }

  /** The effect of one call to game_loop on the engine state. */
  function Step(g: Game, draws: seq<Draw>): Game
    requires TickReady(g, draws)
  {
    if g.over then g
    else
      var ate := g.food == Some(NextHead(g));
      var food := if ate then Some(PlacedFood(draws, Grown(g))) else g.food;
      var score := if ate then g.score + 1 else g.score;
      var crashed := Crashed(g);
      var highScore := if crashed && score > g.highScore then score else g.highScore;
      Game(Body(g), food, g.direction, score, crashed, highScore)
  }

  // ---------------------------------------------------------------------
  // Properties of the state machine

  /** start_game's reset: score 0, heading Right, running, three fixed cells, food off the snake. */
  lemma RestartedShape(highScore: int, draws: seq<Draw>)
    requires HasFree(draws, InitialSnake)
    ensures var g := Restarted(highScore, draws);
      && g.snake == [(100, 100), (80, 100), (60, 100)]
      && g.score == 0 && g.direction == Right && !g.over && g.highScore == highScore
      && g.food.Some? && g.food.value !in g.snake
      && Inv(g)
  {
    var g := Restarted(highScore, draws);
    assert Distinct(g.snake);
  }

  /** A running tick prepends the old head moved one grid step and keeps the tail or drops it. */
  lemma StepMovesHead(g: Game, draws: seq<Draw>)
    requires TickReady(g, draws) && !g.over
    ensures var r := Step(g, draws);
      && r.snake != [] && r.snake[0] == Moved(g.snake[0], g.direction)
      && Neighbours(r.snake[0], g.snake[0])
      && r.snake[1..] == (if Eats(g) then g.snake else g.snake[..|g.snake| - 1])
      && r.direction == g.direction
  {
    var r := Step(g, draws);
    var grown := Grown(g);
    if !Eats(g) {
      assert grown[..|grown| - 1][1..] == g.snake[..|g.snake| - 1];
    }
  }

  /** Length and score change together: both grow by one on food, neither otherwise. */
  lemma StepGrowth(g: Game, draws: seq<Draw>)
    requires TickReady(g, draws) && !g.over
    ensures var r := Step(g, draws);
      && (Eats(g) ==> |r.snake| == |g.snake| + 1 && r.score == g.score + 1)
      && (!Eats(g) ==> |r.snake| == |g.snake| && r.score == g.score && r.food == g.food)
  {
  }

  /**
   * A running tick ends the game exactly when the new head leaves the board
   * or lands on one of the other cells of the snake after the tail removal.
   */
  lemma StepEndsExactly(g: Game, draws: seq<Draw>)
    requires TickReady(g, draws) && !g.over
    ensures var r := Step(g, draws); var head := NextHead(g);
      r.over <==> (!OnBoard(head) || head in (if Eats(g) then g.snake else g.snake[..|g.snake| - 1]))
  {
    var grown := Grown(g);
    if !Eats(g) {
      assert grown[..|grown| - 1][1..] == g.snake[..|g.snake| - 1];
    }
  }

  /** The high score becomes max(old, score) on the tick that ends the game and never decreases. */
  lemma StepHighScore(g: Game, draws: seq<Draw>)
    requires TickReady(g, draws)
    ensures var r := Step(g, draws);
      && r.highScore >= g.highScore
      && (!g.over && r.over ==> r.highScore == if r.score > g.highScore then r.score else g.highScore)
      && (!r.over || g.over ==> r.highScore == g.highScore)
  {
  }

  /** Once the game is over, a tick changes nothing. */
  lemma StepWhenOver(g: Game, draws: seq<Draw>)
    requires g.over
    ensures TickReady(g, draws) && Step(g, draws) == g
  {
  }

  /** Under the invariant, eating is never fatal: food is on the board and off the snake. */
  lemma EatingNeverEnds(g: Game, draws: seq<Draw>)
    requires Inv(g) && TickReady(g, draws) && Eats(g)
    ensures !Step(g, draws).over
  {
  }

  /** Every tick keeps the invariant. */
  lemma StepPreservesInv(g: Game, draws: seq<Draw>)
    requires Inv(g) && TickReady(g, draws)
    ensures Inv(Step(g, draws))
  {
    if !g.over {
      var r := Step(g, draws);
      var head := NextHead(g);
      var ate := Eats(g);
      var rest := if ate then g.snake else g.snake[..|g.snake| - 1];
      StepMovesHead(g, draws);
      assert r.snake == [head] + rest;
      assert forall c :: c in rest ==> c in g.snake;
      forall i | 0 <= i < |r.snake|
        ensures OnGrid(r.snake[i])
      {
        if i > 0 { assert r.snake[i] == g.snake[i - 1]; }
      }
      forall i | 0 <= i < |r.snake| - 1
        ensures Neighbours(r.snake[i], r.snake[i + 1])
      {
        if i > 0 { assert r.snake[i] == g.snake[i - 1] && r.snake[i + 1] == g.snake[i]; }
      }
      if !r.over {
        StepEndsExactly(g, draws);
        forall i | 0 <= i < |r.snake|
          ensures OnBoard(r.snake[i])
        {
          if i > 0 { assert r.snake[i] == g.snake[i - 1]; }
        }
        forall i, j | 0 <= i < j < |r.snake|
          ensures r.snake[i] != r.snake[j]
        {
          if i == 0 {
            assert r.snake[j] == rest[j - 1];
          } else {
            assert r.snake[i] == g.snake[i - 1] && r.snake[j] == g.snake[j - 1];
          }
        }
      }
    }
  }

  /**
   * From the start position heading Right, with food off the snake's path,
   * five ticks put the head at (200, 100) with length 3 and score 0.
   */
  lemma FiveTicksRight(highScore: int, food: Cell, draws: seq<Draw>)
    requires food !in [(120, 100), (140, 100), (160, 100), (180, 100), (200, 100)]
    ensures var g0 := Game(InitialSnake, Some(food), Right, 0, false, highScore);
      var g1 := Step(g0, draws);
      var g2 := Step(g1, draws);
      var g3 := Step(g2, draws);
      var g4 := Step(g3, draws);
      var g5 := Step(g4, draws);
      && g5.snake == [(200, 100), (180, 100), (160, 100)]
      && g5.score == 0 && !g5.over && g5.food == Some(food)
  {
    var g0 := Game(InitialSnake, Some(food), Right, 0, false, highScore);
    var g1 := Step(g0, draws);
    assert g1 == Game([(120, 100), (100, 100), (80, 100)], Some(food), Right, 0, false, highScore);
    var g2 := Step(g1, draws);
    assert g2 == Game([(140, 100), (120, 100), (100, 100)], Some(food), Right, 0, false, highScore);
    var g3 := Step(g2, draws);
    assert g3 == Game([(160, 100), (140, 100), (120, 100)], Some(food), Right, 0, false, highScore);
    var g4 := Step(g3, draws);
    assert g4 == Game([(180, 100), (160, 100), (140, 100)], Some(food), Right, 0, false, highScore);
  }

  /** Heading Right from the rightmost column, the next tick ends the game. */
  lemma WallAhead(g: Game, draws: seq<Draw>)
    requires !g.over && g.snake != [] && g.snake[0] == (380, 100) && g.direction == Right
    requires TickReady(g, draws)
    ensures Step(g, draws).over
  {
  }

  /**
   * Two presses between ticks ("Up" then "Left" while heading Right) send
   * the head back into the neck, which ends the game on the next tick.
   */
  lemma QuickTurnsHitNeck(highScore: int, food: Cell, draws: seq<Draw>)
    requires food != (80, 100)
    ensures var g := Game(InitialSnake, Some(food), Turn(Turn(Right, "Up"), "Left"), 0, false, highScore);
      TickReady(g, draws) && Step(g, draws).over
  {
    assert Turn(Right, "Up") == Up;
    assert Turn(Up, "Left") == Left;
    var g := Game(InitialSnake, Some(food), Left, 0, false, highScore);
    assert NextHead(g) == (80, 100);
    assert Step(g, draws).snake[1..] == [(100, 100), (80, 100)];
  }

  // ---------------------------------------------------------------------
  // The engine object

  /** SnakeGameTool's game state; rendering, widgets and scheduling are not modelled. */
  class SnakeGameTool {
    var snake: seq<Cell>
    var food: Option<Cell>
    var direction: Direction
    var score: int
    var gameOver: bool
    /** The persisted `high_score` preference, kept as a plain field. */
    var highScore: int

    function State(): Game
      reads this
    {
      Game(snake, food, direction, score, gameOver, highScore)
    }

    ghost predicate Valid()
      reads this
    {
      Inv(State())
    }

    /** __init__: an idle engine with the stored high score. */
    constructor (storedHighScore: int)
      ensures Valid()
      ensures State() == Game([], None, Right, 0, false, storedHighScore)
    {
      snake := [];
      food := None;
      direction := Right;
      score := 0;
      gameOver := false;
      highScore := storedHighScore;
    }

    /** create_food: draw cells until one is off the snake. */
    method CreateFood(draws: seq<Draw>)
      requires HasFree(draws, snake)
      modifies this`food
      ensures food == Some(PlacedFood(draws, snake))
      ensures food.value !in snake && OnGrid(food.value) && OnBoard(food.value)
    {
      var i := 0;
      while true
        invariant 0 <= i <= FirstFree(draws, snake)
        decreases FirstFree(draws, snake) - i
      {
        food := Some(CellOf(draws[i]));
        if food.value !in snake {
          break;
        }
        i := i + 1;
      }
    }

    /** start_game: hard reset, place food, then run the first tick at once. */
    method Start(draws: seq<Draw>, tickDraws: seq<Draw>)
      requires HasFree(draws, InitialSnake)
      requires TickReady(Restarted(highScore, draws), tickDraws)
      modifies this
      ensures Valid()
      ensures State() == Step(Restarted(old(highScore), draws), tickDraws)
    {
      gameOver := false;
      score := 0;
      direction := Right;
      snake := [(100, 100), (80, 100), (60, 100)];
      CreateFood(draws);
      RestartedShape(highScore, draws);
      Tick(tickDraws);
    }

    /** change_direction: ignore the reverse of the current direction and unknown names. */
    method ChangeDirection(newDirection: string)
      requires Valid()
      modifies this`direction
      ensures Valid()
      ensures direction == Turn(old(direction), newDirection)
    {
      if newDirection == "Left" && direction != Right {
        direction := Left;
      } else if newDirection == "Right" && direction != Left {
        direction := Right;
      } else if newDirection == "Up" && direction != Down {
        direction := Up;
      } else if newDirection == "Down" && direction != Up {
        direction := Down;
      }
    }

    /** game_loop, one scheduled call. */
    method Tick(draws: seq<Draw>)
      requires Valid() && TickReady(State(), draws)
      modifies this
      ensures Valid()
      ensures State() == Step(old(State()), draws)
    {
      if gameOver {
        return;
      }
      ghost var g := State();
      var head := snake[0];
      var newHead;
      if direction == Left {
        newHead := (head.0 - GridSize, head.1);
      } else if direction == Right {
        newHead := (head.0 + GridSize, head.1);
      } else if direction == Up {
        newHead := (head.0, head.1 - GridSize);
      } else {
        newHead := (head.0, head.1 + GridSize);
      }
      assert newHead == NextHead(g);
      snake := [newHead] + snake;
      if Some(newHead) == food {
        score := score + 1;
        CreateFood(draws);
        assert snake == Body(g);
      } else {
        snake := snake[..|snake| - 1];
        assert snake == Body(g);
      }
      if newHead.0 < 0 || newHead.0 >= CanvasWidth || newHead.1 < 0 || newHead.1 >= CanvasHeight
         || newHead in snake[1..]
      {
        assert Crashed(g);
        gameOver := true;
        if score > highScore {
          highScore := score;
        }
      } else {
        assert !Crashed(g);
      }
      assert State() == Step(g, draws);
      StepPreservesInv(g, draws);
    }

    /** on_hide: stop the game loop by raising the game-over flag. */
    method OnHide()
      requires Valid()
      modifies this`gameOver
      ensures Valid() && gameOver
    {
      gameOver := true;
    }
  }
}
