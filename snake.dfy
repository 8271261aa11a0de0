/**
 * The grid engine of Rave Snake: a snake of integer cells on a 40 x 30
 * grid, keyboard or mouse steering that never turns straight back, food
 * placed only on free cells, one move per tick (die, grow or shift), the
 * per-mode win rule and the Speed Demon interval.
 *
 * Everything visual (the smoothed snake path, colours, particles, screen
 * shake) is left out, and so are the timers: the caller supplies each
 * frame's timestamp and the Math.random() draws.
 */
module RaveSnake {
  import opened Wrappers
  import opened RandomDraws
  import opened JsMath

  const GridWidth: int := 40
  const GridHeight: int := 30
  const MaxAttempts: nat := 100
  const BaseInterval: int := 150
  const FastestInterval: int := 50
  const TargetLength: int := 30
  const TargetTime: real := 120.0
  const TargetScore: int := 500
  /** deltaTime is capped at a tenth of a second. */
  const MaxDelta: real := 0.1

  datatype Cell = Cell(x: int, y: int)

  datatype Dir = Dir(dx: int, dy: int)

  datatype Mode = Classic | TimeTrial | ScoreRush | Endless | SpeedDemon

  /** The keys the game reacts to, by KeyboardEvent.code; every other key is OtherKey. */
  datatype Key = ArrowUp | KeyW | ArrowDown | KeyS | ArrowLeft | KeyA | ArrowRight | KeyD
               | Space | KeyC | OtherKey

  /** A food item: its cell and the points it is worth (colour and animation left out). */
  datatype Food = Food(cell: Cell, points: nat)

  /** The three Math.random() draws of one spawnFood attempt that matter: column, row, points. */
  datatype Draw = Draw(rx: real, ry: real, rp: real)

  // ------------------------------------------------------------- geometry

  predicate InGrid(c: Cell)
  {
    0 <= c.x < GridWidth && 0 <= c.y < GridHeight
  }

  /** One of the four unit steps: up, down, left or right. */
  predicate IsUnit(d: Dir)
  {
    -1 <= d.dx <= 1 && -1 <= d.dy <= 1 && (d.dx == 0 || d.dy == 0) && d.dx != d.dy
  }

  function Reverse(d: Dir): Dir
  {
    Dir(-d.dx, -d.dy)
  }

  /** A unit step is never its own reverse, so taking the queued direction keeps the no-reversal rule. */
  lemma UnitIsNotReversed(d: Dir)
    requires IsUnit(d)
    ensures IsUnit(Reverse(d)) && Reverse(d) != d && Reverse(Reverse(d)) == d
  {
  }

  function Step(c: Cell, d: Dir): Cell
  {
    Cell(c.x + d.dx, c.y + d.dy)
  }

  predicate Distinct<T(==)>(s: seq<T>)
  {
    forall i, j :: 0 <= i < j < |s| ==> s[i] != s[j]
  }

  /** A snake the game can hold: at least a head, every segment on the grid, no two on the same cell. */
  predicate WellFormedSnake(snake: seq<Cell>)
  {
    |snake| >= 1 && (forall i :: 0 <= i < |snake| ==> InGrid(snake[i])) && Distinct(snake)
  }

  function FoodCells(food: seq<Food>): (cells: seq<Cell>)
    ensures |cells| == |food| && forall i :: 0 <= i < |food| ==> cells[i] == food[i].cell
  {
    seq(|food|, i requires 0 <= i < |food| => food[i].cell)
  }

  /** Every food item is on a free grid cell of its own and worth 10 or 20. */
  predicate WellPlacedFood(snake: seq<Cell>, food: seq<Food>)
  {
    && (forall i :: 0 <= i < |food| ==>
          InGrid(food[i].cell) && food[i].cell !in snake && food[i].points in [10, 20])
    && Distinct(FoodCells(food))
  }

  // ------------------------------------------------------------- steering

  /** keyMap: the direction a key asks for, if any. */
  function KeyDirection(key: Key): (d: Option<Dir>)
    ensures d.Some? ==> IsUnit(d.value)
  {
    match key
    case ArrowUp | KeyW => Some(Dir(0, -1))
    case ArrowDown | KeyS => Some(Dir(0, 1))
    case ArrowLeft | KeyA => Some(Dir(-1, 0))
    case ArrowRight | KeyD => Some(Dir(1, 0))
    case _ => None
  }

  function Abs(r: real): real { if r < 0.0 then -r else r }

  /**
   * Mouse steering at the start of moveSnake: head for the mouse along the
   * axis on which it is further away (the vertical axis on a tie), but keep
   * the current direction instead of turning straight back.
   */
  function Steer(mouseX: real, mouseY: real, head: Cell, direction: Dir): Dir
  {
    // a cell is 20 pixels wide; the head is aimed from its centre
    var dx := mouseX - (head.x as real * 20.0 + 10.0);
    var dy := mouseY - (head.y as real * 20.0 + 10.0);
    var wanted := if Abs(dx) > Abs(dy) then Dir(if dx > 0.0 then 1 else -1, 0)
                  else Dir(0, if dy > 0.0 then 1 else -1);
    if wanted == Reverse(direction) then direction else wanted
  }

  /** Mouse steering always yields a unit step, and never the reverse of a unit direction. */
  lemma SteerNeverReverses(mouseX: real, mouseY: real, head: Cell, direction: Dir)
    requires IsUnit(direction)
    ensures IsUnit(Steer(mouseX, mouseY, head, direction))
    ensures Steer(mouseX, mouseY, head, direction) != Reverse(direction)
  {
  }

  // ---------------------------------------------------------------- food

  /** isOccupied: a cell holds a snake segment or a food item. */
  predicate IsOccupied(snake: seq<Cell>, food: seq<Food>, c: Cell)
  {
    c in snake || c in FoodCells(food)
  }

  predicate ValidDraw(d: Draw)
  {
    IsRoll(d.rx) && IsRoll(d.ry) && IsRoll(d.rp)
  }

  /** Enough draws, each in [0, 1), for the 100 attempts of one spawnFood. */
  predicate Draws(draws: seq<Draw>)
  {
    |draws| >= MaxAttempts && forall k :: 0 <= k < |draws| ==> ValidDraw(draws[k])
  }

  /** The food one attempt proposes: a random cell, worth 20 with probability 0.2, else 10. */
  function Candidate(d: Draw): (f: Food)
    requires ValidDraw(d)
    ensures InGrid(f.cell) && f.points in [10, 20]
  {
    Food(Cell(PickIndex(d.rx, 40), PickIndex(d.ry, 30)),
         if d.rp < 0.2 then 20 else 10)
  }

  /**
   * The food spawnFood adds, looking from attempt k on: the first free
   * candidate among attempts k .. 98. The loop draws up to 100 candidates
   * but tests at most 99: on the hundredth the attempt count ends the loop
   * before the occupancy test, so that candidate is never used.
   */
  function SpawnChoice(snake: seq<Cell>, food: seq<Food>, draws: seq<Draw>, k: nat): Option<Food>
    requires Draws(draws) && k < MaxAttempts
    decreases MaxAttempts - k
  {
    if k == MaxAttempts - 1 then None
    else if !IsOccupied(snake, food, Candidate(draws[k]).cell) then Some(Candidate(draws[k]))
    else SpawnChoice(snake, food, draws, k + 1)
  }

  /** The food list after spawnFood: the old list, plus the chosen food if there is one. */
  function WithSpawn(snake: seq<Cell>, food: seq<Food>, draws: seq<Draw>): seq<Food>
    requires Draws(draws)
  {
    match SpawnChoice(snake, food, draws, 0)
    case Some(f) => food + [f]
    case None => food
  }

  /**
   * spawnFood places food only on a free grid cell, and fails only when
   * every attempt it could use (the first 99) hit an occupied cell.
   */
  lemma {:induction false} SpawnChoiceIsFree(snake: seq<Cell>, food: seq<Food>, draws: seq<Draw>, k: nat)
    requires Draws(draws) && k < MaxAttempts
    ensures SpawnChoice(snake, food, draws, k).Some? ==>
      var f := SpawnChoice(snake, food, draws, k).value;
      InGrid(f.cell) && !IsOccupied(snake, food, f.cell) && f.points in [10, 20]
      && exists j :: k <= j < MaxAttempts - 1 && f == Candidate(draws[j])
    ensures SpawnChoice(snake, food, draws, k).None? <==>
      forall j :: k <= j < MaxAttempts - 1 ==> IsOccupied(snake, food, Candidate(draws[j]).cell)
    decreases MaxAttempts - k
  {
    if k < MaxAttempts - 1 && IsOccupied(snake, food, Candidate(draws[k]).cell) {
      SpawnChoiceIsFree(snake, food, draws, k + 1);
    }
  }

  /** Adding spawned food keeps every food item on a free cell of its own, and keeps the old items in order. */
  lemma SpawnKeepsFoodPlaced(snake: seq<Cell>, food: seq<Food>, draws: seq<Draw>)
    requires Draws(draws) && WellPlacedFood(snake, food)
    ensures WellPlacedFood(snake, WithSpawn(snake, food, draws))
    ensures food <= WithSpawn(snake, food, draws) && |WithSpawn(snake, food, draws)| <= |food| + 1
  {
    SpawnChoiceIsFree(snake, food, draws, 0);
    match SpawnChoice(snake, food, draws, 0)
    case Some(f) =>
      assert FoodCells(food + [f]) == FoodCells(food) + [f.cell];
    case None =>
  }

  /** One stream of draws per spawnFood call. */
  predicate DrawStreams(streams: seq<seq<Draw>>)
  {
    forall k :: 0 <= k < |streams| ==> Draws(streams[k])
  }

  /** The food list after one spawnFood per stream, starting from an empty board. */
  function SpawnAll(snake: seq<Cell>, streams: seq<seq<Draw>>): (food: seq<Food>)
    requires DrawStreams(streams)
    ensures WellPlacedFood(snake, food) && |food| <= |streams|
  {
    if streams == [] then []
    else
      var before := SpawnAll(snake, streams[..|streams| - 1]);
      SpawnKeepsFoodPlaced(snake, before, streams[|streams| - 1]);
      WithSpawn(snake, before, streams[|streams| - 1])
  }

  /** food.findIndex: the first food item on a cell. */
  function FoodIndex(food: seq<Food>, c: Cell): (r: Option<nat>)
    ensures r.Some? ==> r.value < |food| && food[r.value].cell == c
    ensures r.Some? ==> forall i :: 0 <= i < r.value ==> food[i].cell != c
    ensures r.None? <==> c !in FoodCells(food)
  {
    if food == [] then None
    else if food[0].cell == c then Some(0)
    else match FoodIndex(food[1..], c)
         case Some(i) => Some(i + 1)
         case None => None
  }

  /** food.splice(i, 1): the list without its i-th item. */
  function RemoveAt<T>(s: seq<T>, i: nat): (r: seq<T>)
    requires i < |s|
    ensures |r| == |s| - 1
    ensures forall k :: 0 <= k < i ==> r[k] == s[k]
    ensures forall k :: i <= k < |r| ==> r[k] == s[k + 1]
  {
    s[..i] + s[i + 1..]
  }

  // -------------------------------------------------------------- moving

  /** The head cell ends the game: off the grid, or on a segment (the tail's included). */
  predicate Crashes(head: Cell, snake: seq<Cell>)
  {
    !InGrid(head) || head in snake
  }

  /**
   * A snake that is not cut short by a wall or by itself moves its head one
   * step: without food the tail follows, so the length is unchanged; with
   * food the tail stays, so the snake is one longer. Either way it stays on
   * the grid without overlapping itself.
   */
  lemma MoveKeepsSnake(snake: seq<Cell>, head: Cell, grow: bool)
    requires WellFormedSnake(snake) && InGrid(head) && head !in snake
    ensures var moved := [head] + (if grow then snake else snake[..|snake| - 1]);
      WellFormedSnake(moved) && |moved| == |snake| + (if grow then 1 else 0)
  {
    var moved := [head] + (if grow then snake else snake[..|snake| - 1]);
    forall i, j | 0 <= i < j < |moved| ensures moved[i] != moved[j] {
      if i > 0 {
        assert moved[i] == snake[i - 1] && moved[j] == snake[j - 1];
      } else {
        assert moved[j] == snake[j - 1];
      }
    }
  }

  /** Food stays well placed when the snake moves its head onto a cell without food and drops its tail. */
  lemma ShiftKeepsFood(snake: seq<Cell>, food: seq<Food>, head: Cell)
    requires |snake| >= 1 && WellPlacedFood(snake, food) && InGrid(head) && head !in FoodCells(food)
    ensures WellPlacedFood([head] + snake[..|snake| - 1], food)
  {
    var moved := [head] + snake[..|snake| - 1];
    forall i | 0 <= i < |food| ensures food[i].cell !in moved {
      assert FoodCells(food)[i] == food[i].cell;
    }
  }

  /** Food stays well placed when the snake grows onto a food item and that item is removed. */
  lemma EatKeepsFood(snake: seq<Cell>, food: seq<Food>, i: nat)
    requires i < |food| && WellPlacedFood(snake, food)
    ensures WellPlacedFood([food[i].cell] + snake, RemoveAt(food, i))
  {
    var head := food[i].cell;
    var rest := RemoveAt(food, i);
    var cells, restCells := FoodCells(food), FoodCells(rest);
    forall k | 0 <= k < |rest| ensures rest[k].cell != head {
      var orig := if k < i then k else k + 1;
      assert rest[k] == food[orig];
      assert cells[orig] != cells[i];
    }
    forall a, b | 0 <= a < b < |restCells| ensures restCells[a] != restCells[b] {
      var oa, ob := if a < i then a else a + 1, if b < i then b else b + 1;
      assert restCells[a] == cells[oa] && restCells[b] == cells[ob];
    }
  }

  // ----------------------------------------------------------- the rules

  /** checkWinCondition's table of goals. */
  predicate WinReached(mode: Mode, length: int, gameTime: real, score: int)
  {
    match mode
    case Classic | SpeedDemon => length >= TargetLength
    case TimeTrial => gameTime >= TargetTime
    case ScoreRush => score >= TargetScore
    case Endless => false
  }

  /** The Speed Demon move interval in milliseconds for a snake longer than 3. */
  function SpeedDemonInterval(length: int): int
  {
    if BaseInterval - (length - 3) * 5 > FastestInterval then BaseInterval - (length - 3) * 5
    else FastestInterval
  }

  /**
   * The Speed Demon interval stays between 50 and 150 ms, shrinks by 5 ms per
   * extra segment, and never grows as the snake does.
   */
  lemma SpeedDemonBounds(length: int, longer: int)
    requires 3 < length <= longer
    ensures FastestInterval <= SpeedDemonInterval(length) < BaseInterval
    ensures SpeedDemonInterval(longer) <= SpeedDemonInterval(length)
    ensures length <= 23 ==> SpeedDemonInterval(length) == 150 - 5 * (length - 3)
    ensures length >= 23 ==> SpeedDemonInterval(length) == FastestInterval
  {
  }

  /** deltaTime: seconds since the previous frame, capped at 0.1. */
  function DeltaTime(timestamp: real, lastUpdate: real): (dt: real)
    ensures dt <= MaxDelta
    ensures dt == MaxDelta || dt == (timestamp - lastUpdate) / 1000.0
  {
    var elapsed := (timestamp - lastUpdate) / 1000.0;
    if elapsed < MaxDelta then elapsed else MaxDelta
  }


  const StartSnake: seq<Cell> := [Cell(5, 15), Cell(4, 15), Cell(3, 15)]

  lemma StartSnakeWellFormed()
    ensures WellFormedSnake(StartSnake) && |StartSnake| == 3
  {
  }

  // ---------------------------------------------------------------- game

  class SnakeGame {
    var snake: seq<Cell>
    var direction: Dir
    var nextDirection: Dir
    var food: seq<Food>
    var score: int
    var gameTime: real
    var lastUpdate: real
    var moveTimer: real
    var moveInterval: int
    var isPaused: bool
    var isGameOver: bool
    var useMouseControl: bool
    var mouseX: real
    var mouseY: real
    var highScore: int
    var mode: Mode
    /** What the game-over screen reports: whether the objective was reached. */
    var objectiveComplete: bool

    /** The board: the snake and the food it can run into. */
    ghost predicate BoardOk()
      reads this`snake, this`food
    {
      WellFormedSnake(snake) && WellPlacedFood(snake, food)
    }

    /** Steering: a unit direction, and a queued direction that never turns straight back. */
    ghost predicate SteeringOk()
      reads this`direction, this`nextDirection
    {
      IsUnit(direction) && IsUnit(nextDirection) && nextDirection != Reverse(direction)
    }

    /** Score and pace: the score only counts eaten food; only Speed Demon changes the interval. */
    ghost predicate PaceOk()
      reads this`score, this`moveInterval, this`mode
    {
      score >= 0 && FastestInterval <= moveInterval <= BaseInterval
      && (mode != SpeedDemon ==> moveInterval == BaseInterval)
    }

    ghost predicate Valid()
      reads this
    {
      BoardOk() && SteeringOk() && PaceOk()
    }

    /** init() followed by startGame: a game in the chosen mode with the saved high score. */
    constructor (mode0: Mode, savedHighScore: int, now: real, spawnDraws: seq<seq<Draw>>)
      requires |spawnDraws| == 3 && DrawStreams(spawnDraws)
      ensures Valid()
      ensures mode == mode0 && highScore == savedHighScore && !useMouseControl
      ensures snake == StartSnake && score == 0 && !isGameOver && !isPaused
      ensures direction == Dir(1, 0) && nextDirection == Dir(1, 0)
      ensures food == SpawnAll(StartSnake, spawnDraws)
      ensures gameTime == 0.0 && moveTimer == 0.0 && moveInterval == BaseInterval
      ensures lastUpdate == now && !objectiveComplete
      ensures mouseX == 400.0 && mouseY == 300.0
    {
      highScore := savedHighScore;
      useMouseControl := false;
      mouseX, mouseY := 400.0, 300.0;
      objectiveComplete := false;
      new;
      StartGame(mode0, now, spawnDraws);
    }

    /**
     * startGame: the three-cell snake heading right at the middle row, an
     * empty board with three spawnFood calls, score and clocks at zero, the
     * base interval; the high score and the control choice are kept.
     */
    method StartGame(mode0: Mode, now: real, spawnDraws: seq<seq<Draw>>)
      requires |spawnDraws| == 3 && DrawStreams(spawnDraws)
      modifies this`mode, this`snake, this`direction, this`nextDirection, this`food, this`score
      modifies this`gameTime, this`moveTimer, this`moveInterval, this`isPaused, this`isGameOver
      modifies this`lastUpdate
      ensures Valid()
      ensures mode == mode0 && snake == StartSnake && direction == Dir(1, 0) && nextDirection == Dir(1, 0)
      ensures score == 0 && gameTime == 0.0 && moveTimer == 0.0 && moveInterval == BaseInterval
      ensures !isPaused && !isGameOver && lastUpdate == now
      ensures food == SpawnAll(StartSnake, spawnDraws)
      ensures |food| <= 3
    {
      ResetBoard(mode0);
      SpawnEach(spawnDraws);
      lastUpdate := now;
    }

    /** startGame's spawn loop: one spawnFood per stream of draws, starting from an empty board. */
    method SpawnEach(streams: seq<seq<Draw>>)
      requires DrawStreams(streams) && food == []
      modifies this`food
      ensures food == SpawnAll(snake, streams)
    {
      for i := 0 to |streams|
        invariant food == SpawnAll(snake, streams[..i])
      {
        assert streams[..i + 1][..i] == streams[..i];
        SpawnFood(streams[i]);
      }
      assert streams[..|streams|] == streams;
    }

    /** The part of startGame before any food is spawned. */
    method ResetBoard(mode0: Mode)
      modifies this`mode, this`snake, this`direction, this`nextDirection, this`food, this`score
      modifies this`gameTime, this`moveTimer, this`moveInterval, this`isPaused, this`isGameOver
      ensures BoardOk() && SteeringOk() && PaceOk()
      ensures mode == mode0 && snake == StartSnake && direction == Dir(1, 0) && nextDirection == Dir(1, 0)
      ensures food == [] && score == 0 && gameTime == 0.0 && moveTimer == 0.0 && moveInterval == BaseInterval
      ensures !isPaused && !isGameOver
    {
      mode := mode0;
      snake := StartSnake;
      direction := Dir(1, 0);
      nextDirection := Dir(1, 0);
      food := [];
      score := 0;
      gameTime := 0.0;
      moveTimer := 0.0;
      moveInterval := BaseInterval;
      isPaused := false;
      isGameOver := false;
      StartSnakeWellFormed();
    }

    /**
     * spawnFood: draw candidates until one is free or 100 have been drawn;
     * the last one drawn is placed only if fewer than 100 were needed.
     */
    method SpawnFood(draws: seq<Draw>)
      requires Draws(draws) && WellPlacedFood(snake, food)
      modifies this`food
      ensures food == WithSpawn(snake, old(food), draws)
      ensures WellPlacedFood(snake, food) && old(food) <= food && |food| <= |old(food)| + 1
    {
      var pos := Candidate(draws[0]);
      var attempts := 1;
      while attempts < MaxAttempts && IsOccupied(snake, food, pos.cell)
        invariant 1 <= attempts <= MaxAttempts
        invariant pos == Candidate(draws[attempts - 1])
        invariant SpawnChoice(snake, food, draws, 0) == SpawnChoice(snake, food, draws, attempts - 1)
        decreases MaxAttempts - attempts
      {
        pos := Candidate(draws[attempts]);
        attempts := attempts + 1;
      }
      SpawnKeepsFoodPlaced(snake, food, draws);
      if attempts < MaxAttempts {
        food := food + [pos];
      }
    }

    /**
     * handleKeyDown: Space toggles the pause and C the control mode, always;
     * a direction key is ignored while paused, after the game ended or under
     * mouse control, and otherwise queued unless it is the exact reverse of
     * the current direction.
     */
    method HandleKeyDown(key: Key, now: real)
      requires Valid()
      modifies this`isPaused, this`lastUpdate, this`useMouseControl, this`nextDirection
      ensures Valid()
      ensures key == Space ==>
        useMouseControl == old(useMouseControl) && nextDirection == old(nextDirection)
        && isPaused == (if old(isGameOver) then old(isPaused) else !old(isPaused))
        && lastUpdate == (if !old(isGameOver) && !isPaused then now else old(lastUpdate))
      ensures key == KeyC ==>
        useMouseControl == !old(useMouseControl) && isPaused == old(isPaused)
        && nextDirection == old(nextDirection) && lastUpdate == old(lastUpdate)
      ensures key != Space && key != KeyC ==>
        useMouseControl == old(useMouseControl) && isPaused == old(isPaused) && lastUpdate == old(lastUpdate)
        && nextDirection ==
             (if !isPaused && !isGameOver && !useMouseControl && KeyDirection(key).Some?
                 && KeyDirection(key).value != Reverse(direction)
              then KeyDirection(key).value else old(nextDirection))
    {
      if key == Space {
        TogglePause(now);
        return;
      }
      if key == KeyC {
        ToggleControl();
        return;
      }
      if isPaused || isGameOver || useMouseControl {
        return;
      }
      var newDir := KeyDirection(key);
      if newDir.Some? {
        if newDir.value.dx != -direction.dx || newDir.value.dy != -direction.dy {
          nextDirection := newDir.value;
        }
      }
    }

    /** togglePause: no effect once the game is over; resuming restarts the frame clock. */
    method TogglePause(now: real)
      modifies this`isPaused, this`lastUpdate
      ensures old(isGameOver) ==> isPaused == old(isPaused) && lastUpdate == old(lastUpdate)
      ensures !old(isGameOver) ==> isPaused == !old(isPaused)
      ensures !old(isGameOver) && !isPaused ==> lastUpdate == now
      ensures !old(isGameOver) && isPaused ==> lastUpdate == old(lastUpdate)
    {
      if isGameOver {
        return;
      }
      isPaused := !isPaused;
      if !isPaused {
        lastUpdate := now;
      }
    }

    /** toggleControl: switch between keyboard and mouse steering. */
    method ToggleControl()
      modifies this`useMouseControl
      ensures useMouseControl == !old(useMouseControl)
    {
      useMouseControl := !useMouseControl;
    }

    /** A click on the canvas switches to mouse steering unless the game is over. */
    method ClickCanvas()
      modifies this`useMouseControl
      ensures useMouseControl == (old(useMouseControl) || !isGameOver)
    {
      if !isGameOver {
        useMouseControl := true;
      }
    }

    /** handleMouseMove: the pointer position relative to the canvas. */
    method HandleMouseMove(x: real, y: real)
      modifies this`mouseX, this`mouseY
      ensures mouseX == x && mouseY == y
    {
      mouseX, mouseY := x, y;
    }

    /**
     * What one moveSnake does once the head cell is known. A head off the
     * grid or on any segment, the one the tail is about to leave included,
     * ends the game as a loss with the snake as it was. A head on food grows
     * the snake by that cell, removes exactly that item, adds its points and
     * spawns new food; otherwise the tail follows the head.
     */
    ghost predicate MovedTo(head: Cell, snake0: seq<Cell>, food0: seq<Food>, score0: int,
                            highScore0: int, isGameOver0: bool, objective0: bool, draws: seq<Draw>)
      requires |snake0| >= 1 && Draws(draws)
      reads this`snake, this`food, this`score, this`isGameOver, this`highScore, this`objectiveComplete
    {
      && MovedBoard(head, snake0, food0, score0, draws)
      && if Crashes(head, snake0) then
           isGameOver && !objectiveComplete && highScore == Max(highScore0, score0)
         else
           isGameOver == isGameOver0 && highScore == highScore0 && objectiveComplete == objective0
    }

    /** The snake, the food and the score after the head moved to `head`, as MovedTo describes. */
    ghost predicate MovedBoard(head: Cell, snake0: seq<Cell>, food0: seq<Food>, score0: int, draws: seq<Draw>)
      requires |snake0| >= 1 && Draws(draws)
      reads this`snake, this`food, this`score
    {
      if Crashes(head, snake0) then
        snake == snake0 && food == food0 && score == score0
      else
        match FoodIndex(food0, head)
        case Some(i) =>
          && snake == [head] + snake0
          && score == score0 + food0[i].points
          && food == WithSpawn(snake, RemoveAt(food0, i), draws)
        case None =>
          && snake == [head] + snake0[..|snake0| - 1]
          && food == food0 && score == score0
    }

    /** The direction moveSnake will take: steered toward the pointer under mouse control, else the queued one. */
    function Heading(): Dir
      requires |snake| >= 1
      reads this`useMouseControl, this`mouseX, this`mouseY, this`snake, this`direction, this`nextDirection
    {
      if useMouseControl then Steer(mouseX, mouseY, snake[0], direction) else nextDirection
    }

    /**
     * One move was made from the board (snake0, food0, score0) in direction
     * `heading`: both directions are now that heading, the board is as
     * MovedBoard describes, and the snake grew by at most one cell.
     */
    ghost predicate Stepped(snake0: seq<Cell>, food0: seq<Food>, score0: int, heading: Dir, draws: seq<Draw>)
      requires |snake0| >= 1 && Draws(draws)
      reads this`direction, this`nextDirection, this`snake, this`food, this`score
    {
      && direction == heading && nextDirection == heading
      && MovedBoard(Step(snake0[0], heading), snake0, food0, score0, draws)
      && |snake0| <= |snake| <= |snake0| + 1
    }

    /**
     * moveSnake: under mouse control the queued direction is first steered
     * toward the pointer; then the snake takes the queued direction and
     * moves its head one step, as MovedTo describes.
     */
    method MoveSnake(draws: seq<Draw>)
      requires Valid() && Draws(draws)
      modifies this`nextDirection, this`direction, this`snake, this`food, this`score
      modifies this`isGameOver, this`highScore, this`objectiveComplete
      ensures Valid()
      ensures direction == nextDirection
      ensures direction == old(if useMouseControl then Steer(mouseX, mouseY, snake[0], direction) else nextDirection)
      ensures MovedTo(Step(old(snake)[0], direction), old(snake), old(food), old(score),
                      old(highScore), old(isGameOver), old(objectiveComplete), draws)
      ensures |old(snake)| <= |snake| <= |old(snake)| + 1
    {
      SteerByMouse();
      Advance(draws);
    }

    /** moveSnake after steering: the snake takes the queued direction and moves its head. */
    method Advance(draws: seq<Draw>)
      requires Valid() && Draws(draws)
      modifies this`direction, this`snake, this`food, this`score
      modifies this`isGameOver, this`highScore, this`objectiveComplete
      ensures Valid()
      ensures direction == nextDirection
      ensures MovedTo(Step(old(snake)[0], direction), old(snake), old(food), old(score),
                      old(highScore), old(isGameOver), old(objectiveComplete), draws)
      ensures |old(snake)| <= |snake| <= |old(snake)| + 1
    {
      var head := Step(snake[0], nextDirection);
      UnitIsNotReversed(nextDirection);
      direction := nextDirection;
      MoveHead(head, draws);
    }

    /** moveSnake once the head cell is known: crash, eat or shift, as MovedTo describes. */
    method MoveHead(head: Cell, draws: seq<Draw>)
      requires BoardOk() && PaceOk() && Draws(draws)
      modifies this`snake, this`food, this`score, this`isGameOver, this`highScore, this`objectiveComplete
      ensures BoardOk() && PaceOk()
      ensures MovedTo(head, old(snake), old(food), old(score), old(highScore), old(isGameOver),
                      old(objectiveComplete), draws)
      ensures |old(snake)| <= |snake| <= |old(snake)| + 1
    {
      if head.x < 0 || head.x >= GridWidth || head.y < 0 || head.y >= GridHeight {
        EndGame(false);
        return;
      }
      if head in snake {
        EndGame(false);
        return;
      }
      var foodIndex := FoodIndex(food, head);
      if foodIndex.Some? {
        Eat(head, foodIndex.value, draws);
      } else {
        Shift(head);
      }
    }

    /** The mouse-steering step at the start of moveSnake. */
    method SteerByMouse()
      requires |snake| >= 1 && SteeringOk()
      modifies this`nextDirection
      ensures SteeringOk()
      ensures nextDirection == (if useMouseControl then Steer(mouseX, mouseY, snake[0], direction)
                                else old(nextDirection))
    {
      if useMouseControl {
        nextDirection := Steer(mouseX, mouseY, snake[0], direction);
        SteerNeverReverses(mouseX, mouseY, snake[0], direction);
      }
    }

    /** The snake grows onto the food item at index i, which is removed and replaced by a spawn. */
    method Eat(head: Cell, i: nat, draws: seq<Draw>)
      requires BoardOk() && Draws(draws) && score >= 0
      requires i < |food| && food[i].cell == head && head !in snake
      modifies this`snake, this`food, this`score
      ensures BoardOk() && score >= 0
      ensures snake == [head] + old(snake)
      ensures score == old(score) + old(food)[i].points
      ensures food == WithSpawn(snake, RemoveAt(old(food), i), draws)
    {
      EatKeepsFood(snake, food, i);
      MoveKeepsSnake(snake, head, true);
      var eaten := food[i];
      snake := [head] + snake;
      food := RemoveAt(food, i);
      score := score + eaten.points;
      SpawnFood(draws);
    }

    /** The snake moves its head onto a cell without food and its tail follows. */
    method Shift(head: Cell)
      requires BoardOk() && InGrid(head) && head !in snake && head !in FoodCells(food)
      modifies this`snake
      ensures BoardOk()
      ensures snake == [head] + old(snake)[..|old(snake)| - 1]
    {
      MoveKeepsSnake(snake, head, false);
      ShiftKeepsFood(snake, food, head);
      snake := [head] + snake[..|snake| - 1];
    }

    /** checkWinCondition: reaching the mode's goal ends the game as a win. */
    method CheckWinCondition()
      requires Valid()
      modifies this`isGameOver, this`highScore, this`objectiveComplete
      ensures Valid()
      ensures WinReached(mode, |snake|, gameTime, score) ==>
        isGameOver && objectiveComplete && highScore == Max(old(highScore), score)
      ensures !WinReached(mode, |snake|, gameTime, score) ==>
        isGameOver == old(isGameOver) && objectiveComplete == old(objectiveComplete)
        && highScore == old(highScore)
    {
      if WinReached(mode, |snake|, gameTime, score) {
        EndGame(true);
      }
    }

    /** endGame: the game is over and a better score becomes the high score. */
    method EndGame(won: bool)
      modifies this`isGameOver, this`highScore, this`objectiveComplete
      ensures isGameOver && objectiveComplete == won
      ensures highScore == Max(old(highScore), score)
      ensures highScore >= old(highScore) && highScore >= score
    {
      isGameOver := true;
      if score > highScore {
        highScore := score;
      }
      objectiveComplete := won;
    }

    /**
     * update: one animation frame. Nothing happens once the game is over or
     * while paused. Otherwise the clock advances by the capped frame time;
     * when the move timer reaches the interval the snake moves and the timer
     * restarts; Speed Demon then speeds up with the snake's length; and the
     * win rule is checked.
     */
    method Update(timestamp: real, draws: seq<Draw>)
      requires Valid() && Draws(draws)
      modifies this`lastUpdate, this`gameTime, this`moveTimer, this`moveInterval
      modifies this`nextDirection, this`direction, this`snake, this`food, this`score
      modifies this`isGameOver, this`highScore, this`objectiveComplete
      ensures Valid()
      ensures old(isGameOver) || old(isPaused) ==> unchanged(this)
      ensures !old(isGameOver) && !old(isPaused) ==>
        && lastUpdate == timestamp
        && gameTime == old(gameTime) + DeltaTime(timestamp, old(lastUpdate))
        && (if old(moveTimer) + DeltaTime(timestamp, old(lastUpdate)) * 1000.0 >= old(moveInterval) as real
            then && moveTimer == 0.0
                 && Stepped(old(snake), old(food), old(score), old(Heading()), draws)
                 && (Crashes(Step(old(snake)[0], direction), old(snake)) ==> isGameOver)
                 && (!WinReached(mode, |snake|, gameTime, score) ==>
                       MovedTo(Step(old(snake)[0], direction), old(snake), old(food), old(score),
                               old(highScore), old(isGameOver), old(objectiveComplete), draws))
            else && moveTimer == old(moveTimer) + DeltaTime(timestamp, old(lastUpdate)) * 1000.0
                 && direction == old(direction) && nextDirection == old(nextDirection)
                 && snake == old(snake) && food == old(food) && score == old(score)
                 && (!WinReached(mode, |snake|, gameTime, score) ==>
                       isGameOver == old(isGameOver) && objectiveComplete == old(objectiveComplete)
                       && highScore == old(highScore)))
        && moveInterval == (if mode == SpeedDemon && |snake| > 3 then SpeedDemonInterval(|snake|)
                            else old(moveInterval))
        && (WinReached(mode, |snake|, gameTime, score) ==>
              isGameOver && objectiveComplete && highScore == Max(old(highScore), score))
        && (!isGameOver ==> !WinReached(mode, |snake|, gameTime, score))
        && highScore >= old(highScore)
    {
      if isGameOver || isPaused {
        return;
      }
      Tick(timestamp, draws);
      PaceAndGoal();
    }

    /** The end of update: Speed Demon's interval follows the length, then the win rule is checked. */
    method PaceAndGoal()
      requires Valid()
      modifies this`moveInterval, this`isGameOver, this`highScore, this`objectiveComplete
      ensures Valid() && highScore >= old(highScore) && (old(isGameOver) ==> isGameOver)
      ensures moveInterval == (if mode == SpeedDemon && |snake| > 3 then SpeedDemonInterval(|snake|)
                               else old(moveInterval))
      ensures WinReached(mode, |snake|, gameTime, score) ==>
        isGameOver && objectiveComplete && highScore == Max(old(highScore), score)
      ensures !WinReached(mode, |snake|, gameTime, score) ==>
        isGameOver == old(isGameOver) && objectiveComplete == old(objectiveComplete)
        && highScore == old(highScore)
    {
      AdjustSpeed();
      CheckWinCondition();
    }

    /** The clock and move part of update: advance the clocks by the capped frame time, then move when due. */
    method Tick(timestamp: real, draws: seq<Draw>)
      requires Valid() && Draws(draws)
      modifies this`lastUpdate, this`gameTime, this`moveTimer
      modifies this`nextDirection, this`direction, this`snake, this`food, this`score
      modifies this`isGameOver, this`highScore, this`objectiveComplete
      ensures Valid() && highScore >= old(highScore)
      ensures lastUpdate == timestamp
      ensures gameTime == old(gameTime) + DeltaTime(timestamp, old(lastUpdate))
      ensures old(moveTimer) + DeltaTime(timestamp, old(lastUpdate)) * 1000.0 >= moveInterval as real ==>
        && moveTimer == 0.0
        && Stepped(old(snake), old(food), old(score), old(Heading()), draws)
        && MovedTo(Step(old(snake)[0], direction), old(snake), old(food), old(score),
                   old(highScore), old(isGameOver), old(objectiveComplete), draws)
      ensures old(moveTimer) + DeltaTime(timestamp, old(lastUpdate)) * 1000.0 < moveInterval as real ==>
        && moveTimer == old(moveTimer) + DeltaTime(timestamp, old(lastUpdate)) * 1000.0
        && direction == old(direction) && nextDirection == old(nextDirection)
        && snake == old(snake) && food == old(food) && score == old(score)
        && isGameOver == old(isGameOver) && highScore == old(highScore)
        && objectiveComplete == old(objectiveComplete)
    {
      var deltaTime := DeltaTime(timestamp, lastUpdate);
      lastUpdate := timestamp;
      gameTime := gameTime + deltaTime;
      moveTimer := moveTimer + deltaTime * 1000.0;
      MoveWhenDue(draws);
    }

    /** The move step of update: once the timer reaches the interval it restarts and the snake moves. */
    method MoveWhenDue(draws: seq<Draw>)
      requires Valid() && Draws(draws)
      modifies this`moveTimer, this`nextDirection, this`direction, this`snake, this`food, this`score
      modifies this`isGameOver, this`highScore, this`objectiveComplete
      ensures Valid() && highScore >= old(highScore)
      ensures old(moveTimer) >= moveInterval as real ==>
        && moveTimer == 0.0
        && Stepped(old(snake), old(food), old(score), old(Heading()), draws)
        && MovedTo(Step(old(snake)[0], direction), old(snake), old(food), old(score),
                   old(highScore), old(isGameOver), old(objectiveComplete), draws)
      ensures old(moveTimer) < moveInterval as real ==> unchanged(this)
    {
      if moveTimer >= moveInterval as real {
        moveTimer := 0.0;
        MoveSnake(draws);
      }
    }

    /** The Speed Demon step of update: the interval follows the snake's length once it is longer than 3. */
    method AdjustSpeed()
      requires Valid()
      modifies this`moveInterval
      ensures Valid()
      ensures moveInterval == (if mode == SpeedDemon && |snake| > 3 then SpeedDemonInterval(|snake|)
                               else old(moveInterval))
    {
      if mode == SpeedDemon && |snake| > 3 {
        SpeedDemonBounds(|snake|, |snake|);
        moveInterval := SpeedDemonInterval(|snake|);
      }
    }
  }
}
