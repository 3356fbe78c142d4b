/** The game session: the state every handler of the runner reads and updates, and the
    handlers themselves (swipe, per-tick update, spawning, coin pickup, game over, restart). */
module Game {
  import opened Swipe
  import opened Track

  /** A pointer position. */
  datatype Point = Point(x: real, y: real)

  datatype Option<T> = None | Some(value: T)

  /** A spawn fires on the first frame whose accumulated milliseconds exceed this. */
  const SPAWN_INTERVAL: real := 1200.0

  /** Score earned per millisecond of running. */
  const SCORE_RATE: real := 0.01

  /** Score earned per coin. */
  const COIN_BONUS: real := 10.0

  /** A coin spawns when the roll in [0, 1) is below this. */
  const COIN_CHANCE: real := 0.5

  /** The lane after a pointer-up at `end` when the last pointer-down was at `down`.
      Before any pointer-down the start position is undefined, every distance is
      not-a-number, every comparison is false, and the lane stays. */
  function GestureLane(lane: int, down: Option<Point>, end: Point): int
  {
    match down
    case None => lane
    case Some(start) => SwipeLane(lane, end.x - start.x, end.y - start.y)
  }

  /** The entity a spawn adds, or none. */
  function SpawnedIf(fires: bool, x: int, y: real): seq<Entity>
  {
    if fires then [Entity(x, y)] else []
  }

  class GameSession {
    var currentLane: int
    var playerX: int
    var score: real
    var spawnTimer: real
    var gameOver: bool
    var obstacles: seq<Entity>
    var coins: seq<Entity>
    /** Where the last pointer-down happened, if any. */
    var down: Option<Point>

    /** The player stands on the lane it is in, and every entity is in a lane. */
    ghost predicate Valid()
      reads this
    {
      && ValidLane(currentLane)
      && playerX == LANES[currentLane]
      && (forall e :: e in obstacles ==> e.x in LANES)
      && (forall e :: e in coins ==> e.x in LANES)
    }

    /** A new session: middle lane, no score, no entities, running. */
    constructor ()
      ensures Valid()
      ensures currentLane == MIDDLE_LANE && playerX == 180
      ensures score == 0.0 && spawnTimer == 0.0 && !gameOver
      ensures obstacles == [] && coins == [] && down == None
    {
      currentLane := MIDDLE_LANE;
      playerX := LANES[MIDDLE_LANE];
      score := 0.0;
      spawnTimer := 0.0;
      gameOver := false;
      obstacles := [];
      coins := [];
      down := None;
    }

    /** Records where a gesture starts. */
    method PointerDown(p: Point)
      modifies this`down
      ensures down == Some(p)
    {
      down := Some(p);
    }

    /** Moves the player one lane for a long enough horizontal swipe ending at `end`. */
    method HandleSwipe(end: Point)
      requires Valid()
      modifies this`currentLane, this`playerX
      ensures Valid()
      ensures currentLane == GestureLane(old(currentLane), down, end)
    {
      match down
      case None =>
      case Some(start) =>
        var distX := end.x - start.x;
        var distY := end.y - start.y;
        if Abs(distX) > Abs(distY) {
          if distX < -SWIPE_THRESHOLD && currentLane > 0 {
            currentLane := currentLane - 1;
            playerX := LANES[currentLane];
          } else if distX > SWIPE_THRESHOLD && currentLane < |LANES| - 1 {
            currentLane := currentLane + 1;
            playerX := LANES[currentLane];
          }
        }
    }

    /** Adds one obstacle at the top of lane `lane`. */
    method SpawnObstacle(lane: int)
      requires Valid() && ValidLane(lane)
      modifies this`obstacles
      ensures Valid()
      ensures obstacles == old(obstacles) + [Entity(LANES[lane], OBSTACLE_SPAWN_Y)]
    {
      obstacles := obstacles + [Entity(LANES[lane], OBSTACLE_SPAWN_Y)];
    }

    /** Adds one coin above lane `lane` when the roll is below the coin chance. */
    method SpawnCoin(roll: real, lane: int)
      requires Valid() && ValidLane(lane) && 0.0 <= roll < 1.0
      modifies this`coins
      ensures Valid()
      ensures coins == old(coins) + SpawnedIf(roll < COIN_CHANCE, LANES[lane], COIN_SPAWN_Y)
    {
      if roll < COIN_CHANCE {
        coins := coins + [Entity(LANES[lane], COIN_SPAWN_Y)];
      }
    }

    /** One frame of `delta` milliseconds. The random choices of the frame are the
        parameters: the obstacle's lane, the coin roll and the coin's lane. */
    method Update(delta: real, obstacleLane: int, coinRoll: real, coinLane: int)
      requires Valid()
      requires ValidLane(obstacleLane) && ValidLane(coinLane) && 0.0 <= coinRoll < 1.0
      modifies this
      ensures Valid()
      ensures old(gameOver) ==> unchanged(this)
      ensures !old(gameOver) ==>
                var fires := old(spawnTimer) + delta > SPAWN_INTERVAL;
                && spawnTimer == (if fires then 0.0 else old(spawnTimer) + delta)
                && score == old(score) + delta * SCORE_RATE
                && obstacles == Survivors(Moved(old(obstacles) + SpawnedIf(fires, LANES[obstacleLane], OBSTACLE_SPAWN_Y),
                                                Displacement(OBSTACLE_SPEED, delta)), OBSTACLE_DESPAWN_Y)
                && coins == Survivors(Moved(old(coins) + SpawnedIf(fires && coinRoll < COIN_CHANCE, LANES[coinLane], COIN_SPAWN_Y),
                                            Displacement(COIN_SPEED, delta)), COIN_DESPAWN_Y)
                && currentLane == old(currentLane) && playerX == old(playerX)
                && !gameOver && down == old(down)
    {
      if gameOver {
        return;
      }
      var fires := spawnTimer + delta > SPAWN_INTERVAL;
      spawnTimer := spawnTimer + delta;
      if spawnTimer > SPAWN_INTERVAL {
        spawnTimer := 0.0;
        SpawnObstacle(obstacleLane);
        SpawnCoin(coinRoll, coinLane);
      }
      assert obstacles == old(obstacles) + SpawnedIf(fires, LANES[obstacleLane], OBSTACLE_SPAWN_Y);
      assert coins == old(coins) + SpawnedIf(fires && coinRoll < COIN_CHANCE, LANES[coinLane], COIN_SPAWN_Y);
      score := score + delta * SCORE_RATE;
      MoveEntities(delta);
    }

    /** Moves every obstacle and coin down by the distance covered in `delta` milliseconds
        and destroys those that have left the play area. */
    method MoveEntities(delta: real)
      requires Valid()
      modifies this`obstacles, this`coins
      ensures Valid()
      ensures obstacles == Survivors(Moved(old(obstacles), Displacement(OBSTACLE_SPEED, delta)), OBSTACLE_DESPAWN_Y)
      ensures coins == Survivors(Moved(old(coins), Displacement(COIN_SPEED, delta)), COIN_DESPAWN_Y)
    {
      var obstacleDy := Displacement(OBSTACLE_SPEED, delta);
      var coinDy := Displacement(COIN_SPEED, delta);
      AdvanceKeepsLanes(obstacles, obstacleDy, OBSTACLE_DESPAWN_Y, LANES);
      AdvanceKeepsLanes(coins, coinDy, COIN_DESPAWN_Y, LANES);
      obstacles := Advance(obstacles, obstacleDy, OBSTACLE_DESPAWN_Y);
      coins := Advance(coins, coinDy, COIN_DESPAWN_Y);
    }

    /** The player touched coin `i`: the coin goes and the bonus is added. */
    method CollectCoin(i: int)
      requires Valid() && 0 <= i < |coins|
      modifies this`coins, this`score
      ensures Valid()
      ensures coins == old(coins[..i] + coins[i + 1..])
      ensures multiset(coins) + multiset{old(coins[i])} == multiset(old(coins))
      ensures score == old(score) + COIN_BONUS
    {
      assert coins == coins[..i] + [coins[i]] + coins[i + 1..];
      coins := coins[..i] + coins[i + 1..];
      score := score + COIN_BONUS;
    }

    /** The player touched an obstacle. */
    method HandleGameOver()
      modifies this`gameOver
      ensures gameOver
      ensures old(Valid()) ==> Valid()
    {
      gameOver := true;
    }

    /** Back to a fresh run, whatever the state was. The spawn timer is left as it is. */
    method RestartGame()
      modifies this
      ensures Valid()
      ensures !gameOver && score == 0.0
      ensures currentLane == MIDDLE_LANE && playerX == 180
      ensures obstacles == [] && coins == []
      ensures spawnTimer == old(spawnTimer) && down == old(down)
    {
      gameOver := false;
      score := 0.0;
      currentLane := MIDDLE_LANE;
      playerX := LANES[currentLane];
      obstacles := [];
      coins := [];
    }

    /** End of a gesture at `p`: the swipe is applied first, then, if the game is over, the restart. */
    method PointerUp(p: Point)
      requires Valid()
      modifies this
      ensures Valid()
      ensures down == old(down) && spawnTimer == old(spawnTimer)
      ensures old(gameOver) ==>
                && !gameOver && score == 0.0
                && currentLane == MIDDLE_LANE && playerX == 180
                && obstacles == [] && coins == []
      ensures !old(gameOver) ==>
                && currentLane == GestureLane(old(currentLane), old(down), p)
                && !gameOver && score == old(score)
                && obstacles == old(obstacles) && coins == old(coins)
    {
      HandleSwipe(p);
      if gameOver {
        RestartGame();
      }
    }
  }

  /** One second of running scores 10; a strong left swipe then moves the player from lane 1 to lane 0. */
  method ScoreAndSwipeScenario()
  {
    var g := new GameSession();
    g.Update(1000.0, 0, 0.9, 0);
    assert g.score == 10.0 && g.spawnTimer == 1000.0 && g.obstacles == [] && g.coins == [];

    g.PointerDown(Point(200.0, 300.0));
    g.PointerUp(Point(120.0, 310.0));
    assert g.currentLane == 0 && g.playerX == 90;
  }

  /** A 1300 ms frame fires a spawn: the obstacle and the coin appear and move 312 units in the
      same frame; picking up the coin adds 10 to the 13 earned by the frame. */
  method SpawnAndCoinScenario()
  {
    var g := new GameSession();
    g.Update(1300.0, 0, 0.2, 2);
    SpawnThenAdvance([], Entity(90, OBSTACLE_SPAWN_Y), 312.0, OBSTACLE_DESPAWN_Y);
    SpawnThenAdvance([], Entity(270, COIN_SPAWN_Y), 312.0, COIN_DESPAWN_Y);
    assert g.spawnTimer == 0.0 && g.score == 13.0;
    assert g.obstacles == [Entity(90, 262.0)] && g.coins == [Entity(270, 162.0)];

    g.CollectCoin(0);
    assert g.score == 23.0 && g.coins == [];
  }

  /** After a crash, frames change nothing, and the next pointer-up restarts in the middle lane
      even though its gesture was a right swipe. */
  method CrashAndRestartScenario()
  {
    var g := new GameSession();
    g.Update(500.0, 0, 0.9, 0);
    g.HandleGameOver();
    g.Update(16.0, 1, 0.0, 1);
    assert g.score == 5.0 && g.spawnTimer == 500.0 && g.gameOver;

    g.PointerDown(Point(100.0, 100.0));
    g.PointerUp(Point(300.0, 100.0));
    assert !g.gameOver && g.currentLane == MIDDLE_LANE && g.score == 0.0 && g.spawnTimer == 500.0;
  }
}
