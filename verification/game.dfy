/**
 The match as the game builds and runs it: the scene that startup spawns,
 the one system that runs every frame (the paddle controller), and the
 invariant that holds from the first frame on.

 Only paddles move. The ball is spawned with a velocity but no system ever
 advances it, the colliders are never queried and the scoreboard is never
 written, so all three are carried through a tick unchanged.
 */
module Game {
  import opened Numeric
  import opened Keyboard
  import opened Paddles

  /** Width and height of the play field (`bounds`). */
  const FieldWidth: real := 900.0
  const FieldHeight: real := 600.0
  const WallThickness: real := 10.0

  /** Size of a paddle sprite. */
  const PaddleWidth: real := 30.0
  const PaddleHeight: real := 120.0

  /** Distance from a side wall's centre line to a paddle's centre. */
  const PaddleInset: real := 45.0
  const PaddleSpeed: real := 500.0

  const LeftPaddleX: real := -FieldWidth / 2.0 + PaddleInset
  const RightPaddleX: real := FieldWidth / 2.0 - PaddleInset

  /** Centre line of the top wall; the bottom wall's is its negation. */
  const TopWallY: real := FieldHeight / 2.0

  /** Where the ball is spawned; nothing ever moves it. */
  const BallStart: Vec3 := Vec3(0.0, -50.0, 1.0)

  datatype Scoreboard = Scoreboard(scoreOne: i32, scoreTwo: i32)

  /** Everything in the scene that the simulation could change. */
  datatype World = World(paddles: seq<PaddleEntity>, ball: Vec3, scoreboard: Scoreboard)

  /** The inputs of one frame: the keys held and the frame's duration in seconds. */
  datatype Frame = Frame(pressed: set<Key>, delta: real)

  /**
   What holds on every frame of a match: the two paddles keep their owner,
   speed and column, each paddle centre stays within the travel range, and
   the ball and the 0-0 score are untouched.
   */
  ghost predicate Inv(w: World) {
    && |w.paddles| == 2
    && w.paddles[0].paddle == Paddle(PaddleSpeed, 0)
    && w.paddles[1].paddle == Paddle(PaddleSpeed, 1)
    && w.paddles[0].translation.x == LeftPaddleX
    && w.paddles[1].translation.x == RightPaddleX
    && w.paddles[0].translation.z == 0.0
    && w.paddles[1].translation.z == 0.0
    && (forall i :: 0 <= i < |w.paddles| ==> InTravel(w.paddles[i].translation.y))
    && w.ball == BallStart
    && w.scoreboard == Scoreboard(0, 0)
  }

  /** The scene after startup: paddle 0 on the left and paddle 1 on the right, both centred. */
  function Initial(): (w: World)
    ensures Inv(w)
    ensures w.paddles[0].translation.y == 0.0 && w.paddles[1].translation.y == 0.0
    ensures w.paddles[0].translation.x < 0.0 < w.paddles[1].translation.x
  {
    World(
      [ PaddleEntity(Paddle(PaddleSpeed, 0), Vec3(-FieldWidth / 2.0 + PaddleInset, 0.0, 0.0)),
        PaddleEntity(Paddle(PaddleSpeed, 1), Vec3(FieldWidth / 2.0 - PaddleInset, 0.0, 0.0)) ],
      BallStart,
      Scoreboard(0, 0))
  }

  /** One frame: the paddle controller runs; nothing else in the world changes. */
  function Tick(w: World, f: Frame): (r: World)
    ensures r.ball == w.ball
    ensures r.scoreboard == w.scoreboard
    ensures |r.paddles| == |w.paddles|
    ensures forall i :: 0 <= i < |w.paddles| ==>
              && r.paddles[i].paddle == w.paddles[i].paddle
              && r.paddles[i].translation.x == w.paddles[i].translation.x
              && r.paddles[i].translation.z == w.paddles[i].translation.z
              && InTravel(r.paddles[i].translation.y)
  {
    w.(paddles := MoveAll(w.paddles, f.pressed, f.delta))
  }

  /**
   A sequence of frames, run in order. However many frames pass, the ball and
   the scoreboard stay as they were and no paddle appears or disappears.
   */
  function Run(w: World, frames: seq<Frame>): (r: World)
    ensures r.ball == w.ball
    ensures r.scoreboard == w.scoreboard
    ensures |r.paddles| == |w.paddles|
    decreases |frames|
  {
    if |frames| == 0 then w else Run(Tick(w, frames[0]), frames[1..])
  }

  /** Each frame keeps the invariant, whatever its keys or duration. */
  lemma TickPreservesInv(w: World, f: Frame)
    requires Inv(w)
    ensures Inv(Tick(w, f))
  {
  }

  lemma {:induction false} RunPreservesInv(w: World, frames: seq<Frame>)
    requires Inv(w)
    ensures Inv(Run(w, frames))
    decreases |frames|
  {
    if |frames| > 0 {
      TickPreservesInv(w, frames[0]);
      RunPreservesInv(Tick(w, frames[0]), frames[1..]);
    }
  }

  /** Every world the game can reach from startup satisfies the invariant. */
  lemma ReachableInv(frames: seq<Frame>)
    ensures Inv(Run(Initial(), frames))
  {
    RunPreservesInv(Initial(), frames);
  }

  /** The clamp bound is half the field height less half the paddle height. */
  lemma TravelLimitFitsField()
    ensures TravelLimit == FieldHeight / 2.0 - PaddleHeight / 2.0
  {
  }

  /**
   On every reachable frame each paddle lies between the centre lines of the
   top and bottom walls, and at full travel its edge sits exactly on one.
   */
  lemma ReachablePaddlesWithinWalls(frames: seq<Frame>, i: int)
    requires 0 <= i < 2
    ensures var y := Run(Initial(), frames).paddles[i].translation.y;
      && -TopWallY <= y - PaddleHeight / 2.0
      && y + PaddleHeight / 2.0 <= TopWallY
      && (y == TravelLimit ==> y + PaddleHeight / 2.0 == TopWallY)
      && (y == -TravelLimit ==> y - PaddleHeight / 2.0 == -TopWallY)
  {
    ReachableInv(frames);
  }

  /**
   The two players cannot interfere: what happens to one paddle in a frame
   depends only on that paddle's own two keys.
   */
  lemma PlayersIndependent(w: World, f: Frame, g: Frame, i: int)
    requires Inv(w)
    requires 0 <= i < 2
    requires f.delta == g.delta
    requires f.pressed * Bindings(i as i32) == g.pressed * Bindings(i as i32)
    ensures Tick(w, f).paddles[i] == Tick(w, g).paddles[i]
  {
    StepReadsOnlyBindings(w.paddles[i], f.pressed, g.pressed, f.delta);
  }

  /** Holding both keys of every player leaves a reachable world exactly as it was. */
  lemma AllKeysHeldNothingMoves(w: World, delta: real)
    requires Inv(w)
    ensures Tick(w, Frame(Bindings(0) + Bindings(1), delta)) == w
  {
  }

  /**
   One second holding each player's up key from startup carries both paddles
   to the top of their travel, where their edges meet the top wall's centre line.
   */
  lemma OneSecondUpReachesTop()
    ensures var w := Run(Initial(), [Frame({LShift, Up}, 1.0)]);
      && w.paddles[0].translation.y == TravelLimit
      && w.paddles[1].translation.y == TravelLimit
      && w.paddles[0].translation.y + PaddleHeight / 2.0 == TopWallY
  {
  }
}
