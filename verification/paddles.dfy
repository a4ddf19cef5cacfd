/**
 The paddle controller: each frame, every paddle moves vertically by
 `delta * direction * speed` and is then clamped to the travel range
 [-TravelLimit, TravelLimit].
 */
module Paddles {
  import opened Numeric
  import opened Keyboard

  /** The `Paddle` component: its speed in units per second and which player owns it. */
  datatype Paddle = Paddle(speed: real, paddleNumber: i32)

  /**
   One result of the controller's query: a paddle component together with the
   translation of its transform. Rotation and scale of the transform are never
   read or written by the controller and are not part of the model.
   */
  datatype PaddleEntity = PaddleEntity(paddle: Paddle, translation: Vec3)

  /** Largest distance a paddle's centre may travel from y = 0. */
  const TravelLimit: real := 240.0

  predicate InTravel(y: real) {
    -TravelLimit <= y <= TravelLimit
  }

  /** The vertical clamp, `y.min(240.0).max(-240.0)`. */
  function ClampY(y: real): (r: real)
    ensures InTravel(r)
    ensures InTravel(y) ==> r == y
    ensures y > TravelLimit ==> r == TravelLimit
    ensures y < -TravelLimit ==> r == -TravelLimit
  {
    Max(Min(y, TravelLimit), -TravelLimit)
  }

  /** The clamp picks the point of the travel range nearest to its input. */
  lemma ClampYIsNearest(y: real)
    ensures NearestIn(ClampY(y), y, -TravelLimit, TravelLimit)
  {
  }

  /** Conversely, the nearest point of the travel range is what the clamp returns. */
  lemma NearestIsClampY(c: real, y: real)
    requires NearestIn(c, y, -TravelLimit, TravelLimit)
    ensures c == ClampY(y)
  {
    if y > TravelLimit {
      assert Dist(c, y) <= Dist(TravelLimit, y);
    } else if y < -TravelLimit {
      assert Dist(c, y) <= Dist(-TravelLimit, y);
    } else {
      assert Dist(c, y) <= Dist(y, y);
    }
  }

  /** Clamping an already clamped position changes nothing. */
  lemma ClampYIdempotent(y: real)
    ensures ClampY(ClampY(y)) == ClampY(y)
  {
  }

  /** Where the paddle would be after this frame if there were no clamp. */
  function Integrated(e: PaddleEntity, pressed: set<Key>, delta: real): real {
    e.translation.y + delta * Direction(pressed, e.paddle.paddleNumber) * e.paddle.speed
  }

  /**
   One frame of `paddle_movement_system` for one paddle: integrate the
   direction read from the keys, then clamp. Only the y coordinate of the
   translation changes, and it lands on the point of the travel range nearest
   to the unclamped position.
   */
  function Step(e: PaddleEntity, pressed: set<Key>, delta: real): (r: PaddleEntity)
    ensures r.paddle == e.paddle
    ensures r.translation.x == e.translation.x
    ensures r.translation.z == e.translation.z
    ensures InTravel(r.translation.y)
    ensures NearestIn(r.translation.y, Integrated(e, pressed, delta), -TravelLimit, TravelLimit)
  {
    e.(translation := e.translation.(y := ClampY(Integrated(e, pressed, delta))))
  }

  /** Inside the travel range the step moves the paddle by exactly `delta * direction * speed`. */
  lemma StepUnclampedMovesBySpeed(e: PaddleEntity, pressed: set<Key>, delta: real)
    requires InTravel(Integrated(e, pressed, delta))
    ensures Step(e, pressed, delta).translation.y
         == e.translation.y + delta * Direction(pressed, e.paddle.paddleNumber) * e.paddle.speed
  {
  }

  /**
   With both of its keys held a paddle does not move; it is only clamped, so a
   paddle already inside the travel range stays exactly where it is.
   */
  lemma BothKeysOnlyClamp(e: PaddleEntity, pressed: set<Key>, delta: real)
    requires Bindings(e.paddle.paddleNumber) <= pressed
    ensures Step(e, pressed, delta).translation.y == ClampY(e.translation.y)
    ensures InTravel(e.translation.y) ==> Step(e, pressed, delta) == e
  {
  }

  /** A paddle's step is unaffected by keys that belong to other players. */
  lemma StepReadsOnlyBindings(e: PaddleEntity, p: set<Key>, q: set<Key>, delta: real)
    requires p * Bindings(e.paddle.paddleNumber) == q * Bindings(e.paddle.paddleNumber)
    ensures Step(e, p, delta) == Step(e, q, delta)
  {
    DirectionReadsOnlyBindings(p, q, e.paddle.paddleNumber);
  }

  /** A paddle at the top or bottom of its travel that is pushed further outward stays where it is. */
  lemma StepAtLimitStays(e: PaddleEntity, pressed: set<Key>, delta: real)
    requires e.translation.y == TravelLimit || e.translation.y == -TravelLimit
    requires delta * Direction(pressed, e.paddle.paddleNumber) * e.paddle.speed * e.translation.y >= 0.0
    ensures Step(e, pressed, delta) == e
  {
  }

  /**
   The whole system for one frame: every paddle the query yields is stepped
   with the same keys and the same frame time. Paddles do not read each
   other, so the order of iteration does not matter.
   */
  function MoveAll(es: seq<PaddleEntity>, pressed: set<Key>, delta: real): (rs: seq<PaddleEntity>)
    ensures |rs| == |es|
    ensures forall i :: 0 <= i < |es| ==> rs[i] == Step(es[i], pressed, delta)
  {
    if |es| == 0 then []
    else [Step(es[0], pressed, delta)] + MoveAll(es[1..], pressed, delta)
  }
}
