/**
 Keyboard input as the paddle controller sees it: the set of keys held down
 during a frame, and the direction a paddle is asked to move in.

 Polling the keyboard is outside the model; each frame's pressed set is an
 input. `Other` stands for every key the controller never looks at.
 */
module Keyboard {
  import opened Numeric

  datatype Key = Up | Down | LControl | LShift | Other(code: nat)

  /** The key that moves paddle `n` towards negative y. */
  function DownKey(n: i32): Key {
    if n == 1 then Down else LControl
  }

  /** The key that moves paddle `n` towards positive y. */
  function UpKey(n: i32): Key {
    if n == 1 then Up else LShift
  }

  /** The two keys paddle `n` reads; no other key can influence it. */
  function Bindings(n: i32): (ks: set<Key>)
    ensures |ks| == 2
    ensures n == 1 ==> ks == {Down, Up}
    ensures n != 1 ==> ks == {LControl, LShift}
  {
    {DownKey(n), UpKey(n)}
  }

  /**
   The direction paddle `n` moves in this frame. Paddle 1 reads Down and Up;
   every other paddle number, 0 included, reads LControl and LShift. The
   down key subtracts one, the up key adds one, so holding both cancels.
   */
  function Direction(pressed: set<Key>, n: i32): (d: real)
    ensures d == -1.0 || d == 0.0 || d == 1.0
    ensures d == 1.0 <==> UpKey(n) in pressed && DownKey(n) !in pressed
    ensures d == -1.0 <==> DownKey(n) in pressed && UpKey(n) !in pressed
    ensures d == 0.0 <==> (UpKey(n) in pressed <==> DownKey(n) in pressed)
  {
    if n == 1 then
      (if Down in pressed then -1.0 else 0.0) + (if Up in pressed then 1.0 else 0.0)
    else
      (if LControl in pressed then -1.0 else 0.0) + (if LShift in pressed then 1.0 else 0.0)
  }

  /** A paddle's direction depends only on which of its own two keys are held. */
  lemma DirectionReadsOnlyBindings(p: set<Key>, q: set<Key>, n: i32)
    requires p * Bindings(n) == q * Bindings(n)
    ensures Direction(p, n) == Direction(q, n)
  {
    assert UpKey(n) in p <==> UpKey(n) in p * Bindings(n);
    assert DownKey(n) in p <==> DownKey(n) in p * Bindings(n);
  }

  /** Pressing or releasing a key outside a paddle's bindings never changes its direction. */
  lemma ForeignKeyIgnored(pressed: set<Key>, n: i32, k: Key)
    requires k !in Bindings(n)
    ensures Direction(pressed + {k}, n) == Direction(pressed, n)
    ensures Direction(pressed - {k}, n) == Direction(pressed, n)
  {
  }

  /** Paddle 1's keys and every other paddle's keys are disjoint. */
  lemma BindingsDisjoint(m: i32, n: i32)
    requires (m == 1) != (n == 1)
    ensures Bindings(m) !! Bindings(n)
  {
  }

  /** Holding both of a paddle's keys yields no movement. */
  lemma BothKeysCancel(pressed: set<Key>, n: i32)
    requires Bindings(n) <= pressed
    ensures Direction(pressed, n) == 0.0
  {
  }
}
