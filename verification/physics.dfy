/**
 * The bird: a rectangle that falls under gravity, is pushed up by a flap and is
 * kept inside the field by a floor clamp and a ceiling clamp (game.js:25-57).
 *
 * Positions and velocities are exact reals; the browser computes them in IEEE
 * doubles.
 */
module Physics {

  /** The bird's fixed properties (game.js:27-32); the source never changes them. */
  const BIRD_X: int := 50
  const BIRD_WIDTH: int := 30
  const BIRD_HEIGHT: int := 30
  const GRAVITY: real := 0.2
  const LIFT: real := -4.0

  /** Where the bird starts and is put back on a restart (game.js:28, game.js:129). */
  const START_Y: real := 150.0

  /** The part of the bird that moves: the top edge and the vertical velocity. */
  datatype Motion = Motion(y: real, velocity: real)

  /** The unclamped Euler step: gravity changes the velocity, the new velocity moves the bird. */
  function Drop(m: Motion): Motion
  {
    Motion(m.y + m.velocity + GRAVITY, m.velocity + GRAVITY)
  }

  /** A bird whose top edge is at `y` lies wholly inside a field of height `fieldHeight`. */
  predicate InField(y: real, fieldHeight: int)
  {
    0.0 <= y && y + BIRD_HEIGHT as real <= fieldHeight as real
  }

  /**
   * One call of bird.update (game.js:40-52): the Euler step, then the floor
   * clamp, then the ceiling clamp. A clamp puts the bird on the edge it crossed
   * and stops it.
   */
  function Fall(m: Motion, fieldHeight: int): (n: Motion)
    ensures fieldHeight >= BIRD_HEIGHT ==> InField(n.y, fieldHeight)
    ensures InField(Drop(m).y, fieldHeight) ==> n == Drop(m)
    ensures !InField(Drop(m).y, fieldHeight) ==> n.velocity == 0.0
    ensures Drop(m).y < 0.0 ==> n.y == 0.0
    ensures fieldHeight >= BIRD_HEIGHT && Drop(m).y + BIRD_HEIGHT as real > fieldHeight as real ==>
              n.y == (fieldHeight - BIRD_HEIGHT) as real
  {
    var d := Drop(m);
    var floored := if d.y + BIRD_HEIGHT as real > fieldHeight as real
                   then Motion((fieldHeight - BIRD_HEIGHT) as real, 0.0)
                   else d;
    if floored.y < 0.0 then Motion(0.0, 0.0) else floored
  }

  /** A bird at rest at its start height falls 0.2 in its first frame on any field it fits in. */
  lemma FallFromRest(fieldHeight: int)
    requires fieldHeight >= 181
    ensures Fall(Motion(START_Y, 0.0), fieldHeight) == Motion(150.2, 0.2)
  {
  }

  /**
   * The bird object of game.js:26-57. Its constant properties are the module
   * constants above; `y` and `velocity` are the fields the source updates.
   */
  class Bird {
    var y: real
    var velocity: real

    constructor ()
      ensures y == START_Y && velocity == 0.0
    {
      y := START_Y;
      velocity := 0.0;
    }

    /** bird.update: one frame of motion on a canvas of height `fieldHeight`. */
    method Update(fieldHeight: int)
      modifies this
      ensures Motion(y, velocity) == Fall(old(Motion(y, velocity)), fieldHeight)
      ensures fieldHeight >= BIRD_HEIGHT ==> InField(y, fieldHeight)
    {
      velocity := velocity + GRAVITY;
      y := y + velocity;
      if y + BIRD_HEIGHT as real > fieldHeight as real {
        y := (fieldHeight - BIRD_HEIGHT) as real;
        velocity := 0.0;
      }
      if y < 0.0 {
        y := 0.0;
        velocity := 0.0;
      }
    }

    /** bird.flap: the velocity becomes the lift; the position is untouched. */
    method Flap()
      modifies this
      ensures velocity == LIFT && y == old(y)
    {
      velocity := LIFT;
    }
  }
}
