/**
 * The collision test of checkCollision (game.js:109-123): the bird hits a pipe
 * when their axis-aligned rectangles overlap with a positive area.
 */
module Collision {
  import opened Physics
  import opened Pipes

  /** An axis-aligned rectangle: top-left corner and size. */
  datatype Box = Box(x: real, y: real, width: real, height: real)

  /** The four strict comparisons of game.js:114-117, `a` in the bird's place. */
  predicate Overlap(a: Box, b: Box)
  {
    && a.x < b.x + b.width
    && a.x + a.width > b.x
    && a.y < b.y + b.height
    && a.y + a.height > b.y
  }

  /** The bird's rectangle when its top edge is at `y`. */
  function BirdBox(y: real): Box
  {
    Box(BIRD_X as real, y, BIRD_WIDTH as real, BIRD_HEIGHT as real)
  }

  /** A pipe's rectangle; whether it has been scored plays no part. */
  function PipeBox(p: Pipe): Box
  {
    Box(p.x as real, p.y as real, p.width as real, p.height as real)
  }

  /** The bird collides when its rectangle overlaps the rectangle of some pipe in the list. */
  function Collides(bird: Box, ps: seq<Pipe>): (hit: bool)
    ensures hit <==> exists i :: 0 <= i < |ps| && Overlap(bird, PipeBox(ps[i]))
  {
    if ps == [] then false
    else Overlap(bird, PipeBox(ps[0])) || Collides(bird, ps[1..])
  }

  /** Two pipe lists that place the same rectangles give the same answer. */
  lemma CollidesSamePlaces(bird: Box, ps: seq<Pipe>, qs: seq<Pipe>)
    requires |ps| == |qs|
    requires forall i :: 0 <= i < |ps| ==> PipeBox(ps[i]) == PipeBox(qs[i])
    ensures Collides(bird, ps) == Collides(bird, qs)
  {
    if Collides(bird, ps) {
      var i :| 0 <= i < |ps| && Overlap(bird, PipeBox(ps[i]));
      assert Overlap(bird, PipeBox(qs[i]));
    }
    if Collides(bird, qs) {
      var i :| 0 <= i < |qs| && Overlap(bird, PipeBox(qs[i]));
      assert Overlap(bird, PipeBox(ps[i]));
    }
  }

  function Translate(b: Box, dx: real, dy: real): Box
  {
    b.(x := b.x + dx, y := b.y + dy)
  }

  function MovePipes(ps: seq<Pipe>, dx: int, dy: int): (qs: seq<Pipe>)
    ensures |qs| == |ps|
    ensures forall i :: 0 <= i < |ps| ==> qs[i] == ps[i].(x := ps[i].x + dx, y := ps[i].y + dy)
  {
    seq(|ps|, i requires 0 <= i < |ps| => ps[i].(x := ps[i].x + dx, y := ps[i].y + dy))
  }

  /** Moving the bird and every pipe by the same offset changes no collision: the test is purely geometric. */
  lemma {:induction false} CollidesTranslate(bird: Box, ps: seq<Pipe>, dx: int, dy: int)
    ensures Collides(Translate(bird, dx as real, dy as real), MovePipes(ps, dx, dy)) == Collides(bird, ps)
  {
    var bird', ps' := Translate(bird, dx as real, dy as real), MovePipes(ps, dx, dy);
    forall i | 0 <= i < |ps|
      ensures Overlap(bird', PipeBox(ps'[i])) == Overlap(bird, PipeBox(ps[i]))
    {
      assert PipeBox(ps'[i]) == Translate(PipeBox(ps[i]), dx as real, dy as real);
    }
    if Collides(bird, ps) {
      var i :| 0 <= i < |ps| && Overlap(bird, PipeBox(ps[i]));
      assert Overlap(bird', PipeBox(ps'[i]));
    }
    if Collides(bird', ps') {
      var i :| 0 <= i < |ps'| && Overlap(bird', PipeBox(ps'[i]));
      assert Overlap(bird, PipeBox(ps[i]));
    }
  }
}
