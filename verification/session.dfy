/**
 * The game session (game.js:125-213): the three-state machine, the Space key,
 * resetGame and the per-frame step of gameLoop, first as functions on a
 * snapshot of the state and then as the class that updates that state in place.
 */
module Session {
  import opened Physics
  import opened Pipes
  import opened Collision
  import opened Scoring

  /** The values of `gameState`: 'start', 'playing', 'gameOver'. */
  datatype Mode = Start | Playing | GameOver

  /** Everything a frame or a key press can change: the bird's motion, the pipes, the score, the mode. */
  datatype World = World(y: real, velocity: real, pipes: seq<Pipe>, score: nat, mode: Mode)

  /** The state resetGame leaves (game.js:128-134). */
  const RESTARTED: World := World(START_Y, 0.0, [], 0, Start)

  /**
   * The invariant every reachable state keeps: the draw range is nonempty, the
   * bird is inside the field, the pipes come in pairs, and a game that has not
   * started yet has neither pipes nor points.
   */
  predicate Consistent(c: Canvas, w: World)
  {
    && DrawSpan(c) > 0
    && InField(w.y, c.height)
    && Paired(c, w.pipes)
    && (w.mode == Start ==> w.pipes == [] && w.score == 0)
  }

  /**
   * One call of gameLoop (game.js:166-195, drawing left out). The bird moves in
   * every mode; pipes, collision and score only when the frame begins in
   * 'playing'. The collision is tested on the scrolled pipes, and the score
   * loop still runs on the frame that detects a collision.
   */
  function OnFrame(c: Canvas, w: World, r: int): (w': World)
    requires Consistent(c, w) && IsDraw(c, r)
    ensures Consistent(c, w')
    ensures Motion(w'.y, w'.velocity) == Fall(Motion(w.y, w.velocity), c.height)
    ensures w'.mode == w.mode || (w.mode == Playing && w'.mode == GameOver)
    ensures w.mode != Playing ==> w'.pipes == w.pipes && w'.score == w.score
    ensures w.mode == Playing ==> w'.pipes != [] && (w'.mode == GameOver <==> Collides(BirdBox(w'.y), w'.pipes))
    ensures w'.score == w.score || (w.mode == Playing && w'.score == w.score + 1)
  {
    var m := Fall(Motion(w.y, w.velocity), c.height);
    if w.mode != Playing then
      w.(y := m.y, velocity := m.velocity)
    else
      var ps := Advance(c, w.pipes, r);
      var t := ScoreStep(ps, w.score);
      ScoreKeepsPaired(c, ps, w.score);
      ScoreMarksFirst(ps, w.score);
      CollidesSamePlaces(BirdBox(m.y), ps, t.pipes);
      World(m.y, m.velocity, t.pipes, t.score, if Collides(BirdBox(m.y), ps) then GameOver else Playing)
  }

  /** OnFrame, case by case. */
  lemma FrameCases(c: Canvas, w: World, r: int)
    requires Consistent(c, w) && IsDraw(c, r)
    ensures var m := Fall(Motion(w.y, w.velocity), c.height);
            && (w.mode != Playing ==> OnFrame(c, w, r) == w.(y := m.y, velocity := m.velocity))
            && (w.mode == Playing ==>
                  var ps := Advance(c, w.pipes, r);
                  var t := ScoreStep(ps, w.score);
                  OnFrame(c, w, r) == World(m.y, m.velocity, t.pipes, t.score,
                                            if Collides(BirdBox(m.y), ps) then GameOver else Playing))
  {
  }

  /** The first frame of a game spawns one pair, at the right edge, where it cannot be scored yet. */
  lemma FirstPlayingFrame(c: Canvas, r: int)
    requires IsDraw(c, r)
    ensures Advance(c, [], r) == SpawnPair(c, r)
    ensures ScoreStep(SpawnPair(c, r), 0) == Tally(SpawnPair(c, r), 0)
  {
    AdvanceCases(c, [], r);
    assert Scroll([]) == [];
    assert [] + SpawnPair(c, r) == SpawnPair(c, r);
    assert !Scorable(SpawnPair(c, r)[0]) && !Scorable(SpawnPair(c, r)[1]);
  }

  /**
   * The Space-key handler (game.js:143-163): 'start' begins play and runs a
   * frame at once, 'playing' flaps, 'gameOver' resets to 'start'.
   */
  function OnSpace(c: Canvas, w: World, r: int): (w': World)
    requires Consistent(c, w) && IsDraw(c, r)
    ensures Consistent(c, w')
    ensures w.mode == Start ==>
              && w' == OnFrame(c, w.(mode := Playing), r)
              && w'.mode != Start && w'.score == 0 && |w'.pipes| == 2
    ensures w.mode == Playing ==>
              w'.mode == Playing && w'.velocity == LIFT &&
              w'.y == w.y && w'.pipes == w.pipes && w'.score == w.score
    ensures w.mode == GameOver ==> w' == RESTARTED
    ensures w'.score <= w.score + 1
  {
    match w.mode
    case Start =>
      FirstPlayingFrame(c, r);
      OnFrame(c, w.(mode := Playing), r)
    case Playing => w.(velocity := LIFT)
    case GameOver => RESTARTED
  }

  /** What the browser delivers: an animation frame, or a Space key press; each carries the draw it may need. */
  datatype Input = Refresh(draw: int) | SpaceKey(draw: int)

  /**
   * The state after a sequence of inputs. Any interleaving is allowed, also
   * frames the game did not request, so what holds here holds of every session.
   */
  function Run(c: Canvas, w: World, ins: seq<Input>): (w': World)
    requires Consistent(c, w)
    requires forall k :: 0 <= k < |ins| ==> IsDraw(c, ins[k].draw)
    ensures Consistent(c, w')
    ensures w'.score <= w.score + |ins|
    decreases |ins|
  {
    if ins == [] then w
    else
      var next := match ins[0]
        case Refresh(r) => OnFrame(c, w, r)
        case SpaceKey(r) => OnSpace(c, w, r);
      Run(c, next, ins[1..])
  }

  /** The module-level state of game.js: the canvas, the bird, the pipe list, the score and the mode. */
  class Game {
    const canvas: Canvas
    const bird: Bird
    var pipes: seq<Pipe>
    var score: nat
    var state: Mode

    function Model(): World
      reads this, bird
    {
      World(bird.y, bird.velocity, pipes, score, state)
    }

    ghost predicate Valid()
      reads this, bird
    {
      Consistent(canvas, Model())
    }

    /** The script's set-up: the initial values, then resetGame and one frame (game.js:211-213). */
    constructor (width: nat, height: nat)
      requires height > PIPE_GAP + DRAW_MARGIN
      ensures canvas == Canvas(width, height) && fresh(bird)
      ensures Valid()
      ensures Model() == World(150.2, 0.2, [], 0, Start)
    {
      canvas := Canvas(width, height);
      bird := new Bird();
      pipes := [];
      score := 0;
      state := Start;
      new;
      ResetGame();
      var rescheduled := GameLoop(0);
    }

    /** createPipe: push a top pipe and a bottom pipe around a gap placed by draw `r`. */
    method CreatePipe(r: int)
      requires IsDraw(canvas, r)
      modifies this`pipes
      ensures pipes == old(pipes) + SpawnPair(canvas, r)
    {
      var pipeHeight := r + MIN_PIPE_HEIGHT;
      pipes := pipes + [Pipe(canvas.width, 0, PIPE_WIDTH, pipeHeight, false)];
      pipes := pipes + [Pipe(canvas.width, pipeHeight + PIPE_GAP, PIPE_WIDTH, canvas.height - pipeHeight - PIPE_GAP, false)];
    }

    /**
     * The loop of updatePipes (game.js:92-101): move every pipe left, removing
     * off-screen pipes in place; after a removal the index steps back so that
     * the pipe that slid into the hole is examined next.
     */
    method ScrollPipes()
      modifies this`pipes
      ensures pipes == Scroll(old(pipes))
    {
      ghost var orig := pipes;
      ghost var done := 0;
      var ps := pipes;
      var i: int := 0;
      while i < |ps|
        invariant 0 <= done <= |orig|
        invariant i == |Scroll(orig[..done])|
        invariant ps == Scroll(orig[..done]) + orig[done..]
        decreases |ps| - i
      {
        CullStep(orig, done, ps, i);
        ps := ps[i := ps[i].(x := ps[i].x - PIPE_SPEED)];
        var p := ps[i];
        if p.x + p.width < 0 {
          ps := ps[..i] + ps[i + 1..];
          i := i - 1;
        }
        i := i + 1;
        done := done + 1;
      }
      assert done == |orig| && orig[..done] == orig && orig[done..] == [];
      pipes := ps;
    }

    /** updatePipes: the scroll-and-cull loop, then a new pair by the spawn rule of game.js:103-106. */
    method UpdatePipes(r: int)
      requires Paired(canvas, pipes) && IsDraw(canvas, r)
      modifies this`pipes
      ensures pipes == Advance(canvas, old(pipes), r)
    {
      AdvanceCases(canvas, pipes, r);
      ScrollPipes();
      if |pipes| == 0 || pipes[|pipes| - 2].x < canvas.width - SPAWN_DISTANCE {
        CreatePipe(r);
      }
    }

    /** checkCollision: scan the pipes and answer true at the first one the bird overlaps. */
    method CheckCollision() returns (hit: bool)
      ensures hit <==> exists i :: 0 <= i < |pipes| && Overlap(BirdBox(bird.y), PipeBox(pipes[i]))
      ensures hit == Collides(BirdBox(bird.y), pipes)
    {
      var i := 0;
      while i < |pipes|
        invariant 0 <= i <= |pipes|
        invariant forall j :: 0 <= j < i ==> !Overlap(BirdBox(bird.y), PipeBox(pipes[j]))
      {
        var p := pipes[i];
        if && (BIRD_X as real) < (p.x + p.width) as real
           && (BIRD_X + BIRD_WIDTH) as real > p.x as real
           && bird.y < (p.y + p.height) as real
           && bird.y + BIRD_HEIGHT as real > p.y as real
        {
          return true;
        }
        i := i + 1;
      }
      return false;
    }

    /** The score loop of gameLoop: score the first scorable pipe, mark it, and stop. */
    method UpdateScore()
      modifies this`pipes, this`score
      ensures Tally(pipes, score) == ScoreStep(old(pipes), old(score))
    {
      var i := 0;
      while i < |pipes|
        invariant 0 <= i <= |pipes|
        invariant pipes == old(pipes) && score == old(score)
        invariant forall j :: 0 <= j < i ==> !Scorable(pipes[j])
      {
        var p := pipes[i];
        if p.x + p.width < BIRD_X && !p.passed && p.y == 0 {
          score := score + 1;
          pipes := pipes[i := p.(passed := true)];
          break;
        }
        i := i + 1;
      }
    }

    /** resetGame: bird back to its start height and at rest, no pipes, no points, mode 'start'. */
    method ResetGame()
      modifies this, bird
      ensures Model() == RESTARTED
    {
      bird.y := START_Y;
      bird.velocity := 0.0;
      pipes := [];
      score := 0;
      state := Start;
    }

    /** The Space-key handler; `r` is the draw used if the key starts a game. */
    method PressSpace(r: int)
      requires Valid() && IsDraw(canvas, r)
      modifies this, bird
      ensures Valid()
      ensures Model() == OnSpace(canvas, old(Model()), r)
    {
      if state == Start {
        state := Playing;
        var rescheduled := GameLoop(r);
      } else if state == Playing {
        bird.Flap();
      } else if state == GameOver {
        ResetGame();
      }
    }

    /**
     * The block of gameLoop that runs only in 'playing' (game.js:172-193): move
     * and cull the pipes, test the moved pipes for a collision, then run the
     * score loop, which still runs on the frame that ends the game.
     */
    method PlayFrame(r: int)
      requires Paired(canvas, pipes) && IsDraw(canvas, r)
      modifies this`pipes, this`score, this`state
      ensures var ps := Advance(canvas, old(pipes), r);
              && Tally(pipes, score) == ScoreStep(ps, old(score))
              && state == if Collides(BirdBox(bird.y), ps) then GameOver else old(state)
    {
      ghost var sc, mode := score, state;
      UpdatePipes(r);
      ghost var ps := pipes;
      assert score == sc && state == mode;
      var hit := CheckCollision();
      if hit {
        state := GameOver;
      }
      assert pipes == ps && score == sc && state == if hit then GameOver else mode;
      UpdateScore();
      assert state == if hit then GameOver else mode;
    }

    /**
     * gameLoop without drawing. `rescheduled` says whether it requested the next
     * frame: exactly when the frame began in 'playing', so also on the frame
     * that ends the game.
     */
    method GameLoop(r: int) returns (rescheduled: bool)
      requires Valid() && IsDraw(canvas, r)
      modifies this, bird
      ensures Valid()
      ensures Model() == OnFrame(canvas, old(Model()), r)
      ensures rescheduled <==> old(state) == Playing
    {
      ghost var w := Model();
      bird.Update(canvas.height);
      rescheduled := false;
      if state == Playing {
        PlayFrame(r);
        rescheduled := true;
      }
      FrameCases(canvas, w, r);
    }
  }
}
