/**
 * Pipes: obstacles that come in top/bottom pairs around a gap, scroll left
 * every frame and are dropped once they have left the canvas (game.js:59-107).
 */
module Pipes {

  /** Pipe layout (game.js:60-63). */
  const PIPE_WIDTH: int := 50
  const PIPE_GAP: int := 120
  const PIPE_SPEED: int := 2
  /** The `+ 50` of game.js:66: the least height of a top pipe. */
  const MIN_PIPE_HEIGHT: int := 50
  /** The `- 100` of game.js:66: room kept free of the random draw. */
  const DRAW_MARGIN: int := 100
  /** game.js:104: how far the newest pair must have moved in before the next one appears. */
  const SPAWN_DISTANCE: int := 200

  /** The drawing surface; the page that holds it fixes its size. */
  datatype Canvas = Canvas(width: nat, height: nat)

  /** One pipe record; `passed` marks a top pipe the bird has already scored. */
  datatype Pipe = Pipe(x: int, y: int, width: int, height: int, passed: bool)

  /** The number of distinct draws game.js:66 can make on this canvas. */
  function DrawSpan(c: Canvas): int
  {
    c.height - PIPE_GAP - DRAW_MARGIN
  }

  /** `r` is a value `Math.floor(Math.random() * DrawSpan(c))` can take. */
  predicate IsDraw(c: Canvas, r: int)
  {
    0 <= r < DrawSpan(c)
  }

  /**
   * A top pipe and the bottom pipe spawned with it: same column, the top one
   * hangs from the ceiling, the bottom one stands on the floor, and exactly
   * the gap separates them. Only top pipes are ever marked `passed`.
   */
  predicate IsPair(c: Canvas, top: Pipe, bottom: Pipe)
  {
    && top.x == bottom.x
    && top.width == PIPE_WIDTH && bottom.width == PIPE_WIDTH
    && top.y == 0
    && bottom.y == top.height + PIPE_GAP
    && top.height + PIPE_GAP + bottom.height == c.height
    && MIN_PIPE_HEIGHT <= top.height
    && MIN_PIPE_HEIGHT < bottom.height
    && !bottom.passed
  }

  /** The pipe list is a run of pairs, read from its end: (n-2, n-1), (n-4, n-3), ... */
  predicate Paired(c: Canvas, ps: seq<Pipe>)
    decreases |ps|
  {
    if |ps| == 0 then true
    else if |ps| == 1 then false
    else IsPair(c, ps[|ps| - 2], ps[|ps| - 1]) && Paired(c, ps[..|ps| - 2])
  }

  /** A paired list has even length; in particular a nonempty one has an element at index |ps| - 2. */
  lemma {:induction false} PairedEven(c: Canvas, ps: seq<Pipe>)
    requires Paired(c, ps)
    ensures |ps| % 2 == 0
    decreases |ps|
  {
    if |ps| >= 2 {
      PairedEven(c, ps[..|ps| - 2]);
    }
  }

  /** Read from the front, a paired list pairs indices 2k and 2k + 1. */
  lemma {:induction false} PairedAt(c: Canvas, ps: seq<Pipe>, k: nat)
    requires Paired(c, ps) && 2 * k + 1 < |ps|
    ensures IsPair(c, ps[2 * k], ps[2 * k + 1])
    decreases |ps|
  {
    var n := |ps|;
    PairedEven(c, ps);
    if 2 * k + 1 < n - 2 {
      PairedAt(c, ps[..n - 2], k);
    }
  }

  /** Appending a pair to a paired list keeps it paired. */
  lemma PairedAppend(c: Canvas, ps: seq<Pipe>, top: Pipe, bottom: Pipe)
    requires Paired(c, ps) && IsPair(c, top, bottom)
    ensures Paired(c, ps + [top, bottom])
  {
    assert (ps + [top, bottom])[..|ps|] == ps;
  }

  /**
   * The two pipes createPipe pushes for draw `r` (game.js:65-81): both at the
   * right edge and not yet scored, the gap's top edge `r + 50` below the ceiling.
   */
  function SpawnPair(c: Canvas, r: int): (pair: seq<Pipe>)
    requires IsDraw(c, r)
    ensures |pair| == 2 && IsPair(c, pair[0], pair[1])
    ensures pair[0].x == c.width && !pair[0].passed
    ensures pair[0].height == r + MIN_PIPE_HEIGHT
    ensures MIN_PIPE_HEIGHT <= pair[0].height < c.height - PIPE_GAP - MIN_PIPE_HEIGHT
  {
    var pipeHeight := r + MIN_PIPE_HEIGHT;
    [ Pipe(c.width, 0, PIPE_WIDTH, pipeHeight, false),
      Pipe(c.width, pipeHeight + PIPE_GAP, PIPE_WIDTH, c.height - pipeHeight - PIPE_GAP, false) ]
  }

  /** Every top-pipe height from 50 up to (not including) canvas height - 170 comes from exactly one draw. */
  lemma SpawnHeights(c: Canvas, h: int)
    requires MIN_PIPE_HEIGHT <= h < c.height - PIPE_GAP - MIN_PIPE_HEIGHT
    ensures exists r :: IsDraw(c, r) && SpawnPair(c, r)[0].height == h
    ensures forall r :: IsDraw(c, r) && SpawnPair(c, r)[0].height == h ==> r == h - MIN_PIPE_HEIGHT
  {
    assert IsDraw(c, h - MIN_PIPE_HEIGHT) && SpawnPair(c, h - MIN_PIPE_HEIGHT)[0].height == h;
  }

  /** A pipe one frame further left (game.js:94). */
  function Shifted(p: Pipe): Pipe
  {
    p.(x := p.x - PIPE_SPEED)
  }

  /** The removal test of game.js:97: the right edge has passed the left border. */
  predicate OffScreen(p: Pipe)
  {
    p.x + p.width < 0
  }

  /**
   * The scroll-and-cull pass as a stable filter: every pipe moved left once,
   * in the original order, dropping those that end up off screen.
   */
  function Scroll(ps: seq<Pipe>): (qs: seq<Pipe>)
    ensures |qs| <= |ps|
    ensures forall j :: 0 <= j < |qs| ==> !OffScreen(qs[j])
  {
    if ps == [] then []
    else
      var q := Shifted(ps[|ps| - 1]);
      Scroll(ps[..|ps| - 1]) + (if OffScreen(q) then [] else [q])
  }

  /** Scrolling one more pipe appends that pipe, moved, unless it left the screen. */
  lemma ScrollSnoc(ps: seq<Pipe>, p: Pipe)
    ensures Scroll(ps + [p]) == Scroll(ps) + (if OffScreen(Shifted(p)) then [] else [Shifted(p)])
  {
    assert (ps + [p])[..|ps|] == ps;
  }

  /** Every pipe the pass keeps is one of the old pipes, moved once. */
  lemma {:induction false} ScrollOrigin(ps: seq<Pipe>, q: Pipe)
    requires q in Scroll(ps)
    ensures exists i :: 0 <= i < |ps| && q == Shifted(ps[i])
    decreases |ps|
  {
    var n := |ps|;
    if q in Scroll(ps[..n - 1]) {
      ScrollOrigin(ps[..n - 1], q);
      var i :| 0 <= i < n - 1 && q == Shifted(ps[..n - 1][i]);
      assert q == Shifted(ps[i]);
    } else {
      assert q == Shifted(ps[n - 1]);
    }
  }

  /** No pipe that is still on screen after its move is dropped. */
  lemma {:induction false} ScrollKeepsVisible(ps: seq<Pipe>, i: nat)
    requires i < |ps|
    ensures Shifted(ps[i]) in Scroll(ps) <==> !OffScreen(Shifted(ps[i]))
    decreases |ps|
  {
    var n := |ps|;
    if i < n - 1 {
      ScrollKeepsVisible(ps[..n - 1], i);
    }
  }

  /** When nothing leaves the screen, the pass moves each pipe exactly once and drops none. */
  lemma {:induction false} ScrollAllVisible(ps: seq<Pipe>)
    requires forall i :: 0 <= i < |ps| ==> !OffScreen(Shifted(ps[i]))
    ensures |Scroll(ps)| == |ps|
    ensures forall i :: 0 <= i < |ps| ==> Scroll(ps)[i] == Shifted(ps[i])
    decreases |ps|
  {
    if ps != [] {
      var n := |ps|;
      ScrollAllVisible(ps[..n - 1]);
      assert Scroll(ps) == Scroll(ps[..n - 1]) + [Shifted(ps[n - 1])];
    }
  }

  /**
   * Which old pipe each kept pipe came from: the pass keeps pipes in their old
   * order, so the indices strictly increase and the j-th kept pipe is old pipe
   * `ks[j]` moved once.
   */
  function KeptIndices(ps: seq<Pipe>): (ks: seq<nat>)
    ensures |ks| == |Scroll(ps)|
    ensures forall j :: 0 <= j < |ks| ==> ks[j] < |ps| && Scroll(ps)[j] == Shifted(ps[ks[j]])
    ensures forall j :: 0 < j < |ks| ==> ks[j - 1] < ks[j]
    decreases |ps|
  {
    if ps == [] then []
    else
      var n := |ps|;
      var last := Shifted(ps[n - 1]);
      var front := KeptIndices(ps[..n - 1]);
      assert Scroll(ps) == Scroll(ps[..n - 1]) + (if OffScreen(last) then [] else [last]);
      assert forall j :: 0 <= j < |front| ==> ps[..n - 1][front[j]] == ps[front[j]];
      front + (if OffScreen(last) then [] else [n - 1])
  }

  /** The two members of a pair share their column, so the pass keeps both or drops both. */
  lemma ScrollPair(ps: seq<Pipe>, top: Pipe, bottom: Pipe)
    requires top.x == bottom.x && top.width == bottom.width
    ensures Scroll(ps + [top, bottom]) ==
              Scroll(ps) + (if OffScreen(Shifted(top)) then [] else [Shifted(top), Shifted(bottom)])
  {
    assert ps + [top, bottom] == ps + [top] + [bottom];
    ScrollSnoc(ps, top);
    ScrollSnoc(ps + [top], bottom);
  }

  /** Replacing the entry between `a` and `b`, and then cutting it out. */
  lemma Splice(a: seq<Pipe>, x: Pipe, b: seq<Pipe>, y: Pipe)
    ensures (a + [x] + b)[|a| := y] == a + [y] + b
    ensures (a + [y] + b)[..|a|] + (a + [y] + b)[|a| + 1..] == a + b
  {
    var t := a + [y] + b;
    assert t[..|a|] == a && t[|a| + 1..] == b;
  }

  /**
   * One turn of the loop of game.js:92-101 on a list whose first `i` entries are
   * the culled image of the first `k` original pipes and whose rest is the
   * untouched tail: after the move and the possible removal, the same holds of
   * `k + 1` original pipes, so no pipe is skipped or moved twice.
   */
  lemma CullStep(orig: seq<Pipe>, k: nat, s: seq<Pipe>, i: int)
    requires k < |orig| && s == Scroll(orig[..k]) + orig[k..] && i == |Scroll(orig[..k])|
    ensures 0 <= i < |s| && s[i] == orig[k]
    ensures var t := s[i := s[i].(x := s[i].x - PIPE_SPEED)];
            && (OffScreen(t[i]) ==> t[..i] + t[i + 1..] == Scroll(orig[..k + 1]) + orig[k + 1..] && |Scroll(orig[..k + 1])| == i)
            && (!OffScreen(t[i]) ==> t == Scroll(orig[..k + 1]) + orig[k + 1..] && |Scroll(orig[..k + 1])| == i + 1)
  {
    var kept, next, rest := Scroll(orig[..k]), orig[k], orig[k + 1..];
    assert orig[..k + 1] == orig[..k] + [next];
    assert orig[k..] == [next] + rest;
    assert s == kept + [next] + rest;
    ScrollSnoc(orig[..k], next);
    Splice(kept, next, rest, Shifted(next));
  }

  /** Pairs move together and leave together, so scrolling keeps the list paired. */
  lemma {:induction false} ScrollPaired(c: Canvas, ps: seq<Pipe>)
    requires Paired(c, ps)
    ensures Paired(c, Scroll(ps))
    decreases |ps|
  {
    var n := |ps|;
    if n >= 2 {
      var rest, top, bottom := ps[..n - 2], ps[n - 2], ps[n - 1];
      assert ps == rest + [top, bottom];
      ScrollPaired(c, rest);
      ScrollPair(rest, top, bottom);
      if !OffScreen(Shifted(top)) {
        PairedAppend(c, Scroll(rest), Shifted(top), Shifted(bottom));
      } else {
        assert Scroll(ps) == Scroll(rest);
      }
    }
  }

  /**
   * The whole of updatePipes (game.js:91-107): the scroll-and-cull pass, then a
   * new pair when the list came out empty or its newest pair has moved more
   * than SPAWN_DISTANCE in from the right edge. The index `|s| - 2` of
   * game.js:104 is in range because the list is paired.
   */
  function Advance(c: Canvas, ps: seq<Pipe>, r: int): (qs: seq<Pipe>)
    requires Paired(c, ps) && IsDraw(c, r)
    ensures Paired(c, qs) && qs != []
  {
    var s := Scroll(ps);
    ScrollPaired(c, ps);
    PairedEven(c, s);
    if s == [] || s[|s| - 2].x < c.width - SPAWN_DISTANCE then
      var pair := SpawnPair(c, r);
      PairedAppend(c, s, pair[0], pair[1]);
      assert (s + pair)[..|s|] == s;
      s + pair
    else
      s
  }

  /** Advance, case by case; in the spawning case the new pair follows the culled list. */
  lemma AdvanceCases(c: Canvas, ps: seq<Pipe>, r: int)
    requires Paired(c, ps) && IsDraw(c, r)
    ensures |Scroll(ps)| != 1
    ensures var s := Scroll(ps);
            Advance(c, ps, r) == if |s| == 0 || s[|s| - 2].x < c.width - SPAWN_DISTANCE then s + SpawnPair(c, r) else s
  {
    ScrollPaired(c, ps);
    PairedEven(c, Scroll(ps));
  }

  /**
   * The spawn rule: updatePipes keeps the scrolled list as a prefix and adds
   * exactly one new pair after it, and it does so exactly when the scrolled
   * list is empty or its newest pair is more than SPAWN_DISTANCE in from the
   * right edge.
   */
  lemma AdvanceSpawns(c: Canvas, ps: seq<Pipe>, r: int)
    requires Paired(c, ps) && IsDraw(c, r)
    ensures var s, qs := Scroll(ps), Advance(c, ps, r);
            && |s| <= |qs| && qs[..|s|] == s
            && (|qs| == |s| || qs[|s|..] == SpawnPair(c, r))
            && (|qs| != |s| <==> s == [] || (|s| >= 2 && s[|s| - 2].x < c.width - SPAWN_DISTANCE))
  {
    AdvanceCases(c, ps, r);
    var s := Scroll(ps);
    assert (s + SpawnPair(c, r))[..|s|] == s;
  }
}
