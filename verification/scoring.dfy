/**
 * The score rule of game.js:185-192: per frame, the first top pipe whose right
 * edge is left of the bird and that has not been scored yet earns one point
 * and is marked; the search stops there.
 */
module Scoring {
  import opened Physics
  import opened Pipes

  /** The test of game.js:187. Only top pipes (y == 0) are ever scored. */
  predicate Scorable(p: Pipe)
  {
    p.x + p.width < BIRD_X && !p.passed && p.y == 0
  }

  /** The index at which the score loop stops: the first scorable pipe, or |ps| when there is none. */
  function FirstScorable(ps: seq<Pipe>): (k: nat)
    ensures k <= |ps|
    ensures k < |ps| ==> Scorable(ps[k])
    ensures forall j :: 0 <= j < k ==> !Scorable(ps[j])
  {
    if ps == [] then 0
    else if Scorable(ps[0]) then 0
    else 1 + FirstScorable(ps[1..])
  }

  /** The pipe list and score after one run of the score loop. */
  datatype Tally = Tally(pipes: seq<Pipe>, score: nat)

  /**
   * One frame of scoring: at most one point; a point exactly when some pipe is
   * scorable; then only the first scorable pipe changes, and only its `passed`
   * flag, which becomes true. A pipe already passed is never scored again.
   */
  function ScoreStep(ps: seq<Pipe>, score: nat): (t: Tally)
    ensures |t.pipes| == |ps|
    ensures t.score == score || t.score == score + 1
    ensures t.score == score + 1 <==> exists i :: 0 <= i < |ps| && Scorable(ps[i])
    ensures t.score == score <==> t.pipes == ps
  {
    var k := FirstScorable(ps);
    if k == |ps| then Tally(ps, score)
    else Tally(ps[k := ps[k].(passed := true)], score + 1)
  }

  /**
   * The score step changes at most the first scorable pipe, and that one only
   * by marking it; every other pipe, before it or after it, is left as it was.
   */
  lemma ScoreMarksFirst(ps: seq<Pipe>, score: nat)
    ensures var t := ScoreStep(ps, score);
            forall i :: 0 <= i < |ps| && t.pipes[i] != ps[i] ==>
              && Scorable(ps[i])
              && t.pipes[i] == ps[i].(passed := true)
              && forall j :: 0 <= j < i ==> !Scorable(ps[j])
  {
  }

  /** The number of pipes marked as scored. */
  function PassedCount(ps: seq<Pipe>): nat
  {
    if ps == [] then 0 else (if ps[0].passed then 1 else 0) + PassedCount(ps[1..])
  }

  /** Every point the score step awards is one more pipe marked as scored. */
  lemma ScoreCountsPassed(ps: seq<Pipe>, score: nat)
    ensures PassedCount(ScoreStep(ps, score).pipes) == PassedCount(ps) + ScoreStep(ps, score).score - score
  {
    var k := FirstScorable(ps);
    if k < |ps| {
      MarkCount(ps, k);
    }
  }

  lemma {:induction false} MarkCount(ps: seq<Pipe>, k: nat)
    requires k < |ps| && !ps[k].passed
    ensures PassedCount(ps[k := ps[k].(passed := true)]) == PassedCount(ps) + 1
    decreases |ps|
  {
    var qs := ps[k := ps[k].(passed := true)];
    if k > 0 {
      MarkCount(ps[1..], k - 1);
      assert qs[1..] == ps[1..][k - 1 := ps[k].(passed := true)];
    } else {
      assert qs[1..] == ps[1..];
    }
  }

  /** Marking the top pipe of a pair keeps the list paired. */
  lemma {:induction false} MarkKeepsPaired(c: Canvas, ps: seq<Pipe>, k: nat)
    requires Paired(c, ps) && k < |ps| && ps[k].y == 0
    ensures Paired(c, ps[k := ps[k].(passed := true)])
    decreases |ps|
  {
    var n := |ps|;
    var qs := ps[k := ps[k].(passed := true)];
    assert qs[..n - 2] == if k < n - 2 then ps[..n - 2][k := ps[k].(passed := true)] else ps[..n - 2];
    if k < n - 2 {
      MarkKeepsPaired(c, ps[..n - 2], k);
    }
  }

  /** The score step keeps the list paired. */
  lemma ScoreKeepsPaired(c: Canvas, ps: seq<Pipe>, score: nat)
    requires Paired(c, ps)
    ensures Paired(c, ScoreStep(ps, score).pipes)
  {
    var k := FirstScorable(ps);
    if k < |ps| {
      MarkKeepsPaired(c, ps, k);
    }
  }
}
