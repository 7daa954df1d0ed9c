/**
 * The persisted best score and the rule that replaces it (saveBestScore).
 * The browser's key-value store is modelled as an optional record.
 */
module BestScore {

  datatype Option<T> = None | Some(value: T)

  /** One finished session: the moves it took and the seconds on the timer. */
  datatype Score = Score(moves: nat, time: nat)

  /** `a` strictly beats `b`: fewer moves, or as many moves in fewer seconds. */
  predicate Better(a: Score, b: Score) {
    a.moves < b.moves || (a.moves == b.moves && a.time < b.time)
  }

  /** `a` is no worse than `b` in the lexicographic order on (moves, time). */
  predicate AtMost(a: Score, b: Score) {
    a.moves < b.moves || (a.moves == b.moves && a.time <= b.time)
  }

  /** The condition under which a finished session overwrites the stored record. */
  predicate ShouldReplace(best: Option<Score>, s: Score) {
    best.None? || Better(s, best.value)
  }

  /**
   * The record after saving session `s`: it changes exactly when there was
   * no record or `s` strictly beats it, and then it becomes `s`. Either way
   * the record afterwards is no worse than `s` and no worse than before.
   */
  function SaveBest(best: Option<Score>, s: Score): (r: Option<Score>)
    ensures r.Some?
    ensures r != best <==> ShouldReplace(best, s)
    ensures r != best ==> r == Some(s)
    ensures AtMost(r.value, s)
    ensures best.Some? ==> AtMost(r.value, best.value)
  {
    if ShouldReplace(best, s) then Some(s) else best
  }

  /** Better is the strict part of AtMost, and AtMost is a total order. */
  lemma OrderFacts(a: Score, b: Score, c: Score)
    ensures Better(a, b) <==> AtMost(a, b) && a != b
    ensures AtMost(a, b) || AtMost(b, a)
    ensures AtMost(a, b) && AtMost(b, a) ==> a == b
    ensures AtMost(a, b) && AtMost(b, c) ==> AtMost(a, c)
  {
  }

  /** The record after saving the sessions `scores` one after the other. */
  function SaveAll(best: Option<Score>, scores: seq<Score>): Option<Score>
    decreases |scores|
  {
    if scores == [] then best else SaveAll(SaveBest(best, scores[0]), scores[1..])
  }

  /**
   * After any sequence of sessions the record is the best of the old record
   * and all of them: no worse than each, and one of them.
   */
  lemma {:induction false} SaveAllIsMinimum(best: Option<Score>, scores: seq<Score>)
    ensures best.Some? || scores != [] ==> SaveAll(best, scores).Some?
    ensures forall k :: 0 <= k < |scores| ==> AtMost(SaveAll(best, scores).value, scores[k])
    ensures best.Some? ==> AtMost(SaveAll(best, scores).value, best.value)
    ensures SaveAll(best, scores) == best || SaveAll(best, scores).value in scores
    decreases |scores|
  {
    if scores != [] {
      var b1 := SaveBest(best, scores[0]);
      SaveAllIsMinimum(b1, scores[1..]);
      var r := SaveAll(b1, scores[1..]);
      assert r == SaveAll(best, scores);
      assert AtMost(r.value, b1.value);
      forall k | 0 <= k < |scores|
        ensures AtMost(r.value, scores[k])
      {
        if k > 0 {
          assert scores[k] == scores[1..][k - 1];
        }
      }
      if r != b1 {
        assert r.value in scores[1..];
      } else if b1 != best {
        assert b1.value == scores[0];
      }
    }
  }
}
