/**
 * Facts about a board built from a palette: the palette is laid out twice
 * and shuffled, so every palette symbol is on exactly two cards.
 */
module Board {
  import opened Palette

  /** In a sequence without repetitions every element occurs once. */
  lemma {:induction false} DistinctOccursOnce<T>(s: seq<T>, x: T)
    requires Distinct(s)
    ensures multiset(s)[x] == if x in s then 1 else 0
  {
    if s != [] {
      var init := s[..|s| - 1];
      assert Distinct(init);
      DistinctOccursOnce(init, x);
      assert s == init + [s[|s| - 1]];
      assert s[|s| - 1] !in init;
    }
  }

  /**
   * A shuffle of the palette laid out twice has twice the palette's length
   * and holds every palette symbol exactly twice and nothing else.
   */
  lemma PairBoard(p: seq<Symbol>, cards: seq<Symbol>)
    requires Distinct(p)
    requires multiset(cards) == multiset(p + p)
    ensures |cards| == 2 * |p|
    ensures forall x :: multiset(cards)[x] == if x in p then 2 else 0
  {
    assert |cards| == |multiset(cards)| == |multiset(p + p)| == |p + p|;
    forall x
      ensures multiset(cards)[x] == if x in p then 2 else 0
    {
      DistinctOccursOnce(p, x);
    }
  }

  /** A symbol sitting at every index of `idx` occurs at least |idx| times. */
  lemma {:induction false} OccurrencesAtLeast<T>(s: seq<T>, x: T, idx: set<nat>)
    requires forall i :: i in idx ==> i < |s| && s[i] == x
    ensures multiset(s)[x] >= |idx|
  {
    if s == [] {
      assert idx == {};
    } else {
      var last := |s| - 1;
      var init := s[..last];
      var rest := idx - {last};
      OccurrencesAtLeast(init, x, rest);
      assert s == init + [s[last]];
      assert |idx| <= |rest| + 1;
      if last in idx {
        assert idx == rest + {last};
      } else {
        assert idx == rest;
      }
    }
  }

  /**
   * On a board of pairs, the two cards of a matching pair are the only
   * cards with their symbol.
   */
  lemma PairPartnerUnique(p: seq<Symbol>, cards: seq<Symbol>, a: nat, b: nat, j: nat)
    requires Distinct(p) && multiset(cards) == multiset(p + p)
    requires a < |cards| && b < |cards| && j < |cards|
    requires a != b && j != a && j != b
    requires cards[a] == cards[b]
    ensures cards[j] != cards[a]
  {
    if cards[j] == cards[a] {
      PairBoard(p, cards);
      var idx := {a, b, j};
      assert |idx| == 3 by {
        assert idx == {a, b} + {j};
        assert |{a, b}| == 2;
      }
      OccurrencesAtLeast(cards, cards[a], idx);
      assert false;
    }
  }

  /** The indices below n. */
  function Below(n: nat): (r: set<nat>)
    ensures forall i: int :: i in r <==> 0 <= i < n
    ensures |r| == n
  {
    if n == 0 then {} else Below(n - 1) + {n - 1}
  }

  lemma {:induction false} SubsetSize<T>(a: set<T>, b: set<T>)
    requires a <= b
    ensures |a| <= |b|
    ensures |a| == |b| ==> a == b
    decreases |a|
  {
    if a != {} {
      var x :| x in a;
      SubsetSize(a - {x}, b - {x});
      assert a == (a - {x}) + {x};
      assert b == (b - {x}) + {x};
    }
  }

  /** A set of indices below n has at most n elements, and exactly n only when it holds them all. */
  lemma IndexSetBound(m: set<nat>, n: nat)
    requires forall i :: i in m ==> i < n
    ensures |m| <= n
    ensures |m| == n ==> forall i: nat :: i < n ==> i in m
  {
    SubsetSize(m, Below(n));
  }
}
