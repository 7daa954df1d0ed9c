/**
 * The game controller: board construction, the flip/match state machine,
 * the timer and the best-score update, as one object whose fields are the
 * page's module-level state.
 */
module Game {
  import opened Palette
  import opened Shuffling
  import opened BestScore
  import opened Board

  /**
   * A pending mismatch resolution: the one-shot 1000 ms callback that the
   * match check schedules. It captured the two card elements `first` and
   * `second` of the board numbered `board`, the one on screen when it was
   * scheduled.
   */
  datatype Unflip = Unflip(board: nat, first: nat, second: nat)

  /** `n` card flags, all face down. */
  function FaceDown(n: nat): (flags: seq<bool>)
    ensures |flags| == n && forall i :: 0 <= i < n ==> !flags[i]
  {
    seq(n, _ => false)
  }

  /** A board of pairs: a palette without repetitions, laid out twice in some order. */
  ghost predicate PairsOf(p: seq<Symbol>, cards: seq<Symbol>) {
    Distinct(p) && multiset(cards) == multiset(p + p)
  }

  /** Matched cards come in whole pairs: the other card with a matched card's symbol is matched too. */
  ghost predicate PairsClosed(cards: seq<Symbol>, matched: set<nat>) {
    forall i, j :: i in matched && i < |cards| && 0 <= j < |cards| && j != i && cards[j] == cards[i] ==> j in matched
  }

  /**
   * The flip/match bookkeeping: the face-up cards are exactly the matched
   * cards and the pending ones; at most two distinct cards are pending, none
   * of them matched; matched cards come in pairs and number twice the pairs
   * found; and no more pairs were found than moves made.
   */
  ghost predicate Selection(cards: seq<Symbol>, flags: seq<bool>, pending: seq<nat>, matched: set<nat>, pairs: nat, moves: nat) {
    && |flags| == |cards|
    && |pending| <= 2
    && (forall k :: 0 <= k < |pending| ==> pending[k] < |cards| && pending[k] !in matched)
    && (|pending| == 2 ==> pending[0] != pending[1])
    && (forall i :: i in matched ==> i < |cards|)
    && (forall i :: 0 <= i < |cards| ==> (flags[i] <==> i in matched || i in pending))
    && PairsClosed(cards, matched)
    && |matched| == 2 * pairs
    && pairs <= moves
  }

  /** Two pending cards whose symbols differ. */
  ghost predicate Mismatch(cards: seq<Symbol>, pending: seq<nat>) {
    |pending| == 2 && pending[0] < |cards| && pending[1] < |cards| && cards[pending[0]] != cards[pending[1]]
  }

  /** A fresh board: everything face down, nothing pending or matched. */
  lemma FreshSelection(cards: seq<Symbol>)
    ensures Selection(cards, FaceDown(|cards|), [], {}, 0, 0)
  {
  }

  /** Turning up a face-down card with nothing pending makes it the one pending card. */
  lemma FlipFirst(cards: seq<Symbol>, flags: seq<bool>, matched: set<nat>, pairs: nat, moves: nat, i: nat)
    requires Selection(cards, flags, [], matched, pairs, moves)
    requires i < |cards| && !flags[i]
    ensures Selection(cards, flags[i := true], [i], matched, pairs, moves)
  {
  }

  /** Turning up a second face-down card makes a pending pair and counts a move. */
  lemma FlipSecond(cards: seq<Symbol>, flags: seq<bool>, matched: set<nat>, pairs: nat, moves: nat, a: nat, i: nat)
    requires Selection(cards, flags, [a], matched, pairs, moves)
    requires i < |cards| && !flags[i]
    ensures Selection(cards, flags[i := true], [a, i], matched, pairs, moves + 1)
    ensures pairs < moves + 1
  {
  }

  /**
   * A pending pair of equal symbols becomes matched: one more pair, nothing
   * pending, both cards stay face up, and the pairs found never exceed the
   * palette.
   */
  lemma MatchPair(p: seq<Symbol>, cards: seq<Symbol>, flags: seq<bool>, matched: set<nat>, pairs: nat, moves: nat, a: nat, b: nat)
    requires PairsOf(p, cards)
    requires Selection(cards, flags, [a, b], matched, pairs, moves)
    requires cards[a] == cards[b] && pairs < moves
    ensures Selection(cards, flags, [], matched + {a, b}, pairs + 1, moves)
    ensures pairs + 1 <= |p|
  {
    var m := matched + {a, b};
    forall i, j | i in m && i < |cards| && 0 <= j < |cards| && j != i && cards[j] == cards[i]
      ensures j in m
    {
      if i == a && j != b {
        PairPartnerUnique(p, cards, a, b, j);
      } else if i == b && j != a {
        PairPartnerUnique(p, cards, b, a, j);
      }
    }
    assert |m| == |matched| + 2 by {
      assert a !in matched && b !in matched && a != b;
      assert |{a, b}| == 2;
    }
    PairBoard(p, cards);
    IndexSetBound(m, |cards|);
  }

  /** The pending pair turns face down again and nothing is pending. */
  lemma UnflipPair(cards: seq<Symbol>, flags: seq<bool>, matched: set<nat>, pairs: nat, moves: nat, a: nat, b: nat)
    requires Selection(cards, flags, [a, b], matched, pairs, moves)
    ensures Selection(cards, flags[a := false][b := false], [], matched, pairs, moves)
  {
  }


  /**
   * The page's module-level state as one value: the cards of the board on
   * screen, the flip flags, the pending selection, the counters, the timer,
   * the lock, the palette, the armed first-click listener, the stored
   * best-score record, the pending mismatch timeouts, the number of boards
   * built so far, and (as bookkeeping) the cards of the pairs found.
   */
  datatype Session = Session(
    cards: seq<Symbol>, isFlipped: seq<bool>, flippedCards: seq<nat>,
    matchedPairs: nat, moves: nat, timer: nat, timerRunning: bool,
    isProcessing: bool, currentEmojis: seq<Symbol>, firstClick: bool,
    bestScore: Option<Score>, scheduled: seq<Unflip>, board: nat, matched: set<nat>)

  /** The board holds the current palette twice, one flag per card. */
  ghost predicate BoardOk(s: Session) {
    PairsOf(s.currentEmojis, s.cards) && |s.isFlipped| == |s.cards|
  }

  /** Between events the lock is set exactly while a mismatching pair is pending. */
  ghost predicate SelectionOk(s: Session) {
    && Selection(s.cards, s.isFlipped, s.flippedCards, s.matched, s.matchedPairs, s.moves)
    && (s.isProcessing <==> |s.flippedCards| == 2)
    && (s.isProcessing ==> Mismatch(s.cards, s.flippedCards))
  }

  /** Every pending timeout belongs to this board or an earlier one, and on this board names real cards. */
  predicate CallbacksOk(s: Session) {
    forall k :: 0 <= k < |s.scheduled| ==>
      && s.scheduled[k].board <= s.board
      && (s.scheduled[k].board == s.board ==> s.scheduled[k].first < |s.isFlipped| && s.scheduled[k].second < |s.isFlipped|)
  }

  /**
   * The shape every reachable state has, whether or not rebuilds cancel the
   * pending timeouts: one flag per card, at most two pending cards, all on
   * the board, at most one while the lock is clear, and sound pending timeouts.
   */
  predicate Wellformed(s: Session) {
    && |s.isFlipped| == |s.cards|
    && |s.flippedCards| <= 2
    && (forall k :: 0 <= k < |s.flippedCards| ==> s.flippedCards[k] < |s.cards|)
    && (!s.isProcessing ==> |s.flippedCards| <= 1)
    && CallbacksOk(s)
  }

  /** The states in which a card click is handled as the game intends. */
  ghost predicate Playable(s: Session) {
    BoardOk(s) && SelectionOk(s) && CallbacksOk(s)
  }

  /** In addition, the only pending timeout is the one for the pending pair. */
  ghost predicate Consistent(s: Session) {
    && Playable(s)
    && s.scheduled == (if s.isProcessing then [Unflip(s.board, s.flippedCards[0], s.flippedCards[1])] else [])
  }

  /** The module-level initial values at page load, with the record read from the store. */
  function Initial(stored: Option<Score>): Session {
    Session([], [], [], 0, 0, 0, false, false, [], false, stored, [], 0, {})
  }

  /**
   * The board build as the page does it: stop the timer, reset the
   * counters, the lock and the selection, lay out the palette twice and
   * shuffle it face down, arm the first-click listener. Pending mismatch
   * timeouts are kept.
   */
  function AfterBuildAsWritten(s: Session, difficulty: string, picks: seq<nat>): Session
    requires ValidPicks(picks, 2 * PaletteSize(difficulty))
  {
    var p := EmojisByDifficulty(difficulty);
    var deck := Shuffled(p + p, picks);
    s.(timerRunning := false, timer := 0, moves := 0, matchedPairs := 0, isProcessing := false,
       flippedCards := [], currentEmojis := p, cards := deck, isFlipped := FaceDown(|deck|),
       matched := {}, board := s.board + 1, firstClick := true)
  }

  /** The build written out for a given shuffled deck. */
  lemma BuildAsWrittenUnfold(s: Session, difficulty: string, picks: seq<nat>, deck: seq<Symbol>)
    requires ValidPicks(picks, 2 * PaletteSize(difficulty))
    requires deck == Shuffled(EmojisByDifficulty(difficulty) + EmojisByDifficulty(difficulty), picks)
    ensures AfterBuildAsWritten(s, difficulty, picks) ==
      s.(timerRunning := false, timer := 0, moves := 0, matchedPairs := 0, isProcessing := false,
         flippedCards := [], currentEmojis := EmojisByDifficulty(difficulty), cards := deck,
         isFlipped := FaceDown(|deck|), matched := {}, board := s.board + 1, firstClick := true)
  {
  }

  /** The board build with the pending mismatch timeouts cancelled first. */
  function AfterBuild(s: Session, difficulty: string, picks: seq<nat>): Session
    requires ValidPicks(picks, 2 * PaletteSize(difficulty))
  {
    AfterBuildAsWritten(s.(scheduled := []), difficulty, picks)
  }

  /** The first-click listener: the first click after a build starts the timer and disarms the listener. */
  function AfterFirstClick(s: Session): Session {
    if s.firstClick then s.(timerRunning := true, firstClick := false) else s
  }

  /** The end of a session: the timer stops and the session's score is offered to the record. */
  function AfterEndGame(s: Session): Session {
    s.(timerRunning := false, bestScore := SaveBest(s.bestScore, Score(s.moves, s.timer)))
  }

  /**
   * The match check of the two pending cards: equal symbols make a pair,
   * clear the lock and the selection, and end the session with the last
   * pair; different symbols schedule the timeout that turns them back.
   */
  function AfterCheck(s: Session): Session
    requires |s.flippedCards| == 2 && s.flippedCards[0] < |s.cards| && s.flippedCards[1] < |s.cards|
  {
    var a, b := s.flippedCards[0], s.flippedCards[1];
    if s.cards[a] == s.cards[b] then
      var t := s.(matchedPairs := s.matchedPairs + 1, matched := s.matched + {a, b}, isProcessing := false, flippedCards := []);
      if t.matchedPairs == |t.currentEmojis| then AfterEndGame(t) else t
    else
      s.(scheduled := s.scheduled + [Unflip(s.board, a, b)])
  }

  /** Whether the card handler takes a click on card `i`: no lock, and the card face down. */
  predicate Accepts(s: Session, i: nat)
    requires i < |s.isFlipped|
  {
    !s.isProcessing && !s.isFlipped[i]
  }

  /**
   * A click on card `i`: the board's first-click listener, then the card's
   * handler, which ignores the click under the lock or on a face-up card,
   * and otherwise turns the card up and adds it to the selection; the
   * second card sets the lock, counts a move and runs the match check.
   */
  function AfterClick(s: Session, i: nat): Session
    requires Wellformed(s) && i < |s.cards|
  {
    var s1 := AfterFirstClick(s);
    if !Accepts(s1, i) then s1
    else
      var s2 := s1.(isFlipped := s1.isFlipped[i := true], flippedCards := s1.flippedCards + [i]);
      if |s2.flippedCards| == 2 then AfterCheck(s2.(isProcessing := true, moves := s2.moves + 1)) else s2
  }

  /**
   * The oldest pending mismatch timeout fires: its two cards turn face down
   * if they are still on the page, the lock clears and the selection
   * empties, whatever board is on screen.
   */
  function AfterTimeout(s: Session): Session
    requires s.scheduled != [] && CallbacksOk(s)
  {
    var cb := s.scheduled[0];
    var flags := if cb.board == s.board then s.isFlipped[cb.first := false][cb.second := false] else s.isFlipped;
    s.(isFlipped := flags, isProcessing := false, flippedCards := [], scheduled := s.scheduled[1..])
  }

  /** A build leaves a face-down board of pairs of the chosen palette, nothing pending or matched, the timer stopped. */
  lemma BuildAsWrittenFresh(s: Session, difficulty: string, picks: seq<nat>)
    requires ValidPicks(picks, 2 * PaletteSize(difficulty))
    ensures var t := AfterBuildAsWritten(s, difficulty, picks);
      && BoardOk(t) && SelectionOk(t)
      && (CallbacksOk(s) ==> CallbacksOk(t))
      && |t.cards| == 2 * PaletteSize(difficulty)
      && (forall x :: multiset(t.cards)[x] == if x in EmojisByDifficulty(difficulty) then 2 else 0)
      && (forall i :: 0 <= i < |t.cards| ==> !t.isFlipped[i])
      && t.moves == 0 && t.matchedPairs == 0 && t.timer == 0 && !t.timerRunning && t.firstClick
      && t.bestScore == s.bestScore && t.scheduled == s.scheduled
  {
    var p := EmojisByDifficulty(difficulty);
    var deck := Shuffled(p + p, picks);
    ShuffledIsPermutation(p + p, picks);
    PairBoard(p, deck);
    FreshSelection(deck);
  }

  /** The cancelling build leaves a consistent session with no timeout pending. */
  lemma BuildConsistent(s: Session, difficulty: string, picks: seq<nat>)
    requires ValidPicks(picks, 2 * PaletteSize(difficulty))
    ensures Consistent(AfterBuild(s, difficulty, picks))
    ensures AfterBuild(s, difficulty, picks).scheduled == []
  {
    BuildAsWrittenFresh(s.(scheduled := []), difficulty, picks);
  }

  /** A won session: the pairs found never exceed the palette, and when they reach it every card is matched and face up. */
  lemma AllMatched(s: Session)
    requires BoardOk(s) && SelectionOk(s)
    ensures s.matchedPairs <= |s.currentEmojis|
    ensures s.matchedPairs == |s.currentEmojis| ==> forall i :: 0 <= i < |s.cards| ==> s.isFlipped[i] && i in s.matched
  {
    PairBoard(s.currentEmojis, s.cards);
    IndexSetBound(s.matched, |s.cards|);
  }

  /**
   * Turning up a face-down card with nothing pending: the click can occur,
   * the card becomes the one pending card, nothing else of the play changes,
   * and the session stays playable (and consistent, when it was).
   */
  lemma FirstPick(s: Session, i: nat)
    requires Playable(s) && i < |s.cards| && Accepts(s, i) && s.flippedCards == []
    ensures var t := AfterClick(s, i);
      && Step(s, CardClick(i)) == Some(t)
      && Playable(t) && (Consistent(s) ==> Consistent(t))
      && t.flippedCards == [i] && t.isFlipped == s.isFlipped[i := true] && !t.isProcessing
      && t.cards == s.cards && t.moves == s.moves && t.matchedPairs == s.matchedPairs
      && t.matched == s.matched && t.scheduled == s.scheduled
  {
    FlipFirst(s.cards, s.isFlipped, s.matched, s.matchedPairs, s.moves, i);
  }

  /** The state the match check starts from: a pair pending under the lock, with its move counted. */
  ghost predicate Checking(s: Session) {
    && BoardOk(s) && CallbacksOk(s)
    && Selection(s.cards, s.isFlipped, s.flippedCards, s.matched, s.matchedPairs, s.moves)
    && |s.flippedCards| == 2 && s.isProcessing && s.matchedPairs < s.moves
  }

  /** A found pair keeps the session playable and consistent, including when it ends the session. */
  lemma MatchKeeps(s: Session)
    requires Checking(s) && s.cards[s.flippedCards[0]] == s.cards[s.flippedCards[1]]
    ensures Playable(AfterCheck(s))
    ensures s.scheduled == [] ==> Consistent(AfterCheck(s))
  {
    var a, b := s.flippedCards[0], s.flippedCards[1];
    assert s.flippedCards == [a, b];
    MatchPair(s.currentEmojis, s.cards, s.isFlipped, s.matched, s.matchedPairs, s.moves, a, b);
  }

  /** A mismatch keeps the session playable, and its timeout is then the only one pending. */
  lemma MismatchKeeps(s: Session)
    requires Checking(s) && s.cards[s.flippedCards[0]] != s.cards[s.flippedCards[1]]
    ensures Playable(AfterCheck(s))
    ensures s.scheduled == [] ==> Consistent(AfterCheck(s))
  {
  }

  /** The session right after the second card of a selection is turned up, the lock set and the move counted. */
  function SecondFlip(s: Session, i: nat): Session
    requires i < |s.isFlipped|
  {
    var s1 := AfterFirstClick(s);
    s1.(isFlipped := s1.isFlipped[i := true], flippedCards := s1.flippedCards + [i], isProcessing := true, moves := s1.moves + 1)
  }

  /** An accepted click on a second card is the match check of the two pending cards. */
  lemma SecondFlipIsCheck(s: Session, i: nat)
    requires Playable(s) && i < |s.cards| && Accepts(s, i) && |s.flippedCards| == 1
    ensures Step(s, CardClick(i)) == Some(AfterCheck(SecondFlip(s, i)))
  {
  }

  /** Turning up the second card of a playable session hands the match check a well-formed pending pair. */
  lemma SecondFlipChecks(s: Session, i: nat)
    requires Playable(s) && i < |s.cards| && Accepts(s, i) && |s.flippedCards| == 1
    ensures Checking(SecondFlip(s, i))
  {
    var a := s.flippedCards[0];
    assert s.flippedCards == [a];
    FlipSecond(s.cards, s.isFlipped, s.matched, s.matchedPairs, s.moves, a, i);
  }

  /**
   * Turning up a second card of another symbol: one more move, both cards
   * up and pending under the lock, a timeout scheduled for them, and the
   * session stays playable (and consistent, when it was).
   */
  lemma SecondPickMismatch(s: Session, i: nat)
    requires Playable(s) && i < |s.cards| && Accepts(s, i) && |s.flippedCards| == 1
    requires s.cards[s.flippedCards[0]] != s.cards[i]
    ensures var t := AfterClick(s, i);
      && Step(s, CardClick(i)) == Some(t)
      && Playable(t) && (Consistent(s) ==> Consistent(t))
      && t.isProcessing && t.flippedCards == [s.flippedCards[0], i] && t.isFlipped == s.isFlipped[i := true]
      && t.scheduled == s.scheduled + [Unflip(s.board, s.flippedCards[0], i)]
      && t.cards == s.cards && t.moves == s.moves + 1 && t.matchedPairs == s.matchedPairs && t.matched == s.matched
      && t.bestScore == s.bestScore
  {
    SecondFlipIsCheck(s, i);
    SecondFlipChecks(s, i);
    MismatchKeeps(SecondFlip(s, i));
  }

  /**
   * Turning up the second card of a pair: one more move and one more pair,
   * nothing pending, and the session stays playable (and consistent, when it
   * was). The session ends, stopping the timer and offering its score to the
   * record, exactly when this was the last pair.
   */
  lemma SecondPickMatch(s: Session, i: nat)
    requires Playable(s) && i < |s.cards| && Accepts(s, i) && |s.flippedCards| == 1
    requires s.cards[s.flippedCards[0]] == s.cards[i]
    ensures var t := AfterClick(s, i);
      && Step(s, CardClick(i)) == Some(t)
      && Playable(t) && (Consistent(s) ==> Consistent(t))
      && !t.isProcessing && t.flippedCards == [] && t.isFlipped == s.isFlipped[i := true] && t.scheduled == s.scheduled
      && t.cards == s.cards && t.moves == s.moves + 1 && t.matchedPairs == s.matchedPairs + 1
      && t.matched == s.matched + {s.flippedCards[0], i}
      && (t.matchedPairs == |t.currentEmojis| ==> !t.timerRunning && t.bestScore == SaveBest(s.bestScore, Score(t.moves, t.timer)))
      && (t.matchedPairs < |t.currentEmojis| ==> t.timerRunning == AfterFirstClick(s).timerRunning && t.bestScore == s.bestScore)
  {
    SecondFlipIsCheck(s, i);
    SecondFlipChecks(s, i);
    MatchKeeps(SecondFlip(s, i));
  }

  /**
   * Every click keeps a playable session playable and a consistent one
   * consistent; a click under the lock or on a face-up card only runs the
   * first-click listener.
   */
  lemma ClickKeeps(s: Session, i: nat)
    requires Playable(s) && i < |s.cards|
    ensures Playable(AfterClick(s, i))
    ensures Consistent(s) ==> Consistent(AfterClick(s, i))
    ensures !Accepts(s, i) ==> AfterClick(s, i) == AfterFirstClick(s)
  {
    if !Accepts(s, i) {
    } else if s.flippedCards == [] {
      FirstPick(s, i);
    } else if s.cards[s.flippedCards[0]] == s.cards[i] {
      SecondPickMatch(s, i);
    } else {
      SecondPickMismatch(s, i);
    }
  }

  /** The pending pair's timeout turns both cards back down and leaves a consistent session with nothing pending. */
  lemma TimeoutKeeps(s: Session)
    requires Consistent(s) && s.isProcessing
    ensures var t := AfterTimeout(s);
      && Step(s, TimeoutFires) == Some(t)
      && Consistent(t) && t.scheduled == [] && t.flippedCards == []
      && !t.isFlipped[s.flippedCards[0]] && !t.isFlipped[s.flippedCards[1]]
      && t.matched == s.matched && t.matchedPairs == s.matchedPairs && t.moves == s.moves
  {
    UnflipPair(s.cards, s.isFlipped, s.matched, s.matchedPairs, s.moves, s.flippedCards[0], s.flippedCards[1]);
  }

  /** A consistent session is well formed. */
  lemma ConsistentWellformed(s: Session)
    requires Consistent(s)
    ensures Wellformed(s)
  {
  }

  /** Every click keeps a well-formed session well formed, whatever the board holds. */
  lemma ClickWellformed(s: Session, i: nat)
    requires Wellformed(s) && i < |s.cards|
    ensures Wellformed(AfterClick(s, i))
  {
  }

  /** A firing timeout keeps a well-formed session well formed, on its own board or a stale one. */
  lemma TimeoutWellformed(s: Session)
    requires Wellformed(s) && s.scheduled != []
    ensures Wellformed(AfterTimeout(s))
  {
  }

  /** Both builds leave a well-formed session when the pending timeouts were sound. */
  lemma BuildWellformed(s: Session, difficulty: string, picks: seq<nat>)
    requires CallbacksOk(s) && ValidPicks(picks, 2 * PaletteSize(difficulty))
    ensures Wellformed(AfterBuildAsWritten(s, difficulty, picks))
    ensures Wellformed(AfterBuild(s, difficulty, picks))
  {
    BuildAsWrittenFresh(s, difficulty, picks);
    BuildAsWrittenFresh(s.(scheduled := []), difficulty, picks);
  }

  /** A click keeps the shape, and keeps a consistent session consistent. */
  lemma ClickValid(s: Session, i: nat)
    requires Wellformed(s) && i < |s.cards|
    ensures Wellformed(AfterClick(s, i))
    ensures Consistent(s) ==> Consistent(AfterClick(s, i))
  {
    ClickWellformed(s, i);
    if Consistent(s) {
      ClickKeeps(s, i);
    }
  }

  /** A firing timeout keeps the shape, and keeps a consistent session consistent. */
  lemma TimeoutValid(s: Session)
    requires s.scheduled != [] && CallbacksOk(s)
    ensures Wellformed(s) ==> Wellformed(AfterTimeout(s))
    ensures Consistent(s) ==> Consistent(AfterTimeout(s))
  {
    if Wellformed(s) {
      TimeoutWellformed(s);
    }
    if Consistent(s) {
      TimeoutKeeps(s);
    }
  }

  /** The events the page reacts to. */
  datatype Event =
    | CardClick(index: nat)
    | BoardClick
    | TimeoutFires
    | TimerTick
    | Restart(difficulty: string, picks: seq<nat>)

  /**
   * One event, where it can occur: a click on a card of the board, a click
   * inside the board that hits no card (only the first-click listener sees
   * it), the oldest pending timeout, a tick of the armed interval, a rebuild (restart
   * button, message restart button, difficulty change). None when the event
   * cannot occur in `s`.
   */
  ghost function Step(s: Session, e: Event): Option<Session> {
    match e
    case CardClick(i) => if Wellformed(s) && i < |s.cards| then Some(AfterClick(s, i)) else None
    case BoardClick => Some(AfterFirstClick(s))
    case TimeoutFires => if s.scheduled != [] && CallbacksOk(s) then Some(AfterTimeout(s)) else None
    case TimerTick => if s.timerRunning then Some(s.(timer := s.timer + 1)) else None
    case Restart(d, picks) => if ValidPicks(picks, 2 * PaletteSize(d)) then Some(AfterBuild(s, d, picks)) else None
  }

  /** A sequence of events from `s`; None when one of them cannot occur. */
  ghost function Run(s: Session, evs: seq<Event>): Option<Session>
    decreases |evs|
  {
    if evs == [] then Some(s)
    else match Step(s, evs[0])
      case None => None
      case Some(t) => Run(t, evs[1..])
  }

  /** Every event that can occur keeps a consistent session consistent. */
  lemma StepKeeps(s: Session, e: Event)
    requires Consistent(s) && Step(s, e).Some?
    ensures Consistent(Step(s, e).value)
  {
    match e
    case CardClick(i) => ClickKeeps(s, i);
    case BoardClick =>
    case TimeoutFires => TimeoutKeeps(s);
    case TimerTick =>
    case Restart(d, picks) => BuildConsistent(s, d, picks);
  }

  /** Whatever events occur, a consistent session stays consistent: the invariant of the page with cancelling rebuilds. */
  lemma {:induction false} RunKeepsConsistent(s: Session, evs: seq<Event>)
    requires Consistent(s)
    ensures Run(s, evs).Some? ==> Consistent(Run(s, evs).value)
    decreases |evs|
  {
    if evs != [] && Step(s, evs[0]).Some? {
      StepKeeps(s, evs[0]);
      RunKeepsConsistent(Step(s, evs[0]).value, evs[1..]);
    }
  }

  /** Running two event sequences one after the other is running their concatenation. */
  lemma {:induction false} RunAppend(s: Session, xs: seq<Event>, ys: seq<Event>)
    ensures Run(s, xs + ys) == if Run(s, xs).Some? then Run(Run(s, xs).value, ys) else None
    decreases |xs|
  {
    if xs != [] {
      assert (xs + ys)[0] == xs[0];
      assert (xs + ys)[1..] == xs[1..] + ys;
      if Step(s, xs[0]).Some? {
        RunAppend(Step(s, xs[0]).value, xs[1..], ys);
      }
    } else {
      assert xs + ys == ys;
    }
  }

  /** Two face-down cards of different symbols: one move more, both pending under the lock. */
  lemma MismatchPicks(s: Session, a: nat, b: nat)
    requires Consistent(s) && !s.isProcessing && s.flippedCards == []
    requires a < |s.cards| && b < |s.cards| && a != b && !s.isFlipped[a] && !s.isFlipped[b]
    requires s.cards[a] != s.cards[b]
    ensures var r := Run(s, [CardClick(a), CardClick(b)]);
      && r.Some? && r.value.cards == s.cards && r.value.isFlipped == s.isFlipped[a := true][b := true]
      && r.value.isProcessing && r.value.flippedCards == [a, b]
      && r.value.moves == s.moves + 1 && r.value.matchedPairs == s.matchedPairs && r.value.matched == s.matched
      && r.value.scheduled == [Unflip(s.board, a, b)] && r.value.board == s.board
  {
    var s1 := AfterClick(s, a);
    var s2 := AfterClick(s1, b);
    assert Step(s, CardClick(a)) == Some(s1) && Step(s1, CardClick(b)) == Some(s2) && s2.cards == s.cards
      && s2.flippedCards == [a, b] && s2.isFlipped == s.isFlipped[a := true][b := true] && s2.isProcessing
      && s2.moves == s.moves + 1 && s2.matchedPairs == s.matchedPairs && s2.matched == s.matched
      && s2.scheduled == [Unflip(s.board, a, b)] && s2.board == s.board by {
      FirstPick(s, a);
      SecondPickMismatch(s1, b);
    }
    var evs := [CardClick(a), CardClick(b)];
    assert Run(s1, evs[1..]) == Some(s2) by { assert evs[1..][1..] == []; }
    assert Run(s, evs) == Some(s2);
  }

  /** Two face-down cards of different symbols, then their timeout: one move more, and the board is as before. */
  lemma MismatchRound(s: Session, a: nat, b: nat)
    requires Consistent(s) && !s.isProcessing && s.flippedCards == []
    requires a < |s.cards| && b < |s.cards| && a != b && !s.isFlipped[a] && !s.isFlipped[b]
    requires s.cards[a] != s.cards[b]
    ensures var r := Run(s, [CardClick(a), CardClick(b), TimeoutFires]);
      && r.Some? && r.value.cards == s.cards && r.value.isFlipped == s.isFlipped
      && !r.value.isProcessing && r.value.flippedCards == []
      && r.value.moves == s.moves + 1 && r.value.matchedPairs == s.matchedPairs && r.value.matched == s.matched
  {
    var picks := [CardClick(a), CardClick(b)];
    MismatchPicks(s, a, b);
    var s2 := Run(s, picks).value;
    var s3 := AfterTimeout(s2);
    assert s3.isFlipped == s.isFlipped by {
      assert forall k :: 0 <= k < |s.isFlipped| ==> s3.isFlipped[k] == s.isFlipped[k];
    }
    RunAppend(s, picks, [TimeoutFires]);
    assert picks + [TimeoutFires] == [CardClick(a), CardClick(b), TimeoutFires];
  }

  /** Two face-down cards of one symbol: one move and one pair more, nothing pending. */
  lemma MatchRound(s: Session, c: nat, d: nat)
    requires Consistent(s) && !s.isProcessing && s.flippedCards == []
    requires c < |s.cards| && d < |s.cards| && c != d && !s.isFlipped[c] && !s.isFlipped[d]
    requires s.cards[c] == s.cards[d]
    ensures var r := Run(s, [CardClick(c), CardClick(d)]);
      && r.Some? && !r.value.isProcessing && r.value.flippedCards == []
      && r.value.moves == s.moves + 1 && r.value.matchedPairs == s.matchedPairs + 1 && r.value.matched == s.matched + {c, d}
  {
    var s1 := AfterClick(s, c);
    var s2 := AfterClick(s1, d);
    assert Step(s, CardClick(c)) == Some(s1) && Step(s1, CardClick(d)) == Some(s2)
      && !s2.isProcessing && s2.flippedCards == [] && s2.moves == s.moves + 1
      && s2.matchedPairs == s.matchedPairs + 1 && s2.matched == s.matched + {c, d} by {
      FirstPick(s, c);
      SecondPickMatch(s1, d);
    }
    var evs := [CardClick(c), CardClick(d)];
    assert Run(s1, evs[1..]) == Some(s2) by { assert evs[1..][1..] == []; }
    assert Run(s, evs) == Some(s2);
  }

  /**
   * On a fresh board: two cards of different symbols, their timeout, then
   * the two cards of one symbol. Two moves, one pair, nothing pending.
   */
  lemma MismatchThenMatch(s: Session, a: nat, b: nat, c: nat, d: nat)
    requires Consistent(s) && s.moves == 0 && s.matchedPairs == 0 && !s.isProcessing && s.flippedCards == []
    requires forall i :: 0 <= i < |s.isFlipped| ==> !s.isFlipped[i]
    requires a < |s.cards| && b < |s.cards| && c < |s.cards| && d < |s.cards|
    requires a != b && s.cards[a] != s.cards[b]
    requires c != d && s.cards[c] == s.cards[d]
    ensures var r := Run(s, [CardClick(a), CardClick(b), TimeoutFires, CardClick(c), CardClick(d)]);
      && r.Some? && Consistent(r.value)
      && r.value.moves == 2 && r.value.matchedPairs == 1 && r.value.matched == {c, d}
      && r.value.flippedCards == [] && !r.value.isProcessing
  {
    var first, second := [CardClick(a), CardClick(b), TimeoutFires], [CardClick(c), CardClick(d)];
    MismatchRound(s, a, b);
    RunKeepsConsistent(s, first);
    MatchRound(Run(s, first).value, c, d);
    RunAppend(s, first, second);
    assert first + second == [CardClick(a), CardClick(b), TimeoutFires, CardClick(c), CardClick(d)];
    RunKeepsConsistent(s, first + second);
  }

  /** The build as written leaves a playable session, card 0 face down, on a board newer than every pending timeout. */
  lemma BuildPlayable(s: Session, difficulty: string, picks: seq<nat>)
    requires CallbacksOk(s) && ValidPicks(picks, 2 * PaletteSize(difficulty))
    ensures var t := AfterBuildAsWritten(s, difficulty, picks);
      && Playable(t) && 0 < |t.cards| && !t.isFlipped[0] && !t.isProcessing && t.flippedCards == []
      && t.scheduled == s.scheduled && t.board == s.board + 1 && t.matched == {} && Wellformed(t)
  {
    BuildAsWrittenFresh(s, difficulty, picks);
    BuildWellformed(s, difficulty, picks);
  }

  /**
   * Restarting while a mismatch timeout is pending, as the page does it:
   * the old timeout survives the rebuild, and when it fires after a card of the new
   * board was turned up, that card stays face up while being neither matched
   * nor pending, and the handler refuses every further click on it.
   */
  lemma StaleTimeout(s: Session, difficulty: string, picks: seq<nat>)
    requires CallbacksOk(s) && s.scheduled != []
    requires ValidPicks(picks, 2 * PaletteSize(difficulty))
    ensures var r := Run(AfterBuildAsWritten(s, difficulty, picks), [CardClick(0), TimeoutFires]);
      && r.Some? && 0 < |r.value.isFlipped|
      && r.value.isFlipped[0] && 0 !in r.value.matched && 0 !in r.value.flippedCards
      && !Accepts(r.value, 0) && !SelectionOk(r.value) && Stranded(r.value, 0)
  {
    var s0 := AfterBuildAsWritten(s, difficulty, picks);
    BuildPlayable(s, difficulty, picks);
    FirstPick(s0, 0);
    var s1 := AfterClick(s0, 0);
    var s2 := AfterTimeout(s1);
    assert s2.isFlipped == s1.isFlipped;
    assert Wellformed(s2) by {
      ClickWellformed(s0, 0);
      TimeoutWellformed(s1);
    }
    var evs := [CardClick(0), TimeoutFires];
    assert Run(s1, evs[1..]) == Some(s2) by { assert evs[1..][1..] == []; }
    assert Run(s0, evs) == Some(s2);
  }

  /**
   * Card `c` is stranded: face up, yet neither matched nor pending, and no
   * pending timeout of the current board names it, so nothing will turn it
   * down again short of a rebuild.
   */
  ghost predicate Stranded(s: Session, c: nat) {
    && Wellformed(s) && c < |s.cards|
    && s.isFlipped[c] && c !in s.matched && c !in s.flippedCards
    && forall k :: 0 <= k < |s.scheduled| && s.scheduled[k].board == s.board ==>
         s.scheduled[k].first != c && s.scheduled[k].second != c
  }

  /** A stranded card stays stranded under every event but a rebuild; a click on it only runs the first-click listener. */
  lemma StrandedStep(s: Session, c: nat, e: Event)
    requires Stranded(s, c) && !e.Restart? && Step(s, e).Some?
    ensures Stranded(Step(s, e).value, c)
    ensures !Accepts(s, c) && (e == CardClick(c) ==> Step(s, e).value == AfterFirstClick(s))
  {
    match e
    case CardClick(i) => ClickWellformed(s, i);
    case BoardClick =>
    case TimeoutFires => TimeoutWellformed(s);
    case TimerTick =>
  }

  /**
   * Whatever events follow, short of a rebuild, a stranded card stays
   * stranded: the card handler refuses every click on it and it is never
   * matched, so fewer pairs than the palette has are ever found and the
   * session never reaches its end.
   */
  lemma {:induction false} RunStranded(s: Session, c: nat, evs: seq<Event>)
    requires Tally(s) && Stranded(s, c)
    requires forall k :: 0 <= k < |evs| ==> !evs[k].Restart?
    ensures Run(s, evs).Some? ==> var t := Run(s, evs).value;
      Stranded(t, c) && !Accepts(t, c) && Tally(t) && t.matchedPairs < |t.currentEmojis|
    decreases |evs|
  {
    if evs == [] {
      TallyIncomplete(s, c);
    } else if Step(s, evs[0]).Some? {
      StrandedStep(s, c, evs[0]);
      TallyStep(s, evs[0]);
      assert forall k :: 0 <= k < |evs[1..]| ==> !evs[1..][k].Restart? by {
        forall k | 0 <= k < |evs[1..]|
          ensures !evs[1..][k].Restart?
        {
          assert evs[1..][k] == evs[k + 1];
        }
      }
      RunStranded(Step(s, evs[0]).value, c, evs[1..]);
    }
  }

  /** A pending timeout of the current board names two distinct face-up, unmatched cards, not pending while the lock is clear. */
  ghost predicate Live(s: Session, u: Unflip) {
    && u.first != u.second && u.first < |s.isFlipped| && u.second < |s.isFlipped|
    && s.isFlipped[u.first] && s.isFlipped[u.second]
    && u.first !in s.matched && u.second !in s.matched
    && (!s.isProcessing ==> u.first !in s.flippedCards && u.second !in s.flippedCards)
  }

  /** Two timeouts name four different cards. */
  predicate Apart(u: Unflip, v: Unflip) {
    u.first != v.first && u.first != v.second && u.second != v.first && u.second != v.second
  }

  /**
   * The pair count of every reachable session, whether or not rebuilds
   * cancel the pending timeouts: matched cards are face up and number twice
   * the pairs found; pending cards are distinct, face up and unmatched; and
   * the timeouts of the current board name live cards, no card twice.
   */
  ghost predicate Tally(s: Session) {
    && Wellformed(s) && |s.cards| == 2 * |s.currentEmojis|
    && |s.matched| == 2 * s.matchedPairs
    && (forall i :: i in s.matched ==> i < |s.isFlipped| && s.isFlipped[i])
    && (forall k :: 0 <= k < |s.flippedCards| ==> s.isFlipped[s.flippedCards[k]] && s.flippedCards[k] !in s.matched)
    && (|s.flippedCards| == 2 ==> s.flippedCards[0] != s.flippedCards[1])
    && (forall k :: 0 <= k < |s.scheduled| && s.scheduled[k].board == s.board ==> Live(s, s.scheduled[k]))
    && (forall k, l :: 0 <= k < l < |s.scheduled| && s.scheduled[k].board == s.board && s.scheduled[l].board == s.board ==>
          Apart(s.scheduled[k], s.scheduled[l]))
  }

  /** The build as written starts the count afresh: the pending timeouts all belong to older boards. */
  lemma BuildTally(s: Session, difficulty: string, picks: seq<nat>)
    requires CallbacksOk(s) && ValidPicks(picks, 2 * PaletteSize(difficulty))
    ensures Tally(AfterBuildAsWritten(s, difficulty, picks))
  {
    BuildAsWrittenFresh(s, difficulty, picks);
    BuildWellformed(s, difficulty, picks);
  }

  /** A click on a face-down card with the lock clear and nothing pending keeps the count. */
  lemma TallyFirstPick(s: Session, i: nat)
    requires Tally(s) && i < |s.cards| && Accepts(s, i) && s.flippedCards == []
    ensures Tally(AfterClick(s, i))
  {
  }

  /** A second card of another symbol keeps the count: its timeout names two fresh live cards. */
  lemma TallySecondMismatch(s: Session, i: nat)
    requires Tally(s) && i < |s.cards| && Accepts(s, i) && |s.flippedCards| == 1
    requires s.cards[s.flippedCards[0]] != s.cards[i]
    ensures Tally(AfterClick(s, i))
  {
    var t := AfterClick(s, i);
    var a := s.flippedCards[0];
    assert t.scheduled == s.scheduled + [Unflip(s.board, a, i)];
    assert t.flippedCards == [a, i];
  }

  /**
   * Turning up a second card and taking the two as a pair keeps the count,
   * whatever happens to the fields the count does not read (moves, timer, record).
   */
  lemma TallyPair(s: Session, i: nat, t: Session)
    requires Tally(s) && i < |s.cards| && Accepts(s, i) && |s.flippedCards| == 1
    requires t.cards == s.cards && t.currentEmojis == s.currentEmojis && t.board == s.board && t.scheduled == s.scheduled
    requires t.isFlipped == s.isFlipped[i := true] && t.flippedCards == [] && !t.isProcessing
    requires t.matchedPairs == s.matchedPairs + 1 && t.matched == s.matched + {s.flippedCards[0], i}
    ensures Tally(t)
  {
    var a := s.flippedCards[0];
    assert |t.matched| == |s.matched| + 2 by {
      assert a !in s.matched && i !in s.matched && a != i;
      assert |{a, i}| == 2;
    }
    forall k | 0 <= k < |t.scheduled| && t.scheduled[k].board == t.board
      ensures Live(t, t.scheduled[k])
    {
      assert Live(s, s.scheduled[k]);
    }
  }

  /** A second card of the same symbol keeps the count: the two cards join the matched set as a new pair. */
  lemma TallySecondMatch(s: Session, i: nat)
    requires Tally(s) && i < |s.cards| && Accepts(s, i) && |s.flippedCards| == 1
    requires s.cards[s.flippedCards[0]] == s.cards[i]
    ensures Tally(AfterClick(s, i))
  {
    var t := AfterClick(s, i);
    assert t.cards == s.cards && t.currentEmojis == s.currentEmojis && t.board == s.board && t.scheduled == s.scheduled;
    assert t.isFlipped == s.isFlipped[i := true] && t.flippedCards == [] && !t.isProcessing;
    assert t.matchedPairs == s.matchedPairs + 1 && t.matched == s.matched + {s.flippedCards[0], i};
    TallyPair(s, i, t);
  }

  /** The end of a session touches neither the board nor the selection, so it keeps the count. */
  lemma TallyEndGame(s: Session)
    requires Tally(s)
    ensures Tally(AfterEndGame(s))
  {
    var t := AfterEndGame(s);
    assert t.(timerRunning := s.timerRunning, bestScore := s.bestScore) == s;
  }

  /** Every click keeps the count. */
  lemma TallyClick(s: Session, i: nat)
    requires Tally(s) && i < |s.cards|
    ensures Tally(AfterClick(s, i))
  {
    if !Accepts(s, i) {
    } else if s.flippedCards == [] {
      TallyFirstPick(s, i);
    } else if s.cards[s.flippedCards[0]] == s.cards[i] {
      TallySecondMatch(s, i);
    } else {
      TallySecondMismatch(s, i);
    }
  }

  /** A firing timeout keeps the count, on its own board or a stale one. */
  lemma TallyTimeout(s: Session)
    requires Tally(s) && s.scheduled != []
    ensures Tally(AfterTimeout(s))
  {
    var t := AfterTimeout(s);
    var cb := s.scheduled[0];
    TimeoutWellformed(s);
    forall k | 0 <= k < |t.scheduled| && t.scheduled[k].board == t.board
      ensures Live(t, t.scheduled[k])
    {
      assert t.scheduled[k] == s.scheduled[k + 1];
      if cb.board == s.board {
        assert Apart(cb, s.scheduled[k + 1]);
      }
    }
    forall k, l | 0 <= k < l < |t.scheduled| && t.scheduled[k].board == t.board && t.scheduled[l].board == t.board
      ensures Apart(t.scheduled[k], t.scheduled[l])
    {
      assert t.scheduled[k] == s.scheduled[k + 1] && t.scheduled[l] == s.scheduled[l + 1];
    }
  }

  /** The count reads only the board, the selection, the matched cards and the pending timeouts. */
  lemma TallyFrame(s: Session, t: Session)
    requires Tally(s)
    requires t.cards == s.cards && t.currentEmojis == s.currentEmojis && t.board == s.board && t.scheduled == s.scheduled
    requires t.isFlipped == s.isFlipped && t.flippedCards == s.flippedCards && t.isProcessing == s.isProcessing
    requires t.matchedPairs == s.matchedPairs && t.matched == s.matched
    ensures Tally(t)
  {
  }

  /** Every event keeps the count, the rebuild included. */
  lemma TallyStep(s: Session, e: Event)
    requires Tally(s) && Step(s, e).Some?
    ensures Tally(Step(s, e).value)
  {
    var t := Step(s, e).value;
    match e
    case CardClick(i) =>
      assert t == AfterClick(s, i);
      TallyClick(s, i);
    case BoardClick =>
      TallyFrame(s, t);
    case TimeoutFires =>
      assert t == AfterTimeout(s);
      TallyTimeout(s);
    case TimerTick =>
      TallyFrame(s, t);
    case Restart(d, picks) =>
      assert t == AfterBuildAsWritten(s.(scheduled := []), d, picks);
      BuildTally(s.(scheduled := []), d, picks);
  }

  /** Every run keeps the count. */
  lemma {:induction false} RunTally(s: Session, evs: seq<Event>)
    requires Tally(s)
    ensures Run(s, evs).Some? ==> Tally(Run(s, evs).value)
    decreases |evs|
  {
    if evs != [] && Step(s, evs[0]).Some? {
      TallyStep(s, evs[0]);
      RunTally(Step(s, evs[0]).value, evs[1..]);
    }
  }

  /** While a card is unmatched, fewer pairs than the palette has are found, so the session cannot end. */
  lemma TallyIncomplete(s: Session, c: nat)
    requires Tally(s) && c < |s.cards| && c !in s.matched
    ensures s.matchedPairs < |s.currentEmojis|
  {
    IndexSetBound(s.matched, |s.cards|);
  }

  /**
   * The whole failure, as the page does it: restart while a mismatch timeout
   * is pending, turn up the first card, let the old timeout fire; whatever
   * events follow short of another rebuild, that card stays stranded and
   * the session never finds its last pair, so it never ends.
   */
  lemma StaleBoardNeverEnds(s: Session, difficulty: string, picks: seq<nat>, evs: seq<Event>)
    requires CallbacksOk(s) && s.scheduled != []
    requires ValidPicks(picks, 2 * PaletteSize(difficulty))
    requires forall k :: 0 <= k < |evs| ==> !evs[k].Restart?
    ensures var r := Run(AfterBuildAsWritten(s, difficulty, picks), [CardClick(0), TimeoutFires] + evs);
      r.Some? ==> Stranded(r.value, 0) && !Accepts(r.value, 0) && r.value.matchedPairs < |r.value.currentEmojis|
  {
    var s0 := AfterBuildAsWritten(s, difficulty, picks);
    var stale := [CardClick(0), TimeoutFires];
    StaleTimeout(s, difficulty, picks);
    BuildTally(s, difficulty, picks);
    RunTally(s0, stale);
    RunStranded(Run(s0, stale).value, 0, evs);
    RunAppend(s0, stale, evs);
  }

  /** With the cancelling rebuild, from any state, the same click leaves a consistent session and no timeout is left to fire. */
  lemma RestartCancelsTimeout(s: Session, difficulty: string, picks: seq<nat>)
    requires ValidPicks(picks, 2 * PaletteSize(difficulty))
    ensures var r := Run(s, [Restart(difficulty, picks), CardClick(0)]);
      r.Some? && Consistent(r.value) && r.value.flippedCards == [0] && r.value.scheduled == []
    ensures Run(s, [Restart(difficulty, picks), CardClick(0), TimeoutFires]) == None
  {
    var s0 := AfterBuild(s, difficulty, picks);
    BuildConsistent(s, difficulty, picks);
    BuildAsWrittenFresh(s.(scheduled := []), difficulty, picks);
    FirstPick(s0, 0);
    var s1 := AfterClick(s0, 0);
    var clicked := [Restart(difficulty, picks), CardClick(0)];
    assert Step(s, clicked[0]) == Some(s0);
    assert Run(s0, clicked[1..]) == Some(s1) by { assert clicked[1..][1..] == []; }
    assert Run(s, clicked) == Some(s1);
    var fired := clicked + [TimeoutFires];
    assert Run(s1, [TimeoutFires]) == None;
    RunAppend(s, clicked, [TimeoutFires]);
  }

  /**
   * The page's state as one object whose fields the event handlers update
   * in place; `Snap` reads it back as a Session, and every handler is
   * specified by the Session function it performs.
   */
  class GameController {
    /** The symbol of each card, in board order. */
    var cards: seq<Symbol>
    /** Whether each card carries the is-flipped class (face up). */
    var isFlipped: seq<bool>
    /** The pending selection: indices of the face-up cards awaiting a match check. */
    var flippedCards: seq<nat>
    var matchedPairs: nat
    var moves: nat
    var timer: nat
    /** Whether the one-second interval is armed. */
    var timerRunning: bool
    var isProcessing: bool
    var currentEmojis: seq<Symbol>
    /** Whether the first-click listener of the board is still armed. */
    var firstClick: bool
    /** The stored best-score record, or None when the store holds none. */
    var bestScore: Option<Score>
    /** The mismatch timeouts not yet fired, in the order they fire. */
    var scheduled: seq<Unflip>
    /** How many boards have been built: tells the current card elements from detached ones. */
    var board: nat
    /** The cards of the pairs found on the current board. */
    ghost var matched: set<nat>

    /** The object's state as a Session value. */
    ghost function Snap(): Session
      reads this
    {
      Session(cards, isFlipped, flippedCards, matchedPairs, moves, timer, timerRunning,
        isProcessing, currentEmojis, firstClick, bestScore, scheduled, board, matched)
    }

    /** The object holds a consistent session, of the shape the click handler relies on. */
    ghost predicate Valid()
      reads this
    {
      Consistent(Snap()) && Wellformed(Snap())
    }

    /** Page load: the module-level initial values, the stored record read, and a first board built. */
    constructor (stored: Option<Score>, difficulty: string, picks: seq<nat>)
      requires ValidPicks(picks, 2 * PaletteSize(difficulty))
      ensures Snap() == AfterBuild(Initial(stored), difficulty, picks)
      ensures Valid()
    {
      cards, isFlipped, flippedCards := [], [], [];
      matchedPairs, moves, timer := 0, 0, 0;
      timerRunning, isProcessing := false, false;
      currentEmojis := [];
      firstClick := false;
      bestScore := stored;
      scheduled := [];
      board := 0;
      matched := {};
      new;
      CreateBoard(difficulty, picks);
    }

    method StopTimer()
      modifies this`timerRunning
      ensures !timerRunning
    {
      timerRunning := false;
    }

    /** Starting first stops any running interval, so at most one is ever armed. */
    method StartTimer()
      modifies this`timerRunning
      ensures timerRunning
    {
      StopTimer();
      timerRunning := true;
    }

    /** One tick of the armed interval: a second more on the clock. */
    method Tick()
      requires timerRunning
      modifies this`timer
      ensures Snap() == old(Snap()).(timer := old(timer) + 1)
      ensures old(Valid()) ==> Valid()
    {
      timer := timer + 1;
    }

    /** The board build as the page does it; pending mismatch timeouts stay scheduled. */
    method CreateBoardAsWritten(difficulty: string, picks: seq<nat>)
      requires ValidPicks(picks, 2 * PaletteSize(difficulty))
      modifies this
      ensures Snap() == AfterBuildAsWritten(old(Snap()), difficulty, picks)
    {
      ghost var s0 := Snap();
      var p := EmojisByDifficulty(difficulty);
      var deck := ShuffledDeck(p, picks);
      assert Snap() == s0;
      // stopTimer, the reset of the counters, the lock and the selection, the new board and the armed listener
      timerRunning, timer, moves, matchedPairs, isProcessing, flippedCards := false, 0, 0, 0, false, [];
      currentEmojis, cards, isFlipped, matched, board, firstClick := p, deck, FaceDown(|deck|), {}, board + 1, true;
      assert Snap() == s0.(timerRunning := false, timer := 0, moves := 0, matchedPairs := 0, isProcessing := false,
        flippedCards := [], currentEmojis := p, cards := deck, isFlipped := FaceDown(|deck|),
        matched := {}, board := s0.board + 1, firstClick := true);
      BuildAsWrittenUnfold(s0, difficulty, picks, deck);
    }

    /** The board build with the pending mismatch timeouts cancelled first, so no callback outlives its board. */
    method CreateBoard(difficulty: string, picks: seq<nat>)
      requires ValidPicks(picks, 2 * PaletteSize(difficulty))
      modifies this
      ensures Snap() == AfterBuild(old(Snap()), difficulty, picks)
      ensures Valid()
    {
      BuildConsistent(Snap(), difficulty, picks);
      ConsistentWellformed(AfterBuild(Snap(), difficulty, picks));
      scheduled := [];
      CreateBoardAsWritten(difficulty, picks);
    }

    /** The capture-phase first-click listener: the first click on the board after a build starts the timer. */
    method OnBoardClick()
      modifies this`firstClick, this`timerRunning
      ensures Snap() == AfterFirstClick(old(Snap()))
    {
      if firstClick {
        StartTimer();
        firstClick := false;
      }
    }

    /** The end of a session: stop the timer and store the session's score if it beats the record. */
    method EndGame()
      modifies this`timerRunning, this`bestScore
      ensures Snap() == AfterEndGame(old(Snap()))
    {
      StopTimer();
      bestScore := SaveBest(bestScore, Score(moves, timer));
    }

    /** The match check of the pending pair. */
    method CheckForMatch()
      requires |flippedCards| == 2 && flippedCards[0] < |cards| && flippedCards[1] < |cards|
      modifies this
      ensures Snap() == AfterCheck(old(Snap()))
    {
      var a, b := flippedCards[0], flippedCards[1];
      if cards[a] == cards[b] {
        matchedPairs := matchedPairs + 1;
        matched := matched + {a, b};
        isProcessing := false;
        flippedCards := [];
        if matchedPairs == |currentEmojis| {
          EndGame();
        }
      } else {
        scheduled := scheduled + [Unflip(board, a, b)];
      }
    }

    /**
     * The card's own click handler, once the first-click listener is
     * disarmed: refused under the lock or on a face-up card, otherwise the
     * card turns up and joins the selection, and the second card sets the
     * lock, counts a move and runs the match check.
     */
    method HandleCardClick(i: nat)
      requires Wellformed(Snap()) && i < |cards| && !firstClick
      modifies this
      ensures Snap() == AfterClick(old(Snap()), i)
    {
      ghost var s1 := Snap();
      if isProcessing || isFlipped[i] {
        return;
      }
      isFlipped := isFlipped[i := true];
      flippedCards := flippedCards + [i];
      if |flippedCards| == 2 {
        isProcessing := true;
        moves := moves + 1;
        assert Snap() == s1.(isFlipped := s1.isFlipped[i := true], flippedCards := s1.flippedCards + [i], isProcessing := true, moves := s1.moves + 1);
        CheckForMatch();
      }
    }

    /** A click on card `i`: the board's capture-phase first-click listener, then the card's own handler. */
    method ClickCard(i: nat)
      requires Wellformed(Snap()) && i < |cards|
      modifies this
      ensures Snap() == AfterClick(old(Snap()), i)
      ensures Wellformed(Snap())
      ensures old(Valid()) ==> Valid()
    {
      ghost var s0 := Snap();
      OnBoardClick();
      HandleCardClick(i);
      assert Snap() == AfterClick(s0, i);
      ClickValid(s0, i);
    }

    /** The oldest pending mismatch timeout fires. */
    method FireMismatchTimeout()
      requires scheduled != [] && CallbacksOk(Snap())
      modifies this
      ensures Snap() == AfterTimeout(old(Snap()))
      ensures old(Wellformed(Snap())) ==> Wellformed(Snap())
      ensures old(Valid()) ==> Valid()
    {
      TimeoutValid(Snap());
      var cb := scheduled[0];
      if cb.board == board {
        isFlipped := isFlipped[cb.first := false][cb.second := false];
      }
      isProcessing := false;
      flippedCards := [];
      scheduled := scheduled[1..];
    }
  }

  /** The palette laid out twice, then shuffled in place with the draws `picks`. */
  method ShuffledDeck(p: seq<Symbol>, picks: seq<nat>) returns (deck: seq<Symbol>)
    requires ValidPicks(picks, 2 * |p|)
    ensures deck == Shuffled(p + p, picks)
  {
    var n := |p|;
    var a := new Symbol[2 * n](k requires 0 <= k < 2 * n => (p + p)[k]);
    assert a[..] == p + p;
    Shuffle(a, picks);
    deck := a[..];
  }
}
