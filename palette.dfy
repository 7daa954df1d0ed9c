/** The symbol palettes of the three difficulty levels (getEmojisByDifficulty). */
module Palette {

  /** A card face: one of the emoji the palettes draw from. */
  datatype Symbol =
    | TwoHearts | Sparkles | VictoryHand | PensiveFace
    | OncomingFist | LoudlyCryingFace | NerdFace | PurpleHeart
    | KiwiFruit | Strawberry | Peach | Cherries

  /** The code points a card face shows; the page compares cards by this string. */
  function Glyph(s: Symbol): string {
    match s
    case TwoHearts => "\U{1F495}"
    case Sparkles => "\U{2728}"
    case VictoryHand => "\U{270C}\U{FE0F}"
    case PensiveFace => "\U{1F614}"
    case OncomingFist => "\U{1F44A}"
    case LoudlyCryingFace => "\U{1F62D}"
    case NerdFace => "\U{1F913}"
    case PurpleHeart => "\U{1F49C}"
    case KiwiFruit => "\U{1F95D}"
    case Strawberry => "\U{1F353}"
    case Peach => "\U{1F351}"
    case Cherries => "\U{1F352}"
  }

  /** Two faces show the same string exactly when they are the same symbol, so comparing symbols is comparing strings. */
  lemma GlyphInjective(a: Symbol, b: Symbol)
    ensures Glyph(a) == Glyph(b) <==> a == b
  {
    assert |Glyph(a)| > 0 && |Glyph(b)| > 0;
    if a != b {
      assert Glyph(a)[0] != Glyph(b)[0];
    }
  }

  /** No symbol occurs twice in `s`. */
  predicate Distinct<T(==)>(s: seq<T>) {
    forall i, j :: 0 <= i < j < |s| ==> s[i] != s[j]
  }

  const Easy: seq<Symbol> := [TwoHearts, Sparkles, VictoryHand, PensiveFace]
  const Medium: seq<Symbol> := Easy + [OncomingFist, LoudlyCryingFace, NerdFace, PurpleHeart]
  const Hard: seq<Symbol> := Medium + [KiwiFruit, Strawberry, Peach, Cherries]

  /** The number of symbols the palette of `difficulty` has. */
  function PaletteSize(difficulty: string): nat {
    if difficulty == "medium" then 8 else if difficulty == "hard" then 12 else 4
  }

  /**
   * The palette for a difficulty value: "easy", "medium" and "hard" select
   * 4, 8 and 12 distinct symbols, and every other value falls back to the
   * easy palette. Each larger palette extends the smaller ones.
   */
  function EmojisByDifficulty(difficulty: string): (p: seq<Symbol>)
    ensures |p| == PaletteSize(difficulty)
    ensures Distinct(p)
    ensures p[..4] == Easy
    ensures |p| >= 8 ==> p[..8] == Medium
    ensures difficulty != "medium" && difficulty != "hard" ==> p == Easy
  {
    if difficulty == "easy" then Easy
    else if difficulty == "medium" then Medium
    else if difficulty == "hard" then Hard
    else Easy
  }
}
