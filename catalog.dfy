/** The fixed artwork catalog of the Art Space screen and its two lookups,
    `artworkResource` and `titleResource` in MainActivity.kt.

    Android resource ids are opaque here: the drawable `R.drawable.artwork_k`
    is `ArtworkDrawable(k)` and the string `R.string.artwork_title_k` is
    `ArtworkTitle(k)`; only the catalog slot `k` they name is modelled. */
module Catalog {

  /** Number of artworks in the gallery. */
  const Size: int := 14

  /** A 1-based gallery position that names a catalog entry. */
  predicate InRange(p: int) {
    1 <= p <= Size
  }

  /** A catalog slot: one of the 14 entries. */
  type Slot = s: int | 1 <= s <= Size witness 1

  /** The image resource of catalog entry `slot`. */
  datatype DrawableId = ArtworkDrawable(slot: Slot)

  /** The title string resource of catalog entry `slot`. */
  datatype TitleId = ArtworkTitle(slot: Slot)

  /** The image shown for `artNumber`: entry `artNumber` for a position of the
      gallery, and the last entry for any other integer (0, negatives, values
      above 14 all fall through to the `else` branch). */
  function ArtworkResource(artNumber: int): (id: DrawableId)
    ensures InRange(artNumber) ==> id.slot == artNumber
    ensures !InRange(artNumber) ==> id.slot == Size
  {
    match artNumber
    case 1 => ArtworkDrawable(1)
    case 2 => ArtworkDrawable(2)
    case 3 => ArtworkDrawable(3)
    case 4 => ArtworkDrawable(4)
    case 5 => ArtworkDrawable(5)
    case 6 => ArtworkDrawable(6)
    case 7 => ArtworkDrawable(7)
    case 8 => ArtworkDrawable(8)
    case 9 => ArtworkDrawable(9)
    case 10 => ArtworkDrawable(10)
    case 11 => ArtworkDrawable(11)
    case 12 => ArtworkDrawable(12)
    case 13 => ArtworkDrawable(13)
    case _ => ArtworkDrawable(14)
  }

  /** The title shown for `artNumber`, with the same fallback as the image. */
  function TitleResource(artNumber: int): (id: TitleId)
    ensures InRange(artNumber) ==> id.slot == artNumber
    ensures !InRange(artNumber) ==> id.slot == Size
  {
    match artNumber
    case 1 => ArtworkTitle(1)
    case 2 => ArtworkTitle(2)
    case 3 => ArtworkTitle(3)
    case 4 => ArtworkTitle(4)
    case 5 => ArtworkTitle(5)
    case 6 => ArtworkTitle(6)
    case 7 => ArtworkTitle(7)
    case 8 => ArtworkTitle(8)
    case 9 => ArtworkTitle(9)
    case 10 => ArtworkTitle(10)
    case 11 => ArtworkTitle(11)
    case 12 => ArtworkTitle(12)
    case 13 => ArtworkTitle(13)
    case _ => ArtworkTitle(14)
  }

  /** For every integer, the picture and the title come from the same
      catalog entry, so what is shown always belongs together. */
  lemma LookupsPickSameSlot(artNumber: int)
    ensures ArtworkResource(artNumber).slot == TitleResource(artNumber).slot
  {
  }

  /** Distinct gallery positions show distinct pictures and distinct
      titles. */
  lemma LookupsAreBijective(a: int, b: int)
    requires InRange(a) && InRange(b)
    ensures ArtworkResource(a) == ArtworkResource(b) <==> a == b
    ensures TitleResource(a) == TitleResource(b) <==> a == b
  {
  }
}
