# Art Space gallery cursor

A model of the logic behind the Art Space Android app's single screen. The
screen shows one of 14 artworks, with its title. A "Previous" and a "Next"
button move through the artworks and wrap around at both ends.

The logic lives in `MainActivity.kt`. It has three parts, and the model has
one module for each:

- `Catalog` (`catalog.dfy`) holds `artworkResource` and `titleResource`. Each
  maps a 1-based position to the drawable and title resource of that entry.
  Positions 1 to 13 have explicit cases. Every other integer falls through to
  entry 14, including 0, negatives and values above 14. The resource ids are
  opaque: `R.drawable.artwork_k` is `ArtworkDrawable(k)` and
  `R.string.artwork_title_k` is `ArtworkTitle(k)`.
- `Navigator` (`navigator.dfy`) holds `next` and `previous`. The source copies
  the position into a local variable, increments or decrements it, and keeps
  it only if it is still in `1..14`. Otherwise it returns 1 or 14. The methods
  `Next` and `Previous` follow that code step by step. They are proved equal
  to the specification functions `NextPos` and `PrevPos`, which state the
  same behaviour for every integer as a case split on the input.
- `Screen` (`screen.dfy`) holds the `artNumber` state of `ArtSpaceApp`. It
  is the class `GalleryScreen`. The field starts at 1, and the two click
  handlers overwrite it with `previous(artNumber)` or `next(artNumber)`. A
  whole session of clicks is modelled as a sequence of `Click` values, and
  `Replay` folds the click handlers over it. `RunSession` opens a
  `GalleryScreen` and runs its handlers over the sequence, and it is proved to
  end where `Replay` says.

The main results:

- Both navigators always land in `1..14`, whatever integer they are given.
- On `1..14` they are the cyclic successor and predecessor modulo 14, and
  each undoes the other.
- After any sequence of clicks from a gallery position, the cursor sits at
  the start rotated by the number of "Next" presses minus the number of
  "Previous" presses, modulo 14.
- Pressing one button `k` times returns to the start exactly when `k` is a
  multiple of 14, so the cycle length is exactly 14.
- The picture and the title always come from the same catalog entry. On
  `1..14` that entry is the position itself, and distinct positions show
  distinct entries.

Outside `1..14` the code still defines both cases: `next` restarts at 1,
`previous` restarts at 14, and the lookups fall back to entry 14. `NextPos`,
`PrevPos`, `ArtworkResource` and `TitleResource` are stated for every
integer.

## Model

| member | source | states |
|---|---|---|
| `Catalog.ArtworkResource` | app/src/main/java/com/example/artspace/MainActivity.kt:171-188 | for every integer: a position in 1..14 shows its own entry, and any other integer shows entry 14 |
| `Catalog.TitleResource` | app/src/main/java/com/example/artspace/MainActivity.kt:190-207 | for every integer: a position in 1..14 gets its own title, and any other integer gets title 14 |
| `Catalog.LookupsPickSameSlot` | app/src/main/java/com/example/artspace/MainActivity.kt:171-207 | for every integer, the image and the title name the same catalog entry |
| `Catalog.LookupsAreBijective` | app/src/main/java/com/example/artspace/MainActivity.kt:171-207 | on 1..14, two positions show the same image, or the same title, exactly when they are equal |
| `Navigator.NextPos` | app/src/main/java/com/example/artspace/MainActivity.kt:219-227 | for every integer the result is in 1..14; it is 1 exactly when the input is outside 1..13, and otherwise it is the input plus one |
| `Navigator.PrevPos` | app/src/main/java/com/example/artspace/MainActivity.kt:209-217 | for every integer the result is in 1..14; it is 14 exactly when the input is outside 2..14, and otherwise it is the input minus one |
| `Navigator.Next` | app/src/main/java/com/example/artspace/MainActivity.kt:219-227 | incrementing a local copy and testing `in 1..14` yields `NextPos` of the input |
| `Navigator.Previous` | app/src/main/java/com/example/artspace/MainActivity.kt:209-217 | decrementing a local copy and testing `in 1..14` yields `PrevPos` of the input |
| `Navigator.NextIsCyclicSuccessor` | app/src/main/java/com/example/artspace/MainActivity.kt:219-227 | on 1..14, `next(p)` is `p mod 14 + 1`, so 14 wraps to 1 |
| `Navigator.PrevIsCyclicPredecessor` | app/src/main/java/com/example/artspace/MainActivity.kt:209-217 | on 1..14, `previous(p)` is `(p - 2) mod 14 + 1`, so 1 wraps to 14 |
| `Navigator.PrevUndoesNext` | app/src/main/java/com/example/artspace/MainActivity.kt:209-227 | on 1..14, `previous(next(p)) == p` |
| `Navigator.NextUndoesPrev` | app/src/main/java/com/example/artspace/MainActivity.kt:209-227 | on 1..14, `next(previous(p)) == p` |
| `Screen.Step` | app/src/main/java/com/example/artspace/MainActivity.kt:83-84 | one click handler, run from any integer position, leaves a position in 1..14 |
| `Screen.Replay` | app/src/main/java/com/example/artspace/MainActivity.kt:83-84 | a click sequence keeps a position in 1..14 inside 1..14, and any non-empty click sequence ends in 1..14 whatever the start |
| `Screen.ReplayIsNetRotation` | app/src/main/java/com/example/artspace/MainActivity.kt:83-84 | from a position in 1..14, any click sequence ends at the start rotated by (Next presses minus Previous presses) modulo 14 |
| `Screen.SessionReturnsIff` | app/src/main/java/com/example/artspace/MainActivity.kt:83-84 | a click sequence whose net movement is k steps in one direction returns to its start in 1..14 exactly when k is a multiple of 14 |
| `Screen.CycleLengthIsSize` | app/src/main/java/com/example/artspace/MainActivity.kt:209-227 | pressing one button k times from a position in 1..14 returns to it exactly when k is a multiple of 14 |
| `Screen.GalleryScreen.constructor` | app/src/main/java/com/example/artspace/MainActivity.kt:59 | the screen opens at position 1, which satisfies the invariant |
| `Screen.GalleryScreen.OnPreviousClick` | app/src/main/java/com/example/artspace/MainActivity.kt:83 | the only state change is `artNumber := previous(artNumber)`, and the position then lies in 1..14 whatever it held |
| `Screen.GalleryScreen.OnNextClick` | app/src/main/java/com/example/artspace/MainActivity.kt:84 | the only state change is `artNumber := next(artNumber)`, and the position then lies in 1..14 whatever it held |
| `Screen.GalleryScreen.Displayed` | app/src/main/java/com/example/artspace/MainActivity.kt:72-80 | in a valid state, the picture and the title shown are both the catalog entry at `artNumber` |
| `Screen.RunSession` | app/src/main/java/com/example/artspace/MainActivity.kt:59-84 | a screen opened at position 1 whose handlers run over any click sequence ends valid, at `Replay(1, cs)` |

## Left out

- The Compose UI is not modelled. This covers `MainActivity.onCreate`, `ArtworkWall`, `ArtworkDescription`, `DisplayController`, `ArtSpacePreview`, theming and layout. It is declarative rendering with no logic.
- Resource loading through `painterResource` and `stringResource` is not modelled, and neither are the numeric values of the `R` ids. These are Android framework calls, so the ids are opaque datatypes.
- The author string `R.string.author` is not modelled. It is the same constant for every artwork.
- Compose `remember`/`mutableStateOf` recomposition is not modelled. `artNumber` is a plain field that the click methods update.
- The 8-artwork variant of the app is not part of this model.
- Kotlin's 32-bit `Int` wrap-around in `++` and `--` is not modelled, because positions are unbounded integers. It would not change the result. `Int.MAX_VALUE + 1` wraps to a negative value, so `next` still returns 1. `Int.MIN_VALUE - 1` wraps to `Int.MAX_VALUE`, so `previous` still returns 14.
