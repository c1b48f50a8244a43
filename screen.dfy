/** The screen state of `ArtSpaceApp` in MainActivity.kt: one mutable
    `artNumber`, initially 1, overwritten only by the "Previous" and "Next"
    click handlers with `previous(artNumber)` and `next(artNumber)`. The
    picture and the title on screen are looked up from `artNumber`.

    Besides the state itself, this module models a whole session of clicks
    as a sequence and proves where it leaves the cursor. */
module Screen {
  import opened Catalog
  import opened Navigator

  /** A press of one of the two buttons. */
  datatype Click = PreviousClick | NextClick

  /** The new position after one click handler runs: a gallery position,
      whatever `p` held. */
  function Step(p: int, c: Click): (r: int)
    ensures InRange(r)
  {
    match c
    case PreviousClick => PrevPos(p)
    case NextClick => NextPos(p)
  }

  /** The position after the clicks `cs`, in order, starting from `p`. No
      sequence of clicks moves a gallery position off the gallery, and any
      click at all brings even an out-of-range start onto it. */
  function Replay(p: int, cs: seq<Click>): (r: int)
    ensures InRange(p) ==> InRange(r)
    ensures cs != [] ==> InRange(r)
    decreases |cs|
  {
    if cs == [] then p else Replay(Step(p, cs[0]), cs[1..])
  }

  /** Next presses minus previous presses. */
  function Net(cs: seq<Click>): int
    decreases |cs|
  {
    if cs == [] then 0
    else (if cs[0] == NextClick then 1 else -1) + Net(cs[1..])
  }

  /** `k` presses of the same button. */
  function Repeat(c: Click, k: nat): (cs: seq<Click>)
    ensures |cs| == k
    ensures forall i :: 0 <= i < k ==> cs[i] == c
  {
    if k == 0 then [] else [c] + Repeat(c, k - 1)
  }

  /** Adding a whole multiple of the gallery size does not change the
      position modulo 14. */
  lemma ModShift(x: int, q: int)
    ensures (x + Size * q) % Size == x % Size
  {
  }

  /** Reducing the left summand modulo 14 first does not change the sum
      modulo 14. */
  lemma ModAddLeft(a: int, b: int)
    ensures (a % Size + b) % Size == (a + b) % Size
  {
  }

  /** One click on a gallery position is a rotation by one step. */
  lemma StepIsRotation(p: int, c: Click)
    requires InRange(p)
    ensures Step(p, c) == (p - 1 + (if c == NextClick then 1 else -1)) % Size + 1
  {
  }

  /** Starting anywhere in the gallery, any sequence of clicks leaves the
      cursor at the start rotated by the net number of forward presses: only
      that difference, modulo 14, matters. */
  lemma {:induction false} ReplayIsNetRotation(p: int, cs: seq<Click>)
    requires InRange(p)
    decreases |cs|
    ensures Replay(p, cs) == (p - 1 + Net(cs)) % Size + 1
  {
    if cs == [] {
      assert (p - 1) % Size == p - 1;
    } else {
      var d := if cs[0] == NextClick then 1 else -1;
      var q := Step(p, cs[0]);
      StepIsRotation(p, cs[0]);
      ReplayIsNetRotation(q, cs[1..]);
      ModAddLeft(p - 1 + d, Net(cs[1..]));
    }
  }

  /** `k` presses of one button move the cursor by exactly `k` steps in
      that button's direction. */
  lemma {:induction false} NetOfRepeat(c: Click, k: nat)
    ensures Net(Repeat(c, k)) == (if c == NextClick then k else -(k as int))
  {
    if k > 0 {
      NetOfRepeat(c, k - 1);
      assert Repeat(c, k)[1..] == Repeat(c, k - 1);
    }
  }

  /** A backward rotation by `k` is the identity exactly when a forward one
      is. */
  lemma NegatedModZero(k: nat)
    ensures (-(k as int)) % Size == 0 <==> k % Size == 0
  {
    var q, r := k / Size, k % Size;
    assert -(k as int) == (-q) * Size - r;
    if r == 0 {
      ModShift(0, -q);
    } else {
      ModShift(Size - r, -q - 1);
      assert (-(k as int)) % Size == Size - r;
    }
  }

  /** Rotating a gallery offset `m` by `n` gives back `m` exactly when `n` is
      a whole number of turns. */
  lemma RotationFixesOffset(m: int, n: int)
    requires 0 <= m < Size
    ensures (m + n) % Size == m <==> n % Size == 0
  {
    ModAddLeft(n, m);
    var r := n % Size;
    if r + m >= Size {
      ModShift(r + m - Size, 1);
    }
  }

  /** Rotating a gallery offset `m` by `k` steps in one direction gives back
      `m` exactly when `k` is a whole number of turns. */
  lemma DirectedRotationFixesOffset(m: int, forward: bool, k: nat)
    requires 0 <= m < Size
    ensures (m + (if forward then k else -(k as int))) % Size == m <==> k % Size == 0
  {
    RotationFixesOffset(m, if forward then k else -(k as int));
    if !forward {
      NegatedModZero(k);
    }
  }

  /** A session whose net movement is `k` steps in one direction returns to
      its gallery start exactly when `k` is a whole number of turns. */
  lemma SessionReturnsIff(p: int, cs: seq<Click>, forward: bool, k: nat)
    requires InRange(p)
    requires Net(cs) == if forward then k else -(k as int)
    ensures Replay(p, cs) == p <==> k % Size == 0
  {
    ReplayIsNetRotation(p, cs);
    DirectedRotationFixesOffset(p - 1, forward, k);
  }

  /** The cycle has length exactly 14: pressing one button 14 times returns
      to the start, and fewer presses (at least one) never do. */
  lemma CycleLengthIsSize(p: int, c: Click, k: nat)
    requires InRange(p)
    ensures Replay(p, Repeat(c, k)) == p <==> k % Size == 0
  {
    NetOfRepeat(c, k);
    SessionReturnsIff(p, Repeat(c, k), c == NextClick, k);
  }

  /** The gallery screen's state. */
  class GalleryScreen {
    /** The 1-based position of the artwork on screen. */
    var artNumber: int

    /** The screen invariant: the cursor is a gallery position. */
    predicate Valid()
      reads this
    {
      InRange(artNumber)
    }

    /** The screen opens on the first artwork. */
    constructor ()
      ensures Valid()
      ensures artNumber == 1
    {
      artNumber := 1;
    }

    /** The "Previous" button: `artNumber = previous(artNumber)`. Nothing else
        changes, and the cursor lands in the gallery whatever it held. */
    method OnPreviousClick()
      modifies this
      ensures Valid()
      ensures artNumber == PrevPos(old(artNumber))
    {
      artNumber := Previous(artNumber);
    }

    /** The "Next" button: `artNumber = next(artNumber)`. Nothing else
        changes, and the cursor lands in the gallery whatever it held. */
    method OnNextClick()
      modifies this
      ensures Valid()
      ensures artNumber == NextPos(old(artNumber))
    {
      artNumber := Next(artNumber);
    }

    /** The picture and the title rendered for the current state: both are
        the catalog entry at the cursor. */
    method Displayed() returns (artwork: DrawableId, title: TitleId)
      requires Valid()
      ensures artwork.slot == artNumber && title.slot == artNumber
    {
      artwork := ArtworkResource(artNumber);
      title := TitleResource(artNumber);
    }
  }

  /** A session of the screen: it opens on the first artwork, then the
      matching handler runs for each click of `cs`, in order. The screen
      ends where `Replay` from the launch position says, on the gallery. */
  method RunSession(cs: seq<Click>) returns (s: GalleryScreen)
    ensures s.Valid()
    ensures s.artNumber == Replay(1, cs)
  {
    s := new GalleryScreen();
    var i := 0;
    while i < |cs|
      invariant 0 <= i <= |cs|
      invariant fresh(s) && s.Valid()
      invariant Replay(s.artNumber, cs[i..]) == Replay(1, cs)
    {
      assert cs[i..][1..] == cs[i + 1..];
      match cs[i] {
        case PreviousClick => s.OnPreviousClick();
        case NextClick => s.OnNextClick();
      }
      i := i + 1;
    }
  }
}
