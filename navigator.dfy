/** The gallery cursor: `next` and `previous` in MainActivity.kt move a 1-based
    position one step forward or back through the 14 catalog entries,
    wrapping from 14 to 1 and from 1 to 14.

    Both source functions step first and then ask whether the stepped value
    lies in 1..14; they never compare the input with the boundary. The
    specification functions `NextPos` and `PrevPos` state the same behaviour
    as an explicit case split on the input, so that their behaviour on
    out-of-range input (where the source's choice is visible) is pinned down
    for every integer. */
module Navigator {
  import opened Catalog

  /** What `next` promises, for every integer input: step forward from
      0..13, otherwise restart at the first entry. */
  function NextPos(p: int): (r: int)
    ensures InRange(r)
    ensures r == 1 <==> !(1 <= p < Size)
    ensures r != 1 ==> r == p + 1
  {
    if 0 <= p < Size then p + 1 else 1
  }

  /** What `previous` promises, for every integer input: step back from
      2..15, otherwise restart at the last entry. */
  function PrevPos(p: int): (r: int)
    ensures InRange(r)
    ensures r == Size <==> !(2 <= p <= Size)
    ensures r != Size ==> r == p - 1
  {
    if 2 <= p <= Size + 1 then p - 1 else Size
  }

  /** `next`: copy the position into a local, increment it, keep it if it is
      still a gallery position, otherwise wrap to 1. */
  method Next(artNumber: int) returns (r: int)
    ensures r == NextPos(artNumber)
  {
    var newImageNumber := artNumber;
    newImageNumber := newImageNumber + 1;
    if InRange(newImageNumber) {
      r := newImageNumber;
    } else {
      r := 1;
    }
  }

  /** `previous`: copy the position into a local, decrement it, keep it if it
      is still a gallery position, otherwise wrap to 14. */
  method Previous(artNumber: int) returns (r: int)
    ensures r == PrevPos(artNumber)
  {
    var newImageNumber := artNumber;
    newImageNumber := newImageNumber - 1;
    if InRange(newImageNumber) {
      r := newImageNumber;
    } else {
      r := Size;
    }
  }

  /** On the gallery, `next` is the cyclic successor modulo 14. */
  lemma NextIsCyclicSuccessor(p: int)
    requires InRange(p)
    ensures NextPos(p) == p % Size + 1
  {
  }

  /** On the gallery, `previous` is the cyclic predecessor modulo 14. */
  lemma PrevIsCyclicPredecessor(p: int)
    requires InRange(p)
    ensures PrevPos(p) == (p - 2) % Size + 1
  {
  }

  /** `previous` undoes `next` on every gallery position. */
  lemma PrevUndoesNext(p: int)
    requires InRange(p)
    ensures PrevPos(NextPos(p)) == p
  {
  }

  /** `next` undoes `previous` on every gallery position. */
  lemma NextUndoesPrev(p: int)
    requires InRange(p)
    ensures NextPos(PrevPos(p)) == p
  {
  }
}
