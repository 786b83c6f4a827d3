module Collections {

  datatype Option<+T> = None | Some(value: T) {
    /** Swift's `??`: the wrapped value, or the default when there is none. */
    function GetOr(default: T): T {
      match this
      case Some(v) => v
      case None => default
    }
  }

  /** Swift's `Set(array)`: the elements of a sequence, duplicates merged. */
  function SetOf<T>(s: seq<T>): set<T> {
    set x | x in s
  }

  lemma SetOfConcat<T>(a: seq<T>, b: seq<T>)
    ensures SetOf(a + b) == SetOf(a) + SetOf(b)
  {
  }

  predicate Distinct<T(==)>(s: seq<T>) {
    forall i, j :: 0 <= i < j < |s| ==> s[i] != s[j]
  }

  /** Swift's `Array(set)`: every element of the set exactly once, in an order the caller cannot rely on. */
  method ArrayOf<T(==)>(s: set<T>) returns (a: seq<T>)
    ensures SetOf(a) == s
    ensures Distinct(a)
    ensures |a| == |s|
  {
    a := [];
    var rest := s;
    while rest != {}
      invariant SetOf(a) + rest == s
      invariant SetOf(a) !! rest
      invariant Distinct(a)
      invariant |a| + |rest| == |s|
      decreases |rest|
    {
      var x :| x in rest;
      a := a + [x];
      rest := rest - {x};
    }
  }

  /** The elements of `s` at indices `lo` up to `hi` whose index lies in `offsets` exactly when `moved`, in order. */
  function Pick<T>(s: seq<T>, offsets: set<int>, lo: int, hi: int, moved: bool): seq<T>
    requires 0 <= lo <= hi <= |s|
    decreases hi - lo
  {
    if lo == hi then []
    else (if (lo in offsets) == moved then [s[lo]] else []) + Pick(s, offsets, lo + 1, hi, moved)
  }

  lemma {:induction false} PickSplit<T>(s: seq<T>, offsets: set<int>, lo: int, mid: int, hi: int, moved: bool)
    requires 0 <= lo <= mid <= hi <= |s|
    ensures Pick(s, offsets, lo, hi, moved) == Pick(s, offsets, lo, mid, moved) + Pick(s, offsets, mid, hi, moved)
    decreases mid - lo
  {
    if lo < mid {
      PickSplit(s, offsets, lo + 1, mid, hi, moved);
    }
  }

  /** Splitting a range by membership in `offsets` loses and invents no element. */
  lemma {:induction false} PickPartition<T>(s: seq<T>, offsets: set<int>, lo: int, hi: int)
    requires 0 <= lo <= hi <= |s|
    ensures multiset(Pick(s, offsets, lo, hi, false)) + multiset(Pick(s, offsets, lo, hi, true)) == multiset(s[lo..hi])
    decreases hi - lo
  {
    if lo < hi {
      PickPartition(s, offsets, lo + 1, hi);
      PickPartitionStep(s, offsets, lo, hi);
    }
  }

  /** One step of `PickPartition`: the element at `lo` goes to exactly one side. */
  lemma PickPartitionStep<T>(s: seq<T>, offsets: set<int>, lo: int, hi: int)
    requires 0 <= lo < hi <= |s|
    requires multiset(Pick(s, offsets, lo + 1, hi, false)) + multiset(Pick(s, offsets, lo + 1, hi, true)) == multiset(s[lo + 1..hi])
    ensures multiset(Pick(s, offsets, lo, hi, false)) + multiset(Pick(s, offsets, lo, hi, true)) == multiset(s[lo..hi])
  {
    var here, rest := multiset([s[lo]]), multiset(s[lo + 1..hi]);
    var kept, taken := multiset(Pick(s, offsets, lo + 1, hi, false)), multiset(Pick(s, offsets, lo + 1, hi, true));
    assert multiset(s[lo..hi]) == here + rest by {
      assert s[lo..hi] == [s[lo]] + s[lo + 1..hi];
    }
    PickStepSide(s, offsets, lo, hi, lo in offsets);
    if lo in offsets {
      assert multiset(Pick(s, offsets, lo, hi, true)) == here + taken;
      MultisetRegroup(here, kept, taken, rest);
    } else {
      assert multiset(Pick(s, offsets, lo, hi, false)) == here + kept;
      MultisetRegroup(here, kept, taken, rest);
    }
  }

  /** Regrouping a union of multisets. */
  lemma MultisetRegroup<T>(here: multiset<T>, kept: multiset<T>, taken: multiset<T>, rest: multiset<T>)
    requires kept + taken == rest
    ensures kept + (here + taken) == here + rest
    ensures (here + kept) + taken == here + rest
  {
  }

  /** The element at `lo` joins the side `moved` says, and the other side is the rest's. */
  lemma PickStepSide<T>(s: seq<T>, offsets: set<int>, lo: int, hi: int, moved: bool)
    requires 0 <= lo < hi <= |s|
    requires (lo in offsets) == moved
    ensures Pick(s, offsets, lo, hi, moved) == [s[lo]] + Pick(s, offsets, lo + 1, hi, moved)
    ensures Pick(s, offsets, lo, hi, !moved) == Pick(s, offsets, lo + 1, hi, !moved)
  {
  }

  /** With no index of the range in `offsets`, the unmoved elements are the whole range and the moved ones none. */
  lemma {:induction false} PickUntouched<T>(s: seq<T>, offsets: set<int>, lo: int, hi: int)
    requires 0 <= lo <= hi <= |s|
    requires forall i :: lo <= i < hi ==> i !in offsets
    ensures Pick(s, offsets, lo, hi, false) == s[lo..hi]
    ensures Pick(s, offsets, lo, hi, true) == []
    decreases hi - lo
  {
    if lo < hi {
      PickUntouched(s, offsets, lo + 1, hi);
      assert s[lo..hi] == [s[lo]] + s[lo + 1..hi];
    }
  }

  /**
   * Swift's `Array.move(fromOffsets:toOffset:)`: the elements at `offsets` are taken out, keeping their
   * relative order, and put back together just before the element that stood at `destination`
   * (at the end when `destination` is the length). The result is a rearrangement of `s`.
   */
  function Move<T>(s: seq<T>, offsets: set<int>, destination: int): (r: seq<T>)
    requires forall i :: i in offsets ==> 0 <= i < |s|
    requires 0 <= destination <= |s|
    ensures multiset(r) == multiset(s)
    ensures |r| == |s|
  {
    PickSplit(s, offsets, 0, destination, |s|, false);
    PickPartition(s, offsets, 0, |s|);
    assert s[0..|s|] == s;
    Pick(s, offsets, 0, destination, false) + Pick(s, offsets, 0, |s|, true) + Pick(s, offsets, destination, |s|, false)
  }

  /** With a single offset, exactly that element is moved. */
  lemma PickOneMoved<T>(s: seq<T>, from: int)
    requires 0 <= from < |s|
    ensures Pick(s, {from}, 0, |s|, true) == [s[from]]
  {
    var o := {from};
    PickSplit(s, o, 0, from, |s|, true);
    assert Pick(s, o, 0, |s|, true) == Pick(s, o, 0, from, true) + Pick(s, o, from, |s|, true);
    PickSplit(s, o, from, from + 1, |s|, true);
    assert Pick(s, o, from, |s|, true) == Pick(s, o, from, from + 1, true) + Pick(s, o, from + 1, |s|, true);
    PickUntouched(s, o, 0, from);
    assert Pick(s, o, 0, from, true) == [];
    PickUntouched(s, o, from + 1, |s|);
    assert Pick(s, o, from + 1, |s|, true) == [];
    assert Pick(s, o, from, from + 1, true) == [s[from]];
  }

  /** With a single offset inside a range, the unmoved elements of the range are all the others. */
  lemma PickOneUnmoved<T>(s: seq<T>, from: int, lo: int, hi: int)
    requires 0 <= lo <= from < hi <= |s|
    ensures Pick(s, {from}, lo, hi, false) == s[lo..from] + s[from + 1..hi]
  {
    var o := {from};
    assert Pick(s, o, lo, from, false) == s[lo..from] by {
      PickUntouched(s, o, lo, from);
    }
    assert Pick(s, o, from, hi, false) == s[from + 1..hi] by {
      PickSplit(s, o, from, from + 1, hi, false);
      PickUntouched(s, o, from + 1, hi);
      assert Pick(s, o, from, from + 1, false) == [];
    }
    PickSplit(s, o, lo, from, hi, false);
  }

  /** Dragging one row down: the row at `from` lands just before the row that was at `destination`. */
  lemma MoveOneDown<T>(s: seq<T>, from: int, destination: int)
    requires 0 <= from < destination <= |s|
    ensures Move(s, {from}, destination) == s[..from] + s[from + 1..destination] + [s[from]] + s[destination..]
  {
    PickOneUnmoved(s, from, 0, destination);
    PickOneMoved(s, from);
    PickUntouched(s, {from}, destination, |s|);
  }

  /** Dragging one row up: the row at `from` lands at `destination`, the rows in between shift down. */
  lemma MoveOneUp<T>(s: seq<T>, from: int, destination: int)
    requires 0 <= destination <= from < |s|
    ensures Move(s, {from}, destination) == s[..destination] + [s[from]] + s[destination..from] + s[from + 1..]
  {
    PickUntouched(s, {from}, 0, destination);
    PickOneMoved(s, from);
    PickOneUnmoved(s, from, destination, |s|);
    assert s[destination..from] + s[from + 1..|s|] == s[destination..from] + s[from + 1..];
  }
}
