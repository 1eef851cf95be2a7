/** Filtering a sequence, which both the save queue and the font-face descriptors do. */
module Seqs {

  /** The elements of s that satisfy keep, in their original order. */
  function Filter<T>(s: seq<T>, keep: T -> bool): (r: seq<T>)
    ensures |r| <= |s|
    ensures forall x :: x in r ==> x in s && keep(x)
    decreases |s|
  {
    if s == [] then []
    else
      var init := Filter(s[..|s| - 1], keep);
      if keep(s[|s| - 1]) then init + [s[|s| - 1]] else init
  }

  /** The positions of s whose elements satisfy keep, in increasing order. */
  function KeptPositions<T>(s: seq<T>, keep: T -> bool): seq<nat>
    decreases |s|
  {
    if s == [] then []
    else
      var init := KeptPositions(s[..|s| - 1], keep);
      if keep(s[|s| - 1]) then init + [|s| - 1] else init
  }

  lemma {:induction false} KeptPositionsBounds<T>(s: seq<T>, keep: T -> bool)
    ensures |KeptPositions(s, keep)| == |Filter(s, keep)|
    ensures forall j :: 0 <= j < |KeptPositions(s, keep)| ==> KeptPositions(s, keep)[j] < |s|
    ensures forall j, k :: 0 <= j < k < |KeptPositions(s, keep)| ==> KeptPositions(s, keep)[j] < KeptPositions(s, keep)[k]
    decreases |s|
  {
    if s != [] {
      KeptPositionsBounds(s[..|s| - 1], keep);
    }
  }

  lemma {:induction false} KeptPositionsElements<T>(s: seq<T>, keep: T -> bool)
    ensures |KeptPositions(s, keep)| == |Filter(s, keep)|
    ensures forall j :: 0 <= j < |KeptPositions(s, keep)| ==> KeptPositions(s, keep)[j] < |s|
    ensures forall j :: 0 <= j < |KeptPositions(s, keep)| ==> s[KeptPositions(s, keep)[j]] == Filter(s, keep)[j]
    decreases |s|
  {
    KeptPositionsBounds(s, keep);
    if s != [] {
      var init := s[..|s| - 1];
      var p, f := KeptPositions(init, keep), Filter(init, keep);
      KeptPositionsElements(init, keep);
      forall j | 0 <= j < |p|
        ensures s[p[j]] == f[j]
      {
        assert s[p[j]] == init[p[j]];
      }
    }
  }

  lemma {:induction false} KeptPositionsComplete<T>(s: seq<T>, keep: T -> bool)
    ensures forall i :: 0 <= i < |s| && keep(s[i]) ==> i in KeptPositions(s, keep)
    decreases |s|
  {
    if s != [] {
      var init := s[..|s| - 1];
      KeptPositionsComplete(init, keep);
      forall i | 0 <= i < |s| - 1 && keep(s[i])
        ensures i in KeptPositions(init, keep)
      {
        assert init[i] == s[i];
      }
    }
  }

  /**
   * Filter keeps order and drops nothing it should keep: its result is read
   * off strictly increasing positions of s, and every position whose element
   * satisfies keep is among them.
   */
  lemma FilterPositions<T>(s: seq<T>, keep: T -> bool) returns (pos: seq<nat>)
    ensures |pos| == |Filter(s, keep)|
    ensures forall j :: 0 <= j < |pos| ==> pos[j] < |s| && s[pos[j]] == Filter(s, keep)[j]
    ensures forall j, k :: 0 <= j < k < |pos| ==> pos[j] < pos[k]
    ensures forall i :: 0 <= i < |s| && keep(s[i]) ==> i in pos
  {
    pos := KeptPositions(s, keep);
    KeptPositionsBounds(s, keep);
    KeptPositionsElements(s, keep);
    KeptPositionsComplete(s, keep);
  }
}
