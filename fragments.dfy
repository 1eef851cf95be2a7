/**
 * The page-text buffer `htmlStrings`: `transferString` stores one fragment at
 * its index (index 0 starts a new page and discards what was there), and
 * `savePage` turns the array into the Blob's text. Indices never written are
 * holes of the JavaScript array; a Blob stringifies them as "undefined".
 */
module Fragments {

  import opened Wrappers

  /** A slot of the array: a fragment, or a hole. */
  type Slot = Option<string>

  /** Holes to pad the array when a fragment lands beyond its end. */
  function Holes(n: nat): (r: seq<Slot>)
    ensures |r| == n && forall i :: 0 <= i < n ==> r[i].None?
  {
    seq(n, _ => None)
  }

  /**
   * `transferString` on the buffer: index 0 empties the buffer first; the
   * fragment is then stored at its index, leaving holes in any slots skipped.
   */
  function Put(slots: seq<Slot>, index: nat, text: string): (r: seq<Slot>)
    ensures var base := if index == 0 then [] else slots;
      |r| == (if index < |base| then |base| else index + 1) &&
      r[index] == Some(text) &&
      forall j :: 0 <= j < |r| && j != index ==> r[j] == (if j < |base| then base[j] else None)
  {
    var base := if index == 0 then [] else slots;
    if index < |base| then base[index := Some(text)]
    else base + Holes(index - |base|) + [Some(text)]
  }

  /** The text the Blob gives a slot. */
  function SlotText(s: Slot): string {
    match s
    case Some(t) => t
    case None => "undefined"
  }

  /** The Blob's text: the slots' texts in index order. */
  function Assemble(slots: seq<Slot>): string
    decreases |slots|
  {
    if slots == [] then "" else Assemble(slots[..|slots| - 1]) + SlotText(slots[|slots| - 1])
  }

  /** The fragments joined in order. */
  function Concat(parts: seq<string>): string
    decreases |parts|
  {
    if parts == [] then "" else Concat(parts[..|parts| - 1]) + parts[|parts| - 1]
  }

  /** The buffer after fragments parts[from..] have been transferred at their own indices, starting from `slots`. */
  function TransferAll(slots: seq<Slot>, parts: seq<string>, from: nat): seq<Slot>
    requires from <= |parts|
    decreases |parts| - from
  {
    if from == |parts| then slots else TransferAll(Put(slots, from, parts[from]), parts, from + 1)
  }

  /** The slots of the fragments parts[..n]. */
  function Filled(parts: seq<string>, n: nat): (r: seq<Slot>)
    requires n <= |parts|
    ensures |r| == n && forall i :: 0 <= i < n ==> r[i] == Some(parts[i])
  {
    seq(n, i requires 0 <= i < n => Some(parts[i]))
  }

  lemma {:induction false} TransferAllFilled(parts: seq<string>, n: nat)
    requires 0 < n <= |parts|
    ensures TransferAll(Filled(parts, n), parts, n) == Filled(parts, |parts|)
    decreases |parts| - n
  {
    if n < |parts| {
      assert Put(Filled(parts, n), n, parts[n]) == Filled(parts, n + 1);
      TransferAllFilled(parts, n + 1);
    }
  }

  lemma {:induction false} AssembleFilled(parts: seq<string>, n: nat)
    requires n <= |parts|
    ensures Assemble(Filled(parts, n)) == Concat(parts[..n])
    decreases n
  {
    if n > 0 {
      assert Filled(parts, n)[..n - 1] == Filled(parts, n - 1);
      assert parts[..n][..n - 1] == parts[..n - 1];
      AssembleFilled(parts, n - 1);
    }
  }

  /**
   * Whatever the buffer held before, transferring a page's fragments at
   * indices 0, 1, … in order makes the saved text exactly their concatenation.
   */
  lemma InOrderTransfers(slots: seq<Slot>, parts: seq<string>)
    requires parts != []
    ensures Assemble(TransferAll(slots, parts, 0)) == Concat(parts)
  {
    assert Put(slots, 0, parts[0]) == Filled(parts, 1);
    TransferAllFilled(parts, 1);
    AssembleFilled(parts, |parts|);
    assert parts[..|parts|] == parts;
  }

  /** Index 0 discards every earlier fragment. */
  lemma ResetDiscards(slots: seq<Slot>, text: string)
    ensures Put(slots, 0, text) == [Some(text)]
  {
  }

  /** Fragments at two different non-zero indices do not interfere: the order of their arrival does not matter. */
  lemma {:induction false} PutCommutes(slots: seq<Slot>, i: nat, a: string, j: nat, b: string)
    requires i != j && i > 0 && j > 0
    ensures Put(Put(slots, i, a), j, b) == Put(Put(slots, j, b), i, a)
  {
    var l := Put(Put(slots, i, a), j, b);
    var r := Put(Put(slots, j, b), i, a);
    assert |l| == |r|;
    forall k | 0 <= k < |l|
      ensures l[k] == r[k]
    {
    }
  }
}
