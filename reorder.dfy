/** Moving one element of a list to another position (the `reorder` helper of
    src/App.tsx). The functional specification works on sequences; the method
    works the way the source does, on a copy of the array that two splices
    change in place. */
module Reordering {

  /** The sequence without its element at `i` (`splice(i, 1)`). */
  function RemoveAt<T>(s: seq<T>, i: nat): (r: seq<T>)
    requires i < |s|
    ensures |r| == |s| - 1
    ensures forall k :: 0 <= k < i ==> r[k] == s[k]
    ensures forall k :: i <= k < |r| ==> r[k] == s[k + 1]
  {
    s[..i] + s[i + 1..]
  }

  /** The sequence with `x` inserted so that it ends up at index `i`
      (`splice(i, 0, x)`). */
  function InsertAt<T>(s: seq<T>, i: nat, x: T): (r: seq<T>)
    requires i <= |s|
    ensures |r| == |s| + 1
    ensures r[i] == x
    ensures forall k :: 0 <= k < i ==> r[k] == s[k]
    ensures forall k :: i < k < |r| ==> r[k] == s[k - 1]
  {
    s[..i] + [x] + s[i..]
  }

  /** `reorder(list, startIndex, endIndex)`: take the element at `startIndex`
      out and put it back so that it lands at `endIndex`. */
  function Reordered<T>(list: seq<T>, startIndex: nat, endIndex: nat): (r: seq<T>)
    requires startIndex < |list| && endIndex < |list|
    ensures |r| == |list|
  {
    InsertAt(RemoveAt(list, startIndex), endIndex, list[startIndex])
  }

  /** An independent description of the move: the index in the input of the
      element that the result holds at `k`. Elements between the two
      positions shift by one towards the place the moved element left. */
  function SourceIndex(startIndex: nat, endIndex: nat, k: nat): (j: nat)
  {
    if k == endIndex then startIndex
    else if startIndex <= k < endIndex then k + 1
    else if endIndex < k <= startIndex then k - 1
    else k
  }

  lemma ReorderedIsIndexMap<T>(list: seq<T>, startIndex: nat, endIndex: nat)
    requires startIndex < |list| && endIndex < |list|
    ensures |Reordered(list, startIndex, endIndex)| == |list|
    ensures forall k :: 0 <= k < |list| ==>
      SourceIndex(startIndex, endIndex, k) < |list| &&
      Reordered(list, startIndex, endIndex)[k] == list[SourceIndex(startIndex, endIndex, k)]
  {
  }

  lemma RemoveAtMultiset<T>(s: seq<T>, i: nat)
    requires i < |s|
    ensures multiset(RemoveAt(s, i)) + multiset{s[i]} == multiset(s)
  {
    assert s == s[..i] + [s[i]] + s[i + 1..];
  }

  lemma InsertAtMultiset<T>(s: seq<T>, i: nat, x: T)
    requires i <= |s|
    ensures multiset(InsertAt(s, i, x)) == multiset(s) + multiset{x}
  {
    assert s == s[..i] + s[i..];
  }

  /** The result holds the same elements as many times as the input: it is a
      permutation, and so has the same length. */
  lemma ReorderedIsPermutation<T>(list: seq<T>, startIndex: nat, endIndex: nat)
    requires startIndex < |list| && endIndex < |list|
    ensures |Reordered(list, startIndex, endIndex)| == |list|
    ensures multiset(Reordered(list, startIndex, endIndex)) == multiset(list)
  {
    RemoveAtMultiset(list, startIndex);
    InsertAtMultiset(RemoveAt(list, startIndex), endIndex, list[startIndex]);
  }

  lemma RemoveInsert<T>(s: seq<T>, i: nat, x: T)
    requires i <= |s|
    ensures RemoveAt(InsertAt(s, i, x), i) == s
  {
    var r := RemoveAt(InsertAt(s, i, x), i);
    assert forall k :: 0 <= k < |s| ==> r[k] == s[k];
  }

  lemma InsertRemove<T>(s: seq<T>, i: nat)
    requires i < |s|
    ensures InsertAt(RemoveAt(s, i), i, s[i]) == s
  {
    var r := InsertAt(RemoveAt(s, i), i, s[i]);
    assert forall k :: 0 <= k < |s| ==> r[k] == s[k];
  }

  /** The moved element lands at `endIndex`, and every other element keeps
      its order: taking the moved element out of the result gives the input
      with `startIndex` taken out. */
  lemma ReorderedLandsAndKeepsOrder<T>(list: seq<T>, startIndex: nat, endIndex: nat)
    requires startIndex < |list| && endIndex < |list|
    ensures |Reordered(list, startIndex, endIndex)| == |list|
    ensures Reordered(list, startIndex, endIndex)[endIndex] == list[startIndex]
    ensures RemoveAt(Reordered(list, startIndex, endIndex), endIndex) == RemoveAt(list, startIndex)
  {
    RemoveInsert(RemoveAt(list, startIndex), endIndex, list[startIndex]);
  }

  /** Moving an element back from where it landed restores the list. */
  lemma ReorderedUndo<T>(list: seq<T>, startIndex: nat, endIndex: nat)
    requires startIndex < |list| && endIndex < |list|
    ensures |Reordered(list, startIndex, endIndex)| == |list|
    ensures Reordered(Reordered(list, startIndex, endIndex), endIndex, startIndex) == list
  {
    ReorderedLandsAndKeepsOrder(list, startIndex, endIndex);
    InsertRemove(list, startIndex);
  }

  /** Moving an element onto its own position changes nothing. */
  lemma ReorderedInPlace<T>(list: seq<T>, i: nat)
    requires i < |list|
    ensures Reordered(list, i, i) == list
  {
    InsertRemove(list, i);
  }

  /** `result.splice(i, 1)` on the first `len` slots of `a`: shifts the tail
      left by one and returns the element taken out. Slots from `len - 1` on
      are left as they were. */
  method SpliceRemove<T>(a: array<T>, len: nat, i: nat) returns (removed: T)
    requires i < len <= a.Length
    modifies a
    ensures removed == old(a[i])
    ensures a[..len - 1] == RemoveAt(old(a[..len]), i)
    ensures a[len - 1..] == old(a[len - 1..])
  {
    removed := a[i];
    var k := i;
    while k < len - 1
      invariant i <= k <= len - 1
      invariant forall j :: 0 <= j < i ==> a[j] == old(a[j])
      invariant forall j :: i <= j < k ==> a[j] == old(a[j + 1])
      invariant forall j :: k <= j < a.Length ==> a[j] == old(a[j])
    {
      a[k] := a[k + 1];
      k := k + 1;
    }
    assert forall j :: 0 <= j < len - 1 ==> a[..len - 1][j] == RemoveAt(old(a[..len]), i)[j];
  }

  /** `result.splice(i, 0, x)` on the first `len` slots of `a`: shifts the
      tail right by one and writes `x` at `i`. Slots from `len + 1` on are
      left as they were. */
  method SpliceInsert<T>(a: array<T>, len: nat, i: nat, x: T)
    requires i <= len < a.Length
    modifies a
    ensures a[..len + 1] == InsertAt(old(a[..len]), i, x)
    ensures a[len + 1..] == old(a[len + 1..])
  {
    var k := len;
    while k > i
      invariant i <= k <= len
      invariant forall j :: 0 <= j < k ==> a[j] == old(a[j])
      invariant forall j :: k < j <= len ==> a[j] == old(a[j - 1])
      invariant forall j :: len < j < a.Length ==> a[j] == old(a[j])
    {
      a[k] := a[k - 1];
      k := k - 1;
    }
    a[i] := x;
    assert forall j :: 0 <= j <= len ==> a[..len + 1][j] == InsertAt(old(a[..len]), i, x)[j];
  }

  /** `reorder`: copies `list` (`Array.from`), then removes the element at
      `startIndex` from the copy and inserts it at `endIndex`. The input is
      left untouched and the result is a new array. */
  method Reorder<T>(list: array<T>, startIndex: nat, endIndex: nat) returns (result: array<T>)
    requires startIndex < list.Length && endIndex < list.Length
    ensures fresh(result)
    ensures list[..] == old(list[..])
    ensures result[..] == Reordered(list[..], startIndex, endIndex)
  {
    result := new T[list.Length](k requires 0 <= k < list.Length reads list => list[k]);
    assert result[..] == list[..];
    var removed := SpliceRemove(result, result.Length, startIndex);
    SpliceInsert(result, result.Length - 1, endIndex, removed);
    assert result[..] == result[..result.Length];
  }
}
