/** The few `List<T>` operations the quest engine relies on, as functions on
    sequences, with the facts about them that the engine's contracts use. */
module Lists {

  /** `list.RemoveAt(i)`. */
  function RemoveAt<T>(s: seq<T>, i: nat): (r: seq<T>)
    requires i < |s|
    ensures |r| == |s| - 1
    ensures forall j :: 0 <= j < i ==> r[j] == s[j]
    ensures forall j :: i <= j < |r| ==> r[j] == s[j + 1]
  {
    s[..i] + s[i + 1..]
  }

  /** `list.FindIndex(x => x == key)`: the first position holding `key`, or -1. */
  function FindIndex<T(==)>(s: seq<T>, key: T): (i: int)
    ensures i == -1 <==> key !in s
    ensures i != -1 ==> 0 <= i < |s| && s[i] == key
    ensures forall j :: 0 <= j < i ==> s[j] != key
  {
    if s == [] then -1
    else if s[0] == key then 0
    else
      var k := FindIndex(s[1..], key);
      if k == -1 then -1 else k + 1
  }

  /** `list.Remove(x)`: drops the first occurrence of `x`; no-op when absent. */
  function RemoveFirst<T(==)>(s: seq<T>, x: T): (r: seq<T>)
    ensures |r| == if x in s then |s| - 1 else |s|
    ensures x !in s ==> r == s
  {
    if s == [] then []
    else if s[0] == x then s[1..]
    else [s[0]] + RemoveFirst(s[1..], x)
  }

  /** `Remove` removes exactly the element `FindIndex` locates. */
  lemma {:induction false} RemoveFirstIsRemoveAt<T>(s: seq<T>, x: T)
    requires x in s
    ensures RemoveFirst(s, x) == RemoveAt(s, FindIndex(s, x))
  {
    if s[0] != x {
      assert x in s[1..];
      RemoveFirstIsRemoveAt(s[1..], x);
      var k := FindIndex(s[1..], x);
      var r, t := RemoveFirst(s, x), RemoveAt(s, k + 1);
      assert r == [s[0]] + RemoveAt(s[1..], k);
      forall j | 0 <= j < |r|
        ensures r[j] == t[j]
      {
        if j > 0 {
          assert r[j] == RemoveAt(s[1..], k)[j - 1];
        }
      }
    }
  }

  /** `Remove` takes away one copy of `x` (if any) and nothing else. */
  lemma {:induction false} RemoveFirstMultiset<T>(s: seq<T>, x: T)
    ensures multiset(RemoveFirst(s, x)) == multiset(s) - multiset{x}
  {
    if s != [] {
      assert s == [s[0]] + s[1..];
      if s[0] != x {
        RemoveFirstMultiset(s[1..], x);
      }
    }
  }

  /** The queue left behind after the scan in `QG_Quest.NextEvent` has
      inspected and removed `j` candidates. Because the loop does
      `RemoveAt(i)` followed by `i++`, it removes the elements at the
      original positions 0, 2, 4, ..., 2j-2. */
  function ScanRemoved<T>(s: seq<T>, j: nat): seq<T>
  {
    if j == 0 then s
    else if |s| <= 1 then []
    else [s[1]] + ScanRemoved(s[2..], j - 1)
  }

  /** While the scan can go on (`2j <= |s| + 1`) exactly `j` elements are gone. */
  lemma {:induction false} ScanRemovedLength<T>(s: seq<T>, j: nat)
    requires 2 * j <= |s| + 1
    ensures |ScanRemoved(s, j)| == |s| - j
  {
    if j > 0 && |s| > 1 {
      ScanRemovedLength(s[2..], j - 1);
    }
  }

  /** One more iteration of the scan: the loop index `j` points at original
      position `2j`, and removing it gives the queue after `j + 1` removals. */
  lemma {:induction false} ScanRemovedStep<T>(s: seq<T>, j: nat)
    requires 2 * j < |s|
    ensures |ScanRemoved(s, j)| == |s| - j
    ensures ScanRemoved(s, j)[j] == s[2 * j]
    ensures RemoveAt(ScanRemoved(s, j), j) == ScanRemoved(s, j + 1)
  {
    ScanRemovedLength(s, j);
    if j > 0 {
      ScanRemovedStep(s[2..], j - 1);
      var rest := ScanRemoved(s[2..], j - 1);
      assert ScanRemoved(s, j) == [s[1]] + rest;
      assert ScanRemoved(s, j + 1) == [s[1]] + ScanRemoved(s[2..], j);
      assert RemoveAt([s[1]] + rest, j) == [s[1]] + RemoveAt(rest, j - 1);
    }
  }

  /** The scan never adds anything: every element left was in the original queue,
      and the entries at odd original positions below `2j` are still queued. */
  lemma {:induction false} ScanRemovedKeeps<T>(s: seq<T>, j: nat)
    ensures forall x :: x in ScanRemoved(s, j) ==> x in s
    ensures 2 * j <= |s| + 1 ==> |ScanRemoved(s, j)| == |s| - j
    ensures 2 * j <= |s| + 1 ==> forall t :: 0 <= t < j && 2 * t + 1 < |s| ==> ScanRemoved(s, j)[t] == s[2 * t + 1]
  {
    if j > 0 && |s| > 1 {
      ScanRemovedKeeps(s[2..], j - 1);
      if 2 * j <= |s| + 1 {
        ScanRemovedLength(s, j);
        forall t | 0 <= t < j && 2 * t + 1 < |s|
          ensures ScanRemoved(s, j)[t] == s[2 * t + 1]
        {
          if t > 0 {
            assert ScanRemoved(s, j)[t] == ScanRemoved(s[2..], j - 1)[t - 1];
          }
        }
      }
    }
  }
}
