/**
 * Concatenating a sequence of sequences, and the facts about it that the
 * rest of the model reasons with.
 */
module Sequences {
  /** The parts, one after the other, in order. */
  function Flatten<T>(parts: seq<seq<T>>): seq<T>
  {
    if parts == [] then [] else Flatten(parts[..|parts| - 1]) + parts[|parts| - 1]
  }

  /** Flattening distributes over concatenation. */
  lemma {:induction false} FlattenAppend<T>(a: seq<seq<T>>, b: seq<seq<T>>)
    ensures Flatten(a + b) == Flatten(a) + Flatten(b)
    decreases |b|
  {
    if b != [] {
      var b' := b[..|b| - 1];
      assert (a + b)[..|a + b| - 1] == a + b';
      FlattenAppend(a, b');
    } else {
      assert a + b == a;
    }
  }

  /** Replacing one part changes the flattening at that part only. */
  lemma FlattenUpdate<T>(parts: seq<seq<T>>, j: nat, x: seq<T>)
    requires j < |parts|
    ensures Flatten(parts[j := x]) == Flatten(parts[..j]) + x + Flatten(parts[j + 1..])
  {
    var front := parts[..j] + [x];
    assert parts[j := x] == front + parts[j + 1..];
    FlattenAppend(front, parts[j + 1..]);
    FlattenAppend(parts[..j], [x]);
    assert [x][..0] == [];
  }

  /** Parts that are all empty flatten to nothing. */
  lemma {:induction false} FlattenEmpty<T>(parts: seq<seq<T>>)
    requires forall k :: 0 <= k < |parts| ==> parts[k] == []
    ensures Flatten(parts) == []
  {
    if parts != [] {
      FlattenEmpty(parts[..|parts| - 1]);
    }
  }

  /** Parts that each hold one element flatten to those elements, in order. */
  lemma {:induction false} FlattenSingletons<T>(parts: seq<seq<T>>)
    requires forall k :: 0 <= k < |parts| ==> |parts[k]| == 1
    ensures |Flatten(parts)| == |parts|
    ensures forall k :: 0 <= k < |parts| ==> Flatten(parts)[k] == parts[k][0]
  {
    if parts != [] {
      FlattenSingletons(parts[..|parts| - 1]);
    }
  }

  /** An empty part contributes nothing to the flattening. */
  lemma DropEmptyPart<T>(parts: seq<seq<T>>, j: nat)
    requires j < |parts| && parts[j] == []
    ensures Flatten(parts) == Flatten(parts[..j] + parts[j + 1..])
  {
    assert parts == parts[j := []];
    FlattenUpdate(parts, j, []);
    FlattenAppend(parts[..j], parts[j + 1..]);
  }

  /**
   * When every part but part `j` holds one element and part `j` is empty,
   * the flattening holds the other parts' elements, one each, in order.
   */
  lemma OneEmptyPart<T>(parts: seq<seq<T>>, j: nat)
    requires j < |parts| && parts[j] == []
    requires forall k :: 0 <= k < |parts| && k != j ==> |parts[k]| == 1
    ensures |Flatten(parts)| == |parts| - 1
    ensures forall k :: 0 <= k < |parts| && k != j ==> Flatten(parts)[if k < j then k else k - 1] == parts[k][0]
  {
    var rest := parts[..j] + parts[j + 1..];
    DropEmptyPart(parts, j);
    assert forall k :: 0 <= k < |rest| ==> rest[k] == parts[if k < j then k else k + 1];
    FlattenSingletons(rest);
    forall k | 0 <= k < |parts| && k != j
      ensures Flatten(parts)[if k < j then k else k - 1] == parts[k][0]
    {
      var i := if k < j then k else k - 1;
      assert rest[i] == parts[k];
    }
  }

  /** Prefixes chain: a prefix of a prefix is a prefix. */
  lemma Chain<T>(a: seq<T>, b: seq<T>, c: seq<T>)
    requires a <= b && b <= c
    ensures a <= c
  {
  }

  /** Appending in two steps is appending once. */
  lemma Regroup<T>(whole: seq<T>, mid: seq<T>, start: seq<T>, first: seq<T>, second: seq<T>)
    requires whole == mid + second && mid == start + first
    ensures whole == start + (first + second)
  {
  }
}
