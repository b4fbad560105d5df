/**
 * The three sequence edits the slide editor and the block canvas both make,
 * written as the client writes them: insertion after an index with
 * `[...s.slice(0, k + 1), x, ...s.slice(k + 1)]` (or, equivalently,
 * `splice(k + 1, 0, x)` on a copy), removal with `filter((_, i) => i !== k)`,
 * positional update with `map((b, i) => i === k ? f(b) : b)` (the
 * updated element passed in already computed), and a move
 * made of `splice(from, 1)` followed by `splice(to, 0, moved)`.
 */
module SeqOps {
  import opened Common

  /** `map((b, i) => i === k ? x : b)` at an existing position `k`: only that position changes. */
  function ReplaceAt<T>(s: seq<T>, k: int, x: T): (r: seq<T>)
    requires 0 <= k < |s|
    ensures |r| == |s|
    ensures r[k] == x
    ensures forall i :: 0 <= i < |s| && i != k ==> r[i] == s[i]
  {
    s[..k] + [x] + s[k + 1..]
  }

  /** `[...s.slice(0, k + 1), x, ...s.slice(k + 1)]`, for any integer `k`. */
  function InsertAfter<T>(s: seq<T>, k: int, x: T): (r: seq<T>)
    ensures |r| == |s| + 1
  {
    var a := JsSlice(s, 0, k + 1);
    var b := JsSliceFrom(s, k + 1);
    assert a + b == s by {
      var p := RelativeIndex(k + 1, |s|);
      assert a == s[..p] && b == s[p..];
    }
    a + [x] + b
  }

  /** Inserting after an existing position puts `x` right behind it and shifts the tail. */
  lemma InsertAfterInRange<T>(s: seq<T>, k: int, x: T)
    requires -1 <= k < |s|
    ensures InsertAfter(s, k, x) == s[..k + 1] + [x] + s[k + 1..]
    ensures InsertAfter(s, k, x)[k + 1] == x
  {
  }

  /** `filter((_, i) => i !== k)`: drop position `k` if there is one. */
  function RemoveAt<T>(s: seq<T>, k: int): (r: seq<T>)
    ensures 0 <= k < |s| ==> |r| == |s| - 1
    ensures !(0 <= k < |s|) ==> r == s
    ensures forall i :: 0 <= i < |r| ==> r[i] == (if 0 <= k <= i then s[i + 1] else s[i])
  {
    if 0 <= k < |s| then s[..k] + s[k + 1..] else s
  }

  /** Removal undoes insertion at the position right after `k`. */
  lemma RemoveAfterInsert<T>(s: seq<T>, k: int, x: T)
    requires -1 <= k < |s|
    ensures RemoveAt(InsertAfter(s, k, x), k + 1) == s
  {
    InsertAfterInRange(s, k, x);
    var t := InsertAfter(s, k, x);
    assert t[..k + 1] == s[..k + 1];
    assert t[k + 2..] == s[k + 1..];
    assert s[..k + 1] + s[k + 1..] == s;
  }

  /**
   * `const a = [...s]; const [moved] = a.splice(from, 1); a.splice(to, 0, moved)`.
   * Callers pass an existing `from`; `to` has already been checked.
   */
  function Move<T>(s: seq<T>, from: int, to: int): (r: seq<T>)
    requires 0 <= from < |s| && 0 <= to < |s|
    ensures |r| == |s|
    ensures r[to] == s[from]
  {
    var rest := s[..from] + s[from + 1..];
    rest[..to] + [s[from]] + rest[to..]
  }

  /** A move only reorders: the result is a permutation of the input. */
  lemma MoveIsPermutation<T>(s: seq<T>, from: int, to: int)
    requires 0 <= from < |s| && 0 <= to < |s|
    ensures multiset(Move(s, from, to)) == multiset(s)
  {
    var rest := s[..from] + s[from + 1..];
    assert s == s[..from] + [s[from]] + s[from + 1..];
    assert rest == rest[..to] + rest[to..];
    calc {
      multiset(Move(s, from, to));
      multiset(rest[..to]) + multiset([s[from]]) + multiset(rest[to..]);
      multiset(rest) + multiset([s[from]]);
      multiset(s[..from]) + multiset(s[from + 1..]) + multiset([s[from]]);
      multiset(s);
    }
  }

  /** Elements strictly between the two positions shift by one; the others keep their place. */
  lemma MoveAt<T>(s: seq<T>, from: int, to: int, i: int)
    requires 0 <= from < |s| && 0 <= to < |s| && 0 <= i < |s|
    ensures Move(s, from, to)[i] ==
      if i == to then s[from]
      else if from < to && from <= i < to then s[i + 1]
      else if to < from && to < i <= from then s[i - 1]
      else s[i]
  {
  }

  /** Moving back undoes a move. */
  lemma MoveBack<T>(s: seq<T>, from: int, to: int)
    requires 0 <= from < |s| && 0 <= to < |s|
    ensures Move(Move(s, from, to), to, from) == s
  {
    var t := Move(s, from, to);
    var u := Move(t, to, from);
    forall i | 0 <= i < |s|
      ensures u[i] == s[i]
    {
      MoveAt(t, to, from, i);
      if i == from {
        MoveAt(s, from, to, to);
      } else if to < from && to <= i < from {
        MoveAt(s, from, to, i + 1);
      } else if from < to && from < i <= to {
        MoveAt(s, from, to, i - 1);
      } else {
        MoveAt(s, from, to, i);
      }
    }
  }
}
