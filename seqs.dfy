/** Sequence operations the store uses on its arrays: `Array.prototype.filter`
    and `Array.prototype.splice(i, 1)`. */
module Seqs {

  /** The elements of `s` that satisfy `keep`, in their original order. */
  function Filter<T>(s: seq<T>, keep: T -> bool): (r: seq<T>)
    ensures |r| <= |s|
  {
    if s == [] then []
    else if keep(s[0]) then [s[0]] + Filter(s[1..], keep)
    else Filter(s[1..], keep)
  }

  ghost predicate StrictlyIncreasing(idx: seq<nat>) {
    forall a, b :: 0 <= a < b < |idx| ==> idx[a] < idx[b]
  }

  /** Filter keeps every element that satisfies `keep`. */
  lemma {:induction false} FilterKeeps<T>(s: seq<T>, keep: T -> bool, x: T)
    ensures x in Filter(s, keep) <==> x in s && keep(x)
  {
    if s != [] {
      FilterKeeps(s[1..], keep, x);
      assert x in s <==> x == s[0] || x in s[1..];
    }
  }

  /** Every position of `idx`, one further on. */
  function Shift(idx: seq<nat>): (r: seq<nat>)
    ensures |r| == |idx|
    ensures forall k :: 0 <= k < |r| ==> r[k] == idx[k] + 1
  {
    if idx == [] then [] else [idx[0] + 1] + Shift(idx[1..])
  }

  /** The positions of `s` whose element satisfies `keep`, ascending. */
  function Positions<T>(s: seq<T>, keep: T -> bool): (idx: seq<nat>)
    ensures |idx| == |Filter(s, keep)|
  {
    if s == [] then []
    else (if keep(s[0]) then [0] else []) + Shift(Positions(s[1..], keep))
  }

  lemma {:induction false} PositionsIncrease<T>(s: seq<T>, keep: T -> bool)
    ensures StrictlyIncreasing(Positions(s, keep))
  {
    if s != [] {
      PositionsIncrease(s[1..], keep);
      var shifted := Shift(Positions(s[1..], keep));
      assert StrictlyIncreasing(shifted);
      if keep(s[0]) {
        var idx := Positions(s, keep);
        assert idx == [0] + shifted;
        forall a, b | 0 <= a < b < |idx| ensures idx[a] < idx[b] {
          assert idx[b] == shifted[b - 1];
          if a > 0 {
            assert idx[a] == shifted[a - 1];
          }
        }
      }
    }
  }

  /** `idx` names, in order, positions of `s` holding elements that satisfy
      `keep`, and `r` is the sequence of those elements. */
  ghost predicate Picks<T>(s: seq<T>, keep: T -> bool, idx: seq<nat>, r: seq<T>) {
    |idx| == |r| &&
    forall k :: 0 <= k < |idx| ==> idx[k] < |s| && keep(s[idx[k]]) && r[k] == s[idx[k]]
  }

  lemma {:induction false} ShiftPicks<T>(s: seq<T>, keep: T -> bool, rest: seq<nat>, r: seq<T>)
    requires s != [] && Picks(s[1..], keep, rest, r)
    ensures Picks(s, keep, Shift(rest), r)
  {
    var shifted := Shift(rest);
    forall k | 0 <= k < |shifted|
      ensures shifted[k] < |s| && keep(s[shifted[k]]) && r[k] == s[shifted[k]]
    {
      assert s[shifted[k]] == s[1..][rest[k]];
    }
  }

  lemma {:induction false} ConsPicks<T>(s: seq<T>, keep: T -> bool, shifted: seq<nat>, r: seq<T>)
    requires s != [] && keep(s[0]) && Picks(s, keep, shifted, r)
    ensures Picks(s, keep, [0] + shifted, [s[0]] + r)
  {
    var idx := [0] + shifted;
    forall k | 1 <= k < |idx|
      ensures idx[k] < |s| && keep(s[idx[k]]) && ([s[0]] + r)[k] == s[idx[k]]
    {
      assert idx[k] == shifted[k - 1];
    }
  }

  lemma {:induction false} PositionsPick<T>(s: seq<T>, keep: T -> bool)
    ensures Picks(s, keep, Positions(s, keep), Filter(s, keep))
  {
    if s != [] {
      PositionsPick(s[1..], keep);
      ShiftPicks(s, keep, Positions(s[1..], keep), Filter(s[1..], keep));
      if keep(s[0]) {
        ConsPicks(s, keep, Shift(Positions(s[1..], keep)), Filter(s[1..], keep));
      }
    }
  }

  lemma {:induction false} PositionsCover<T>(s: seq<T>, keep: T -> bool)
    ensures forall j :: 0 <= j < |s| && keep(s[j]) ==> j in Positions(s, keep)
  {
    if s != [] {
      var tail := s[1..];
      PositionsCover(tail, keep);
      var rest := Positions(tail, keep);
      var shifted := Shift(rest);
      var idx := Positions(s, keep);
      forall j | 0 <= j < |s| && keep(s[j]) ensures j in idx {
        if j == 0 {
          assert idx[0] == 0;
        } else {
          assert tail[j - 1] == s[j];
          var k :| 0 <= k < |rest| && rest[k] == j - 1;
          assert shifted[k] == j;
          assert idx[|idx| - |shifted| + k] == j;
        }
      }
    }
  }

  /** Filter is exactly the order-preserving subsequence of the positions whose
      element satisfies `keep`: `idx` lists those positions, ascending, and the
      k-th element of the result is the element at `idx[k]`. */
  lemma {:induction false} FilterSelects<T>(s: seq<T>, keep: T -> bool) returns (idx: seq<nat>)
    ensures |idx| == |Filter(s, keep)|
    ensures StrictlyIncreasing(idx)
    ensures forall k :: 0 <= k < |idx| ==>
              idx[k] < |s| && keep(s[idx[k]]) && Filter(s, keep)[k] == s[idx[k]]
    ensures forall j :: 0 <= j < |s| && keep(s[j]) ==> j in idx
  {
    idx := Positions(s, keep);
    PositionsIncrease(s, keep);
    PositionsPick(s, keep);
    PositionsCover(s, keep);
  }

  /** `s.splice(i, 1)` with an index in range: the element at `i` is removed. */
  function RemoveAt<T>(s: seq<T>, i: nat): (r: seq<T>)
    requires i < |s|
    ensures |r| == |s| - 1
    ensures forall k :: 0 <= k < i ==> r[k] == s[k]
    ensures forall k :: i <= k < |r| ==> r[k] == s[k + 1]
    ensures multiset(r) + multiset{s[i]} == multiset(s)
  {
    assert s == s[..i] + [s[i]] + s[i + 1..];
    s[..i] + s[i + 1..]
  }

  /** `s.splice(start, 1)` as ECMAScript defines it: a negative
      start counts from the end and is clamped at the first element; a start
      at or past the end removes nothing. */
  function SpliceOne<T>(s: seq<T>, start: int): (r: seq<T>)
    ensures s == [] ==> r == []
    ensures start >= |s| ==> r == s
    ensures 0 <= start < |s| ==> r == RemoveAt(s, start)
    ensures -|s| <= start < 0 ==> r == RemoveAt(s, |s| + start)
    ensures start < -|s| && s != [] ==> r == RemoveAt(s, 0)
  {
    var k := if start >= 0 then start else if |s| + start < 0 then 0 else |s| + start;
    if k < |s| then RemoveAt(s, k) else s
  }
}
