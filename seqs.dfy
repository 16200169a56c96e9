/**
 * The array combinators the pipeline is written with (`filter`, `map`, `some`,
 * `slice(0, end)`), as functions on sequences, and the facts about which
 * positions of the input a filter keeps.
 */
module Seqs {
  import opened Wrappers

  /** `s.filter(p)`: the elements satisfying `p`, in their original order. */
  function Filter<T>(p: T -> bool, s: seq<T>): (r: seq<T>)
    ensures |r| <= |s|
    ensures forall k :: 0 <= k < |r| ==> p(r[k])
  {
    if s == [] then []
    else if p(s[0]) then [s[0]] + Filter(p, s[1..])
    else Filter(p, s[1..])
  }

  /** `s.map(f)`. */
  function Map<T, U>(f: T -> U, s: seq<T>): (r: seq<U>)
    ensures |r| == |s|
    ensures forall k :: 0 <= k < |s| ==> r[k] == f(s[k])
  {
    seq(|s|, k requires 0 <= k < |s| => f(s[k]))
  }

  /** `s.some(p)`. */
  function Any<T>(p: T -> bool, s: seq<T>): bool
  {
    if s == [] then false else p(s[0]) || Any(p, s[1..])
  }

  /** `some` holds exactly when one element satisfies the predicate. */
  lemma {:induction false} AnyIff<T>(p: T -> bool, s: seq<T>)
    ensures Any(p, s) <==> exists i :: 0 <= i < |s| && p(s[i])
  {
    if s != [] {
      AnyIff(p, s[1..]);
      if Any(p, s[1..]) {
        var i :| 0 <= i < |s[1..]| && p(s[1..][i]);
        assert p(s[i + 1]);
      }
      if exists i :: 0 <= i < |s| && p(s[i]) {
        var i :| 0 <= i < |s| && p(s[i]);
        if i > 0 {
          assert p(s[1..][i - 1]);
        }
      }
    }
  }

  /** The end index `slice(0, end)` stops at on a sequence of length `len`. */
  function SliceEnd(len: nat, end: int): (e: nat)
    ensures e <= len
    ensures 0 <= end ==> e == if end < len then end else len
    ensures end < 0 ==> e == if len + end < 0 then 0 else len + end
  {
    if end < 0 then (if len + end < 0 then 0 else len + end)
    else if end < len then end
    else len
  }

  /** `s.slice(0, end)`: a negative `end` counts back from the end of `s`. */
  function Slice<T>(s: seq<T>, end: int): (r: seq<T>)
    ensures |r| <= |s| && r == s[..|r|]
    ensures 0 <= end ==> |r| == if end < |s| then end else |s|
  {
    s[..SliceEnd(|s|, end)]
  }

  /** Strictly increasing, so listed positions keep the order of the input. */
  ghost predicate Increasing(idx: seq<nat>)
  {
    forall k, l :: 0 <= k < l < |idx| ==> idx[k] < idx[l]
  }

  /** `idx` lists, in increasing order, exactly the positions of `s` whose element satisfies `p`. */
  ghost predicate PositionsOf<T>(p: T -> bool, s: seq<T>, idx: seq<nat>)
  {
    && Increasing(idx)
    && (forall k :: 0 <= k < |idx| ==> idx[k] < |s| && p(s[idx[k]]))
    && (forall i :: 0 <= i < |s| && p(s[i]) ==> i in idx)
  }

  /**
   * A filter is an order-preserving selection: its k-th element is the input at
   * the k-th position that satisfies the predicate, and every such position is used.
   */
  lemma {:induction false} FilterPositions<T>(p: T -> bool, s: seq<T>) returns (idx: seq<nat>)
    ensures PositionsOf(p, s, idx)
    ensures |idx| == |Filter(p, s)|
    ensures forall k :: 0 <= k < |idx| ==> Filter(p, s)[k] == s[idx[k]]
  {
    if s == [] {
      idx := [];
    } else {
      var rest := FilterPositions(p, s[1..]);
      idx := Shifted(rest, p(s[0]));
      ShiftedIncreasing(rest, p(s[0]));
      ShiftedSelects(p, s, rest);
      ShiftedCovers(p, s, rest);
    }
  }

  /** The positions `rest` of a tail, moved one place right, with 0 in front when `head` holds. */
  function Shifted(rest: seq<nat>, head: bool): (idx: seq<nat>)
    ensures |idx| == |rest| + Offset(head)
    ensures forall k :: 0 <= k < |idx| ==>
      idx[k] == if k < Offset(head) then 0 else rest[k - Offset(head)] + 1
  {
    seq(|rest| + Offset(head), k requires 0 <= k < |rest| + Offset(head) =>
      if k < Offset(head) then 0 else rest[k - Offset(head)] + 1)
  }

  /** How many places `Shifted` moves the tail's positions within the result. */
  function Offset(head: bool): (n: nat)
    ensures n <= 1 && (n == 1 <==> head)
  {
    if head then 1 else 0
  }

  /** Shifting keeps positions increasing. */
  lemma ShiftedIncreasing(rest: seq<nat>, head: bool)
    requires Increasing(rest)
    ensures Increasing(Shifted(rest, head))
  {
    var idx, off := Shifted(rest, head), Offset(head);
    forall k, l | 0 <= k < l < |idx|
      ensures idx[k] < idx[l]
    {
      if k >= off {
        assert idx[k] == rest[k - off] + 1 && idx[l] == rest[l - off] + 1;
      }
    }
  }

  /** The shifted positions of the tail's filter pick out the elements of the whole filter. */
  lemma ShiftedSelects<T>(p: T -> bool, s: seq<T>, rest: seq<nat>)
    requires s != [] && |rest| == |Filter(p, s[1..])|
    requires forall k :: 0 <= k < |rest| ==> rest[k] < |s[1..]| && Filter(p, s[1..])[k] == s[1..][rest[k]]
    ensures var idx := Shifted(rest, p(s[0]));
      forall k :: 0 <= k < |idx| ==> idx[k] < |s| && Filter(p, s)[k] == s[idx[k]]
  {
    var idx, off := Shifted(rest, p(s[0])), Offset(p(s[0]));
    var tail := Filter(p, s[1..]);
    assert Filter(p, s) == (if p(s[0]) then [s[0]] else []) + tail;
    forall k | 0 <= k < |idx|
      ensures idx[k] < |s| && Filter(p, s)[k] == s[idx[k]]
    {
      if k >= off {
        var j := k - off;
        assert idx[k] == rest[j] + 1;
        assert Filter(p, s)[k] == tail[j];
        assert s[idx[k]] == s[1..][rest[j]];
      }
    }
  }

  /** Every satisfying position of `s` is the head or a shifted position of its tail. */
  lemma ShiftedCovers<T>(p: T -> bool, s: seq<T>, rest: seq<nat>)
    requires s != []
    requires forall i :: 0 <= i < |s[1..]| && p(s[1..][i]) ==> i in rest
    ensures var idx := Shifted(rest, p(s[0]));
      forall i :: 0 <= i < |s| && p(s[i]) ==> i in idx
  {
    var idx, off := Shifted(rest, p(s[0])), Offset(p(s[0]));
    forall i | 0 <= i < |s| && p(s[i])
      ensures i in idx
    {
      if i == 0 {
        assert idx[0] == 0;
      } else {
        assert p(s[1..][i - 1]);
        var k :| 0 <= k < |rest| && rest[k] == i - 1;
        assert idx[k + off] == i;
      }
    }
  }

  /** Every element of `recs` is present; `None` if one of them is null. */
  function AllPresent<T>(recs: seq<Option<T>>): (r: Option<seq<T>>)
    ensures r.Some? <==> forall k :: 0 <= k < |recs| ==> recs[k].Some?
    ensures r.Some? ==> |r.value| == |recs| && forall k :: 0 <= k < |recs| ==> recs[k] == Some(r.value[k])
  {
    if recs == [] then Some([])
    else if recs[0].None? then None
    else match AllPresent(recs[1..])
      case None => None
      case Some(rest) => Some([recs[0].value] + rest)
  }
}
