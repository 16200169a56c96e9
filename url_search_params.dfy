/**
 * The part of `URLSearchParams` the query builder uses: an ordered list of
 * name/value pairs, `get` (value of the first pair with that name) and `set`
 * (overwrite the first pair with that name and drop the others, or append).
 * Percent-encoding by `toString()` is not modelled.
 */
module UrlSearchParams {
  import opened Wrappers

  type Query = seq<(string, string)>

  /** `params.get(name)`. */
  function Get(q: Query, name: string): Option<string>
  {
    if q == [] then None
    else if q[0].0 == name then Some(q[0].1)
    else Get(q[1..], name)
  }

  /** No name occurs twice. */
  ghost predicate DistinctNames(q: Query)
  {
    forall i, j :: 0 <= i < j < |q| ==> q[i].0 != q[j].0
  }

  /** The pairs of `q` whose name is not `name`. */
  function RemoveAll(q: Query, name: string): Query
  {
    if q == [] then []
    else if q[0].0 == name then RemoveAll(q[1..], name)
    else [q[0]] + RemoveAll(q[1..], name)
  }

  /** `params.set(name, value)`. */
  function SetParam(q: Query, name: string, value: string): Query
  {
    if q == [] then [(name, value)]
    else if q[0].0 == name then [(name, value)] + RemoveAll(q[1..], name)
    else [q[0]] + SetParam(q[1..], name, value)
  }

  lemma {:induction false} GetAfterRemoveAll(q: Query, name: string, other: string)
    ensures Get(RemoveAll(q, name), other) == if other == name then None else Get(q, other)
  {
    if q != [] {
      GetAfterRemoveAll(q[1..], name, other);
    }
  }

  /** After `set`, `get` of that name gives the new value and every other name reads as before. */
  lemma {:induction false} GetAfterSet(q: Query, name: string, value: string, other: string)
    ensures Get(SetParam(q, name, value), other) == if other == name then Some(value) else Get(q, other)
  {
    if q != [] {
      if q[0].0 == name {
        GetAfterRemoveAll(q[1..], name, other);
      } else {
        GetAfterSet(q[1..], name, value, other);
      }
    }
  }

  /** A name that does not occur in `q` leaves `RemoveAll` with nothing to remove. */
  lemma {:induction false} RemoveAbsent(q: Query, name: string)
    requires forall i :: 0 <= i < |q| ==> q[i].0 != name
    ensures RemoveAll(q, name) == q
  {
    if q != [] {
      RemoveAbsent(q[1..], name);
    }
  }

  /** `Get` finds a value exactly for the names that occur. */
  lemma {:induction false} GetSomeIff(q: Query, name: string)
    ensures Get(q, name).Some? <==> exists i :: 0 <= i < |q| && q[i].0 == name
  {
    if q != [] {
      GetSomeIff(q[1..], name);
      if exists i :: 0 <= i < |q| && q[i].0 == name {
        var i :| 0 <= i < |q| && q[i].0 == name;
        if i > 0 {
          assert q[1..][i - 1].0 == name;
        }
      }
    }
  }

  /**
   * On a query without repeated names, `set` keeps every existing pair at its
   * position (only the value of `name` can change), appends at most one pair,
   * and still has no repeated names.
   */
  lemma {:induction false} SetKeepsPositions(q: Query, name: string, value: string)
    requires DistinctNames(q)
    ensures var r := SetParam(q, name, value);
      && |q| <= |r| <= |q| + 1
      && (forall i :: 0 <= i < |q| ==> r[i].0 == q[i].0)
      && DistinctNames(r)
  {
    var r := SetParam(q, name, value);
    if q != [] {
      if q[0].0 == name {
        RemoveAbsent(q[1..], name);
      } else {
        var tail := q[1..];
        SetKeepsPositions(tail, name, value);
        var rt := SetParam(tail, name, value);
        assert r == [q[0]] + rt;
        GetSomeIff(tail, q[0].0);
        assert forall i :: 0 <= i < |tail| ==> tail[i].0 == q[i + 1].0;
        assert Get(tail, q[0].0) == None;
        forall j | 0 <= j < |rt|
          ensures rt[j].0 != q[0].0
        {
          GetSomeIff(rt, rt[j].0);
          GetAfterSet(tail, name, value, rt[j].0);
        }
      }
    }
  }

  /**
   * On a query without repeated names, `set` overwrites the pair of `name` where
   * it stands and leaves every other pair as it was, or, when `name` is new,
   * appends its pair after all the existing ones.
   */
  lemma {:induction false} SetReplacesOrAppends(q: Query, name: string, value: string)
    requires DistinctNames(q)
    ensures var r := SetParam(q, name, value);
      && |q| <= |r| <= |q| + 1
      && (forall i :: 0 <= i < |q| ==> r[i] == if q[i].0 == name then (name, value) else q[i])
      && ((exists i :: 0 <= i < |q| && q[i].0 == name) ==> |r| == |q|)
      && ((forall i :: 0 <= i < |q| ==> q[i].0 != name) ==> r == q + [(name, value)])
  {
    var r := SetParam(q, name, value);
    if q != [] {
      var tail := q[1..];
      if q[0].0 == name {
        RemoveAbsent(tail, name);
        assert r == [(name, value)] + tail;
      } else {
        assert DistinctNames(tail) by {
          forall i, j | 0 <= i < j < |tail|
            ensures tail[i].0 != tail[j].0
          {
            assert tail[i] == q[i + 1] && tail[j] == q[j + 1];
          }
        }
        SetReplacesOrAppends(tail, name, value);
        var rt := SetParam(tail, name, value);
        assert r == [q[0]] + rt;
        if exists i :: 0 <= i < |q| && q[i].0 == name {
          var i :| 0 <= i < |q| && q[i].0 == name;
          assert tail[i - 1].0 == name;
        }
        if forall i :: 0 <= i < |q| ==> q[i].0 != name {
          assert forall i :: 0 <= i < |tail| ==> tail[i].0 == q[i + 1].0;
          assert rt == tail + [(name, value)];
          assert q == [q[0]] + tail;
        }
      }
    }
  }

  /** A `URLSearchParams` object; `set` updates it in place. */
  class SearchParams {
    var entries: Query

    /** `new URLSearchParams({...})` from the given pairs. */
    constructor (init: Query)
      ensures entries == init
    {
      entries := init;
    }

    /** `params.set(name, value)`. */
    method Set(name: string, value: string)
      modifies this
      ensures entries == SetParam(old(entries), name, value)
      ensures Get(entries, name) == Some(value)
      ensures forall other :: other != name ==> Get(entries, other) == Get(old(entries), other)
    {
      GetAfterSet(entries, name, value, name);
      forall other | other != name
        ensures Get(SetParam(entries, name, value), other) == Get(entries, other)
      {
        GetAfterSet(entries, name, value, other);
      }
      entries := SetParam(entries, name, value);
    }
  }
}
