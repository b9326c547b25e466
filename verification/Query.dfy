/** ORDER BY a column and then the id: the ids of the selected rows, in that order. */
module Query {

  /** The sort column of the selected rows. */
  type Column = map<nat, int>

  predicate Before(c: Column, a: nat, b: nat)
    requires a in c && b in c
  {
    c[a] < c[b] || (c[a] == c[b] && a < b)
  }

  ghost predicate Within(c: Column, ids: seq<nat>) {
    forall i :: 0 <= i < |ids| ==> ids[i] in c
  }

  ghost predicate Ordered(c: Column, ids: seq<nat>)
    requires Within(c, ids)
  {
    forall i, j :: 0 <= i < j < |ids| ==> Before(c, ids[i], ids[j])
  }

  /** The ids below a bound, in order. */
  ghost predicate Lists(c: Column, bound: nat, ids: seq<nat>) {
    && Within(c, ids) && Ordered(c, ids)
    && forall id <- c :: id < bound <==> id in ids
  }

  function Insert(c: Column, ids: seq<nat>, id: nat): (r: seq<nat>)
    requires id in c && Within(c, ids)
    ensures Within(c, r)
  {
    if ids == [] || Before(c, id, ids[0]) then [id] + ids else [ids[0]] + Insert(c, ids[1..], id)
  }

  lemma {:induction false} InsertMembers(c: Column, ids: seq<nat>, id: nat)
    requires id in c && Within(c, ids)
    ensures forall x :: x in Insert(c, ids, id) <==> x in ids || x == id
  {
    if ids == [] || Before(c, id, ids[0]) {
    } else {
      InsertMembers(c, ids[1..], id);
      assert ids == [ids[0]] + ids[1..];
    }
  }

  lemma {:induction false} InsertOrdered(c: Column, ids: seq<nat>, id: nat)
    requires id in c && id !in ids && Within(c, ids) && Ordered(c, ids)
    ensures Ordered(c, Insert(c, ids, id))
  {
    if ids == [] || Before(c, id, ids[0]) {
    } else {
      InsertOrdered(c, ids[1..], id);
      InsertMembers(c, ids[1..], id);
      var tail := Insert(c, ids[1..], id);
      forall j | 0 <= j < |tail| ensures Before(c, ids[0], tail[j]) {
        assert tail[j] in ids[1..] || tail[j] == id;
      }
    }
  }

  lemma InsertLists(c: Column, bound: nat, ids: seq<nat>)
    requires Lists(c, bound, ids)
    ensures Lists(c, bound + 1, if bound in c then Insert(c, ids, bound) else ids)
  {
    if bound in c {
      InsertOrdered(c, ids, bound);
      InsertMembers(c, ids, bound);
    }
  }

  method Sorted(c: Column, bound: nat) returns (ids: seq<nat>)
    requires forall id <- c :: id < bound
    ensures Lists(c, bound, ids)
  {
    ids := [];
    for id := 0 to bound
      invariant Lists(c, id, ids)
    {
      InsertLists(c, id, ids);
      if id in c { ids := Insert(c, ids, id); }
    }
  }
}
