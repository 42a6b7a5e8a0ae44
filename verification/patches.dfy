/** The local list patches the hook applies after a successful remote
    mutation: prepend the created row, replace rows by id, drop rows by id.
    None of them re-sorts the list. */
module ListPatches {
  import opened ExpenseTypes

  /** True when `id` is the id of some entry of `s`. */
  predicate HasId(s: seq<Expense>, id: string) {
    exists i :: 0 <= i < |s| && s[i].id == id
  }

  /** Number of entries of `s` whose id is `id`. */
  function CountId(s: seq<Expense>, id: string): (n: nat)
    ensures n <= |s|
    ensures n == 0 <==> !HasId(s, id)
  {
    if s == [] then 0
    else (if s[0].id == id then 1 else 0) + CountId(s[1..], id)
  }

  /** No two entries share an id, as for rows of one table keyed by id. */
  predicate UniqueIds(s: seq<Expense>) {
    forall i, j :: 0 <= i < j < |s| ==> s[i].id != s[j].id
  }

  /** After an add: the created row in front of the old list. */
  function Prepend(created: Expense, s: seq<Expense>): (r: seq<Expense>)
    ensures |r| == |s| + 1
    ensures r[0] == created
    ensures forall i :: 0 <= i < |s| ==> r[i + 1] == s[i]
  {
    [created] + s
  }

  /** After an update: every entry with id `id` becomes `updated`, in
      place; every other entry is kept as it is. */
  function ReplaceById(s: seq<Expense>, id: string, updated: Expense): (r: seq<Expense>)
    ensures |r| == |s|
    ensures forall i :: 0 <= i < |s| && s[i].id == id ==> r[i] == updated
    ensures forall i :: 0 <= i < |s| && s[i].id != id ==> r[i] == s[i]
  {
    if s == [] then []
    else [if s[0].id == id then updated else s[0]] + ReplaceById(s[1..], id, updated)
  }

  /** After a delete: the entries whose id is not `id`, in their order. */
  function RemoveById(s: seq<Expense>, id: string): (r: seq<Expense>)
    ensures |r| == |s| - CountId(s, id)
    ensures !HasId(r, id)
    ensures forall e :: e in r <==> e in s && e.id != id
  {
    if s == [] then []
    else if s[0].id == id then RemoveById(s[1..], id)
    else [s[0]] + RemoveById(s[1..], id)
  }

  /** Replacing an id that no entry carries leaves the list unchanged. */
  lemma ReplaceAbsentIsIdentity(s: seq<Expense>, id: string, updated: Expense)
    requires !HasId(s, id)
    ensures ReplaceById(s, id, updated) == s
  {
    var r := ReplaceById(s, id, updated);
    assert forall i :: 0 <= i < |s| ==> r[i] == s[i];
  }

  /** Applying the same update twice is the same as applying it once. */
  lemma ReplaceIdempotent(s: seq<Expense>, id: string, updated: Expense)
    ensures ReplaceById(ReplaceById(s, id, updated), id, updated) == ReplaceById(s, id, updated)
  {
    var r := ReplaceById(s, id, updated);
    var rr := ReplaceById(r, id, updated);
    forall i | 0 <= i < |s|
      ensures rr[i] == r[i]
    {
      if r[i].id == id {
        assert r[i] == updated;
      }
    }
  }

  /** Deleting an id twice is the same as deleting it once. */
  lemma RemoveIdempotent(s: seq<Expense>, id: string)
    ensures RemoveById(RemoveById(s, id), id) == RemoveById(s, id)
  {
    RemoveAbsentIsIdentity(RemoveById(s, id), id);
  }

  /** Deleting an id no entry carries leaves the list unchanged. */
  lemma {:induction false} RemoveAbsentIsIdentity(s: seq<Expense>, id: string)
    requires !HasId(s, id)
    ensures RemoveById(s, id) == s
  {
    if s != [] {
      assert !HasId(s[1..], id) by {
        forall i | 0 <= i < |s[1..]| ensures s[1..][i].id != id {
          assert s[1..][i] == s[i + 1];
        }
      }
      RemoveAbsentIsIdentity(s[1..], id);
      assert s == [s[0]] + s[1..];
    }
  }

  /** With unique ids, deleting a present id removes exactly one entry. */
  lemma {:induction false} RemoveUniquePresent(s: seq<Expense>, id: string)
    requires UniqueIds(s)
    requires HasId(s, id)
    ensures |RemoveById(s, id)| == |s| - 1
  {
    CountUniqueAtMostOne(s, id);
  }

  lemma {:induction false} CountUniqueAtMostOne(s: seq<Expense>, id: string)
    requires UniqueIds(s)
    ensures CountId(s, id) <= 1
  {
    if s != [] {
      assert UniqueIds(s[1..]) by {
        forall i, j | 0 <= i < j < |s[1..]| ensures s[1..][i].id != s[1..][j].id {
          assert s[1..][i] == s[i + 1] && s[1..][j] == s[j + 1];
        }
      }
      CountUniqueAtMostOne(s[1..], id);
      if s[0].id == id {
        assert !HasId(s[1..], id) by {
          forall i | 0 <= i < |s[1..]| ensures s[1..][i].id != id {
            assert s[1..][i] == s[i + 1];
          }
        }
      }
    }
  }

  /** Deletion keeps the surviving entries in their original relative
      order: the result embeds into the input along strictly increasing
      positions. Together with the length |s| - CountId(s, id) this means
      every entry whose id differs is kept. */
  lemma {:induction false} RemoveKeepsOrder(s: seq<Expense>, id: string) returns (pos: seq<nat>)
    ensures |pos| == |RemoveById(s, id)|
    ensures forall k :: 0 <= k < |pos| ==> pos[k] < |s| && RemoveById(s, id)[k] == s[pos[k]]
    ensures forall k, l :: 0 <= k < l < |pos| ==> pos[k] < pos[l]
  {
    if s == [] {
      pos := [];
    } else {
      var tail := RemoveKeepsOrder(s[1..], id);
      pos := LiftPositions(s, id, tail);
    }
  }

  /** From the kept positions of the tail to the kept positions of `s`. */
  lemma LiftPositions(s: seq<Expense>, id: string, tail: seq<nat>) returns (pos: seq<nat>)
    requires |s| > 0
    requires |tail| == |RemoveById(s[1..], id)|
    requires forall k :: 0 <= k < |tail| ==> tail[k] < |s[1..]| && RemoveById(s[1..], id)[k] == s[1..][tail[k]]
    requires forall k, l :: 0 <= k < l < |tail| ==> tail[k] < tail[l]
    ensures |pos| == |RemoveById(s, id)|
    ensures forall k :: 0 <= k < |pos| ==> pos[k] < |s| && RemoveById(s, id)[k] == s[pos[k]]
    ensures forall k, l :: 0 <= k < l < |pos| ==> pos[k] < pos[l]
  {
    var rt := RemoveById(s[1..], id);
    var shifted := seq(|tail|, k requires 0 <= k < |tail| => tail[k] + 1);
    assert forall k :: 0 <= k < |tail| ==> rt[k] == s[shifted[k]];
    assert forall k :: 0 <= k < |shifted| ==> 0 < shifted[k] < |s|;
    if s[0].id == id {
      pos := shifted;
      assert RemoveById(s, id) == rt;
    } else {
      pos := [0] + shifted;
      KeepHead(s, id, rt, shifted);
    }
  }

  /** Prepending position 0 to the shifted positions of the tail. */
  lemma KeepHead(s: seq<Expense>, id: string, rt: seq<Expense>, shifted: seq<nat>)
    requires |s| > 0 && s[0].id != id && |shifted| == |rt|
    requires RemoveById(s, id) == [s[0]] + rt
    requires forall k :: 0 <= k < |shifted| ==> 0 < shifted[k] < |s| && rt[k] == s[shifted[k]]
    requires forall k, l :: 0 <= k < l < |shifted| ==> shifted[k] < shifted[l]
    ensures var pos := [0] + shifted;
      && |pos| == |RemoveById(s, id)|
      && (forall k :: 0 <= k < |pos| ==> pos[k] < |s| && RemoveById(s, id)[k] == s[pos[k]])
      && (forall k, l :: 0 <= k < l < |pos| ==> pos[k] < pos[l])
  {
    var pos := [0] + shifted;
    var r := RemoveById(s, id);
    forall k | 0 < k < |pos|
      ensures pos[k] == shifted[k - 1] && r[k] == rt[k - 1]
    {
    }
  }

  /** Updating an entry and then deleting its id is the same as deleting
      the id straight away, when the updated row keeps that id. */
  lemma {:induction false} RemoveAfterReplace(s: seq<Expense>, id: string, updated: Expense)
    requires updated.id == id
    ensures RemoveById(ReplaceById(s, id, updated), id) == RemoveById(s, id)
  {
    if s != [] {
      RemoveAfterReplace(s[1..], id, updated);
      assert ReplaceById(s, id, updated)[1..] == ReplaceById(s[1..], id, updated);
    }
  }

  /** A delete undoes an add whose created row has a fresh id. */
  lemma RemoveUndoesPrepend(created: Expense, s: seq<Expense>)
    requires !HasId(s, created.id)
    ensures RemoveById(Prepend(created, s), created.id) == s
  {
    assert Prepend(created, s)[1..] == s;
    RemoveAbsentIsIdentity(s, created.id);
  }
}
