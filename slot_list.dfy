/**
 * The sensor's template table seen as 128 occupancy flags, and the two views
 * the controller derives from it: the lowest free id (enrollment) and the
 * ascending list of occupied ids (removal), with deletion of one list entry.
 */
module SlotList {

  predicate StrictlyAscending(s: seq<int>) {
    forall j, k :: 0 <= j < k < |s| ==> s[j] < s[k]
  }

  /** The lowest index whose flag is false, or -1 when every flag is set. */
  function FirstFree(table: seq<bool>): (id: int)
    ensures -1 <= id < |table|
    ensures id == -1 <==> forall j :: 0 <= j < |table| ==> table[j]
    ensures id != -1 ==> !table[id] && forall j :: 0 <= j < id ==> table[j]
  {
    if table == [] then -1
    else if !table[0] then 0
    else
      var rest := FirstFree(table[1..]);
      if rest == -1 then -1 else rest + 1
  }

  /** The ids whose flag is set, in ascending order (see OccupiedSpec). */
  function Occupied(table: seq<bool>): (ids: seq<int>)
    ensures |ids| <= |table|
    ensures forall j :: 0 <= j < |ids| ==> 0 <= ids[j] < |table|
  {
    if table == [] then []
    else
      var last := |table| - 1;
      Occupied(table[..last]) + (if table[last] then [last] else [])
  }

  /** The list is strictly ascending, holds only occupied ids, and holds every one of them. */
  lemma {:induction false} OccupiedSpec(table: seq<bool>)
    ensures StrictlyAscending(Occupied(table))
    ensures forall j :: 0 <= j < |Occupied(table)| ==> table[Occupied(table)[j]]
    ensures forall x :: 0 <= x < |table| && table[x] ==> x in Occupied(table)
    decreases |table|
  {
    if table != [] {
      var last := |table| - 1;
      var prefix := table[..last];
      OccupiedSpec(prefix);
      var ids := Occupied(prefix);
      var tail := if table[last] then [last] else [];
      assert Occupied(table) == ids + tail;
      // every id of the prefix lies below the last slot
      assert forall j :: 0 <= j < |ids| ==> ids[j] < last;
      assert forall j :: 0 <= j < |ids| ==> table[ids[j]] == prefix[ids[j]];
      forall x | 0 <= x < |table| && table[x]
        ensures x in Occupied(table)
      {
        if x < last {
          assert prefix[x];
        }
      }
    }
  }

  /** Scanning one more slot appends that slot's id when it is occupied. */
  lemma OccupiedGrow(prefix: seq<bool>, flag: bool)
    ensures Occupied(prefix + [flag]) == Occupied(prefix) + (if flag then [|prefix|] else [])
  {
    assert (prefix + [flag])[..|prefix|] == prefix;
  }

  /** Membership in the list is exactly occupancy. */
  lemma OccupiedMembership(table: seq<bool>, x: int)
    ensures x in Occupied(table) <==> 0 <= x < |table| && table[x]
  {
    OccupiedSpec(table);
  }

  /** Two strictly ascending lists holding the same ids are the same list. */
  lemma {:induction false} AscendingUnique(a: seq<int>, b: seq<int>)
    requires StrictlyAscending(a) && StrictlyAscending(b)
    requires forall x :: x in a <==> x in b
    ensures a == b
    decreases |a|
  {
    // a non-empty list holds its first entry, which the other list must hold too
    assert a != [] ==> a[0] in a;
    assert b != [] ==> b[0] in b;
    if a != [] {
      // the first entry of each list is the smallest id of the common set
      assert a[0] == b[0] by {
        var k :| 0 <= k < |b| && b[k] == a[0];
        var m :| 0 <= m < |a| && a[m] == b[0];
        assert b[0] <= b[k] && a[0] <= a[m];
      }
      forall x
        ensures x in a[1..] <==> x in b[1..]
      {
        if x in a[1..] {
          var k :| 1 <= k < |a| && a[k] == x;
          assert x in a && x != a[0];
          var m :| 0 <= m < |b| && b[m] == x;
          assert m != 0;
          assert b[1..][m - 1] == x;
        }
        if x in b[1..] {
          var k :| 1 <= k < |b| && b[k] == x;
          assert x in b && x != b[0];
          var m :| 0 <= m < |a| && a[m] == x;
          assert m != 0;
          assert a[1..][m - 1] == x;
        }
      }
      AscendingUnique(a[1..], b[1..]);
    }
  }

  /** The list without its entry at index i; the other entries keep their order. */
  function RemoveAt(s: seq<int>, i: int): (r: seq<int>)
    requires 0 <= i < |s|
    ensures |r| == |s| - 1
    ensures forall k :: 0 <= k < |r| ==> r[k] == if k < i then s[k] else s[k + 1]
  {
    s[..i] + s[i + 1..]
  }

  /** Removing an entry keeps the list ascending and drops exactly that id. */
  lemma RemoveAtSpec(s: seq<int>, i: int)
    requires 0 <= i < |s| && StrictlyAscending(s)
    ensures StrictlyAscending(RemoveAt(s, i))
    ensures forall x :: x in RemoveAt(s, i) <==> x in s && x != s[i]
  {
    var r := RemoveAt(s, i);
    forall x | x in s && x != s[i]
      ensures x in r
    {
      var k :| 0 <= k < |s| && s[k] == x;
      if k < i {
        assert r[k] == x;
      } else {
        assert r[k - 1] == x;
      }
    }
  }

  /**
   * Deleting the template of the i-th occupied id and shifting it out of the
   * list gives the same list a fresh enumeration of the table would give.
   */
  lemma {:induction false} DeleteMatchesRescan(table: seq<bool>, i: int)
    requires 0 <= i < |Occupied(table)|
    ensures RemoveAt(Occupied(table), i) == Occupied(table[Occupied(table)[i] := false])
  {
    var ids := Occupied(table);
    var id := ids[i];
    var after := table[id := false];
    OccupiedSpec(table);
    OccupiedSpec(after);
    RemoveAtSpec(ids, i);
    forall x
      ensures x in RemoveAt(ids, i) <==> x in Occupied(after)
    {
      OccupiedMembership(table, x);
      OccupiedMembership(after, x);
    }
    AscendingUnique(RemoveAt(ids, i), Occupied(after));
  }
}
