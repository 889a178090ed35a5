/** A JavaScript `Set` of listener functions, as a sequence without duplicates in
    insertion order; a listener is identified by a number. */
module ListenerSets {

  type ListenerId = nat

  predicate NoDuplicates(s: seq<ListenerId>)
  {
    forall i, j :: 0 <= i < j < |s| ==> s[i] != s[j]
  }

  /** `set.add(l)` */
  function Added(ls: seq<ListenerId>, l: ListenerId): (r: seq<ListenerId>)
    ensures forall x :: x in r <==> x in ls || x == l
    ensures |ls| <= |r| && r[..|ls|] == ls
    ensures NoDuplicates(ls) ==> NoDuplicates(r)
  {
    if l in ls then ls else ls + [l]
  }

  /** `set.delete(l)` */
  function Removed(ls: seq<ListenerId>, l: ListenerId): (r: seq<ListenerId>)
    ensures forall x :: x in r <==> x in ls && x != l
    ensures NoDuplicates(ls) ==> NoDuplicates(r)
    ensures |r| <= |ls|
  {
    if |ls| == 0 then []
    else if ls[0] == l then Removed(ls[1..], l)
    else
      var rest := Removed(ls[1..], l);
      assert NoDuplicates(ls) ==> ls[0] !in ls[1..] && NoDuplicates(ls[1..]);
      [ls[0]] + rest
  }

  /** `set.delete(l)` of a member takes out its one occurrence and keeps the others
      in insertion order. */
  lemma RemovedKeepsOrder(ls: seq<ListenerId>, l: ListenerId)
    requires NoDuplicates(ls) && l in ls
    ensures exists k :: 0 <= k < |ls| && ls[k] == l && Removed(ls, l) == ls[..k] + ls[k + 1..]
  {
    var k :| 0 <= k < |ls| && ls[k] == l;
    RemovedAt(ls, l, k);
  }

  /** Deleting the member at index `k` of a duplicate-free set leaves the parts
      before and after it. */
  lemma {:induction false} RemovedAt(ls: seq<ListenerId>, l: ListenerId, k: nat)
    requires NoDuplicates(ls) && k < |ls| && ls[k] == l
    ensures Removed(ls, l) == ls[..k] + ls[k + 1..]
    decreases k
  {
    var t := ls[1..];
    if k == 0 {
      assert l !in t by {
        forall j | 0 <= j < |t| ensures t[j] != l {
          assert t[j] == ls[j + 1];
        }
      }
      RemovingAbsentChangesNothing(t, l);
      assert ls[..0] + ls[1..] == t;
    } else {
      assert ls[0] != l;
      assert NoDuplicates(t) by {
        forall i, j | 0 <= i < j < |t| ensures t[i] != t[j] {
          assert t[i] == ls[i + 1] && t[j] == ls[j + 1];
        }
      }
      RemovedAt(t, l, k - 1);
      assert ls[..k] == [ls[0]] + t[..k - 1];
      assert ls[k + 1..] == t[k..];
    }
  }

  lemma {:induction false} RemovingAbsentChangesNothing(ls: seq<ListenerId>, l: ListenerId)
    requires l !in ls
    ensures Removed(ls, l) == ls
  {
    if |ls| > 0 {
      RemovingAbsentChangesNothing(ls[1..], l);
      assert ls == [ls[0]] + ls[1..];
    }
  }

  /** Removing a listener ignores a trailing copy of it. */
  lemma {:induction false} RemovedIgnoresTrailing(ls: seq<ListenerId>, l: ListenerId)
    ensures Removed(ls + [l], l) == Removed(ls, l)
    decreases |ls|
  {
    if |ls| == 0 {
      assert Removed([l], l) == Removed([], l);
    } else {
      assert (ls + [l])[1..] == ls[1..] + [l];
      RemovedIgnoresTrailing(ls[1..], l);
    }
  }

  /** The unsubscribe function returned by addEventListener undoes the add. */
  lemma UnsubscribeUndoesAdd(ls: seq<ListenerId>, l: ListenerId)
    requires l !in ls
    ensures Removed(Added(ls, l), l) == ls
  {
    RemovedIgnoresTrailing(ls, l);
    RemovingAbsentChangesNothing(ls, l);
  }
}
