/**
  The module-level online set (src/app/lib/onlineUsers.ts): a JavaScript
  `Set` of user ids, which keeps its members in insertion order.
*/
module OnlineUsers {

  predicate NoDuplicates(s: seq<string>) {
    forall i, j :: 0 <= i < j < |s| ==> s[i] != s[j]
  }

  /** `set.add(u)`: a new member goes last; a present one stays where it is. */
  function Add(members: seq<string>, u: string): (r: seq<string>)
    ensures forall x :: x in r <==> x in members || x == u
    ensures NoDuplicates(members) ==> NoDuplicates(r)
  {
    if u in members then members else members + [u]
  }

  /** `set.delete(u)`: `u` goes, the other members keep their order. */
  function Remove(members: seq<string>, u: string): (r: seq<string>)
    ensures forall x :: x in r <==> x in members && x != u
    ensures NoDuplicates(members) ==> NoDuplicates(r)
    ensures |r| <= |members|
    decreases |members|
  {
    if members == [] then []
    else if members[0] == u then Remove(members[1..], u)
    else
      var rest := Remove(members[1..], u);
      assert NoDuplicates(members) ==> members[0] !in members[1..];
      var r := [members[0]] + rest;
      assert forall j :: 1 <= j < |r| ==> r[j] == rest[j - 1] && r[j] in rest;
      r
  }

  /** Adding twice is adding once. */
  lemma AddIdempotent(members: seq<string>, u: string)
    ensures Add(Add(members, u), u) == Add(members, u)
  {
  }

  /** Removing an absent user changes nothing, order included. */
  lemma {:induction false} RemoveAbsent(members: seq<string>, u: string)
    requires u !in members
    ensures Remove(members, u) == members
    decreases |members|
  {
    if members != [] {
      assert members == [members[0]] + members[1..];
      RemoveAbsent(members[1..], u);
    }
  }

  /** Removing a user who was added last undoes the add. */
  lemma {:induction false} RemoveUndoesAdd(members: seq<string>, u: string)
    requires u !in members
    ensures Remove(Add(members, u), u) == members
    decreases |members|
  {
    if members == [] {
      assert Add(members, u) == [u];
    } else {
      assert Add(members, u) == [members[0]] + Add(members[1..], u);
      assert Add(members, u)[1..] == Add(members[1..], u);
      RemoveUndoesAdd(members[1..], u);
      assert members == [members[0]] + members[1..];
    }
  }

  class OnlineUserSet {
    /** The module-level `onlineUsers` set, in insertion order. */
    var members: seq<string>

    ghost predicate Valid()
      reads this
    {
      NoDuplicates(members)
    }

    constructor ()
      ensures Valid() && members == []
    {
      members := [];
    }

    /** `addOnlineUser` */
    method AddOnlineUser(userId: string)
      requires Valid()
      modifies this
      ensures Valid()
      ensures members == Add(old(members), userId)
    {
      members := Add(members, userId);
    }

    /** `removeOnlineUser` */
    method RemoveOnlineUser(userId: string)
      requires Valid()
      modifies this
      ensures Valid()
      ensures members == Remove(old(members), userId)
    {
      members := Remove(members, userId);
    }

    /** `getOnlineUsers`: a copy holding each member once and nothing else. */
    method GetOnlineUsers() returns (users: seq<string>)
      requires Valid()
      ensures NoDuplicates(users)
      ensures forall u :: u in users <==> u in members
      ensures users == members
    {
      users := members;
    }
  }
}
