/**
 * The group list (components/groups/GroupList.tsx): the search filter,
 * the split into the user's groups and the others, the access request
 * and the delete/leave confirmation.
 */
module Groups {
  import opened Wrappers
  import opened Text

  datatype Group = Group(id: string, name: string, description: string, members: seq<string>, leaderId: string)

  /** `s.filter(p)`. */
  function Keep<T>(s: seq<T>, p: T -> bool): (r: seq<T>)
    ensures |r| <= |s|
    ensures forall i :: 0 <= i < |r| ==> p(r[i])
  {
    if s == [] then []
    else
      var init := Keep(s[..|s| - 1], p);
      if p(s[|s| - 1]) then init + [s[|s| - 1]] else init
  }

  /** The filter keeps exactly the elements satisfying `p`, each as often as it occurs. */
  lemma {:induction false} KeepExact<T>(s: seq<T>, p: T -> bool)
    ensures forall x :: x in Keep(s, p) <==> x in s && p(x)
    ensures forall x :: multiset(Keep(s, p))[x] == if p(x) then multiset(s)[x] else 0
  {
    if s != [] {
      var init := s[..|s| - 1];
      KeepExact(init, p);
      assert s == init + [s[|s| - 1]];
    }
  }

  /** The filter keeps order: its result is the satisfying elements picked out at increasing positions. */
  lemma {:induction false} KeepInOrder<T>(s: seq<T>, p: T -> bool) returns (pick: seq<nat>)
    ensures |pick| == |Keep(s, p)|
    ensures forall k :: 0 <= k < |pick| ==> pick[k] < |s| && s[pick[k]] == Keep(s, p)[k]
    ensures forall k, l :: 0 <= k < l < |pick| ==> pick[k] < pick[l]
    ensures forall i :: 0 <= i < |s| && p(s[i]) ==> i in pick
  {
    if s == [] {
      pick := [];
    } else {
      pick := KeepInOrder(s[..|s| - 1], p);
      if p(s[|s| - 1]) {
        pick := pick + [|s| - 1];
      }
    }
  }

  /** The filter keeps everything when every element satisfies `p`. */
  lemma {:induction false} KeepAll<T>(s: seq<T>, p: T -> bool)
    requires forall i :: 0 <= i < |s| ==> p(s[i])
    ensures Keep(s, p) == s
  {
    if s != [] {
      KeepAll(s[..|s| - 1], p);
      assert s == s[..|s| - 1] + [s[|s| - 1]];
    }
  }

  /** `g.name.toLowerCase().includes(search.toLowerCase())`. */
  predicate NameMatches(g: Group, search: string)
  {
    Includes(Lower(g.name), Lower(search))
  }

  /** The groups whose name contains the search, ignoring ASCII case. */
  function Filtered(groups: seq<Group>, search: string): (r: seq<Group>)
    ensures |r| <= |groups|
    ensures forall i :: 0 <= i < |r| ==> NameMatches(r[i], search)
  {
    Keep(groups, g => NameMatches(g, search))
  }

  /** `g.members.includes(userId)`. */
  predicate IsMember(g: Group, userId: string)
  {
    userId in g.members
  }

  /** The filtered groups the user belongs to. */
  function MyGroups(groups: seq<Group>, search: string, userId: string): (r: seq<Group>)
    ensures |r| <= |groups|
    ensures forall g :: g in r ==> g in groups && NameMatches(g, search) && IsMember(g, userId)
  {
    KeepExact(Filtered(groups, search), g => IsMember(g, userId));
    FilteredExact(groups, search);
    Keep(Filtered(groups, search), g => IsMember(g, userId))
  }

  /** The filtered groups the user does not belong to. */
  function OtherGroups(groups: seq<Group>, search: string, userId: string): (r: seq<Group>)
    ensures |r| <= |groups|
    ensures forall g :: g in r ==> g in groups && NameMatches(g, search) && !IsMember(g, userId)
  {
    KeepExact(Filtered(groups, search), g => !IsMember(g, userId));
    FilteredExact(groups, search);
    Keep(Filtered(groups, search), g => !IsMember(g, userId))
  }

  /** The search keeps exactly the groups whose lower-cased name contains the lower-cased search. */
  lemma FilteredExact(groups: seq<Group>, search: string)
    ensures forall g :: g in Filtered(groups, search) <==> g in groups && NameMatches(g, search)
  {
    KeepExact(groups, g => NameMatches(g, search));
  }

  /** An empty search keeps every group, in order. */
  lemma EmptySearchKeepsAll(groups: seq<Group>)
    ensures Filtered(groups, "") == groups
  {
    forall i | 0 <= i < |groups| ensures NameMatches(groups[i], "") {
      IncludesEmpty(Lower(groups[i].name));
    }
    KeepAll(groups, g => NameMatches(g, ""));
  }

  /**
   * The two sections split the filtered list: a group is in the user's
   * section exactly when the user is among its members and in the other
   * section exactly when not, so no group is in both, and together they
   * hold every filtered group as often as it occurs.
   */
  lemma Partition(groups: seq<Group>, search: string, userId: string)
    ensures forall g :: g in MyGroups(groups, search, userId) <==> g in Filtered(groups, search) && userId in g.members
    ensures forall g :: g in OtherGroups(groups, search, userId) <==> g in Filtered(groups, search) && userId !in g.members
    ensures forall g :: !(g in MyGroups(groups, search, userId) && g in OtherGroups(groups, search, userId))
    ensures multiset(MyGroups(groups, search, userId)) + multiset(OtherGroups(groups, search, userId))
            == multiset(Filtered(groups, search))
  {
    var f := Filtered(groups, search);
    KeepExact(f, g => IsMember(g, userId));
    KeepExact(f, g => !IsMember(g, userId));
  }

  /** "Akses Grup" passes the group's id and whether the user leads it. */
  function AccessRequest(g: Group, userId: string): (r: (string, bool))
    ensures r.0 == g.id
    ensures r.1 <==> userId == g.leaderId
  {
    (g.id, userId == g.leaderId)
  }

  datatype Removal = Delete | Leave

  /** The action pending confirmation. */
  datatype Pending = Pending(kind: Removal, groupId: string)

  /** The callback a confirmation invokes. */
  datatype Callback = OnDeleteGroup(groupId: string) | OnLeaveGroup(groupId: string)

  class GroupListView {
    const groups: seq<Group>
    const userId: string
    /** Whether the `onDeleteGroup` and `onLeaveGroup` props are given. */
    const hasDeleteHandler: bool
    const hasLeaveHandler: bool
    var search: string
    var confirming: Option<Pending>

    constructor(groups: seq<Group>, userId: string, hasDeleteHandler: bool, hasLeaveHandler: bool)
      ensures this.groups == groups && this.userId == userId
      ensures this.hasDeleteHandler == hasDeleteHandler && this.hasLeaveHandler == hasLeaveHandler
      ensures search == "" && confirming == None
    {
      this.groups, this.userId := groups, userId;
      this.hasDeleteHandler, this.hasLeaveHandler := hasDeleteHandler, hasLeaveHandler;
      search, confirming := "", None;
    }

    /** The cards shown under "Grup Saya" and "Grup Lainnya". */
    function Mine(): seq<Group>
      reads this
    {
      MyGroups(groups, search, userId)
    }

    function Others(): seq<Group>
      reads this
    {
      OtherGroups(groups, search, userId)
    }

    method SetSearch(s: string)
      modifies this
      ensures search == s && confirming == old(confirming)
    {
      search := s;
    }

    /**
     * The red "Hapus Grup" or outlined "Keluar Grup" button of one of the
     * user's groups: the leader is offered deletion, anyone else leaving.
     */
    method RequestRemoval(g: Group)
      modifies this
      ensures confirming == Some(Pending(if userId == g.leaderId then Delete else Leave, g.id))
      ensures search == old(search)
    {
      var kind := if userId == g.leaderId then Delete else Leave;
      confirming := Some(Pending(kind, g.id));
    }

    /** "Batal" or the close button: the pending action is dropped and nothing is called. */
    method Cancel()
      modifies this
      ensures confirming == None && search == old(search)
    {
      confirming := None;
    }

    /**
     * The confirm button, shown only while an action is pending: it calls
     * the handler matching the pending kind, when that handler is given,
     * with the pending group's id, then clears the pending action.
     */
    method Confirm() returns (called: Option<Callback>)
      requires confirming.Some?
      modifies this
      ensures old(confirming.value.kind) == Delete ==>
        called == if hasDeleteHandler then Some(OnDeleteGroup(old(confirming.value.groupId))) else None
      ensures old(confirming.value.kind) == Leave ==>
        called == if hasLeaveHandler then Some(OnLeaveGroup(old(confirming.value.groupId))) else None
      ensures confirming == None && search == old(search)
    {
      var p := confirming.value;
      called := None;
      if p.kind == Delete && hasDeleteHandler {
        called := Some(OnDeleteGroup(p.groupId));
      }
      if p.kind == Leave && hasLeaveHandler {
        called := Some(OnLeaveGroup(p.groupId));
      }
      confirming := None;
    }
  }

  /** Requesting removal and confirming deletes exactly the groups the user leads and leaves the others. */
  method RemoveFlow(view: GroupListView, g: Group) returns (called: Option<Callback>)
    requires view.hasDeleteHandler && view.hasLeaveHandler
    modifies view
    ensures view.userId == g.leaderId ==> called == Some(OnDeleteGroup(g.id))
    ensures view.userId != g.leaderId ==> called == Some(OnLeaveGroup(g.id))
    ensures view.confirming == None
  {
    view.RequestRemoval(g);
    called := view.Confirm();
  }
}
