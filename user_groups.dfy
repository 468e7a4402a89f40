/**
 * The `useUserGroups` hook (app/dashboard/groups/useUserGroups.ts): of
 * the given groups, those whose fetched member list contains the user.
 */
module UserGroups {
  import opened Wrappers
  import opened Groups

  /** What fetching one group's members came to; `Fetched(None)` is a reply whose `members` is not an array. */
  datatype MembersFetch = FetchFailed | Fetched(members: Option<seq<string>>)

  predicate Accepts(f: MembersFetch, userId: string)
  {
    f.Fetched? && f.members.Some? && userId in f.members.value
  }

  /** `results.filter(Boolean)` over the per-group answers, `fetches[i]` being the answer for `groups[i]`. */
  function Select(userId: string, groups: seq<Group>, fetches: seq<MembersFetch>): (r: seq<Group>)
    requires |fetches| == |groups|
    ensures |r| <= |groups|
  {
    if groups == [] then []
    else
      var n := |groups| - 1;
      var init := Select(userId, groups[..n], fetches[..n]);
      if Accepts(fetches[n], userId) then init + [groups[n]] else init
  }

  /**
   * The result is the accepted groups in their original order: it picks
   * increasing positions, and a position is picked exactly when its fetch
   * succeeded with an array of members containing the user.
   */
  lemma {:induction false} SelectExact(userId: string, groups: seq<Group>, fetches: seq<MembersFetch>) returns (pick: seq<nat>)
    requires |fetches| == |groups|
    ensures |pick| == |Select(userId, groups, fetches)|
    ensures forall k :: 0 <= k < |pick| ==> pick[k] < |groups| && groups[pick[k]] == Select(userId, groups, fetches)[k]
    ensures forall k, l :: 0 <= k < l < |pick| ==> pick[k] < pick[l]
    ensures forall i :: 0 <= i < |groups| ==> (i in pick <==> Accepts(fetches[i], userId))
  {
    if groups == [] {
      pick := [];
    } else {
      var n := |groups| - 1;
      pick := SelectExact(userId, groups[..n], fetches[..n]);
      assert forall i :: 0 <= i < n ==> fetches[..n][i] == fetches[i];
      if Accepts(fetches[n], userId) {
        pick := pick + [n];
      }
    }
  }

  /** One run of the effect: the user and groups it was started with. */
  datatype Run = Run(userId: string, groups: seq<Group>)

  class UserGroupsHook {
    var userGroups: seq<Group>
    /** Every run the effect has started, in order. */
    var runs: seq<Run>
    /** The run whose `isMounted` is still true, if any. */
    var live: Option<nat>

    ghost predicate Valid()
      reads this
    {
      live.Some? ==> live.value == |runs| - 1
    }

    constructor()
      ensures Valid() && userGroups == [] && runs == [] && live == None
    {
      userGroups, runs, live := [], [], None;
    }

    /**
     * The effect, run on mount and whenever `userId` or `groups` change:
     * the previous run's cleanup clears its `isMounted`; a new run starts
     * only for a non-empty user id and a non-empty group list. The
     * selected groups are not touched here.
     */
    method Effect(userId: Option<string>, groups: seq<Group>)
      requires Valid()
      modifies this
      ensures Valid() && userGroups == old(userGroups)
      ensures userId.None? || userId.value == "" || groups == [] ==> runs == old(runs) && live == None
      ensures userId.Some? && userId.value != "" && groups != [] ==>
        runs == old(runs) + [Run(userId.value, groups)] && live == Some(|old(runs)|)
    {
      live := None;
      if userId.None? || userId.value == "" || groups == [] {
        return;
      }
      runs := runs + [Run(userId.value, groups)];
      live := Some(|runs| - 1);
    }

    /** Unmounting runs the cleanup: no run is live afterwards. */
    method Unmount()
      requires Valid()
      modifies this
      ensures Valid() && live == None && runs == old(runs) && userGroups == old(userGroups)
    {
      live := None;
    }

    /**
     * All the member fetches of run `run` have settled: the selection is
     * stored only if that run is still live, so a stale or torn-down run
     * changes nothing.
     */
    method Settle(run: nat, fetches: seq<MembersFetch>)
      requires Valid() && run < |runs| && |fetches| == |runs[run].groups|
      modifies this
      ensures Valid() && runs == old(runs) && live == old(live)
      ensures live == Some(run) ==> userGroups == Select(runs[run].userId, runs[run].groups, fetches)
      ensures live != Some(run) ==> userGroups == old(userGroups)
    {
      if live == Some(run) {
        userGroups := Select(runs[run].userId, runs[run].groups, fetches);
      }
    }
  }
}
