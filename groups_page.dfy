/**
 * The groups page (app/dashboard/groups/page.tsx): the handlers behind
 * joining, accessing, adding, deleting and leaving groups. Each request
 * is split at its `await`: a method that starts it and one that takes
 * its outcome.
 */
module GroupsPage {
  import opened Wrappers
  import opened Text
  import opened Groups
  import Api

  const WrongCode := "Kode keamanan salah. Silakan coba lagi."
  const JoinFailed := "Terjadi kesalahan. Silakan coba lagi nanti."
  const AddFailed := "Gagal membuat grup"

  /** The page a group's card leads to: the leader view or the detection view. */
  function AccessRoute(groupId: string, isLeader: bool): (r: string)
    ensures r == "/dashboard/groups/" + groupId + (if isLeader then "/leader" else "/detect")
  {
    if isLeader then "/dashboard/groups/" + groupId + "/leader"
    else "/dashboard/groups/" + groupId + "/detect"
  }

  /** Accessing from the list sends the group's leader, and only its leader, to the leader page. */
  lemma AccessFromList(g: Group, userId: string)
    ensures var (id, leader) := AccessRequest(g, userId);
      AccessRoute(id, leader) == "/dashboard/groups/" + g.id + (if userId == g.leaderId then "/leader" else "/detect")
  {
  }

  /** How a join request ended: joined, a response with an HTTP status, or no response (including a rejection by the id guard). */
  datatype JoinReply = Joined | HttpError(status: int) | NoResponse

  /** The message a failed join shows: the wrong-code text for status 400, the generic text otherwise. */
  function JoinErrorText(reply: JoinReply): (m: string)
    requires !reply.Joined?
    ensures m == WrongCode <==> reply.HttpError? && reply.status == 400
    ensures m != WrongCode ==> m == JoinFailed
  {
    if reply.HttpError? && reply.status == 400 then WrongCode else JoinFailed
  }

  /** How `getGroups` answered: failed, or `res.data.groups`, None when missing. */
  datatype GroupsReply = GroupsFailed | GroupsOk(groups: Option<seq<Group>>)

  class GroupsPageState {
    var groups: seq<Group>
    var selectedGroup: Option<string>
    var securityCode: string
    var showModal: bool
    var error: string
    var isLoading: bool
    var showAddModal: bool
    var addError: string
    var addLoading: bool
    /** The last route pushed to the router. */
    var route: Option<string>

    /** The fields of the join dialog, and the join request's loading flag, are as before. */
    twostate predicate JoinDialogUnchanged()
      reads this
    {
      && selectedGroup == old(selectedGroup) && securityCode == old(securityCode)
      && showModal == old(showModal) && error == old(error) && isLoading == old(isLoading)
    }

    /** The fields of the add dialog are as before. */
    twostate predicate AddDialogUnchanged()
      reads this
    {
      showAddModal == old(showAddModal) && addError == old(addError) && addLoading == old(addLoading)
    }

    constructor()
      ensures groups == [] && selectedGroup == None && securityCode == "" && !showModal
      ensures error == "" && !isLoading && !showAddModal && addError == "" && !addLoading && route == None
    {
      groups, selectedGroup, securityCode, showModal := [], None, "", false;
      error, isLoading, showAddModal, addError, addLoading, route := "", false, false, "", false, None;
    }

    /** The mount effect's `getGroups`: a failure or a missing list leaves no groups. */
    method InitialGroupsSettled(reply: GroupsReply)
      modifies this
      ensures reply.GroupsOk? && reply.groups.Some? ==> groups == reply.groups.value
      ensures reply.GroupsFailed? || reply.groups.None? ==> groups == []
      ensures JoinDialogUnchanged() && AddDialogUnchanged() && route == old(route)
    {
      groups := if reply.GroupsOk? then reply.groups.GetOr([]) else [];
    }

    /** A refresh after creating, deleting or leaving: it has no catch clause, so a failure keeps the groups shown. */
    method RefreshSettled(reply: GroupsReply)
      modifies this
      ensures reply.GroupsOk? ==> groups == reply.groups.GetOr([])
      ensures reply.GroupsFailed? ==> groups == old(groups)
      ensures JoinDialogUnchanged() && AddDialogUnchanged() && route == old(route)
    {
      if reply.GroupsOk? {
        groups := reply.groups.GetOr([]);
      }
    }

    /** `handleJoin`: remember the group, open the code dialog, clear its error. */
    method HandleJoin(groupId: string)
      modifies this
      ensures selectedGroup == Some(groupId) && showModal && error == ""
      ensures securityCode == old(securityCode) && isLoading == old(isLoading) && route == old(route)
      ensures groups == old(groups) && showAddModal == old(showAddModal)
      ensures addError == old(addError) && addLoading == old(addLoading)
    {
      selectedGroup := Some(groupId);
      showModal := true;
      error := "";
    }

    /** `handleAccess`: navigate to the leader or the detection page of the group. */
    method HandleAccess(groupId: string, isLeader: bool)
      modifies this
      ensures route == Some(AccessRoute(groupId, isLeader))
      ensures JoinDialogUnchanged() && AddDialogUnchanged() && groups == old(groups)
    {
      route := Some(AccessRoute(groupId, isLeader));
    }

    method SetSecurityCode(code: string)
      modifies this
      ensures securityCode == code && showModal == old(showModal) && error == old(error)
      ensures selectedGroup == old(selectedGroup) && isLoading == old(isLoading) && route == old(route)
      ensures groups == old(groups) && AddDialogUnchanged()
    {
      securityCode := code;
    }

    /**
     * `handleJoinSubmit` up to its request: nothing happens without a
     * selected group (none, or the empty id); otherwise loading starts,
     * the error is cleared and `joinGroup` is called with the selected id.
     */
    method BeginJoinSubmit(code: string, token: Option<string>) returns (attempt: Option<Api.JoinAttempt>)
      modifies this
      ensures old(selectedGroup).None? || old(selectedGroup).value == "" ==>
        attempt == None && isLoading == old(isLoading) && error == old(error)
      ensures old(selectedGroup).Some? && old(selectedGroup).value != "" ==>
        attempt == Some(Api.JoinGroup(old(selectedGroup), code, token)) && isLoading && error == ""
      ensures selectedGroup == old(selectedGroup) && showModal == old(showModal)
      ensures securityCode == old(securityCode) && route == old(route) && groups == old(groups)
      ensures AddDialogUnchanged()
    {
      if selectedGroup.None? || selectedGroup.value == "" {
        return None;
      }
      isLoading := true;
      error := "";
      attempt := Some(Api.JoinGroup(selectedGroup, code, token));
    }

    /**
     * The join request for `selected` (the id captured at submit) settled:
     * success closes the dialog, clears the code and opens the group's
     * detection page; failure keeps the dialog open with a message.
     * Loading ends either way.
     */
    method JoinSettled(selected: string, reply: JoinReply)
      modifies this
      ensures !isLoading
      ensures reply.Joined? ==>
        !showModal && securityCode == "" && route == Some("/dashboard/groups/" + selected + "/detect")
        && error == old(error)
      ensures !reply.Joined? ==>
        showModal == old(showModal) && securityCode == old(securityCode) && route == old(route)
        && error == JoinErrorText(reply)
      ensures selectedGroup == old(selectedGroup) && groups == old(groups) && AddDialogUnchanged()
    {
      isLoading := false;
      if reply.Joined? {
        showModal := false;
        securityCode := "";
        route := Some(AccessRoute(selected, false));
      } else {
        error := JoinErrorText(reply);
      }
    }

    /** Closing the join dialog clears the code and the error. */
    method CloseJoinModal()
      modifies this
      ensures !showModal && securityCode == "" && error == ""
      ensures selectedGroup == old(selectedGroup) && isLoading == old(isLoading) && route == old(route)
      ensures groups == old(groups) && AddDialogUnchanged()
    {
      showModal := false;
      securityCode := "";
      error := "";
    }

    /** `handleAddGroup`: open the add dialog with no error. */
    method HandleAddGroup()
      modifies this
      ensures showAddModal && addError == "" && addLoading == old(addLoading)
      ensures JoinDialogUnchanged() && groups == old(groups) && route == old(route)
    {
      showAddModal := true;
      addError := "";
    }

    /** Closing the add dialog. */
    method CloseAddModal()
      modifies this
      ensures !showAddModal && addError == old(addError) && addLoading == old(addLoading)
      ensures JoinDialogUnchanged() && groups == old(groups) && route == old(route)
    {
      showAddModal := false;
    }

    /** `handleAddGroupSubmit` up to its request: loading on, error cleared. */
    method BeginAddGroup()
      modifies this
      ensures addLoading && addError == "" && showAddModal == old(showAddModal)
      ensures JoinDialogUnchanged() && groups == old(groups) && route == old(route)
    {
      addLoading := true;
      addError := "";
    }

    /**
     * The create request settled: success closes the dialog and asks for
     * a refresh (returned); a failure shows the server's message, or
     * "Gagal membuat grup" when it has none. Loading ends either way.
     */
    method AddGroupSettled(created: bool, serverMessage: Option<string>) returns (refresh: bool)
      modifies this
      ensures !addLoading && refresh == created
      ensures created ==> !showAddModal && addError == old(addError)
      ensures !created ==> showAddModal == old(showAddModal) && addError == OrElse(serverMessage, AddFailed)
      ensures JoinDialogUnchanged() && groups == old(groups) && route == old(route)
    {
      if created {
        showAddModal := false;
        addLoading := false;
        refresh := true;
      } else {
        addError := OrElse(serverMessage, AddFailed);
        addLoading := false;
        refresh := false;
      }
    }
  }

  /**
   * A full join from the list: pick the group and submit the code. An id
   * of 24 characters is sent, and the server's answer `server` settles
   * the request; any other id makes `joinGroup` throw before sending, a
   * rejection without a response. Only a sent request the server accepts
   * ends on the group's detection page; otherwise the dialog stays open
   * with the error text of the reply.
   */
  method JoinFlow(page: GroupsPageState, g: Group, code: string, token: Option<string>, server: JoinReply)
      returns (attempt: Option<Api.JoinAttempt>, reply: JoinReply)
    requires g.id != ""
    modifies page
    ensures attempt == Some(Api.JoinGroup(Some(g.id), code, token))
    ensures attempt.value.Sent? <==> |g.id| == 24
    ensures reply == if |g.id| == 24 then server else NoResponse
    ensures !page.isLoading
    ensures reply.Joined? ==>
      page.route == Some(AccessRoute(g.id, false)) && !page.showModal && page.securityCode == "" && page.error == ""
    ensures !reply.Joined? ==>
      page.route == old(page.route) && page.showModal && page.error == JoinErrorText(reply)
    ensures |g.id| != 24 ==> page.error == JoinFailed
  {
    page.HandleJoin(g.id);
    attempt := page.BeginJoinSubmit(code, token);
    reply := if attempt.value.Sent? then server else NoResponse;
    page.JoinSettled(g.id, reply);
  }
}
