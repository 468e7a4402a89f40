/**
 * The request building of service/api.ts: the group-id guard of
 * `joinGroup` and the Authorization header each authenticated call sends.
 */
module Api {
  import opened Wrappers
  import opened Text

  const InvalidGroupId := "Group ID tidak valid. Silakan pilih grup dari daftar."

  /** `Bearer ${token}`, where a missing stored token is interpolated as "null". */
  function Bearer(token: Option<string>): (h: string)
    ensures |h| >= 7 && h[..7] == "Bearer "
    ensures token.Some? ==> h[7..] == token.value
    ensures token.None? ==> h[7..] == "null"
  {
    "Bearer " + token.GetOr("null")
  }

  /** A request the client hands to the HTTP library. */
  datatype Request = Request(verb: string, path: string, body: seq<(string, string)>, authorization: Option<string>)

  /** What calling `joinGroup` does: throw before sending, or send a request. */
  datatype JoinAttempt = Rejected(message: string) | Sent(request: Request)

  /**
   * `joinGroup`: `groupId` is None when the argument is not a string.
   * The id is rejected unless it is a string of exactly 24 characters,
   * whatever they are; the body carries the trimmed id, so a padded id
   * passes the guard and is sent shorter.
   */
  function JoinGroup(groupId: Option<string>, securityCode: string, token: Option<string>): (a: JoinAttempt)
    ensures a.Rejected? <==> groupId.None? || |groupId.value| != 24
    ensures a.Rejected? ==> a.message == InvalidGroupId
    ensures a.Sent? ==>
      && a.request.verb == "POST" && a.request.path == "/groups/join"
      && a.request.body == [("groupId", Trim(groupId.value)), ("securityCode", securityCode)]
      && a.request.authorization == Some(Bearer(token))
    ensures a.Sent? ==> a.request.authorization == Some(Authorization(JoinGroupCall, token))
  {
    if groupId.None? || groupId.value == "" || |groupId.value| != 24 then Rejected(InvalidGroupId)
    else Sent(Request("POST", "/groups/join", [("groupId", Trim(groupId.value)), ("securityCode", securityCode)], Some(Bearer(token))))
  }

  /** The id sent is a slice of the accepted id, and strictly shorter when the accepted id begins or ends in whitespace. */
  lemma SentIdIsTrimmed(groupId: string, securityCode: string, token: Option<string>)
    requires |groupId| == 24
    ensures var a := JoinGroup(Some(groupId), securityCode, token);
      a.Sent? && |a.request.body[0].1| <= 24
      && (IsJsSpace(groupId[0]) || IsJsSpace(groupId[23]) ==> |a.request.body[0].1| < 24)
  {
    var a, b := TrimSplits(groupId);
    assert IsJsSpace(groupId[0]) ==> a > 0 || a == b;
    assert IsJsSpace(groupId[23]) ==> b < 24 || a == b;
  }

  /** Only the length is checked: 24 characters that are no hexadecimal digits are accepted. */
  lemma NonHexAccepted()
    ensures JoinGroup(Some("zzzzzzzzzzzzzzzzzzzzzzzz"), "c", None).Sent?
  {
  }

  /** The calls that carry an Authorization header. */
  datatype AuthCall =
    | GetMe(tokenArg: string)
    | JoinGroupCall | CreateGroup | UpdateProfile | UpdatePassword
    | UserDetections | DashboardSummary | DeleteGroup | LeaveGroup

  /** The header sent: the raw argument for `getMe`, `Bearer` and the stored token for the rest. */
  function Authorization(c: AuthCall, stored: Option<string>): (h: string)
    ensures c.GetMe? ==> h == c.tokenArg
    ensures !c.GetMe? ==> h == "Bearer " + stored.GetOr("null")
  {
    match c
    case GetMe(t) => t
    case _ => Bearer(stored)
  }
}
