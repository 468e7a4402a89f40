/** The create-group page (app/dashboard/groups/create/page.tsx): `handleSubmit` and its error text. */
module CreateGroup {
  import opened Wrappers
  import opened Text

  const Fallback := "Gagal membuat grup"
  const GroupsRoute := "/dashboard/groups"

  /** The body of a response: its `success` flag and `message`. */
  datatype Body = Body(success: bool, message: Option<string>)

  /** How `createGroup` ended: a response (whose body may be missing), or a thrown error carrying the response's message if any. */
  datatype CreateOutcome = Responded(data: Option<Body>) | Threw(responseMessage: Option<string>)

  class CreateGroupPage {
    var name: string
    var description: string
    var securityCode: string
    var error: string
    var isLoading: bool
    var route: Option<string>

    constructor()
      ensures name == "" && description == "" && securityCode == "" && error == "" && !isLoading && route == None
    {
      name, description, securityCode, error, isLoading, route := "", "", "", "", false, None;
    }

    /** The part of `handleSubmit` before its `await`: loading on, error cleared, and the request's fields. */
    method BeginSubmit() returns (fields: (string, string, string))
      modifies this
      ensures isLoading && error == "" && route == old(route)
      ensures fields == (name, description, securityCode)
      ensures name == old(name) && description == old(description) && securityCode == old(securityCode)
    {
      isLoading := true;
      error := "";
      fields := (name, description, securityCode);
    }

    /**
     * The rest of `handleSubmit`: a successful response navigates to the
     * group list; a response without success shows its message or the
     * fallback; a response without a body fails reading its message,
     * which the catch clause turns into the fallback; a thrown error
     * shows the response's message or the fallback. Loading ends on every
     * path.
     */
    method SubmitSettled(outcome: CreateOutcome)
      modifies this
      ensures !isLoading
      ensures outcome.Responded? && outcome.data.Some? && outcome.data.value.success ==>
        route == Some(GroupsRoute) && error == old(error)
      ensures outcome.Responded? && outcome.data.Some? && !outcome.data.value.success ==>
        route == old(route) && error == OrElse(outcome.data.value.message, Fallback)
      ensures outcome.Responded? && outcome.data.None? ==> route == old(route) && error == Fallback
      ensures outcome.Threw? ==> route == old(route) && error == OrElse(outcome.responseMessage, Fallback)
      ensures name == old(name) && description == old(description) && securityCode == old(securityCode)
    {
      match outcome {
        case Responded(data) =>
          if data.Some? && data.value.success {
            route := Some(GroupsRoute);
          } else if data.Some? {
            error := OrElse(data.value.message, Fallback);
          } else {
            // `res.data.message` throws a TypeError, which has no response
            error := OrElse(None, Fallback);
          }
        case Threw(m) =>
          error := OrElse(m, Fallback);
      }
      isLoading := false;
    }
  }

  /** Whether the server reported the group created. */
  predicate Succeeded(outcome: CreateOutcome)
  {
    outcome.Responded? && outcome.data.Some? && outcome.data.value.success
  }

  /** Every submit ends with loading off, and shows an error exactly when the group was not created. */
  method Submit(page: CreateGroupPage, outcome: CreateOutcome)
    modifies page
    ensures !page.isLoading
    ensures page.error == "" <==> Succeeded(outcome)
    ensures Succeeded(outcome) ==> page.route == Some(GroupsRoute)
    ensures !Succeeded(outcome) ==> page.route == old(page.route)
  {
    var _ := page.BeginSubmit();
    page.SubmitSettled(outcome);
  }
}
