/** The profile page (app/dashboard/profile/page.tsx): the profile and password forms. */
module Profile {
  import opened Wrappers

  const ProfileUpdated := "Profile updated successfully"
  const ProfileFailed := "Failed to update profile"
  const PasswordsDiffer := "New passwords do not match"
  const PasswordUpdated := "Password updated successfully"

  /** A user record, field name to value. */
  type UserRecord = map<string, string>

  /** `{ ...user, name, email }`: a null user spreads nothing. */
  function Merged(user: Option<UserRecord>, name: string, email: string): (u: UserRecord)
    ensures "name" in u && u["name"] == name && "email" in u && u["email"] == email
    ensures forall k :: k != "name" && k != "email" ==>
      (k in u <==> user.Some? && k in user.value) && (k in u ==> u[k] == user.value[k])
  {
    user.GetOr(map[])["name" := name]["email" := email]
  }

  /** Saving the same name and email again changes nothing. */
  lemma MergedIdempotent(user: Option<UserRecord>, name: string, email: string)
    ensures Merged(Some(Merged(user, name, email)), name, email) == Merged(user, name, email)
  {
    var once := Merged(user, name, email);
    var twice := Merged(Some(once), name, email);
    assert forall k :: k in twice <==> k in once;
  }

  class ProfilePage {
    var user: Option<UserRecord>
    /** Local storage entry "user". */
    var storedUser: Option<UserRecord>
    var name: string
    var email: string
    var currentPassword: string
    var newPassword: string
    var confirmPassword: string
    var error: string
    var success: string
    var isLoading: bool

    constructor(stored: Option<UserRecord>)
      ensures user == None && storedUser == stored && name == "" && email == ""
      ensures currentPassword == "" && newPassword == "" && confirmPassword == ""
      ensures error == "" && success == "" && !isLoading
    {
      user, storedUser, name, email := None, stored, "", "";
      currentPassword, newPassword, confirmPassword := "", "", "";
      error, success, isLoading := "", "", false;
    }

    /**
     * `handleProfileUpdate`: the merged record replaces the stored user
     * and the one shown, unless writing it to storage fails
     * (`storageFails`), which shows the failure instead.
     */
    method HandleProfileUpdate(storageFails: bool)
      modifies this
      ensures !isLoading
      ensures !storageFails ==>
        user == Some(Merged(old(user), name, email)) && storedUser == user
        && success == ProfileUpdated && error == ""
      ensures storageFails ==>
        user == old(user) && storedUser == old(storedUser) && success == "" && error == ProfileFailed
      ensures name == old(name) && email == old(email)
      ensures currentPassword == old(currentPassword) && newPassword == old(newPassword)
      ensures confirmPassword == old(confirmPassword)
    {
      isLoading := true;
      error := "";
      success := "";
      var updated := Merged(user, name, email);
      if storageFails {
        error := ProfileFailed;
      } else {
        storedUser := Some(updated);
        user := Some(updated);
        success := ProfileUpdated;
      }
      isLoading := false;
    }

    /**
     * `handlePasswordChange`: a confirmation that differs from the new
     * password is refused and every field kept; otherwise success is
     * reported and the three fields cleared. The current password is not
     * checked against anything.
     */
    method HandlePasswordChange()
      modifies this
      ensures !isLoading
      ensures old(newPassword) != old(confirmPassword) ==>
        error == PasswordsDiffer && success == ""
        && currentPassword == old(currentPassword) && newPassword == old(newPassword)
        && confirmPassword == old(confirmPassword)
      ensures old(newPassword) == old(confirmPassword) ==>
        error == "" && success == PasswordUpdated
        && currentPassword == "" && newPassword == "" && confirmPassword == ""
      ensures user == old(user) && storedUser == old(storedUser) && name == old(name) && email == old(email)
    {
      isLoading := true;
      error := "";
      success := "";
      if newPassword != confirmPassword {
        error := PasswordsDiffer;
        isLoading := false;
        return;
      }
      success := PasswordUpdated;
      currentPassword := "";
      newPassword := "";
      confirmPassword := "";
      isLoading := false;
    }
  }
}
