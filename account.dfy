/** The account page of `src/components/Account.js`: loading the client's
    profile, renaming the business, and changing the password or the email. */
module Account {
  import opened Base
  import opened JsText

  /** A success message and an error message shown side by side. */
  datatype Feedback = Feedback(message: string, error: string)

  const Cleared := Feedback("", "")

  const NoMappingMessage: string :=
    "No user mapping found in public.users "
    + "for this account. "
    + "Please ensure a row exists with auth_user_id = your auth UUID and a valid client_id."
  const NoClientMessage: string :=
    "Client not found or not accessible. "
    + "Check that a clients row exists for this client_id and RLS policies allow SELECT."

  /** What the two profile queries yield: the client and its name, a client id
      whose client could not be read, or no client id at all. */
  datatype LoadOutcome =
    | Loaded(clientId: string, name: string)
    | ClientMissing(clientId: string, message: string)
    | MappingMissing(message: string)

  /** The outcome of loading for the `users` answer (its error, or the
      `client_id` it holds, `None` when there is no row or no id) and the
      `clients` answer (its error, or the row's `name`, `None` when there is
      no row). */
  function ClassifyLoad(userReply: Result<Option<string>, string>,
                        clientReply: Result<Option<Option<string>>, string>): LoadOutcome
  {
    if userReply.Err? then MappingMissing("User query failed: " + userReply.error)
    else if userReply.value.None? || userReply.value.value == "" then MappingMissing(NoMappingMessage)
    else
      var id := userReply.value.value;
      if clientReply.Err? then ClientMissing(id, "Client query failed: " + clientReply.error)
      else if clientReply.value.None? then ClientMissing(id, NoClientMessage)
      else Loaded(id, if clientReply.value.value.Some? then clientReply.value.value.value else "")
  }

  /** Loading fails on a `users` error, then on a missing client id, then on
      a `clients` error, then on a missing client; otherwise it yields the
      client id and the name (empty when the name is null). */
  lemma ClassifyLoadCases(userReply: Result<Option<string>, string>,
                          clientReply: Result<Option<Option<string>>, string>)
    ensures var o := ClassifyLoad(userReply, clientReply);
      && (userReply.Err? ==> o == MappingMissing("User query failed: " + userReply.error))
      && (userReply.Ok? && (userReply.value.None? || userReply.value.value == "") ==>
            o == MappingMissing(NoMappingMessage))
      && (userReply.Ok? && userReply.value.Some? && userReply.value.value != "" ==>
            var id := userReply.value.value;
            && (clientReply.Err? ==> o == ClientMissing(id, "Client query failed: " + clientReply.error))
            && (clientReply.Ok? && clientReply.value.None? ==> o == ClientMissing(id, NoClientMessage))
            && (clientReply.Ok? && clientReply.value.Some? ==>
                  o == Loaded(id, if clientReply.value.value.Some? then clientReply.value.value.value else "")))
  {
  }

  /** The kind of outcome: no mapping exactly when there is no usable client
      id; otherwise the id is the one the `users` row holds, and the client
      loads exactly when the `clients` query answers with a row. */
  lemma ClassifyLoadKinds(userReply: Result<Option<string>, string>,
                          clientReply: Result<Option<Option<string>>, string>)
    ensures var o := ClassifyLoad(userReply, clientReply);
      && (o.MappingMissing? <==> userReply.Err? || userReply.value.None? || userReply.value.value == "")
      && (!o.MappingMissing? ==> o.clientId == userReply.value.value)
      && (o.Loaded? <==> !o.MappingMissing? && clientReply.Ok? && clientReply.value.Some?)
  {
  }

  /** Every failure carries a message, so the load's fallback text never shows. */
  lemma FailureMessagesNonEmpty(userReply: Result<Option<string>, string>,
                                clientReply: Result<Option<Option<string>>, string>)
    ensures !ClassifyLoad(userReply, clientReply).Loaded? ==> ClassifyLoad(userReply, clientReply).message != ""
  {
    assert NoMappingMessage[0] == 'N' && NoClientMessage[0] == 'C';
  }

  /** The four ways loading can fail are told apart by their messages. */
  lemma LoadFailuresAreDistinct(m1: string, m2: string)
    ensures "User query failed: " + m1 != NoMappingMessage
    ensures "User query failed: " + m1 != "Client query failed: " + m2
    ensures "User query failed: " + m1 != NoClientMessage
    ensures NoMappingMessage != "Client query failed: " + m2
    ensures NoMappingMessage != NoClientMessage
    ensures "Client query failed: " + m2 != NoClientMessage
  {
    assert ("User query failed: " + m1)[0] == 'U';
    assert ("Client query failed: " + m2)[0] == 'C';
    assert NoMappingMessage[0] == 'N' && NoClientMessage[0] == 'C';
    assert ("Client query failed: " + m2)[1] == 'l' && NoClientMessage[1] == 'l';
    assert ("Client query failed: " + m2)[7] == 'q' && NoClientMessage[7] == 'n';
  }

  /** When the effect's cleanup ran (setting `cancelled`): not at all, while
      the `users` query was awaited, or while the `clients` query was. */
  datatype Cancel = NotCancelled | DuringUserQuery | DuringClientQuery

  /** The name update `updateProfile` sends. */
  datatype ProfileUpdate = ProfileUpdate(clientId: string, name: string)

  /** The password form's verdict before any call: emptiness is checked
      before the match. */
  function PasswordCheck(newPassword: string, confirmNewPassword: string): (e: Option<string>)
    ensures e.None? <==> newPassword != "" && newPassword == confirmNewPassword
    ensures newPassword == "" ==> e == Some("New password cannot be empty.")
    ensures newPassword != "" && newPassword != confirmNewPassword ==> e == Some("New passwords do not match!")
  {
    if newPassword == "" then Some("New password cannot be empty.")
    else if newPassword != confirmNewPassword then Some("New passwords do not match!")
    else None
  }

  class AccountPage {
    var clientId: Option<string>
    var businessName: string
    var newEmail: string
    var newPassword: string
    var confirmNewPassword: string
    var loading: bool
    var saving: bool
    var passwordFeedback: Feedback
    var profileFeedback: Feedback
    var emailFeedback: Feedback

    constructor()
      ensures clientId == None && businessName == "" && newEmail == ""
      ensures newPassword == "" && confirmNewPassword == ""
      ensures loading && !saving
      ensures passwordFeedback == Cleared && profileFeedback == Cleared && emailFeedback == Cleared
    {
      clientId := None;
      businessName := "";
      newEmail := "";
      newPassword := "";
      confirmNewPassword := "";
      loading := true;
      saving := false;
      passwordFeedback := Cleared;
      profileFeedback := Cleared;
      emailFeedback := Cleared;
    }

    /** The fields no profile load touches. */
    twostate predicate FormsUnchanged()
      reads this
    {
      && newEmail == old(newEmail) && newPassword == old(newPassword)
      && confirmNewPassword == old(confirmNewPassword) && saving == old(saving)
      && passwordFeedback == old(passwordFeedback) && emailFeedback == old(emailFeedback)
    }

    /** `loadAccountData()` for the signed-in `user` (`None` when there is no
        session), with the answers of the two queries and the moment the
        effect was cancelled. */
    method LoadAccountData(user: Option<string>, userReply: Result<Option<string>, string>,
                           clientReply: Result<Option<Option<string>>, string>, cancel: Cancel)
      modifies this
      ensures FormsUnchanged()
      ensures user.None? ==>
        && !loading && clientId == old(clientId) && businessName == old(businessName)
        && profileFeedback == old(profileFeedback)
      ensures user.Some? ==>
        var o := ClassifyLoad(userReply, clientReply);
        var finished := cancel == NotCancelled || (cancel == DuringClientQuery && o.MappingMissing?);
        && (finished ==>
              && !loading
              && clientId == (if o.MappingMissing? then old(clientId) else Some(o.clientId))
              && businessName == (if o.Loaded? then o.name else old(businessName))
              && profileFeedback == (if o.Loaded? then Cleared else Feedback("", o.message)))
        && (cancel == DuringUserQuery ==>
              && loading && profileFeedback == Cleared
              && clientId == old(clientId) && businessName == old(businessName))
        && (cancel == DuringClientQuery && !o.MappingMissing? ==>
              && loading && profileFeedback == Cleared
              && clientId == Some(o.clientId) && businessName == old(businessName))
    {
      if user.None? {
        loading := false;
        return;
      }
      loading := true;
      profileFeedback := Cleared;
      var cancelled := cancel == DuringUserQuery;
      var o := ClassifyLoad(userReply, clientReply);
      FailureMessagesNonEmpty(userReply, clientReply);
      var failure: Option<string> := None;
      if o.MappingMissing? {
        failure := Some(o.message);
      } else if cancelled {
        return;
      } else {
        clientId := Some(o.clientId);
        cancelled := cancel == DuringClientQuery;
        if o.ClientMissing? {
          failure := Some(o.message);
        } else if cancelled {
          return;
        } else {
          businessName := o.name;
        }
      }
      if failure.Some? && !cancelled {
        profileFeedback := profileFeedback.(error := OrElse(failure.value, "Failed to load account information."));
      }
      if !cancelled {
        loading := false;
      }
    }

    /** `updateProfile()` up to the update call; returns the update it sends,
        or `None` when it stops first. */
    method BeginUpdateProfile(signedIn: bool) returns (sent: Option<ProfileUpdate>)
      modifies this
      ensures clientId == old(clientId) && businessName == old(businessName)
      ensures passwordFeedback == old(passwordFeedback) && emailFeedback == old(emailFeedback)
      ensures newEmail == old(newEmail) && newPassword == old(newPassword)
      ensures confirmNewPassword == old(confirmNewPassword) && loading == old(loading)
      ensures !signedIn || clientId.None? || clientId.value == "" ==> sent == None && unchanged(this)
      ensures signedIn && clientId.Some? && clientId.value != "" && Trim(businessName) == "" ==>
        && sent == None && saving == old(saving)
        && profileFeedback == old(profileFeedback).(error := "Business name cannot be empty.")
      ensures signedIn && clientId.Some? && clientId.value != "" && Trim(businessName) != "" ==>
        && sent == Some(ProfileUpdate(clientId.value, Trim(businessName)))
        && saving && profileFeedback == Cleared
    {
      if !signedIn || clientId.None? || clientId.value == "" {
        return None;
      }
      var nextName := Trim(businessName);
      if nextName == "" {
        profileFeedback := profileFeedback.(error := "Business name cannot be empty.");
        return None;
      }
      saving := true;
      profileFeedback := Cleared;
      sent := Some(ProfileUpdate(clientId.value, nextName));
    }

    /** The rest of `updateProfile()` once the update has answered. */
    method EndUpdateProfile(reply: Outcome)
      modifies this
      ensures !saving && clientId == old(clientId) && businessName == old(businessName)
      ensures passwordFeedback == old(passwordFeedback) && emailFeedback == old(emailFeedback)
      ensures newEmail == old(newEmail) && newPassword == old(newPassword)
      ensures confirmNewPassword == old(confirmNewPassword) && loading == old(loading)
      ensures reply.Success? ==> profileFeedback == old(profileFeedback).(message := "Profile updated successfully!")
      ensures reply.Failure? ==>
        profileFeedback == old(profileFeedback).(error := OrElse(reply.message, "Error updating profile. Please try again."))
    {
      if reply.Success? {
        profileFeedback := profileFeedback.(message := "Profile updated successfully!");
      } else {
        profileFeedback := profileFeedback.(error := OrElse(reply.message, "Error updating profile. Please try again."));
      }
      saving := false;
    }

    /** `changePassword()`, with the update call (made only when the form
        checks out) ending as `reply`; returns the password it sends. */
    method ChangePassword(reply: CallReply) returns (sent: Option<string>)
      modifies this
      ensures profileFeedback == old(profileFeedback) && emailFeedback == old(emailFeedback)
      ensures clientId == old(clientId) && businessName == old(businessName) && newEmail == old(newEmail)
      ensures saving == old(saving) && loading == old(loading)
      ensures var check := PasswordCheck(old(newPassword), old(confirmNewPassword));
        && (check.Some? ==>
              && sent == None && passwordFeedback == Feedback("", check.value)
              && newPassword == old(newPassword) && confirmNewPassword == old(confirmNewPassword))
        && (check.None? ==> sent == Some(old(newPassword)))
        && (check.None? && reply.Accepted? ==>
              && passwordFeedback == Feedback("Password updated successfully!", "")
              && newPassword == "" && confirmNewPassword == "")
        && (check.None? && !reply.Accepted? ==>
              && passwordFeedback == Feedback("", if reply.Rejected? then reply.message
                                                  else "Error changing password. Please try again.")
              && newPassword == old(newPassword) && confirmNewPassword == old(confirmNewPassword))
    {
      passwordFeedback := Cleared;
      var check := PasswordCheck(newPassword, confirmNewPassword);
      if check.Some? {
        passwordFeedback := passwordFeedback.(error := check.value);
        return None;
      }
      sent := Some(newPassword);
      match reply {
        case Accepted =>
          passwordFeedback := passwordFeedback.(message := "Password updated successfully!");
          newPassword := "";
          confirmNewPassword := "";
        case Rejected(message) =>
          passwordFeedback := passwordFeedback.(error := message);
        case Thrown =>
          passwordFeedback := passwordFeedback.(error := "Error changing password. Please try again.");
      }
    }

    /** `changeEmail()`, with the update call (made only for a non-empty
        address) ending as `reply`; returns the address it sends. */
    method ChangeEmail(reply: CallReply) returns (sent: Option<string>)
      modifies this
      ensures profileFeedback == old(profileFeedback) && passwordFeedback == old(passwordFeedback)
      ensures clientId == old(clientId) && businessName == old(businessName)
      ensures newPassword == old(newPassword) && confirmNewPassword == old(confirmNewPassword)
      ensures saving == old(saving) && loading == old(loading)
      ensures old(newEmail) == "" ==>
        sent == None && emailFeedback == Feedback("", "Email cannot be empty.") && newEmail == ""
      ensures old(newEmail) != "" ==> sent == Some(old(newEmail))
      ensures old(newEmail) != "" && reply.Accepted? ==>
        emailFeedback == Feedback("Confirmation email sent. Please check your inbox!", "") && newEmail == ""
      ensures old(newEmail) != "" && !reply.Accepted? ==>
        && emailFeedback == Feedback("", if reply.Rejected? then reply.message
                                         else "Error changing email. Please try again.")
        && newEmail == old(newEmail)
    {
      emailFeedback := Cleared;
      if newEmail == "" {
        emailFeedback := emailFeedback.(error := "Email cannot be empty.");
        return None;
      }
      sent := Some(newEmail);
      match reply {
        case Accepted =>
          emailFeedback := emailFeedback.(message := "Confirmation email sent. Please check your inbox!");
          newEmail := "";
        case Rejected(message) =>
          emailFeedback := emailFeedback.(error := message);
        case Thrown =>
          emailFeedback := emailFeedback.(error := "Error changing email. Please try again.");
      }
    }
  }
}
