/**
 * Properties that span several requests, stated as client methods that call the
 * handlers one after another on the same store, and small concrete call sequences that
 * exhibit how three handlers behave as written.
 */
module Scenarios {
  import opened Wrappers
  import opened Models
  import opened Responses
  import opened Controllers
  import Text

  /** A reset token that was used successfully cannot be used a second time. */
  method ResetTokenSingleUse(s: Store, password: string, token: string, id: Id)
    returns (first: Response, second: Response)
    requires s.Valid()
    modifies s
    ensures s.Valid()
    ensures first.Ok? ==> second == Thrown(InvalidToken) && id !in s.tokens
    ensures first.Ok? <==> id in old(s.tokens) && s.Matches(token, old(s.tokens)[id])
  {
    first := s.ResetPassword(password, password, token, Some(id));
    second := s.ResetPassword(password, password, token, Some(id));
  }

  /**
   * Both request flows write the same per-user slot: after a reset request and
   * then a delete request, only the second token is stored, and the first one
   * no longer resets the password (unless the two hash alike).
   */
  method RequestsShareOneSlot(s: Store, email: string, resetToken: string, deleteToken: string,
                              password: string) returns (reset: Response)
    requires s.Valid()
    modifies s
    ensures s.Valid()
    ensures var found := old(s.FindUserByEmail(email));
      found.Some? && s.hash(resetToken) != s.hash(deleteToken) ==>
        && s.tokens == old(s.tokens)[found.value := s.hash(deleteToken)]
        && reset == Thrown(InvalidToken)
  {
    var r1 := s.ResetPasswordRequest(email, resetToken);
    var r2 := s.DeleteAccountRequest(email, deleteToken);
    var found := s.FindUserByEmail(email);
    if found.Some? {
      reset := s.ResetPassword(password, password, resetToken, found);
    } else {
      reset := NoReply;
    }
  }

  /** After a successful account deletion no goal of that user is left. */
  method DeletionCascades(s: Store, email: string, password: string, token: string, id: Id)
    returns (deletion: Response, listing: Response)
    requires s.Valid()
    modifies s
    ensures s.Valid()
    ensures deletion.Ok? ==> id !in s.users
    ensures listing.Ok? && listing.body.GoalsBody? && (deletion.Ok? ==> listing.body.goals == map[])
    ensures deletion.Ok? ==> forall g :: g in old(s.goals) && old(s.goals)[g].author != id ==> g in s.goals
  {
    deletion := s.DeleteUserAccount(email, password, token, Some(id));
    listing := s.GetGoals(id);
  }

  /**
   * A new goal starts NOT_STARTED with no dates; status 1 stamps its start and
   * status 4 its end, each with the time of its request.
   */
  method StartThenAccomplish(s: Store, caller: Id, title: string, category: string,
                             description: string, started: Time, finished: Time)
    returns (created: Response, fetched: Response)
    requires s.Valid() && caller in s.users
    modifies s
    ensures s.Valid()
    ensures created.Ok? && created.body.CreatedGoal?
    ensures created.body.newGoal.status == 0 && created.body.newGoal.startDate == None
    ensures fetched.Ok? && fetched.body.GoalBody? && fetched.body.goal.status == 4
    ensures fetched.body.goal.startDate == Some(started) && fetched.body.goal.endDate == Some(finished)
  {
    created := s.CreateGoal(caller, [], title, category, description, 0);
    var id := created.body.newGoalId;
    var r1 := s.UpdateStatusGoal(caller, [], id, Some(1), started);
    var r2 := s.UpdateStatusGoal(caller, [], id, Some(4), finished);
    fetched := s.GetGoal(caller, id);
  }

  /** A stand-in password hash for the concrete call sequences below. */
  function Identity(x: string): string { x }

  /** As written, fetching a reminder id that is not stored succeeds with no reminder. */
  method MissingReminderFetched() returns (asWritten: Response, intended: Response)
    ensures asWritten == Ok(200, "Reminder fetched", FetchedReminder(None))
    ensures intended == ThrownWith("Schedule not found", 404)
  {
    var s := new Store(Identity);
    asWritten := s.GetReminder(Some(0));
    intended := s.GetReminderIntended(0);
  }

  /** As written, deleting a reminder id that is not stored fails with 500, not 404. */
  method MissingReminderDeleted() returns (asWritten: Response, intended: Response)
    ensures asWritten.Err? && asWritten.statusCode == 500
    ensures intended == ThrownWith(ReminderNotFound, 404)
  {
    var s := new Store(Identity);
    asWritten := s.DeleteReminder(0);
    intended := s.DeleteReminderIntended(0);
  }

  /** A fresh store holding one user, ann, whose password is `secret1`. */
  method OneUser() returns (s: Store, id: Id)
    ensures fresh(s) && s.Valid() && s.hash == Identity
    ensures s.users == map[id := User("ann@example.com", "ann", "secret1", [])]
    ensures s.FindUserByEmail("ann@example.com") == Some(id)
  {
    s := new Store(Identity);
    Text.TrimUnchanged("secret1");
    Text.Utf16LengthBasic("secret1");
    var created := s.CreateUser([], "ann@example.com", "ann", "secret1");
    id := created.body.userId;
  }

  /**
   * As written, a password update reports success but the old password still
   * logs in and the new one does not.
   */
  method PasswordUpdateIgnored() returns (update: Response, oldLogin: Response, newLogin: Response)
    ensures update == Ok(200, "Password updated", NoBody)
    ensures oldLogin.Ok? && newLogin == ThrownWith(WrongPassword, 404)
  {
    var s, id := OneUser();
    update := s.UpdatePassword(Some(id), "another1");
    oldLogin := s.Login("ann@example.com", "secret1");
    newLogin := s.Login("ann@example.com", "another1");
  }

  /** With the intended update, the new password is the one that logs in. */
  method PasswordUpdateApplied() returns (update: Response, oldLogin: Response, newLogin: Response)
    ensures update == Ok(200, "Password updated", NoBody)
    ensures oldLogin == ThrownWith(WrongPassword, 404) && newLogin.Ok?
  {
    var s, id := OneUser();
    update := s.UpdatePasswordIntended(Some(id), "another1");
    assert s.FindUserByEmail("ann@example.com") == Some(id);
    oldLogin := s.Login("ann@example.com", "secret1");
    newLogin := s.Login("ann@example.com", "another1");
  }
}
