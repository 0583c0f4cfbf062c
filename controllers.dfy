/**
 * The request handlers of the goal, reminder and user controllers, as methods of
 * one store that holds the four collections: goals, reminders, users, and one
 * one-time token hash per user. Each handler takes what the request carries,
 * plus the caller's id (from the bearer token) and the current time where it
 * needs them, checks its guards in the source's order and either stops with the
 * store unchanged or applies its writes, and returns the response.
 */
module Controllers {
  import opened Wrappers
  import opened Models
  import opened Responses
  import Utils
  import Text
  import GoalStatus

  const GoalNotFound: string := "Goal not found"
  const NotAuthorized: string := "Not authorized"
  const ReminderNotFound: string := "Reminder not found"
  const UserNotFound: string := "User not found"
  const InvalidToken: string := "Invalid or expired password reset token"
  const WrongPassword: string := "Password is not correct"
  const TokenLifetime: string := "10 days"
  /** The minimum length of a signup password after trimming. */
  const MinPasswordLength: nat := 6

  class Store {
    var goals: map<Id, Goal>
    var reminders: map<Id, Reminder>
    var users: map<Id, User>
    /** The hash of the outstanding one-time token of each user (at most one). */
    var tokens: map<Id, string>
    /** The next id the database hands out; every id in use is below it. */
    var nextId: nat
    /** The password hash function; `compare(plain, hashed)` is `hash(plain) == hashed`. */
    const hash: string -> string

    ghost predicate IdsIssued()
      reads this
    {
      && (forall id :: id in goals ==> id < nextId)
      && (forall id :: id in reminders ==> id < nextId)
      && UserIdsIssued()
    }

    ghost predicate UserIdsIssued()
      reads this`users, this`nextId
    {
      forall id :: id in users ==> id < nextId
    }

    /** Every stored token belongs to an existing user. */
    ghost predicate TokensOwned()
      reads this
    {
      tokens.Keys <= users.Keys
    }

    /** A user's goal list names only existing goals that the user authored. */
    ghost predicate GoalListsOwned()
      reads this
    {
      forall u, g :: u in users && g in users[u].goals ==> g in goals && goals[g].author == u
    }

    /** A goal's reminder link names an existing reminder that belongs to that goal. */
    ghost predicate RemindersLinked()
      reads this
    {
      forall g :: g in goals && goals[g].reminder.Some? ==>
        goals[g].reminder.value in reminders && reminders[goals[g].reminder.value].goal == g
    }

    ghost predicate Valid()
      reads this
    {
      IdsIssued() && TokensOwned() && GoalListsOwned() && RemindersLinked()
    }

    constructor (hash: string -> string)
      ensures Valid() && this.hash == hash
      ensures goals == map[] && reminders == map[] && users == map[] && tokens == map[]
    {
      goals, reminders, users, tokens := map[], map[], map[], map[];
      nextId := 0;
      this.hash := hash;
    }

    /** `bcrypt.compare(plain, hashed)`. */
    predicate Matches(plain: string, hashed: string) {
      hash(plain) == hashed
    }

    /** The goal exists and `caller` is its author. */
    predicate Owns(caller: Id, goalId: Id)
      reads this
    {
      goalId in goals && goals[goalId].author == caller
    }

    /** The lookup by email: the earliest user with that email, if any. */
    function FindUserByEmail(email: string): (r: Option<Id>)
      reads this`users, this`nextId
      requires UserIdsIssued()
      ensures r.Some? ==> r.value in users && users[r.value].email == email
      ensures r.Some? ==> forall id :: id in users && users[id].email == email ==> r.value <= id
      ensures r.None? ==> forall id :: id in users ==> users[id].email != email
    {
      FirstWithEmail(email, 0)
    }

    function FirstWithEmail(email: string, from: nat): (r: Option<Id>)
      reads this`users, this`nextId
      requires UserIdsIssued()
      ensures r.Some? ==> from <= r.value && r.value in users && users[r.value].email == email
      ensures r.Some? ==> forall id :: from <= id < r.value && id in users ==> users[id].email != email
      ensures r.None? ==> forall id :: from <= id && id in users ==> users[id].email != email
      decreases nextId - from
    {
      if from >= nextId then None
      else if from in users && users[from].email == email then Some(from)
      else FirstWithEmail(email, from + 1)
    }

    /** Takes the next id. */
    method NewId() returns (id: Id)
      modifies this`nextId
      ensures id == old(nextId) && nextId == id + 1
    {
      id := nextId;
      nextId := nextId + 1;
    }

    // ---------------------------------------------------------------- goals

    /** GET /goals/:goalId: the goal, to its author only. */
    method GetGoal(caller: Id, goalId: Id) returns (r: Response)
      ensures goalId !in goals ==> r == ThrownWith(GoalNotFound, 404)
      ensures goalId in goals && goals[goalId].author != caller ==> r == ThrownWith(NotAuthorized, 404)
      ensures r.Ok? <==> Owns(caller, goalId)
      ensures r.Ok? ==> r == Ok(200, "Goal fetched", GoalBody(goalId, goals[goalId]))
    {
      if goalId !in goals {
        return ThrownWith(GoalNotFound, 404);
      }
      var goal := goals[goalId];
      if goal.author != caller {
        return ThrownWith(NotAuthorized, 404);
      }
      r := Ok(200, "Goal fetched", GoalBody(goalId, goal));
    }

    /** GET /goals: exactly the goals the caller authored. */
    method GetGoals(caller: Id) returns (r: Response)
      ensures r.Ok? && r.code == 200 && r.message == "Goals fetched" && r.body.GoalsBody?
      ensures forall id :: id in r.body.goals <==> Owns(caller, id)
      ensures forall id :: id in r.body.goals ==> id in goals && r.body.goals[id] == goals[id]
    {
      r := Ok(200, "Goals fetched", GoalsBody(ByAuthor(goals, caller)));
    }

    /**
     * POST /goals: stores a new goal of the caller with status NOT_STARTED (0) and
     * no dates, and appends its id to the caller's goal list. When the caller has
     * no user document the goal stays stored and no response is sent.
     */
    method CreateGoal(caller: Id, validationErrors: seq<Utils.FieldError>, title: string,
                      category: string, description: string, goalType: int) returns (r: Response)
      requires Valid()
      modifies this
      ensures Valid()
      ensures validationErrors != [] ==>
        r == ThrownWith("Validation failed,check entered data", 422) && unchanged(this)
      ensures validationErrors == [] ==>
        var id := old(nextId);
        var goal := Goal(title, description, category, 0, None, None, goalType, caller, None);
        && id !in old(goals) && nextId == id + 1
        && goals == old(goals)[id := goal]
        && reminders == old(reminders) && tokens == old(tokens)
        && (caller in old(users) ==>
              && users == old(users)[caller := old(users)[caller].(goals := old(users)[caller].goals + [id])]
              && r == Ok(201, "Goal created!", CreatedGoal(id, goal, caller, old(users)[caller].username)))
        && (caller !in old(users) ==> users == old(users) && r == NoReply)
    {
      if validationErrors != [] {
        return ThrownWith("Validation failed,check entered data", 422);
      }
      var goal := Goal(title, description, category, GoalStatus.NotStartedCode,
                       None, None, goalType, caller, None);
      var id := NewId();
      ghost var before := goals;
      goals := goals[id := goal];
      assert RemindersLinked();
      assert GoalListsOwned() by {
        forall u, g | u in users && g in users[u].goals ensures g in goals && goals[g].author == u {
          assert g in before && g != id;
        }
      }
      if caller in users {
        var user := users[caller];
        users := users[caller := user.(goals := user.goals + [id])];
        assert GoalListsOwned() by {
          forall u, g | u in users && g in users[u].goals ensures g in goals && goals[g].author == u {
            if u == caller && g !in user.goals {
              assert g == id;
            }
          }
        }
        r := Ok(201, "Goal created!", CreatedGoal(id, goal, caller, user.username));
      } else {
        r := NoReply;
      }
    }

    /**
     * PUT /goals/:goalId: the author may replace title, category, description and
     * type; each is kept when the request leaves it out.
     */
    method UpdateGoal(caller: Id, validationErrors: seq<Utils.FieldError>, goalId: Id,
                      title: Option<string>, category: Option<string>,
                      description: Option<string>, goalType: Option<int>) returns (r: Response)
      requires Valid()
      modifies this
      ensures Valid()
      ensures validationErrors != [] ==>
        r == ThrownWith("Validation failed, check entered data", 422) && unchanged(this)
      ensures validationErrors == [] && goalId !in old(goals) ==>
        r == ThrownWith(GoalNotFound, 404) && unchanged(this)
      ensures validationErrors == [] && goalId in old(goals) && old(goals)[goalId].author != caller ==>
        r == ThrownWith(NotAuthorized, 404) && unchanged(this)
      ensures validationErrors == [] && old(Owns(caller, goalId)) ==>
        && goals == old(goals)[goalId := Patched(old(goals)[goalId], title, category, description, goalType)]
        && reminders == old(reminders) && users == old(users) && tokens == old(tokens)
        && nextId == old(nextId)
        && r == Ok(200, "Goal updated!", GoalBody(goalId, goals[goalId]))
    {
      if validationErrors != [] {
        return ThrownWith("Validation failed, check entered data", 422);
      }
      if goalId !in goals {
        return ThrownWith(GoalNotFound, 404);
      }
      var goal := goals[goalId];
      if goal.author != caller {
        return ThrownWith(NotAuthorized, 404);
      }
      goal := Patched(goal, title, category, description, goalType);
      goals := goals[goalId := goal];
      r := Ok(200, "Goal updated!", GoalBody(goalId, goal));
    }

    /**
     * DELETE /goals/:goalId: the author's goal is removed and its id pulled from
     * the author's goal list. Without a user document for the caller the removal
     * stands and the handler fails reading the list.
     */
    method DeleteGoal(caller: Id, goalId: Id) returns (r: Response)
      requires Valid()
      modifies this
      ensures Valid()
      ensures goalId !in old(goals) ==> r == ThrownWith(GoalNotFound, 404) && unchanged(this)
      ensures goalId in old(goals) && old(goals)[goalId].author != caller ==>
        r == ThrownWith(NotAuthorized, 404) && unchanged(this)
      ensures old(Owns(caller, goalId)) ==>
        && goals == old(goals) - {goalId}
        && reminders == old(reminders) && tokens == old(tokens) && nextId == old(nextId)
        && (caller in old(users) ==>
              && users == old(users)[caller := old(users)[caller].(goals := Pull(old(users)[caller].goals, goalId))]
              && r == Ok(200, "Goal deleted!", NoBody))
        && (caller !in old(users) ==> users == old(users) && r == Thrown(CannotRead("goals")))
    {
      if goalId !in goals {
        return ThrownWith(GoalNotFound, 404);
      }
      if goals[goalId].author != caller {
        return ThrownWith(NotAuthorized, 404);
      }
      goals := goals - {goalId};
      if caller !in users {
        return Thrown(CannotRead("goals"));
      }
      var user := users[caller];
      users := users[caller := user.(goals := Pull(user.goals, goalId))];
      r := Ok(200, "Goal deleted!", NoBody);
    }

    /**
     * The status handler: the author's goal takes the requested status; 1 stamps
     * the start date and 4 the end date with `now`. No status value is refused.
     */
    method UpdateStatusGoal(caller: Id, validationErrors: seq<Utils.FieldError>, goalId: Id,
                            status: Option<int>, now: Time) returns (r: Response)
      requires Valid()
      modifies this
      ensures Valid()
      ensures validationErrors != [] ==>
        r == ThrownWith("Validation failed, check entered data", 422) && unchanged(this)
      ensures validationErrors == [] && goalId !in old(goals) ==>
        r == ThrownWith(GoalNotFound, 404) && unchanged(this)
      ensures validationErrors == [] && goalId in old(goals) && old(goals)[goalId].author != caller ==>
        r == ThrownWith(NotAuthorized, 404) && unchanged(this)
      ensures validationErrors == [] && old(Owns(caller, goalId)) ==>
        && goals == old(goals)[goalId := WithStatus(old(goals)[goalId], status, now)]
        && reminders == old(reminders) && users == old(users) && tokens == old(tokens)
        && nextId == old(nextId)
        && r == Ok(200, "Goal start date saved!", GoalBody(goalId, goals[goalId]))
    {
      if validationErrors != [] {
        return ThrownWith("Validation failed, check entered data", 422);
      }
      if goalId !in goals {
        return ThrownWith(GoalNotFound, 404);
      }
      var goal := goals[goalId];
      if goal.author != caller {
        return ThrownWith(NotAuthorized, 404);
      }
      if status == Some(GoalStatus.StartedCode) {
        goal := goal.(startDate := Some(now));
      } else if status == Some(GoalStatus.AccomplishedCode) {
        goal := goal.(endDate := Some(now));
      }
      goal := goal.(status := status.GetOr(goal.status));
      goals := goals[goalId := goal];
      r := Ok(200, "Goal start date saved!", GoalBody(goalId, goal));
    }

    // ------------------------------------------------------------ reminders

    /**
     * GET /reminder/:reminderId: the guard tests the id, not the lookup, so any
     * given id succeeds, with no reminder when none is stored under it.
     */
    method GetReminder(reminderId: Option<Id>) returns (r: Response)
      ensures reminderId.None? ==> r == ThrownWith("Schedule not found", 404)
      ensures r.Ok? <==> reminderId.Some?
      ensures r.Ok? ==> r.code == 200 && r.message == "Reminder fetched" && r.body.FetchedReminder?
      ensures r.Ok? ==> (r.body.found.Some? <==> reminderId.value in reminders)
      ensures r.Ok? && r.body.found.Some? ==> r.body.found.value == reminders[reminderId.value]
    {
      if reminderId.None? {
        return ThrownWith("Schedule not found", 404);
      }
      var found := if reminderId.value in reminders then Some(reminders[reminderId.value]) else None;
      r := Ok(200, "Reminder fetched", FetchedReminder(found));
    }

    /** GET /reminder/:reminderId as evidently intended: the guard tests the lookup. */
    method GetReminderIntended(reminderId: Id) returns (r: Response)
      ensures reminderId !in reminders ==> r == ThrownWith("Schedule not found", 404)
      ensures r.Ok? <==> reminderId in reminders
      ensures r.Ok? ==> r == Ok(200, "Reminder fetched", FetchedReminder(Some(reminders[reminderId])))
    {
      if reminderId !in reminders {
        return ThrownWith("Schedule not found", 404);
      }
      r := Ok(200, "Reminder fetched", FetchedReminder(Some(reminders[reminderId])));
    }

    /**
     * POST /reminder/:goalId: stores the reminder for `goalId` and links the goal
     * to it. When there is no such goal the reminder stays stored, no goal
     * changes and no response is sent.
     */
    method CreateReminder(goalId: Id, reminderType: int, weekday: Option<int>, time: TimeOfDay)
      returns (r: Response)
      requires Valid()
      modifies this
      ensures Valid()
      ensures var id := old(nextId);
        && id !in old(reminders) && nextId == id + 1
        && reminders == old(reminders)[id := Reminder(reminderType, weekday, time, goalId)]
        && users == old(users) && tokens == old(tokens)
        && (goalId in old(goals) ==>
              && goals == old(goals)[goalId := old(goals)[goalId].(reminder := Some(id))]
              && r == Ok(201, "Reminder created!", ReminderBody(id, reminders[id])))
        && (goalId !in old(goals) ==> goals == old(goals) && r == NoReply)
    {
      var reminder := Reminder(reminderType, weekday, time, goalId);
      var id := NewId();
      reminders := reminders[id := reminder];
      if goalId in goals {
        goals := goals[goalId := goals[goalId].(reminder := Some(id))];
        r := Ok(201, "Reminder created!", ReminderBody(id, reminder));
      } else {
        r := NoReply;
      }
    }

    /** PUT /reminder/:reminderId: overwrites type, weekday and time; the goal link stays. */
    method UpdateReminder(reminderId: Id, reminderType: int, weekday: Option<int>, time: TimeOfDay)
      returns (r: Response)
      requires Valid()
      modifies this
      ensures Valid()
      ensures reminderId !in old(reminders) ==> r == ThrownWith(ReminderNotFound, 404) && unchanged(this)
      ensures reminderId in old(reminders) ==>
        && reminders == old(reminders)[reminderId := Reminder(reminderType, weekday, time, old(reminders)[reminderId].goal)]
        && goals == old(goals) && users == old(users) && tokens == old(tokens) && nextId == old(nextId)
        && r == Ok(200, "Reminder updated!", ReminderBody(reminderId, reminders[reminderId]))
    {
      if reminderId !in reminders {
        return ThrownWith(ReminderNotFound, 404);
      }
      var reminder := reminders[reminderId];
      reminder := reminder.(reminderType := reminderType, weekday := weekday, time := time);
      reminders := reminders[reminderId := reminder];
      r := Ok(200, "Reminder updated!", ReminderBody(reminderId, reminder));
    }

    /**
     * DELETE /reminder/:reminderId: removes the reminder and clears its goal's
     * link. The goal id is read before the null check, so a missing reminder
     * fails with a type error (500), never with the 404; a missing goal fails
     * after the reminder is already removed.
     */
    method DeleteReminder(reminderId: Id) returns (r: Response)
      requires Valid()
      modifies this
      ensures Valid()
      ensures reminderId !in old(reminders) ==> r == Thrown(CannotRead("goal")) && unchanged(this)
      ensures reminderId in old(reminders) ==> RemovedReminder(reminderId, r)
    {
      if reminderId !in reminders {
        return Thrown(CannotRead("goal"));
      }
      r := RemoveReminder(reminderId);
    }

    /** DELETE /reminder/:reminderId as evidently intended: a missing reminder gives the 404. */
    method DeleteReminderIntended(reminderId: Id) returns (r: Response)
      requires Valid()
      modifies this
      ensures Valid()
      ensures reminderId !in old(reminders) ==> r == ThrownWith(ReminderNotFound, 404) && unchanged(this)
      ensures reminderId in old(reminders) ==> RemovedReminder(reminderId, r)
    {
      if reminderId !in reminders {
        return ThrownWith(ReminderNotFound, 404);
      }
      r := RemoveReminder(reminderId);
    }

    /**
     * The store after removing stored reminder `reminderId`: the reminder is gone
     * and its goal's link cleared, or, with no such goal, the handler failed
     * after the removal.
     */
    twostate predicate RemovedReminder(reminderId: Id, r: Response)
      reads this
      requires reminderId in old(reminders)
    {
      var goalId := old(reminders)[reminderId].goal;
      && reminders == old(reminders) - {reminderId}
      && users == old(users) && tokens == old(tokens) && nextId == old(nextId)
      && (goalId in old(goals) ==>
            && goals == old(goals)[goalId := old(goals)[goalId].(reminder := None)]
            && r == Ok(200, "Reminder deleted!", NoBody))
      && (goalId !in old(goals) ==> goals == old(goals) && r == Thrown(CannotSet("reminder")))
    }

    method RemoveReminder(reminderId: Id) returns (r: Response)
      requires Valid() && reminderId in reminders
      modifies this
      ensures Valid()
      ensures RemovedReminder(reminderId, r)
    {
      var goalId := reminders[reminderId].goal;
      reminders := reminders - {reminderId};
      if goalId !in goals {
        return Thrown(CannotSet("reminder"));
      }
      goals := goals[goalId := goals[goalId].(reminder := None)];
      r := Ok(200, "Reminder deleted!", NoBody);
    }

    // ---------------------------------------------------------------- users

    /**
     * POST /signup: a password shorter than six UTF-16 code units after
     * trimming is refused (500); otherwise the user is stored with the hash of the trimmed
     * password and no goals.
     */
    method CreateUser(validationErrors: seq<Utils.FieldError>, email: string, username: string,
                      password: string) returns (r: Response)
      requires Valid()
      modifies this
      ensures Valid()
      ensures validationErrors != [] ==>
        r == Err("Validation failed,undefined", 422, validationErrors) && unchanged(this)
      ensures validationErrors == [] && Text.Utf16Length(Text.Trim(password)) < MinPasswordLength ==>
        r == Thrown("Password must be at least 6 characters") && unchanged(this)
      ensures validationErrors == [] && Text.Utf16Length(Text.Trim(password)) >= MinPasswordLength ==>
        var id := old(nextId);
        && id !in old(users) && nextId == id + 1
        && users == old(users)[id := User(email, username, hash(Text.Trim(password)), [])]
        && goals == old(goals) && reminders == old(reminders) && tokens == old(tokens)
        && r == Ok(201, "User created", UserBody(id, users[id]))
    {
      if validationErrors != [] {
        return Err("Validation failed,undefined", 422, validationErrors);
      }
      var trimmed := Text.Trim(password);
      if Text.Utf16Length(trimmed) < MinPasswordLength {
        return Thrown("Password must be at least 6 characters");
      }
      var user := User(email, username, hash(trimmed), []);
      var id := NewId();
      users := users[id := user];
      r := Ok(201, "User created", UserBody(id, user));
    }

    /** POST /login: a signed token for the user with that email, when the password matches. */
    method Login(email: string, password: string) returns (r: Response)
      requires Valid()
      ensures FindUserByEmail(email).None? ==> r == ThrownWith(UserNotFound, 404)
      ensures FindUserByEmail(email).Some? && !Matches(password, users[FindUserByEmail(email).value].password) ==>
        r == ThrownWith(WrongPassword, 404)
      ensures r.Ok? <==> FindUserByEmail(email).Some? && Matches(password, users[FindUserByEmail(email).value].password)
      ensures r.Ok? ==>
        var id := FindUserByEmail(email).value;
        r == Ok(200, "", LoginBody(SignedToken(users[id].email, id, TokenLifetime), id, users[id].username, users[id].email))
    {
      var found := FindUserByEmail(email);
      if found.None? {
        return ThrownWith(UserNotFound, 404);
      }
      var id := found.value;
      var user := users[id];
      if !Matches(password, user.password) {
        return ThrownWith(WrongPassword, 404);
      }
      var token := SignedToken(user.email, id, TokenLifetime);
      r := Ok(200, "", LoginBody(token, id, user.username, user.email));
    }

    /** Deletes the user's outstanding token, if any, and saves the hash of a new one. */
    method IssueToken(userId: Id, plain: string)
      requires Valid() && userId in users
      modifies this`tokens
      ensures Valid()
      ensures tokens == old(tokens)[userId := hash(plain)]
    {
      if userId in tokens {
        tokens := tokens - {userId};
      }
      tokens := tokens[userId := hash(plain)];
    }

    /**
     * POST /reset-password-request: replaces the user's token with the hash of
     * `resetToken` (the random token that is emailed).
     */
    method ResetPasswordRequest(email: string, resetToken: string) returns (r: Response)
      requires Valid()
      modifies this
      ensures Valid()
      ensures old(FindUserByEmail(email)).None? ==>
        r == ThrownWith("Email is not recognized!", 404) && unchanged(this)
      ensures old(FindUserByEmail(email)).Some? ==>
        && tokens == old(tokens)[old(FindUserByEmail(email)).value := hash(resetToken)]
        && goals == old(goals) && reminders == old(reminders) && users == old(users) && nextId == old(nextId)
        && r == Ok(200, "Check your email to reset password!", NoBody)
    {
      var found := FindUserByEmail(email);
      if found.None? {
        return ThrownWith("Email is not recognized!", 404);
      }
      IssueToken(found.value, resetToken);
      r := Ok(200, "Check your email to reset password!", NoBody);
    }

    /**
     * POST /reset-password: with matching passwords and a token matching the
     * user's stored one, sets the password hash and consumes the token. Without a
     * user id nothing happens and success is reported.
     */
    method ResetPassword(password: string, confirmPassword: string, token: string, userId: Option<Id>)
      returns (r: Response)
      requires Valid()
      modifies this
      ensures Valid()
      ensures password != confirmPassword ==>
        r == Page("error.hbs", "Passwords are not the same! Try again") && unchanged(this)
      ensures password == confirmPassword && userId.None? ==>
        r == Ok(200, "Password is reset!", NoBody) && unchanged(this)
      ensures password == confirmPassword && userId.Some? &&
              (userId.value !in old(tokens) || !Matches(token, old(tokens)[userId.value])) ==>
        r == Thrown(InvalidToken) && unchanged(this)
      ensures password == confirmPassword && userId.Some? && userId.value in old(tokens) &&
              Matches(token, old(tokens)[userId.value]) ==>
        var id := userId.value;
        && id in old(users)
        && users == old(users)[id := old(users)[id].(password := hash(password))]
        && tokens == old(tokens) - {id}
        && goals == old(goals) && reminders == old(reminders) && nextId == old(nextId)
        && r == Ok(200, "Password is reset!", NoBody)
    {
      if password != confirmPassword {
        return Page("error.hbs", "Passwords are not the same! Try again");
      }
      if userId.Some? {
        var id := userId.value;
        if id !in tokens {
          return Thrown(InvalidToken);
        }
        if !Matches(token, tokens[id]) {
          return Thrown(InvalidToken);
        }
        if id in users {
          users := users[id := users[id].(password := hash(password))];
        }
        tokens := tokens - {id};
      }
      r := Ok(200, "Password is reset!", NoBody);
    }

    /** POST /delete-account-request: the same token replacement as for a password reset. */
    method DeleteAccountRequest(email: string, resetToken: string) returns (r: Response)
      requires Valid()
      modifies this
      ensures Valid()
      ensures old(FindUserByEmail(email)).None? ==>
        r == ThrownWith(UserNotFound, 404) && unchanged(this)
      ensures old(FindUserByEmail(email)).Some? ==>
        && tokens == old(tokens)[old(FindUserByEmail(email)).value := hash(resetToken)]
        && goals == old(goals) && reminders == old(reminders) && users == old(users) && nextId == old(nextId)
        && r == Ok(200, "Check your email and follow the instructions!", NoBody)
    {
      var found := FindUserByEmail(email);
      if found.None? {
        return ThrownWith(UserNotFound, 404);
      }
      IssueToken(found.value, resetToken);
      r := Ok(200, "Check your email and follow the instructions!", NoBody);
    }

    /**
     * POST /delete-user-account: with a matching token the token is consumed
     * first; then, when the password matches, the user and every goal the user
     * authored are deleted. A wrong password still consumes the token. The email
     * of the request is only tested for presence (empty means absent).
     */
    method DeleteUserAccount(email: string, password: string, token: string, userId: Option<Id>)
      returns (r: Response)
      requires Valid()
      modifies this
      ensures Valid()
      ensures userId.None? || email == "" ==> r == Thrown("Id or email not found ") && unchanged(this)
      ensures userId.Some? && email != "" && userId.value !in old(users) ==>
        r == Thrown("User not found ") && unchanged(this)
      ensures userId.Some? && email != "" && userId.value in old(users) &&
              (userId.value !in old(tokens) || !Matches(token, old(tokens)[userId.value])) ==>
        r == Thrown(InvalidToken) && unchanged(this)
      ensures userId.Some? && email != "" && userId.value in old(users) && userId.value in old(tokens) &&
              Matches(token, old(tokens)[userId.value]) ==>
        var id := userId.value;
        var user := old(users)[id];
        && tokens == old(tokens) - {id}
        && reminders == old(reminders) && nextId == old(nextId)
        && (user.email == "" ==>
              users == old(users) && goals == old(goals) && r == Thrown("User is not recognized!"))
        && (user.email != "" && !Matches(password, user.password) ==>
              users == old(users) && goals == old(goals) && r == ThrownWith(WrongPassword, 404))
        && (user.email != "" && Matches(password, user.password) ==>
              && users == old(users) - {id}
              && goals == WithoutAuthor(old(goals), id)
              && r == Ok(200, "Account has been deleted!", NoBody))
    {
      if userId.None? || email == "" {
        return Thrown("Id or email not found ");
      }
      var id := userId.value;
      if id !in users {
        return Thrown("User not found ");
      }
      var user := users[id];
      if id !in tokens {
        return Thrown(InvalidToken);
      }
      if !Matches(token, tokens[id]) {
        return Thrown(InvalidToken);
      }
      tokens := tokens - {id};
      if user.email == "" {
        return Thrown("User is not recognized!");
      }
      if !Matches(password, user.password) {
        return ThrownWith(WrongPassword, 404);
      }
      users := users - {id};
      goals := WithoutAuthor(goals, id);
      r := Ok(200, "Account has been deleted!", NoBody);
    }

    /** The username handler: renames the user; no check that the caller is that user. */
    method UpdateUsername(validationErrors: seq<Utils.FieldError>, userId: Option<Id>, username: string)
      returns (r: Response)
      requires Valid()
      modifies this
      ensures Valid()
      ensures validationErrors != [] ==>
        r == Err("Validation failed, check entered data", 422, validationErrors) && unchanged(this)
      ensures validationErrors == [] && (userId.None? || userId.value !in old(users)) ==>
        r == ThrownWith(UserNotFound, 404) && unchanged(this)
      ensures validationErrors == [] && userId.Some? && userId.value in old(users) ==>
        && users == old(users)[userId.value := old(users)[userId.value].(username := username)]
        && goals == old(goals) && reminders == old(reminders) && tokens == old(tokens) && nextId == old(nextId)
        && r == Ok(200, "Username updated", NoBody)
    {
      if validationErrors != [] {
        return Err("Validation failed, check entered data", 422, validationErrors);
      }
      if userId.None? {
        return ThrownWith(UserNotFound, 404);
      }
      var id := userId.value;
      if id !in users {
        return ThrownWith(UserNotFound, 404);
      }
      users := users[id := users[id].(username := username)];
      r := Ok(200, "Username updated", NoBody);
    }

    /**
     * The password handler: the update it issues sets a field the user schema
     * does not have, which the strict schema drops, so the store never changes
     * (the method modifies nothing). An unknown user still gets success.
     */
    method UpdatePassword(userId: Option<Id>, newPassword: string) returns (r: Response)
      ensures userId.None? || newPassword == "" ==> r == ThrownWith(UserNotFound, 404)
      ensures userId.Some? && newPassword != "" && userId.value in users && users[userId.value].email == "" ==>
        r == ThrownWith("Email not found", 404)
      ensures r.Ok? <==> userId.Some? && newPassword != "" &&
                         (userId.value !in users || users[userId.value].email != "")
      ensures r.Ok? ==> r == Ok(200, "Password updated", NoBody)
    {
      if userId.None? || newPassword == "" {
        return ThrownWith(UserNotFound, 404);
      }
      var id := userId.value;
      if id in users {
        var user := users[id];
        var hashed := hash(newPassword);
        if user.email == "" {
          return ThrownWith("Email not found", 404);
        }
      }
      r := Ok(200, "Password updated", NoBody);
    }

    /**
     * The password handler as evidently intended: the new hash goes into the
     * `password` field, so the new password is the one that matches afterwards.
     */
    method UpdatePasswordIntended(userId: Option<Id>, newPassword: string) returns (r: Response)
      requires Valid()
      modifies this
      ensures Valid()
      ensures userId.None? || newPassword == "" ==> r == ThrownWith(UserNotFound, 404) && unchanged(this)
      ensures userId.Some? && newPassword != "" && userId.value !in old(users) ==>
        r == Ok(200, "Password updated", NoBody) && unchanged(this)
      ensures userId.Some? && newPassword != "" && userId.value in old(users) && old(users)[userId.value].email == "" ==>
        r == ThrownWith("Email not found", 404) && unchanged(this)
      ensures userId.Some? && newPassword != "" && userId.value in old(users) && old(users)[userId.value].email != "" ==>
        && users == old(users)[userId.value := old(users)[userId.value].(password := hash(newPassword))]
        && Matches(newPassword, users[userId.value].password)
        && goals == old(goals) && reminders == old(reminders) && tokens == old(tokens) && nextId == old(nextId)
        && r == Ok(200, "Password updated", NoBody)
    {
      if userId.None? || newPassword == "" {
        return ThrownWith(UserNotFound, 404);
      }
      var id := userId.value;
      if id in users {
        var user := users[id];
        if user.email == "" {
          return ThrownWith("Email not found", 404);
        }
        users := users[id := user.(password := hash(newPassword))];
      }
      r := Ok(200, "Password updated", NoBody);
    }
  }
}
