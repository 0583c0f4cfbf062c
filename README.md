# Goals app server: a Dafny model of its handlers and helpers

The goals app server is a REST backend. Users sign up and log in. They create
goals, move a goal through numbered statuses, attach reminders to goals, and
reset their password or delete their account through emailed one-time tokens.
This project models, in Dafny:

- the two frozen enumerations (goal status, goal category) and their reverse
  lookups `getStatus` / `getCategory`;
- the two formatting helpers: the validation error message and the `D-M-YYYY`
  rendering of a date;
- the request handlers of the goal, reminder and user controllers. They are
  methods of one `Store` class that holds four maps: goals, reminders, users,
  and one token hash per user.

Each handler checks its guards in the order the source does. It either stops
with the store unchanged, or applies exactly the source's writes, and it
returns the response the source sends (CreateGoal excepted; see Left out). Four invariants (`Store.Valid`) are
proved to hold after every handler:

- every id in use was handed out by the id counter;
- every stored token belongs to an existing user;
- a user's goal list names only existing goals that this user authored;
- a goal's reminder link names an existing reminder that belongs to that goal.

Foreign code becomes parameters:

- The password hash is an arbitrary function `hash` fixed when the store is
  built. Comparing a password is `hash(plain) == stored`.
- The random reset token, the current time (`now`) and the caller's id
  (which the bearer-token middleware decodes) are inputs of the handlers.
- The outcome of the request validators is the input `validationErrors`.

Responses: `Ok(code, message, body)` is a JSON success. `Err(message,
statusCode, data)` is what the central error handler sends, and an error
thrown without a code gets 500 (`Thrown`). `Page` is a rendered view.
`NoReply` is a handler that returns without sending anything. A JavaScript
type error (a property read or write on `null`) is an `Err` with V8's message
and code 500. Writes made before the throw stay.

Modules: `Wrappers` (Option), `Lookup` (indexOf and key lookup), `GoalStatus`,
`GoalCategory`, `Text` (trim, UTF-16 length, decimal printing, and a one-character split used only to read a formatted date back), `Utils`, `Models`
(documents and field updates), `Responses`, `Controllers` (the `Store` class),
`Scenarios` (properties that span several requests, and concrete call sequences).

Points where the code departs from what the domain suggests:

- The status handler stores whatever status number it is given. It has no
  pause, abort or event logic, and it refuses no status value or transition.
- Status is a number: the position of the name in the status enumeration.
  NOT_STARTED is 0, STARTED 1 and ACCOMPLISHED 4 (`GoalStatus.CodeOrder`).
  `createGoal` writes the name NOT_STARTED into that numeric field. The model
  stores 0, the schema default, which is what the code evidently means.

## Model

| member | source | states |
|---|---|---|
| Lookup.IndexOf | enums/goalStatus.js:11 | -1 exactly when the element is absent; otherwise the position of its first occurrence |
| Lookup.KeyOf | enums/goalStatus.js:11-12 | undefined (None) exactly for a non-member; otherwise the key at the first position holding the looked-up value |
| Lookup.KeysOf | enums/goalStatus.js:12 | Object.keys: one key per declared property, in declaration order |
| Lookup.ValuesOf | enums/goalStatus.js:11 | Object.values: one value per declared property, in declaration order |
| Lookup.IndexOfDistinct | enums/goalStatus.js:11 | in a list without repetitions, the index found for the element at k is k |
| Lookup.KeyOfSelf | enums/goalStatus.js:10-15 | when keys equal values, a member is returned unchanged |
| GoalStatus.GetStatus | enums/goalStatus.js:10-15 | undefined exactly for names outside the six values |
| GoalStatus.Code | enums/goalStatus.js:11 | the stored number lies in -1..5 and is -1 exactly for non-members |
| GoalStatus.KeysEqualValues | enums/goalStatus.js:1-8 | every key equals its value, the six names in declaration order |
| GoalStatus.ValuesDistinct | enums/goalStatus.js:1-8 | the six values are pairwise distinct |
| GoalStatus.GetStatusMember | enums/goalStatus.js:1-15 | each declared name is returned unchanged |
| GoalStatus.GetStatusIdempotent | enums/goalStatus.js:10-15 | looking up a defined result again gives the same result |
| GoalStatus.CodeOrder | enums/goalStatus.js:1-8 | NOT_STARTED=0, STARTED=1, IN_PROGRESS=2, PAUSED=3, ACCOMPLISHED=4, ABORTED=5; 0, 1 and 4 are the numbers the goal handlers write and test |
| GoalCategory.GetCategory | enums/goalCategory.js:9-14 | undefined exactly for names outside the five values |
| GoalCategory.KeysEqualValues | enums/goalCategory.js:1-7 | every key equals its value, the five names in declaration order |
| GoalCategory.ValuesDistinct | enums/goalCategory.js:1-7 | the five values are pairwise distinct |
| GoalCategory.GetCategoryMember | enums/goalCategory.js:1-14 | each declared name is returned unchanged |
| GoalCategory.GetCategoryIdempotent | enums/goalCategory.js:9-14 | looking up a defined result again gives the same result |
| Utils.Piece | utils.js:41 | each error contributes a piece ending in ". " |
| Utils.PiecesAppend | utils.js:40-42 | one more error at the end adds exactly its piece at the end of the message |
| Utils.PiecesEnd | utils.js:40-42 | the message of a non-empty list ends with ". " |
| Utils.GenerateFieldValidationErrorMessage | utils.js:36-47 | empty list gives "Error occured!Check your input"; otherwise the in-order concatenation of "msg in path. ", which ends with ". " and never equals the fallback |
| Utils.FormattedDay | utils.js:49-57 | null exactly for a missing date |
| Utils.FormattedDayParts | utils.js:51-53 | for a date with no negative number, the text splits on "-" into day, month+1 and year, printed in decimal |
| Utils.FormattedDayRoundTrip | utils.js:51-53 | for a date with no negative number, reading the text back gives the same day, month (from 0) and year: the rendering is unambiguous |
| Utils.FormattedDayUnpadded | utils.js:51-53 | no number is zero-padded; a month in 0..11 prints as 1..12 in one or two digits; a day below 10 prints as one digit |
| Text.NatToDecimal | utils.js:51-53 | decimal digits, a leading 0 only for zero, one digit below 10, at most two below 100 |
| Text.IntToDecimal | utils.js:51-53 | a non-negative number prints as its decimal digits, a negative one as a minus sign followed by the digits of its magnitude |
| Text.DecimalRoundTrip | utils.js:51-53 | reading back the printed digits of n gives n |
| Text.Utf16Length | controllers/user.js:23 | `length` counts UTF-16 code units: between one and two per character |
| Text.Utf16LengthBasic | controllers/user.js:23 | the length equals the number of characters exactly when all lie in the Basic Multilingual Plane |
| Text.Utf16LengthAppend | controllers/user.js:23 | the length of a concatenation is the sum of the lengths |
| Text.Utf16LengthAstral | controllers/user.js:23 | a key emoji followed by four letters has length 6 though it is five characters |
| Text.Trim | controllers/user.js:23 | the result is no longer than the input and neither starts nor ends with white space |
| Text.TrimIsInfix | controllers/user.js:23 | trim keeps one contiguous piece of the input and drops only white space |
| Text.TrimIdempotent | controllers/user.js:26 | trimming the trimmed password again changes nothing |
| Text.TrimUnchanged | controllers/user.js:23 | a string with no white space at either end is its own trim |
| Models.Pull | controllers/goal.js:146 | removes every occurrence of the id and keeps every other id |
| Models.PullCount | controllers/goal.js:146 | every other id is kept as often as it occurs, and the pulled id not at all |
| Models.PullAppend | controllers/goal.js:146 | pulling from a concatenation is concatenating the pulled parts, so the order of the kept ids is preserved |
| Models.Patched | controllers/goal.js:110-113 | title, category, description and type are replaced when given and kept otherwise; status, dates, author and reminder keep their values |
| Models.WithStatus | controllers/goal.js:183-188 | status 1 sets the start date to now, status 4 the end date, other values touch neither; the status becomes the given value or stays; nothing else changes |
| Models.WithStatusIdempotent | controllers/goal.js:183-188 | repeating a status request at the same time changes nothing more |
| Models.WithoutAuthor | controllers/user.js:270 | exactly the goals of other authors remain, with their values |
| Models.ByAuthor | controllers/goal.js:34 | exactly the goals of the given author, with their values |
| Controllers.Store.FindUserByEmail | controllers/user.js:58 | some user has the email exactly when a result is found; the result has the email and is the earliest such user |
| Controllers.Store.FirstWithEmail | controllers/user.js:58 | the first user at or after an id with the email, or none from there on |
| Controllers.Store.GetGoal | controllers/goal.js:6-30 | missing id gives 404 "Goal not found", another author's goal 404 "Not authorized"; success exactly for the author, with the stored goal |
| Controllers.Store.GetGoals | controllers/goal.js:32-42 | returns exactly the caller's goals, with their stored values |
| Controllers.Store.CreateGoal | controllers/goal.js:44-85 | validation failure gives 422 and no change; otherwise a goal with a fresh id, status NOT_STARTED (0), no dates and the caller as author, whose id is appended to the caller's goal list; no response when the caller has no user document |
| Controllers.Store.UpdateGoal | controllers/goal.js:87-126 | 422, then 404 not found, then 404 not authorized, each with no change; otherwise only that goal changes, by Patched |
| Controllers.Store.DeleteGoal | controllers/goal.js:128-157 | 404 not found or not authorized, with no change; otherwise the goal is removed and its id pulled from the caller's list; other goals untouched |
| Controllers.Store.UpdateStatusGoal | controllers/goal.js:159-201 | 422, then 404 not found, then 404 not authorized, each with no change; otherwise the goal changes by WithStatus and success is always reported |
| Controllers.Store.GetReminder | controllers/reminder.js:5-26 | success exactly when an id is given, with the stored reminder or null when none is stored |
| Controllers.Store.GetReminderIntended | controllers/reminder.js:9-14 | success exactly when the reminder is stored; 404 otherwise |
| Controllers.Store.CreateReminder | controllers/reminder.js:28-64 | stores the reminder with the given type, weekday, time and goal; links the goal to it when the goal exists; otherwise no goal changes and no response |
| Controllers.Store.UpdateReminder | controllers/reminder.js:65-99 | missing id gives 404 "Reminder not found" and no change; otherwise type, weekday and time are overwritten and the goal link kept |
| Controllers.Store.DeleteReminder | controllers/reminder.js:100-125 | a missing id fails with 500 (type error) and no change; otherwise RemovedReminder |
| Controllers.Store.DeleteReminderIntended | controllers/reminder.js:103-109 | a missing id gives 404 "Reminder not found" with no change; otherwise RemovedReminder |
| Controllers.Store.RemoveReminder | controllers/reminder.js:111-115 | the reminder is removed and its goal's link set to null; with no such goal, 500 after the removal |
| Controllers.Store.CreateUser | controllers/user.js:12-52 | 422 with the validation data, or 500 for a trimmed password shorter than 6 UTF-16 code units, each storing nothing; otherwise a new user with the hash of the trimmed password and no goals |
| Controllers.Store.Login | controllers/user.js:54-96 | unknown email gives 404 "User not found", a wrong password 404 "Password is not correct"; success exactly when the password matches, with a token for that user valid 10 days |
| Controllers.Store.IssueToken | controllers/user.js:108-117 | the user's slot afterwards holds exactly the new hash; other slots unchanged |
| Controllers.Store.ResetPasswordRequest | controllers/user.js:98-141 | unknown email gives 404 and no change; otherwise only the user's token slot changes, to the hash of the new token |
| Controllers.Store.ResetPassword | controllers/user.js:150-193 | different passwords render the error page; no user id reports success with no change; a missing or non-matching token gives 500 with no change; otherwise the password hash is set and the token consumed |
| Controllers.Store.DeleteAccountRequest | controllers/user.js:194-239 | unknown email gives 404 and no change; otherwise only the user's token slot changes, to the hash of the new token |
| Controllers.Store.DeleteUserAccount | controllers/user.js:248-296 | missing id or email, unknown user, or missing/non-matching token give 500 with no change; a matching token is consumed first; then a wrong password gives 404, and a right one deletes the user and every goal the user authored |
| Controllers.Store.UpdateUsername | controllers/user.js:297-330 | 422, or 404 for a missing or unknown user id, each with no change; otherwise only that user's name changes |
| Controllers.Store.UpdatePassword | controllers/user.js:332-372 | 404 without id or new password, 404 for a user without email; success otherwise, even for an unknown user; the store never changes |
| Controllers.Store.UpdatePasswordIntended | controllers/user.js:342-345 | the new password's hash is stored, so the new password matches afterwards |
| Scenarios.ResetTokenSingleUse | controllers/user.js:159-183 | a reset succeeds exactly when the token matches, and a second use of the same token then fails with "Invalid or expired password reset token" |
| Scenarios.RequestsShareOneSlot | controllers/user.js:108-213 | when the two token hashes differ, a delete request overwrites the token of an earlier reset request, which can then no longer reset the password |
| Scenarios.DeletionCascades | controllers/user.js:257-270 | after a successful deletion the user is gone, listing that user's goals gives none, and every other author's goal remains |
| Scenarios.StartThenAccomplish | controllers/goal.js:54-188 | a new goal starts with status 0 and no start date; status 1 then 4 leave status 4 with both dates stamped by their requests |
| Scenarios.MissingReminderFetched | controllers/reminder.js:9-14 | as written, an id that is not stored is fetched with a null reminder; the intended handler gives 404 |
| Scenarios.MissingReminderDeleted | controllers/reminder.js:103-109 | as written, deleting an id that is not stored gives 500; the intended handler gives 404 |
| Scenarios.PasswordUpdateIgnored | controllers/user.js:342-345 | as written, after a reported password update the old password still logs in and the new one does not |
| Scenarios.PasswordUpdateApplied | controllers/user.js:342-345 | with the intended update, the new password logs in and the old one does not |

## Findings

| source | as written | input that shows it | evidently intended | confidence | as-written member | corrected member |
|---|---|---|---|---|---|---|
| controllers/reminder.js:103-109 | `reminder.goal` is read before the null check, so the 404 branch is dead | DELETE of a reminder id that is not stored: type error, 500 | 404 "Reminder not found" | not executed; high | Controllers.Store.DeleteReminder, Scenarios.MissingReminderDeleted | Controllers.Store.DeleteReminderIntended |
| controllers/reminder.js:9-14 | the guard tests the route parameter, not the fetched reminder | GET of a reminder id that is not stored: 200 with reminder null | 404 "Schedule not found" | not executed; high | Controllers.Store.GetReminder, Scenarios.MissingReminderFetched | Controllers.Store.GetReminderIntended |
| controllers/user.js:342-345 | the update sets `newPassword`, a path the user schema does not declare, so the strict schema drops it | update the password, then log in with the new one: 404 "Password is not correct" | set `password` to the new hash | not executed; medium (relies on the mapper's default strict mode) | Controllers.Store.UpdatePassword, Scenarios.PasswordUpdateIgnored | Controllers.Store.UpdatePasswordIntended, Scenarios.PasswordUpdateApplied |

## Left out

- Email sending (`sendEmail`, utils.js:5-34) is I/O and is not modelled. Every send is taken to succeed. A failing send would turn a success into a 500 after the writes were made.
- The password hash is one fixed function: bcrypt's salt and cost factor are not modelled.
- The random reset token is a parameter. The signed bearer token is its claims (`SignedToken`), without the signature.
- Controllers.Store.Login: the success body has no message key; the model writes the empty message.
- The middleware that decodes the bearer token is not modelled; its user id is the `caller` parameter.
- The validators and sanitizers of the routes are not modelled. Their outcome is `validationErrors`, and body values are taken as the handler reads them.
- Schema validation and casting at save time and in lookups are not modelled: required fields, defaults, casting of ids and numbers. A malformed id makes `findById` or `findOne` fail with a cast error (500) before any save; ids are natural numbers here, so that input cannot be written.
- Controllers.Store.CreateGoal: as written, the handler always fails with 500. The goal schema (models/goal.js:18-23) declares `status` a Number, and the name NOT_STARTED cannot be cast to one. It also requires `startDate`, and the handler sets it to null. The model steps around this mismatch: it stores status 0 and no dates, which is what the handler evidently means.
- Controllers.Store.GetGoals: the goals come back as a map from id to goal. The order of the array the database returns is not modelled.
- The goal schema has no `reminder` field, so the links the reminder handlers set and clear may not persist. The model keeps the controller's intent.
- Documents are stored without their timestamps, and the user's `push_token` and `deleted` fields are left out. No handler reads or writes them.
- A lookup by email returns the earliest user with that email. The database's natural order is assumed to be insertion order.
- `changePassword` and `deleteAccount` only render a view and are left out.
- Requests run one at a time and each is atomic, apart from writes kept before a throw. Interleaving, partial failure of the database and concurrency are left out.
- Strings are sequences of Unicode characters, so JavaScript strings holding an unpaired surrogate are not modelled. The one length the source compares, at user.js:23, is counted in UTF-16 code units, as JavaScript counts it.
- Absent body fields are `None` for ids and optional fields, and the empty string for strings whose truthiness is tested (email, new password). Other falsy values are not modelled.
- The status, username and password handlers have no route in the route files. They are modelled as handlers anyway.
- Reminders of a deleted goal or a deleted user stay stored. This is the source's behaviour.
- Utils.FormattedDayParts, Utils.FormattedDayRoundTrip: stated only for dates with no negative number (`Unsigned`); a negative year prints with a minus sign that the reader does not parse. Utils.FormattedDay: JavaScript's invalid dates, which print as NaN, are not modelled. The round trip is proved for unsigned dates only.
