/**
 * What a handler sends back: a JSON success body, an error that the central error
 * handler turns into `{message, data}` with its status code, a rendered page, or
 * nothing at all.
 */
module Responses {
  import opened Wrappers
  import opened Models
  import Utils

  /** The claims of a signed bearer token and its lifetime. */
  datatype SignedToken = SignedToken(email: string, userId: Id, expiresIn: string)

  /** The payload key of a success body. */
  datatype Body =
    | NoBody
    | GoalBody(goalId: Id, goal: Goal)
    | GoalsBody(goals: map<Id, Goal>)
    | CreatedGoal(newGoalId: Id, newGoal: Goal, authorId: Id, username: string)
    | ReminderBody(reminderId: Id, reminder: Reminder)
    | FetchedReminder(found: Option<Reminder>)
    | UserBody(userId: Id, user: User)
    | LoginBody(token: SignedToken, id: Id, name: string, address: string)

  datatype Response =
    | Ok(code: int, message: string, body: Body)
    | Err(message: string, statusCode: int, data: seq<Utils.FieldError>)
    | Page(view: string, error: string)
    | NoReply

  /** The status code of an error that did not set one. */
  const DefaultStatusCode: int := 500

  /** An error thrown without a status code, as the central error handler reports it. */
  function Thrown(message: string): (r: Response)
  {
    Err(message, DefaultStatusCode, [])
  }

  /** An error thrown with a status code and no data. */
  function ThrownWith(message: string, code: int): (r: Response)
  {
    Err(message, code, [])
  }

  /** The message of the type error raised by reading `field` of null. */
  function CannotRead(field: string): string {
    "Cannot read properties of null (reading '" + field + "')"
  }

  /** The message of the type error raised by assigning `field` of null. */
  function CannotSet(field: string): string {
    "Cannot set properties of null (setting '" + field + "')"
  }
}
