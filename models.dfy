/**
 * The three stored documents (goal, reminder, user) and the field updates the
 * handlers apply to them.
 */
module Models {
  import opened Wrappers
  import GoalStatus

  /** A document id (an ObjectId in the database). */
  type Id = nat

  /** A point in time, as milliseconds since the epoch. */
  type Time = int

  /** A reminder's time of day. */
  datatype TimeOfDay = TimeOfDay(hour: int, minute: int)

  /**
   * A goal. `status` is the stored number (a position in the status
   * enumeration); `reminder` is the link the reminder handlers write.
   */
  datatype Goal = Goal(
    title: string,
    description: string,
    category: string,
    status: int,
    startDate: Option<Time>,
    endDate: Option<Time>,
    goalType: int,
    author: Id,
    reminder: Option<Id>)

  /** A reminder: its type, an optional weekday, a time of day and the goal it belongs to. */
  datatype Reminder = Reminder(reminderType: int, weekday: Option<int>, time: TimeOfDay, goal: Id)

  /** A user: `password` holds the hash of the password; `goals` the ids of the user's goals. */
  datatype User = User(email: string, username: string, password: string, goals: seq<Id>)

  /** The array `pull` of the document mapper: every occurrence of `x` removed, order kept. */
  function Pull(ids: seq<Id>, x: Id): (r: seq<Id>)
    ensures forall y :: y in r <==> y in ids && y != x
    ensures |r| <= |ids|
    ensures x !in ids ==> r == ids
  {
    if ids == [] then []
    else if ids[0] == x then Pull(ids[1..], x)
    else [ids[0]] + Pull(ids[1..], x)
  }

  /** `pull` keeps every other id as often as it occurs, and no occurrence of `x`. */
  lemma {:induction false} PullCount(ids: seq<Id>, x: Id)
    ensures multiset(Pull(ids, x)) == multiset(ids)[x := 0]
  {
    if ids != [] {
      assert ids == [ids[0]] + ids[1..];
      PullCount(ids[1..], x);
    }
  }

  /** `pull` works piecewise: the kept ids of two lists, in their order. */
  lemma {:induction false} PullAppend(a: seq<Id>, b: seq<Id>, x: Id)
    ensures Pull(a + b, x) == Pull(a, x) + Pull(b, x)
  {
    if a == [] {
      assert a + b == b;
    } else {
      assert (a + b)[1..] == a[1..] + b;
      PullAppend(a[1..], b, x);
    }
  }

  /**
   * The fields an update request may replace: each of title, category,
   * description and type is replaced when given and kept otherwise.
   */
  function Patched(g: Goal, title: Option<string>, category: Option<string>,
                   description: Option<string>, goalType: Option<int>): (r: Goal)
    ensures r.status == g.status && r.startDate == g.startDate && r.endDate == g.endDate
    ensures r.author == g.author && r.reminder == g.reminder
    ensures r.title == (if title.Some? then title.value else g.title)
    ensures r.category == (if category.Some? then category.value else g.category)
    ensures r.description == (if description.Some? then description.value else g.description)
    ensures r.goalType == (if goalType.Some? then goalType.value else g.goalType)
  {
    g.(title := title.GetOr(g.title),
       category := category.GetOr(g.category),
       description := description.GetOr(g.description),
       goalType := goalType.GetOr(g.goalType))
  }

  /**
   * A status request: 1 stamps the start date with `now`, 4 stamps the end date,
   * the status becomes the requested number when there is one; nothing is refused.
   */
  function WithStatus(g: Goal, status: Option<int>, now: Time): (r: Goal)
    ensures r.status == (if status.Some? then status.value else g.status)
    ensures r.startDate == (if status == Some(GoalStatus.StartedCode) then Some(now) else g.startDate)
    ensures r.endDate == (if status == Some(GoalStatus.AccomplishedCode) then Some(now) else g.endDate)
    ensures r.(status := g.status, startDate := g.startDate, endDate := g.endDate) == g
  {
    var stamped :=
      if status == Some(GoalStatus.StartedCode) then g.(startDate := Some(now))
      else if status == Some(GoalStatus.AccomplishedCode) then g.(endDate := Some(now))
      else g;
    stamped.(status := status.GetOr(g.status))
  }

  /** Repeating a status request at the same time changes nothing more. */
  lemma WithStatusIdempotent(g: Goal, status: Option<int>, now: Time)
    ensures WithStatus(WithStatus(g, status, now), status, now) == WithStatus(g, status, now)
  {
  }

  /** The goals left after deleting every goal of `author`; the others keep their values. */
  function WithoutAuthor(goals: map<Id, Goal>, author: Id): (r: map<Id, Goal>)
    ensures forall id :: id in r <==> id in goals && goals[id].author != author
    ensures forall id :: id in r ==> r[id] == goals[id]
  {
    map id | id in goals && goals[id].author != author :: goals[id]
  }

  /** The goals of one author, by id. */
  function ByAuthor(goals: map<Id, Goal>, author: Id): (r: map<Id, Goal>)
    ensures forall id :: id in r <==> id in goals && goals[id].author == author
    ensures forall id :: id in r ==> r[id] == goals[id]
  {
    map id | id in goals && goals[id].author == author :: goals[id]
  }
}
