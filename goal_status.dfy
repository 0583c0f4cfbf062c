/**
 * The goal status enumeration: a frozen object whose keys equal their values,
 * and `getStatus`, which maps a value back to its key.
 * The declaration order gives each status the number the goal document stores.
 */
module GoalStatus {
  import opened Wrappers
  import Lookup

  type Name = string

  const NOT_STARTED: Name := "NOT_STARTED"
  const STARTED: Name := "STARTED"
  const IN_PROGRESS: Name := "IN_PROGRESS"
  const PAUSED: Name := "PAUSED"
  const ACCOMPLISHED: Name := "ACCOMPLISHED"
  const ABORTED: Name := "ABORTED"

  /** The numbers the goal handlers write and test for three of the statuses. */
  const NotStartedCode: int := 0
  const StartedCode: int := 1
  const AccomplishedCode: int := 4

  /** The object's properties as (key, value) pairs, in declaration order. */
  const Entries: seq<(Name, Name)> := [
    (NOT_STARTED, NOT_STARTED),
    (STARTED, STARTED),
    (IN_PROGRESS, IN_PROGRESS),
    (PAUSED, PAUSED),
    (ACCOMPLISHED, ACCOMPLISHED),
    (ABORTED, ABORTED)
  ]

  /** `getStatus`: the key whose value is `status`, or None (`undefined`). */
  function GetStatus(status: Name): (r: Option<Name>)
    ensures r.None? <==> status !in Lookup.ValuesOf(Entries)
  {
    Lookup.KeyOf(Lookup.KeysOf(Entries), Lookup.ValuesOf(Entries), status)
  }

  /** The number a goal document stores for a status: its position in the declaration. */
  function Code(status: Name): (c: int)
    ensures -1 <= c < |Entries|
    ensures c == -1 <==> status !in Lookup.ValuesOf(Entries)
  {
    Lookup.IndexOf(Lookup.ValuesOf(Entries), status)
  }

  /** Every key equals its value. */
  lemma KeysEqualValues()
    ensures Lookup.KeysOf(Entries) == Lookup.ValuesOf(Entries)
    ensures Lookup.ValuesOf(Entries) == [NOT_STARTED, STARTED, IN_PROGRESS, PAUSED, ACCOMPLISHED, ABORTED]
  {
  }

  /** The six values are pairwise distinct. */
  lemma ValuesDistinct()
    ensures Lookup.Distinct(Lookup.ValuesOf(Entries))
  {
    KeysEqualValues();
  }

  /** Each declared name is returned unchanged. */
  lemma GetStatusMember(status: Name)
    requires status in Lookup.ValuesOf(Entries)
    ensures GetStatus(status) == Some(status)
  {
    KeysEqualValues();
    Lookup.KeyOfSelf(Lookup.ValuesOf(Entries), status);
  }

  /** Looking up a defined result again gives the same result. */
  lemma GetStatusIdempotent(status: Name)
    requires GetStatus(status).Some?
    ensures GetStatus(GetStatus(status).value) == GetStatus(status)
  {
    GetStatusMember(status);
  }

  /** The numbering by declaration order. */
  lemma CodeOrder()
    ensures Code(NOT_STARTED) == NotStartedCode && Code(STARTED) == StartedCode
    ensures Code(ACCOMPLISHED) == AccomplishedCode
    ensures Code(NOT_STARTED) == 0 && Code(STARTED) == 1 && Code(IN_PROGRESS) == 2
    ensures Code(PAUSED) == 3 && Code(ACCOMPLISHED) == 4 && Code(ABORTED) == 5
  {
    KeysEqualValues();
    ValuesDistinct();
    var vs := Lookup.ValuesOf(Entries);
    Lookup.IndexOfDistinct(vs, 0);
    Lookup.IndexOfDistinct(vs, 1);
    Lookup.IndexOfDistinct(vs, 2);
    Lookup.IndexOfDistinct(vs, 3);
    Lookup.IndexOfDistinct(vs, 4);
    Lookup.IndexOfDistinct(vs, 5);
  }
}
