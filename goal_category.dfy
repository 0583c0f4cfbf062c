/**
 * The goal category enumeration: a frozen object whose keys equal their values,
 * and `getCategory`, which maps a value back to its key.
 */
module GoalCategory {
  import opened Wrappers
  import Lookup

  type Name = string

  const PERSONAL_DEVELOPMENT: Name := "PERSONAL_DEVELOPMENT"
  const EDUCATION: Name := "EDUCATION"
  const HOBBY: Name := "HOBBY"
  const BUSINESS: Name := "BUSINESS"
  const HEALTH: Name := "HEALTH"

  /** The object's properties as (key, value) pairs, in declaration order. */
  const Entries: seq<(Name, Name)> := [
    (PERSONAL_DEVELOPMENT, PERSONAL_DEVELOPMENT),
    (EDUCATION, EDUCATION),
    (HOBBY, HOBBY),
    (BUSINESS, BUSINESS),
    (HEALTH, HEALTH)
  ]

  /** `getCategory`: the key whose value is `category`, or None (`undefined`). */
  function GetCategory(category: Name): (r: Option<Name>)
    ensures r.None? <==> category !in Lookup.ValuesOf(Entries)
  {
    Lookup.KeyOf(Lookup.KeysOf(Entries), Lookup.ValuesOf(Entries), category)
  }

  /** Every key equals its value. */
  lemma KeysEqualValues()
    ensures Lookup.KeysOf(Entries) == Lookup.ValuesOf(Entries)
    ensures Lookup.ValuesOf(Entries) == [PERSONAL_DEVELOPMENT, EDUCATION, HOBBY, BUSINESS, HEALTH]
  {
  }

  /** The five values are pairwise distinct. */
  lemma ValuesDistinct()
    ensures Lookup.Distinct(Lookup.ValuesOf(Entries))
  {
    KeysEqualValues();
  }

  /** Each declared name is returned unchanged. */
  lemma GetCategoryMember(category: Name)
    requires category in Lookup.ValuesOf(Entries)
    ensures GetCategory(category) == Some(category)
  {
    KeysEqualValues();
    Lookup.KeyOfSelf(Lookup.ValuesOf(Entries), category);
  }

  /** Looking up a defined result again gives the same result. */
  lemma GetCategoryIdempotent(category: Name)
    requires GetCategory(category).Some?
    ensures GetCategory(GetCategory(category).value) == GetCategory(category)
  {
    GetCategoryMember(category);
  }
}
