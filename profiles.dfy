/** The two profile collections of the document store, `students` and `propertyOwners`,
    each keyed by the user's uid. */
module Profiles {
  import opened Listings

  /** The placeholder written for a field the signup form does not ask for. */
  const NotSpecified := "Not specified"

  class ProfileStore {
    var students: map<string, Student>
    var owners: map<string, PropertyOwner>

    /** Every document records its own uid as its `id`. */
    ghost predicate Valid()
      reads this
    {
      && (forall uid :: uid in students ==> students[uid].id == uid)
      && (forall uid :: uid in owners ==> owners[uid].id == uid)
    }

    /** A store with no profiles, which holds the invariant trivially. */
    constructor()
      ensures students == map[] && owners == map[]
      ensures Valid()
    {
      students := map[];
      owners := map[];
    }

    /** Whether the uid has a profile in either collection. */
    predicate HasProfile(uid: string)
      reads this
    {
      uid in students || uid in owners
    }
  }
}
