/** The profile completion page (`src/app/profile/edit/page.tsx`): the role is found by
    probing the student collection and then the owner collection, and the form for that role
    updates a single field of the user's document. */
module ProfileEdit {
  import opened Options
  import opened Text
  import opened Listings
  import opened Profiles
  import Signup

  datatype Role = Loading | StudentRole | OwnerRole | Unknown

  /** `studentProfileSchema`: a non-empty college name. */
  predicate StudentSchemaValid(collegeName: string)
  {
    |collegeName| >= 1
  }

  /** `ownerProfileSchema`: `/^\d{10}$/`, exactly ten decimal digits. */
  predicate OwnerSchemaValid(contactNumber: string)
  {
    IsTenDigitPhone(contactNumber)
  }

  /** The placeholder the signup form writes fails the owner schema, so an owner who signed
      up by e-mail must enter a real number here. */
  lemma PlaceholderIsNotAPhone()
    ensures !OwnerSchemaValid(NotSpecified)
    ensures StudentSchemaValid(NotSpecified)
  {
    assert |NotSpecified| == 13;
  }

  /** The role the page settles on once the probes are done: a student profile wins even
      when an owner profile exists too. */
  function ClassifyRole(students: map<string, Student>, owners: map<string, PropertyOwner>, uid: string): (r: Role)
    ensures r != Loading
    ensures r == StudentRole <==> uid in students
    ensures r == OwnerRole <==> uid !in students && uid in owners
    ensures r == Unknown <==> uid !in students && uid !in owners
  {
    if uid in students then StudentRole
    else if uid in owners then OwnerRole
    else Unknown
  }

  /** The places the page's role-specific controls can send the user to: the role-selection
      button for an unknown role, the dashboard after saving the student or owner form,
      nothing while loading. `GoToRoleSelection`, `StudentSubmit` and `OwnerSubmit` only
      navigate within this set. */
  function Routes(role: Role): (r: set<string>)
    ensures r <= {"/onboarding", "/dashboard"}
    ensures "/onboarding" in r <==> role == Unknown
    ensures "/dashboard" in r <==> role == StudentRole || role == OwnerRole
  {
    match role
    case Loading => {}
    case Unknown => {"/onboarding"}
    case _ => {"/dashboard"}
  }

  class EditProfilePage {
    var role: Role
    /** The student form's `collegeName` and the owner form's `contactNumber`. */
    var collegeName: string
    var contactNumber: string
    /** The last navigation the page asked the router for. */
    var route: Option<string>

    constructor()
      ensures role == Loading && collegeName == "" && contactNumber == "" && route == None
    {
      role := Loading;
      collegeName := "";
      contactNumber := "";
      route := None;
    }

    /** `fetchUserRole`: probe `students/uid`, then `propertyOwners/uid`, and copy the found
        profile's editable field into its form. */
    method FetchUserRole(store: ProfileStore, uid: string)
      modifies this
      ensures role == ClassifyRole(store.students, store.owners, uid)
      ensures role == StudentRole ==> collegeName == store.students[uid].collegeName && contactNumber == old(contactNumber)
      ensures role == OwnerRole ==> contactNumber == store.owners[uid].contactNumber && collegeName == old(collegeName)
      ensures role == Unknown ==> collegeName == old(collegeName) && contactNumber == old(contactNumber)
      ensures route == old(route)
    {
      if uid in store.students {
        role := StudentRole;
        collegeName := store.students[uid].collegeName;
        return;
      }
      if uid in store.owners {
        role := OwnerRole;
        contactNumber := store.owners[uid].contactNumber;
        return;
      }
      role := Unknown;
    }

    /** The page's effect: nothing while the user is loading or the store is missing; with no
        signed-in user a redirect to the login page, the role staying `Loading`; otherwise
        the role probe. */
    method Load(store: ProfileStore, user: Option<string>, isUserLoading: bool, storeAvailable: bool)
      modifies this
      ensures isUserLoading || !storeAvailable ==>
        role == old(role) && route == old(route) && collegeName == old(collegeName) && contactNumber == old(contactNumber)
      ensures !isUserLoading && storeAvailable && user.None? ==>
        role == old(role) && route == Some("/login") && collegeName == old(collegeName) && contactNumber == old(contactNumber)
      ensures !isUserLoading && storeAvailable && user.Some? ==>
        role == ClassifyRole(store.students, store.owners, user.value) && route == old(route)
    ensures !isUserLoading && storeAvailable && user.Some? && role == StudentRole ==>
      collegeName == store.students[user.value].collegeName
    ensures !isUserLoading && storeAvailable && user.Some? && role == OwnerRole ==>
      contactNumber == store.owners[user.value].contactNumber
    {
      if isUserLoading || !storeAvailable {
        return;
      }
      if user.None? {
        route := Some("/login");
        return;
      }
      FetchUserRole(store, user.value);
    }

    /** The "Go to Role Selection" button, rendered only for an unknown role. */
    method GoToRoleSelection()
      requires role == Unknown
      modifies this
      ensures route == Some("/onboarding")
      ensures route != old(route) ==> route.value in Routes(role)
      ensures role == old(role) && collegeName == old(collegeName) && contactNumber == old(contactNumber)
    {
      route := Some("/onboarding");
    }

    /** Typing into the student form's college name field, rendered only for a student. */
    method EditCollegeName(value: string)
      requires role == StudentRole
      modifies this
      ensures collegeName == value
      ensures role == old(role) && contactNumber == old(contactNumber) && route == old(route)
    {
      collegeName := value;
    }

    /** Typing into the owner form's contact number field, rendered only for an owner. */
    method EditContactNumber(value: string)
      requires role == OwnerRole
      modifies this
      ensures contactNumber == value
      ensures role == old(role) && collegeName == old(collegeName) && route == old(route)
    {
      contactNumber := value;
    }

    /** Submitting the student form, rendered only for a student, with the form's own
        `collegeName`: a value failing the schema is refused; with a user and a store,
        `updateDoc` sets only `collegeName` of `students/uid`, and fails (no write, no
        navigation) when that document does not exist or the write is rejected. */
    method StudentSubmit(store: ProfileStore, user: Option<string>, storeAvailable: bool, writeSucceeds: bool)
      returns (updated: bool)
      requires role == StudentRole
      modifies this, store
      ensures updated <==> StudentSchemaValid(collegeName) && user.Some? && storeAvailable && writeSucceeds && user.value in old(store.students)
      ensures updated ==> store.students == old(store.students)[user.value := old(store.students)[user.value].(collegeName := collegeName)]
      ensures !updated ==> store.students == old(store.students)
      ensures store.owners == old(store.owners)
      ensures route == if updated then Some("/dashboard") else old(route)
      ensures route != old(route) ==> route.value in Routes(role)
      ensures role == old(role) && collegeName == old(collegeName) && contactNumber == old(contactNumber)
      ensures old(store.Valid()) ==> store.Valid()
    {
      updated := false;
      if !StudentSchemaValid(collegeName) || user.None? || !storeAvailable {
        return;
      }
      var uid := user.value;
      if uid !in store.students || !writeSucceeds {
        return;
      }
      store.students := store.students[uid := store.students[uid].(collegeName := collegeName)];
      route := Some("/dashboard");
      updated := true;
    }

    /** Submitting the owner form, rendered only for an owner: the same, with the form's
        `contactNumber`, for `propertyOwners/uid`. */
    method OwnerSubmit(store: ProfileStore, user: Option<string>, storeAvailable: bool, writeSucceeds: bool)
      returns (updated: bool)
      requires role == OwnerRole
      modifies this, store
      ensures updated <==> OwnerSchemaValid(contactNumber) && user.Some? && storeAvailable && writeSucceeds && user.value in old(store.owners)
      ensures updated ==> store.owners == old(store.owners)[user.value := old(store.owners)[user.value].(contactNumber := contactNumber)]
      ensures !updated ==> store.owners == old(store.owners)
      ensures store.students == old(store.students)
      ensures route == if updated then Some("/dashboard") else old(route)
      ensures route != old(route) ==> route.value in Routes(role)
      ensures role == old(role) && collegeName == old(collegeName) && contactNumber == old(contactNumber)
      ensures old(store.Valid()) ==> store.Valid()
    {
      updated := false;
      if !OwnerSchemaValid(contactNumber) || user.None? || !storeAvailable {
        return;
      }
      var uid := user.value;
      if uid !in store.owners || !writeSucceeds {
        return;
      }
      store.owners := store.owners[uid := store.owners[uid].(contactNumber := contactNumber)];
      route := Some("/dashboard");
      updated := true;
    }
  }

  /** A signed-in user with both profiles is treated as a student: loading the page shows the
      student form filled with the stored college name. */
  method LoadBothProfiles(uid: string, s: Student, o: PropertyOwner) returns (role: Role, shown: string)
    ensures role == StudentRole && shown == s.collegeName
  {
    var store := new ProfileStore();
    store.students, store.owners := map[uid := s], map[uid := o];
    var page := new EditProfilePage();
    page.Load(store, Some(uid), false, true);
    role, shown := page.role, page.collegeName;
  }

  /** An owner who signs up by e-mail and then opens this page is classified as an owner,
      and the form shows the placeholder, which the owner schema refuses. Typing `number`
      and saving stores it and goes to the dashboard exactly when it is ten digits;
      otherwise the placeholder stays and the page stays. */
  method OwnerSignupThenEdit(v: Signup.SignupInput, uid: string, number: string)
    returns (role: Role, shown: string, updated: bool, stored: string, route: Option<string>)
    requires Signup.SignupValid(v, true) && v.role == "owner"
    ensures role == OwnerRole && shown == NotSpecified && !OwnerSchemaValid(shown)
    ensures updated <==> OwnerSchemaValid(number)
    ensures stored == if updated then number else NotSpecified
    ensures route == if updated then Some("/dashboard") else None
  {
    var store := new ProfileStore();
    var signupRoute := Signup.EmailSignup(store, v, true, true, Some(uid), true);
    var page := new EditProfilePage();
    page.Load(store, Some(uid), false, true);
    role, shown := page.role, page.contactNumber;
    PlaceholderIsNotAPhone();
    page.EditContactNumber(number);
    updated := page.OwnerSubmit(store, Some(uid), true, true);
    stored, route := store.owners[uid].contactNumber, page.route;
  }
}
