/** The sign-up form (`src/components/auth/signup-form.tsx`): its schema, the e-mail sign-up
    that writes one profile document for the chosen role, and the Google sign-up that creates
    a profile only for a user who has none. The authentication service and the store's
    failures are parameters: a uid (or `None` when the call throws) and whether the
    write goes through. */
module Signup {
  import opened Options
  import opened Listings
  import opened Profiles

  datatype SignupInput = SignupInput(name: string, email: string, password: string, role: string)

  /** The form's default values. */
  function DefaultInput(): (v: SignupInput)
    ensures v.role == "student" && v.name == "" && v.password == ""
  {
    SignupInput("", "", "", "student")
  }

  /** `signupSchema`: a name, a well-formed e-mail address (`emailValid`, decided by the
      schema library), a password of at least 8 characters and a role of student or owner. */
  predicate SignupValid(v: SignupInput, emailValid: bool)
  {
    |v.name| >= 1 && emailValid && |v.password| >= 8 && (v.role == "student" || v.role == "owner")
  }

  /** The defaults never pass: the name and the password are empty. */
  lemma DefaultsInvalid(emailValid: bool)
    ensures !SignupValid(DefaultInput(), emailValid)
  {
  }

  /** The name stored for a Google user: `user.displayName || 'New User'`. */
  function GoogleName(displayName: Option<string>): (n: string)
    ensures n != ""
    ensures displayName.Some? && displayName.value != "" ==> n == displayName.value
    ensures displayName.None? || displayName.value == "" ==> n == "New User"
  {
    if displayName.Some? && displayName.value != "" then displayName.value else "New User"
  }

  /** `onSubmit`, behind the schema check of `form.handleSubmit`. The uid is the result of
      creating the account (`None` when that throws). On success exactly one document is
      written, `students/uid` for a student and `propertyOwners/uid` otherwise, and the user
      is sent to the dashboard; any failure writes nothing and stays on the page. */
  method EmailSignup(store: ProfileStore, v: SignupInput, emailValid: bool, storeAvailable: bool,
                     createdUid: Option<string>, writeSucceeds: bool)
    returns (route: Option<string>)
    modifies store
    ensures route.Some? <==> SignupValid(v, emailValid) && storeAvailable && createdUid.Some? && writeSucceeds
    ensures route.Some? ==> route.value == "/dashboard"
    ensures route.Some? && v.role == "student" ==>
      store.students == old(store.students)[createdUid.value := Student(createdUid.value, v.name, v.email, NotSpecified)]
      && store.owners == old(store.owners)
    ensures route.Some? && v.role != "student" ==>
      store.owners == old(store.owners)[createdUid.value := PropertyOwner(createdUid.value, v.name, v.email, NotSpecified)]
      && store.students == old(store.students)
    ensures route.None? ==> store.students == old(store.students) && store.owners == old(store.owners)
    ensures old(store.Valid()) ==> store.Valid()
  {
    if !SignupValid(v, emailValid) || !storeAvailable || createdUid.None? || !writeSucceeds {
      return None;
    }
    var uid := createdUid.value;
    if v.role == "student" {
      store.students := store.students[uid := Student(uid, v.name, v.email, NotSpecified)];
    } else {
      store.owners := store.owners[uid := PropertyOwner(uid, v.name, v.email, NotSpecified)];
    }
    route := Some("/dashboard");
  }

  /** The account returned by the Google pop-up. */
  datatype GoogleUser = GoogleUser(uid: string, displayName: Option<string>, email: string)

  /** `handleGoogleSignUp`. `popup` is the signed-in account (`None` when the pop-up throws),
      `readSucceeds` whether both profile reads go through, and `formRole` the role currently
      selected on the form, which is not validated. A user with a profile in either collection
      is only signed in; a new user gets one document in the collection the role picks. Any
      failure writes nothing and stays on the page. */
  method GoogleSignup(store: ProfileStore, formRole: string, storeAvailable: bool,
                      popup: Option<GoogleUser>, readSucceeds: bool, writeSucceeds: bool)
    returns (route: Option<string>)
    modifies store
    ensures route.Some? <==>
      storeAvailable && popup.Some? && readSucceeds && (old(store.HasProfile(popup.value.uid)) || writeSucceeds)
    ensures route.Some? ==> route.value == "/dashboard"
    ensures popup.Some? && old(store.HasProfile(popup.value.uid)) ==>
      store.students == old(store.students) && store.owners == old(store.owners)
    ensures route.Some? && !old(store.HasProfile(popup.value.uid)) && formRole == "student" ==>
      var u := popup.value;
      store.students == old(store.students)[u.uid := Student(u.uid, GoogleName(u.displayName), u.email, NotSpecified)]
      && store.owners == old(store.owners)
    ensures route.Some? && !old(store.HasProfile(popup.value.uid)) && formRole != "student" ==>
      var u := popup.value;
      store.owners == old(store.owners)[u.uid := PropertyOwner(u.uid, GoogleName(u.displayName), u.email, NotSpecified)]
      && store.students == old(store.students)
    ensures route.None? ==> store.students == old(store.students) && store.owners == old(store.owners)
    ensures route.Some? ==> store.HasProfile(popup.value.uid)
    ensures old(store.Valid()) ==> store.Valid()
  {
    if !storeAvailable || popup.None? {
      return None;
    }
    if !readSucceeds {
      return None;
    }
    var user := popup.value;
    var studentExists := user.uid in store.students;
    var ownerExists := user.uid in store.owners;
    if studentExists || ownerExists {
      return Some("/dashboard");
    }
    if !writeSucceeds {
      return None;
    }
    var name := GoogleName(user.displayName);
    if formRole == "student" {
      store.students := store.students[user.uid := Student(user.uid, name, user.email, NotSpecified)];
    } else {
      store.owners := store.owners[user.uid := PropertyOwner(user.uid, name, user.email, NotSpecified)];
    }
    route := Some("/dashboard");
  }

  /** Signing up with Google twice, with every call to the services going through, leaves
      the store exactly as one sign-up leaves it: the second call only signs the user in,
      whatever role the form shows by then and whether or not a write would succeed. */
  method GoogleSignupTwice(store: ProfileStore, firstRole: string, secondRole: string, user: GoogleUser,
                           secondWriteSucceeds: bool)
    returns (first: Option<string>, second: Option<string>)
    modifies store
    ensures first == Some("/dashboard") && second == Some("/dashboard")
    ensures old(store.HasProfile(user.uid)) ==>
      store.students == old(store.students) && store.owners == old(store.owners)
    ensures !old(store.HasProfile(user.uid)) && firstRole == "student" ==>
      store.students == old(store.students)[user.uid := Student(user.uid, GoogleName(user.displayName), user.email, NotSpecified)]
      && store.owners == old(store.owners)
    ensures !old(store.HasProfile(user.uid)) && firstRole != "student" ==>
      store.owners == old(store.owners)[user.uid := PropertyOwner(user.uid, GoogleName(user.displayName), user.email, NotSpecified)]
      && store.students == old(store.students)
  {
    first := GoogleSignup(store, firstRole, true, Some(user), true, true);
    second := GoogleSignup(store, secondRole, true, Some(user), true, secondWriteSucceeds);
  }
}
