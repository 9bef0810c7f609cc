/** The sign-in state machine of `AuthViewModel`. The identity provider and
    the profile read are outside the model: each of their answers is a
    parameter of the method that continues after it, so a method here is
    one synchronous stretch of the original's code. */
module Auth {
  import opened Kotlin
  import opened Data

  datatype AuthState = Idle | Loading | Authenticated | Error(message: string)

  /** What is handed to the identity provider for a sign-in or sign-up. */
  datatype Credentials = Credentials(email: string, password: string)

  /** How the provider's account creation came back: the new account's uid
      (which may be null), or an exception with a (nullable) message. */
  datatype SignUpOutcome = AccountCreated(uid: Option<string>) | SignUpThrew(message: Option<string>)

  const EmailDomain: string := "@nmims.campusconnect"

  /** The provider account behind a campus id: `"$specializedId@nmims.campusconnect"`. */
  function AuthEmail(specializedId: string): (email: string)
    ensures |email| == |specializedId| + |EmailDomain|
    ensures email[..|specializedId|] == specializedId
    ensures email[|specializedId|..] == EmailDomain
  {
    specializedId + EmailDomain
  }

  /** Different campus ids never share a provider account. */
  lemma AuthEmailInjective(a: string, b: string)
    requires AuthEmail(a) == AuthEmail(b)
    ensures a == b
  {
    assert |a| == |b|;
    assert a == AuthEmail(a)[..|a|];
  }

  /** A string template's rendering of a nullable message: null prints "null". */
  function Rendered(message: Option<string>): string {
    if message.Some? then message.value else "null"
  }

  /** The elvis operator `message ?: fallback`. */
  function OrElse(message: Option<string>, fallback: string): string {
    if message.Some? then message.value else fallback
  }

  /** The profile written for a newly registered account. */
  function NewProfile(uid: string, specializedId: string, contactEmail: string, fullName: string): (u: User)
  {
    User(uid := uid, specializedId := specializedId, contactEmail := contactEmail,
         role := "student", fullName := fullName)
  }

  /** A registered profile is a student's, carrying exactly the given data. */
  lemma NewProfileIsStudent(uid: string, specializedId: string, contactEmail: string, fullName: string)
    ensures var u := NewProfile(uid, specializedId, contactEmail, fullName);
      u.role == "student" && u.uid == uid && u.specializedId == specializedId
      && u.contactEmail == contactEmail && u.fullName == fullName
  {
  }

  class AuthViewModel {
    var authState: AuthState
    var currentUser: Option<User>
    /** The `users` collection. */
    var users: map<string, User>

    constructor (users: map<string, User>)
      ensures authState == Idle && currentUser == None && this.users == users
    {
      authState := Idle;
      currentUser := None;
      this.users := users;
    }

    /** The auth-state listener. A signed-in account asks for its profile
        (returned as the uid to fetch); signing out resets everything. */
    method OnAuthStateChanged(signedInUid: Option<string>) returns (fetchFor: Option<string>)
      modifies this`authState, this`currentUser
      ensures fetchFor == signedInUid
      ensures signedInUid.None? ==> authState == Idle && currentUser == None
      ensures signedInUid.Some? ==> authState == old(authState) && currentUser == old(currentUser)
    {
      fetchFor := signedInUid;
      if signedInUid.None? {
        authState := Idle;
        currentUser := None;
      }
    }

    /** `fetchUserProfile(uid)`: reads `users/{uid}`; `readFailure` is the
        message of the exception the read threw, if it threw. */
    method FetchUserProfile(uid: string, readFailure: Option<Option<string>>)
      modifies this`authState, this`currentUser
      ensures readFailure.Some? ==>
        authState == Error("Failed to load profile: " + Rendered(readFailure.value))
        && currentUser == old(currentUser)
      ensures readFailure.None? && uid in users ==>
        currentUser == Some(users[uid]) && authState == Authenticated
      ensures readFailure.None? && uid !in users ==>
        authState == Error("User profile not found.") && currentUser == old(currentUser)
    {
      if readFailure.Some? {
        authState := Error("Failed to load profile: " + Rendered(readFailure.value));
      } else if uid in users {
        currentUser := Some(users[uid]);
        authState := Authenticated;
      } else {
        authState := Error("User profile not found.");
      }
    }

    /** `login`: rejects a blank id or password without going to Loading;
        otherwise enters Loading and returns the sign-in request. */
    method Login(specializedId: string, password: string) returns (signIn: Option<Credentials>)
      modifies this`authState
      ensures IsBlank(specializedId) || IsBlank(password) ==>
        authState == Error("ID and password cannot be empty.") && signIn == None
      ensures !IsBlank(specializedId) && !IsBlank(password) ==>
        authState == Loading && signIn == Some(Credentials(AuthEmail(specializedId), password))
    {
      if IsBlank(specializedId) || IsBlank(password) {
        authState := Error("ID and password cannot be empty.");
        return None;
      }
      var authEmail := AuthEmail(specializedId);
      authState := Loading;
      signIn := Some(Credentials(authEmail, password));
    }

    /** The provider rejected the sign-in. A successful sign-in changes
        nothing here: the auth-state listener takes over. */
    method OnSignInFailed(message: Option<string>)
      modifies this`authState
      ensures authState == Error(OrElse(message, "An unknown login error occurred"))
    {
      authState := Error(OrElse(message, "An unknown login error occurred"));
    }

    /** `register`: rejects any blank field without going to Loading;
        otherwise enters Loading and returns the sign-up request. */
    method Register(specializedId: string, contactEmail: string, fullName: string, password: string)
      returns (signUp: Option<Credentials>)
      modifies this`authState
      ensures IsBlank(specializedId) || IsBlank(contactEmail) || IsBlank(fullName) || IsBlank(password) ==>
        authState == Error("All fields are required.") && signUp == None
      ensures !IsBlank(specializedId) && !IsBlank(contactEmail) && !IsBlank(fullName) && !IsBlank(password) ==>
        authState == Loading && signUp == Some(Credentials(AuthEmail(specializedId), password))
    {
      if IsBlank(specializedId) || IsBlank(contactEmail) || IsBlank(fullName) || IsBlank(password) {
        authState := Error("All fields are required.");
        return None;
      }
      var authEmail := AuthEmail(specializedId);
      authState := Loading;
      signUp := Some(Credentials(authEmail, password));
    }

    /** The rest of `register` once the provider answered: a created
        account gets its student profile in `users/{uid}`;
        `profileWriteFailure` is the message of the exception that write
        threw, if it threw. */
    method CompleteRegistration(specializedId: string, contactEmail: string, fullName: string,
                                outcome: SignUpOutcome, profileWriteFailure: Option<Option<string>>)
      modifies this`authState, this`users
      ensures outcome.SignUpThrew? ==>
        authState == Error(OrElse(outcome.message, "An unknown registration error occurred"))
        && users == old(users)
      ensures outcome == AccountCreated(None) ==>
        authState == Error("Failed to create user profile.") && users == old(users)
      ensures outcome.AccountCreated? && outcome.uid.Some? && profileWriteFailure.Some? ==>
        authState == Error(OrElse(profileWriteFailure.value, "An unknown registration error occurred"))
        && users == old(users)
      ensures outcome.AccountCreated? && outcome.uid.Some? && profileWriteFailure.None? ==>
        authState == old(authState)
        && users == old(users)[outcome.uid.value := NewProfile(outcome.uid.value, specializedId, contactEmail, fullName)]
    {
      match outcome
      case SignUpThrew(message) =>
        authState := Error(OrElse(message, "An unknown registration error occurred"));
      case AccountCreated(None) =>
        authState := Error("Failed to create user profile.");
      case AccountCreated(Some(uid)) =>
        var newUser := NewProfile(uid, specializedId, contactEmail, fullName);
        if profileWriteFailure.Some? {
          authState := Error(OrElse(profileWriteFailure.value, "An unknown registration error occurred"));
        } else {
          users := users[uid := newUser];
        }
    }
  }
}
