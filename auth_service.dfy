/**
  The client's auth service (`src/services/authService.ts`): register and
  log in through the sign-in directory, keep the profile under `users/<uid>`,
  keep the signed-in user in local storage, and turn directory error codes
  into messages.
*/
module AuthService {
  import opened Common

  const DefaultOrganization := "Computer Debuggers Society"
  const DefaultDepartment := "Department of Computing Education"

  const EmailRegistered := "This email is already registered."
  const InvalidEmail := "Invalid email address."
  const WeakPassword := "Password should be at least 6 characters."
  const RegistrationFailed := "Registration failed. Please try again."
  const BadCredentials := "Invalid email or password."
  const TooManyAttempts := "Too many failed attempts. Please try again later."
  const LoginFailed := "Login failed. Please try again."

  /** What a caller passes to `register`. */
  datatype RegisterData = RegisterData(fullName: string, email: string, password: string, role: string, studentId: string,
                                       phone: Option<string>, organization: Option<string>, department: Option<string>)

  /** The stored profile. */
  datatype UserData = UserData(uid: string, email: string, fullName: string, role: string, studentId: string,
                               phone: string, organization: string, department: string, createdAt: string)

  /** What `register` and `login` resolve to. */
  datatype AuthResult = AuthResult(success: bool, message: string, user: Option<UserData>)

  /** A directory call: the new or signed-in uid, or a failure with its error code (absent for a plain error). */
  datatype Outcome = Ok(uid: string) | Err(code: Option<string>)

  /** The profile `register` writes: phone, organization and department fall back to "" and the fixed defaults. */
  function NewUserData(uid: string, data: RegisterData, now: string): (u: UserData)
    ensures u.uid == uid && u.email == data.email && u.fullName == data.fullName && u.role == data.role
    ensures u.studentId == data.studentId && u.createdAt == now
    ensures u.phone == OrElse(data.phone, "")
    ensures u.organization == OrElse(data.organization, DefaultOrganization) && u.organization != ""
    ensures u.department == OrElse(data.department, DefaultDepartment) && u.department != ""
  {
    UserData(uid, data.email, data.fullName, data.role, data.studentId, OrElse(data.phone, ""),
             OrElse(data.organization, DefaultOrganization), OrElse(data.department, DefaultDepartment), now)
  }

  /** The message of a failed `register`. */
  function RegisterErrorMessage(code: Option<string>): (m: string)
    ensures m == EmailRegistered <==> code == Some("auth/email-already-in-use")
    ensures m == InvalidEmail <==> code == Some("auth/invalid-email")
    ensures m == WeakPassword <==> code == Some("auth/weak-password")
    ensures m == RegistrationFailed <==>
              code !in {Some("auth/email-already-in-use"), Some("auth/invalid-email"), Some("auth/weak-password")}
  {
    assert EmailRegistered[0] != InvalidEmail[0] && EmailRegistered[0] != WeakPassword[0];
    assert EmailRegistered[0] != RegistrationFailed[0] && InvalidEmail[0] != WeakPassword[0];
    assert InvalidEmail[0] != RegistrationFailed[0] && WeakPassword[0] != RegistrationFailed[0];
    if code == Some("auth/email-already-in-use") then EmailRegistered
    else if code == Some("auth/invalid-email") then InvalidEmail
    else if code == Some("auth/weak-password") then WeakPassword
    else RegistrationFailed
  }

  /** The message of a failed `login`; an unknown user and a wrong password read the same. */
  function LoginErrorMessage(code: Option<string>): (m: string)
    ensures m == BadCredentials <==> code == Some("auth/user-not-found") || code == Some("auth/wrong-password")
    ensures m == InvalidEmail <==> code == Some("auth/invalid-email")
    ensures m == TooManyAttempts <==> code == Some("auth/too-many-requests")
    ensures m == LoginFailed <==>
              code !in {Some("auth/user-not-found"), Some("auth/wrong-password"), Some("auth/invalid-email"),
                        Some("auth/too-many-requests")}
  {
    assert |BadCredentials| == 26 && |InvalidEmail| == 22 && |TooManyAttempts| == 49 && |LoginFailed| == 31;
    if code == Some("auth/user-not-found") || code == Some("auth/wrong-password") then BadCredentials
    else if code == Some("auth/invalid-email") then InvalidEmail
    else if code == Some("auth/too-many-requests") then TooManyAttempts
    else LoginFailed
  }

  /** The `users` table and the `user` entry of local storage. */
  class Session {
    var users: map<string, UserData>
    var current: Option<UserData>

    constructor(users0: map<string, UserData>, current0: Option<UserData>)
      ensures users == users0 && current == current0
    {
      users, current := users0, current0;
    }

    /** `getCurrentUser`. */
    function CurrentUser(): Option<UserData>
      reads this
    {
      current
    }

    /** `isAuthenticated`: a user is stored. */
    predicate IsAuthenticated()
      reads this
    {
      CurrentUser().Some?
    }

    /**
      `register`. `created` is what creating the account gave, `writeError`
      the code of a failed profile write, if any. The mirror call to the
      backend is made after the profile is written; its outcome never changes
      the result, so it is not a parameter.
    */
    method Register(data: RegisterData, created: Outcome, writeError: Option<Option<string>>, now: string) returns (r: AuthResult)
      modifies this
      ensures current == old(current)
      ensures created.Err? ==> r == AuthResult(false, RegisterErrorMessage(created.code), None) && users == old(users)
      ensures created.Ok? && writeError.Some? ==>
                r == AuthResult(false, RegisterErrorMessage(writeError.value), None) && users == old(users)
      ensures created.Ok? && writeError.None? ==>
                var u := NewUserData(created.uid, data, now);
                r == AuthResult(true, "Registration successful!", Some(u)) && users == old(users)[created.uid := u]
      ensures r.success <==> created.Ok? && writeError.None?
    {
      match created {
        case Err(code) =>
          return AuthResult(false, RegisterErrorMessage(code), None);
        case Ok(uid) =>
          if writeError.Some? {
            return AuthResult(false, RegisterErrorMessage(writeError.value), None);
          }
          var u := NewUserData(uid, data, now);
          users := users[uid := u];
          r := AuthResult(true, "Registration successful!", Some(u));
      }
    }

    /**
      `login`: a failed sign-in maps its code to a message; a signed-in user
      without a stored profile fails with the default message; otherwise the
      profile becomes the stored current user.
    */
    method Login(signIn: Outcome) returns (r: AuthResult)
      modifies this
      ensures users == old(users)
      ensures signIn.Err? ==> r == AuthResult(false, LoginErrorMessage(signIn.code), None) && current == old(current)
      ensures signIn.Ok? && signIn.uid !in users ==> r == AuthResult(false, LoginFailed, None) && current == old(current)
      ensures signIn.Ok? && signIn.uid in users ==>
                r == AuthResult(true, "Login successful!", Some(users[signIn.uid])) && current == Some(users[signIn.uid])
      ensures r.success ==> IsAuthenticated()
    {
      match signIn {
        case Err(code) =>
          return AuthResult(false, LoginErrorMessage(code), None);
        case Ok(uid) =>
          if uid !in users {
            // "User data not found" carries no code
            return AuthResult(false, LoginErrorMessage(None), None);
          }
          current := Some(users[uid]);
          r := AuthResult(true, "Login successful!", Some(users[uid]));
      }
    }

    /** `logout`: after signing out the stored user is removed; a failed sign-out is passed on and removes nothing. */
    method Logout(signOutFails: bool) returns (ok: bool)
      modifies this
      ensures users == old(users)
      ensures ok <==> !signOutFails
      ensures ok ==> current == None && !IsAuthenticated()
      ensures !ok ==> current == old(current)
    {
      if signOutFails {
        return false;
      }
      current := None;
      ok := true;
    }
  }
}
