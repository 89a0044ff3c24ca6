/**
  The Express auth router of the backend server (`/api/auth`): register, login,
  profile lookup and logout over the sign-in directory (e-mail to uid) and the
  `users` table (uid to profile record).
*/
module BackendAuthRoutes {
  import opened Common

  const Organization := "Computer Debuggers Society"
  const Department := "Department of Computing Education"
  const UmtcSuffix := "@umtc.edu.ph"

  const FieldsRequired := "Email, password, and full name are required"
  const UseUmtcEmail := "Please use your UMTC email (@umtc.edu.ph)"
  const EmailInUse := "Email already in use"
  const PasswordTooShort := "Password must be at least 6 characters"

  /** A `users/<uid>` record; a field is `None` when the record lacks it. */
  datatype UserRecord = UserRecord(
    uid: Option<string>,
    email: Option<string>,
    fullName: Option<string>,
    role: Option<string>,
    studentId: Option<string>,
    phone: Option<string>,
    organization: Option<string>,
    department: Option<string>,
    status: Option<string>,
    systemRole: Option<string>,
    createdAt: Option<string>,
    lastActive: Option<string>)

  const NoRecord := UserRecord(None, None, None, None, None, None, None, None, None, None, None, None)

  /** The user fields of a successful login. */
  datatype LoginUser = LoginUser(uid: string, email: Option<string>, fullName: Option<string>, role: Option<string>, systemRole: string)

  datatype Reply = Failed(status: int, error: string) | Done(message: string) | LoggedIn(user: LoginUser) | Profile(record: UserRecord)

  /** The record `register` stores. */
  function NewProfile(uid: string, email: string, fullName: string, role: Option<string>, studentId: Option<string>,
                      phone: Option<string>, now: string): (r: UserRecord)
    ensures r.role == Some(OrElse(role, "member")) && r.status == Some("active") && r.systemRole == Some("officer")
    ensures r.studentId == Some(OrElse(studentId, "")) && r.phone == Some(OrElse(phone, ""))
    ensures !Truthy(role) ==> r.role == Some("member")
    ensures r.uid == Some(uid) && r.email == Some(email) && r.fullName == Some(fullName)
    ensures r.organization == Some(Organization) && r.department == Some(Department)
    ensures r.createdAt == Some(now) && r.lastActive == Some(now)
  {
    UserRecord(Some(uid), Some(email), Some(fullName), Some(OrElse(role, "member")), Some(OrElse(studentId, "")),
               Some(OrElse(phone, "")), Some(Organization), Some(Department), Some("active"), Some("officer"),
               Some(now), Some(now))
  }

  /** The `catch` of `register`: the two known sign-up error codes give 400, anything else 500 with its message. */
  function RegisterError(code: string, message: string): (r: Reply)
    ensures r.Failed?
    ensures code == "auth/email-already-exists" <==> r == Failed(400, EmailInUse)
    ensures code == "auth/invalid-password" <==> r == Failed(400, PasswordTooShort)
    ensures r.status == 500 <==> code != "auth/email-already-exists" && code != "auth/invalid-password"
    ensures r.status == 500 ==> r.error == message
  {
    if code == "auth/email-already-exists" then Failed(400, EmailInUse)
    else if code == "auth/invalid-password" then Failed(400, PasswordTooShort)
    else Failed(500, message)
  }

  /** An error thrown inside `register`: its `code` (empty when it has none) and its `message`. */
  datatype Thrown = Thrown(code: string, message: string)

  /** The directory and the `users` table. */
  class AuthBackend {
    var accounts: map<string, string>
    var users: map<string, UserRecord>

    constructor(accounts0: map<string, string>, users0: map<string, UserRecord>)
      ensures accounts == accounts0 && users == users0
    {
      accounts, users := accounts0, users0;
    }

    /**
      `POST /register`. Missing fields, then the UMTC suffix, are checked before
      anything is written. The directory call either throws `createError` or
      makes the account under the fresh uid `newUid`; the profile write then
      either throws `writeError`, leaving the new account without a profile,
      or stores the default profile. A thrown error is mapped by `RegisterError`.
    */
    method Register(email: Option<string>, password: Option<string>, fullName: Option<string>, role: Option<string>,
                    studentId: Option<string>, phone: Option<string>, newUid: string, now: string,
                    createError: Option<Thrown>, writeError: Option<Thrown>) returns (r: Reply)
      modifies this
      ensures !Truthy(email) || !Truthy(password) || !Truthy(fullName) ==>
                r == Failed(400, FieldsRequired) && accounts == old(accounts) && users == old(users)
      ensures Truthy(email) && Truthy(password) && Truthy(fullName) && !EndsWith(email.value, UmtcSuffix) ==>
                r == Failed(400, UseUmtcEmail) && accounts == old(accounts) && users == old(users)
      ensures Truthy(email) && Truthy(password) && Truthy(fullName) && EndsWith(email.value, UmtcSuffix)
              && createError.Some? ==>
                r == RegisterError(createError.value.code, createError.value.message)
                && accounts == old(accounts) && users == old(users)
      ensures Truthy(email) && Truthy(password) && Truthy(fullName) && EndsWith(email.value, UmtcSuffix)
              && createError.None? ==>
                accounts == old(accounts)[email.value := newUid]
      ensures Truthy(email) && Truthy(password) && Truthy(fullName) && EndsWith(email.value, UmtcSuffix)
              && createError.None? && writeError.Some? ==>
                r == RegisterError(writeError.value.code, writeError.value.message) && users == old(users)
      ensures r.Failed? || r.Done?
      ensures r.Done? <==> (Truthy(email) && Truthy(password) && Truthy(fullName) && EndsWith(email.value, UmtcSuffix)
                            && createError.None? && writeError.None?)
      ensures r.Done? ==> r.message == "User registered successfully"
                          && users == old(users)[newUid := NewProfile(newUid, email.value, fullName.value, role, studentId, phone, now)]
      ensures r.Failed? ==> users == old(users)
    {
      if !Truthy(email) || !Truthy(password) || !Truthy(fullName) {
        return Failed(400, FieldsRequired);
      }
      if !EndsWith(email.value, UmtcSuffix) {
        return Failed(400, UseUmtcEmail);
      }
      if createError.Some? {
        return RegisterError(createError.value.code, createError.value.message);
      }
      accounts := accounts[email.value := newUid];
      if writeError.Some? {
        return RegisterError(writeError.value.code, writeError.value.message);
      }
      users := users[newUid := NewProfile(newUid, email.value, fullName.value, role, studentId, phone, now)];
      r := Done("User registered successfully");
    }

    /**
      `POST /login`: 400 without an e-mail, 404 for an unknown account or a
      missing profile, 403 for a profile whose status is not "active"; only
      then is `lastActive` stamped and the user returned, with `systemRole`
      falling back to "officer".
    */
    method Login(email: Option<string>, now: string) returns (r: Reply)
      modifies this
      ensures accounts == old(accounts)
      ensures !Truthy(email) ==> r == Failed(400, "Email is required")
      ensures Truthy(email) && email.value !in accounts ==> r == Failed(404, "User not found")
      ensures Truthy(email) && email.value in accounts && accounts[email.value] !in old(users) ==>
                r == Failed(404, "User data not found")
      ensures Truthy(email) && email.value in accounts && accounts[email.value] in old(users)
              && old(users)[accounts[email.value]].status != Some("active") ==>
                r == Failed(403, "Account is not active. Please contact admin.")
      ensures r.Failed? ==> users == old(users)
      ensures r.LoggedIn? <==> (Truthy(email) && email.value in accounts && accounts[email.value] in old(users)
                                 && old(users)[accounts[email.value]].status == Some("active"))
      ensures r.LoggedIn? ==>
                var uid := accounts[email.value];
                var u := old(users)[uid];
                users == old(users)[uid := u.(lastActive := Some(now))]
                && r.user == LoginUser(uid, u.email, u.fullName, u.role, OrElse(u.systemRole, "officer"))
      ensures r.Failed? || r.LoggedIn?
    {
      if !Truthy(email) {
        return Failed(400, "Email is required");
      }
      if email.value !in accounts {
        return Failed(404, "User not found");
      }
      var uid := accounts[email.value];
      if uid !in users {
        return Failed(404, "User data not found");
      }
      var u := users[uid];
      if u.status != Some("active") {
        return Failed(403, "Account is not active. Please contact admin.");
      }
      users := users[uid := u.(lastActive := Some(now))];
      r := LoggedIn(LoginUser(uid, u.email, u.fullName, u.role, OrElse(u.systemRole, "officer")));
    }

    /** `GET /profile/:uid`: the stored record, or 404. */
    method GetProfile(uid: string) returns (r: Reply)
      ensures uid in users ==> r == Profile(users[uid])
      ensures uid !in users ==> r == Failed(404, "User not found")
    {
      if uid in users {
        r := Profile(users[uid]);
      } else {
        r := Failed(404, "User not found");
      }
    }

    /**
      `POST /logout`: with a uid, `lastActive` is stamped (an update on a
      missing record creates one holding only that field); without one,
      nothing is written. The reply is always a success.
    */
    method Logout(uid: Option<string>, now: string) returns (r: Reply)
      modifies this
      ensures r == Done("Logged out successfully")
      ensures accounts == old(accounts)
      ensures !Truthy(uid) ==> users == old(users)
      ensures Truthy(uid) ==> users == old(users)[uid.value := (if uid.value in old(users) then old(users)[uid.value] else NoRecord).(lastActive := Some(now))]
    {
      if Truthy(uid) {
        var u := if uid.value in users then users[uid.value] else NoRecord;
        users := users[uid.value := u.(lastActive := Some(now))];
      }
      r := Done("Logged out successfully");
    }
  }
}
