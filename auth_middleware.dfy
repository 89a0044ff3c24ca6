/**
  The backend's authentication middleware (`backend/src/middleware/auth.js`):
  `verifyToken` reads a bearer token from the `Authorization` header and puts
  the verified user on the request; `requireSuperAdmin` lets a request through
  only for a super admin or the configured president.
*/
module AuthMiddleware {
  import opened Common
  import BackendAuthRoutes
  import ApiAuthRoutes

  const Bearer := "Bearer"
  const MissingToken := "Missing Authorization Bearer token"
  const InvalidToken := "Invalid or expired token"

  /**
    The token of an `Authorization` header: the second word when the header
    is exactly two space-separated words and the first is "Bearer"; otherwise
    the empty text. A token is therefore never empty inside a match, holds no
    space, and the header is "Bearer " followed by it.
  */
  function BearerToken(header: Option<string>): (token: string)
    ensures token != "" ==> Truthy(header) && header.value == Bearer + " " + token && ' ' !in token
  {
    var text := OrElse(header, "");
    var parts := Split(text, ' ');
    JoinSplit(text, ' ');
    assert |parts| == 2 ==> Join(parts, ' ') == parts[0] + [' '] + parts[1];
    if |parts| == 2 && parts[0] == Bearer then parts[1] else ""
  }

  /** Every non-empty token without a space is read back from "Bearer " + token. */
  lemma BearerRoundTrip(token: string)
    requires token != "" && ' ' !in token
    ensures BearerToken(Some(Bearer + " " + token)) == token
  {
    assert Bearer + " " + token == Bearer + [' '] + token;
    SplitAfter(Bearer, token, ' ');
    SplitNoSep(token, ' ');
  }

  /** A header in any other form (another scheme, a different letter case, extra words) yields no token. */
  lemma OtherSchemesRejected(scheme: string, token: string)
    requires scheme != Bearer && ' ' !in scheme
    ensures BearerToken(Some(scheme + " " + token)) == ""
  {
    if BearerToken(Some(scheme + " " + token)) != "" {
      var t := BearerToken(Some(scheme + " " + token));
      assert scheme + " " + token == Bearer + " " + t;
      assert scheme + [' '] + token == Bearer + [' '] + t;
      SplitAfter(scheme, token, ' ');
      SplitAfter(Bearer, t, ' ');
      assert false;
    }
  }

  /** What the token verifier reports for a valid token. */
  datatype Decoded = Decoded(uid: string, email: Option<string>)

  /** `req.user`. */
  datatype ReqUser = ReqUser(uid: string, email: string)

  /** A middleware's answer: an error reply, or `next()`. */
  datatype Gate = Reject(status: int, error: string) | Next

  /** The `users/<uid>` record, or the empty record when there is none (`snap.val() || {}`). */
  function RecordOf(users: map<string, BackendAuthRoutes.UserRecord>, uid: string): BackendAuthRoutes.UserRecord
  {
    if uid in users then users[uid] else BackendAuthRoutes.NoRecord
  }

  /**
    `isSuper`: the stored system role is super_admin in any letter case, or the
    president setting (trimmed, lower-cased) is non-empty and equals the
    lower-cased e-mail.
  */
  predicate IsSuper(record: BackendAuthRoutes.UserRecord, email: string, presidentSetting: Option<string>) {
    var preset := ToLower(Trim(OrElse(presidentSetting, "")));
    ToLower(OrElse(record.systemRole, "")) == "super_admin" || (preset != "" && ToLower(email) == preset)
  }

  /** The backend's president test and the serverless API's president test agree: the president always passes. */
  lemma PresidentIsSuper(record: BackendAuthRoutes.UserRecord, email: string, presidentSetting: Option<string>)
    requires ApiAuthRoutes.IsPresident(email, presidentSetting)
    ensures IsSuper(record, email, presidentSetting)
  {
  }

  /**
    A profile the backend's register route has just stored (system role
    "officer") is a super admin exactly when its e-mail is the president's.
  */
  lemma {:induction false} FreshProfileSuperIffPresident(uid: string, email: string, fullName: string, role: Option<string>,
                                                studentId: Option<string>, phone: Option<string>, now: string,
                                                presidentSetting: Option<string>)
    ensures IsSuper(BackendAuthRoutes.NewProfile(uid, email, fullName, role, studentId, phone, now), email, presidentSetting)
            <==> ApiAuthRoutes.IsPresident(email, presidentSetting)
  {
    var r := BackendAuthRoutes.NewProfile(uid, email, fullName, role, studentId, phone, now);
    assert OrElse(r.systemRole, "") == "officer";
    assert |ToLower("officer")| != |"super_admin"|;
  }

  /** The incoming request, whose `user` the token check fills in. */
  class Request {
    var user: Option<ReqUser>

    constructor()
      ensures user == None
    {
      user := None;
    }

    /**
      `verifyToken`: 401 without a bearer token, before the verifier is
      consulted; 401 when `verify` rejects the token; otherwise `user` is set
      to the verified uid and e-mail (empty when absent) and `next` runs.
    */
    method VerifyToken(header: Option<string>, verify: string -> Option<Decoded>) returns (g: Gate)
      modifies this
      ensures BearerToken(header) == "" ==> g == Reject(401, MissingToken) && user == old(user)
      ensures BearerToken(header) != "" && verify(BearerToken(header)).None? ==>
                g == Reject(401, InvalidToken) && user == old(user)
      ensures g == Next <==> BearerToken(header) != "" && verify(BearerToken(header)).Some?
      ensures g == Next ==>
                var d := verify(BearerToken(header)).value;
                user == Some(ReqUser(d.uid, OrElse(d.email, "")))
    {
      var token := BearerToken(header);
      if token == "" {
        return Reject(401, MissingToken);
      }
      var decoded := verify(token);
      if decoded.None? {
        return Reject(401, InvalidToken);
      }
      user := Some(ReqUser(decoded.value.uid, OrElse(decoded.value.email, "")));
      g := Next;
    }

    /**
      `requireSuperAdmin`: 401 without a uid on the request; 500 with the
      message of a failed read of `users/<uid>`; otherwise `next` exactly
      for a super admin and 403 for anyone else.
    */
    method RequireSuperAdmin(users: map<string, BackendAuthRoutes.UserRecord>, presidentSetting: Option<string>,
                             readError: Option<string>) returns (g: Gate)
      ensures user.None? || user.value.uid == "" ==> g == Reject(401, "Unauthenticated")
      ensures user.Some? && user.value.uid != "" && readError.Some? ==> g == Reject(500, readError.value)
      ensures g == Next <==> user.Some? && user.value.uid != "" && readError.None?
                             && IsSuper(RecordOf(users, user.value.uid), user.value.email, presidentSetting)
      ensures user.Some? && user.value.uid != "" && readError.None?
              && !IsSuper(RecordOf(users, user.value.uid), user.value.email, presidentSetting) ==>
                g == Reject(403, "Requires super admin")
    {
      if user.None? || user.value.uid == "" {
        return Reject(401, "Unauthenticated");
      }
      if readError.Some? {
        return Reject(500, readError.value);
      }
      var record := RecordOf(users, user.value.uid);
      if !IsSuper(record, user.value.email, presidentSetting) {
        return Reject(403, "Requires super admin");
      }
      g := Next;
    }
  }
}
