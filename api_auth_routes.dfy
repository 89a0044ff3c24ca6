/**
  The auth router of the serverless API (`api/routes/authRoutes.js`): register
  with an e-mail domain allow-list read from a setting, the president and
  approval rules that decide the stored role, status and system role, and the
  forgot-password check.
*/
module ApiAuthRoutes {
  import opened Common

  const Organization := "Computer Debuggers Society"
  const Department := "Department of Computing Education"
  const FieldsRequired := "Email, password, and full name are required"

  // ---------------------------------------------------------------- domain allow-list

  /** `d.trim().toLowerCase()`. */
  function NormalizeDomain(d: string): string
  {
    ToLower(Trim(d))
  }

  /** `parts.map(d => d.trim().toLowerCase())`. */
  function NormalizeAll(parts: seq<string>): (r: seq<string>)
    ensures |r| == |parts|
  {
    MapSeq(parts, NormalizeDomain)
  }

  /** Entry `i` of the normalised list is entry `i` of the input, trimmed and lower-cased. */
  lemma NormalizeAllAt(parts: seq<string>)
    ensures forall i :: 0 <= i < |parts| ==> NormalizeAll(parts)[i] == ToLower(Trim(parts[i]))
  {
    MapSeqAt(parts, NormalizeDomain);
  }

  /** The comma-separated entries of the setting (an absent setting reads as the empty text). */
  function Entries(setting: Option<string>): (parts: seq<string>)
    ensures forall k :: 0 <= k < |parts| ==> ',' !in parts[k]
  {
    Split(OrElse(setting, ""), ',')
  }

  /** `parts.map(d => d.trim().toLowerCase()).filter(Boolean)`, one entry at a time. */
  function Domains(parts: seq<string>): seq<string>
  {
    if parts == [] then []
    else
      var d := NormalizeDomain(parts[0]);
      (if d != "" then [d] else []) + Domains(parts[1..])
  }

  /** The entry-at-a-time form is the `map` then `filter` pipeline. */
  lemma {:induction false} DomainsPipeline(parts: seq<string>)
    ensures Domains(parts) == Filter(NormalizeAll(parts), NonBlank)
  {
    if parts != [] {
      DomainsPipeline(parts[1..]);
      var norm := NormalizeAll(parts);
      assert norm == [NormalizeDomain(parts[0])] + NormalizeAll(parts[1..]);
      assert norm[0] == NormalizeDomain(parts[0]) && norm[1..] == NormalizeAll(parts[1..]);
    }
  }

  /** `String(ALLOWED_EMAIL_DOMAINS || '').split(',').map(trim, lower-case).filter(Boolean)`. */
  function AllowedDomains(setting: Option<string>): seq<string>
  {
    Domains(Entries(setting))
  }

  /**
    Each allowed domain is non-empty and the trimmed, lower-cased form of one of
    the comma-separated entries; every entry that is not blank is allowed.
  */
  lemma AllowedDomainsFacts(setting: Option<string>)
    ensures forall d :: d in AllowedDomains(setting) <==>
              d != "" && exists i :: 0 <= i < |Entries(setting)| && d == ToLower(Trim(Entries(setting)[i]))
  {
    DomainsPipeline(Entries(setting));
    NormalizedMembers(Entries(setting));
  }

  lemma NormalizedMembers(parts: seq<string>)
    ensures forall d :: d in Filter(NormalizeAll(parts), NonBlank) <==>
              d != "" && exists i :: 0 <= i < |parts| && d == NormalizeDomain(parts[i])
  {
    MapSeqAt(parts, NormalizeDomain);
    MappedMembers(parts, NormalizeAll(parts), NormalizeDomain);
  }

  /** The non-blank entries of a mapped list are the non-blank images of its entries. */
  lemma MappedMembers(parts: seq<string>, mapped: seq<string>, f: string -> string)
    requires |mapped| == |parts|
    requires forall i :: 0 <= i < |parts| ==> mapped[i] == f(parts[i])
    ensures forall d :: d in Filter(mapped, NonBlank) <==> d != "" && exists i :: 0 <= i < |parts| && d == f(parts[i])
  {
    FilterMembers(mapped, NonBlank);
    forall d | d in Filter(mapped, NonBlank)
      ensures d != "" && exists i :: 0 <= i < |parts| && d == f(parts[i])
    {
      var i :| 0 <= i < |mapped| && mapped[i] == d;
      assert d == f(parts[i]);
    }
    forall d | d != "" && exists i :: 0 <= i < |parts| && d == f(parts[i])
      ensures d in Filter(mapped, NonBlank)
    {
      var i :| 0 <= i < |parts| && d == f(parts[i]);
      assert mapped[i] == d;
    }
  }

  /** Lower-case and free of commas. */
  predicate DomainShaped(d: string) {
    ToLower(d) == d && ',' !in d
  }

  /** An allowed domain is lower-case and holds no comma. */
  lemma AllowedDomainsShape(setting: Option<string>)
    ensures forall d :: d in AllowedDomains(setting) ==> DomainShaped(d)
  {
    var parts := Entries(setting);
    var norm := NormalizeAll(parts);
    DomainsPipeline(parts);
    NormalizeAllAt(parts);
    FilterMembers(norm, NonBlank);
    forall i | 0 <= i < |norm| ensures DomainShaped(norm[i]) {
      EntryShape(parts[i]);
    }
  }

  lemma EntryShape(p: string)
    requires ',' !in p
    ensures DomainShaped(ToLower(Trim(p)))
  {
    ToLowerIdempotent(Trim(p));
    TrimInside(p);
    LowerKeepsComma(Trim(p));
  }

  /** Lower-casing neither adds nor removes a comma. */
  lemma LowerKeepsComma(s: string)
    requires ',' !in s
    ensures ',' !in ToLower(s)
  {
    forall j | 0 <= j < |s| ensures ToLower(s)[j] != ',' {
      assert ToLower(s)[j] == LowerChar(s[j]);
    }
  }

  /** Trimming keeps a character out if it was out. */
  lemma TrimInside(s: string)
    ensures forall c :: c in Trim(s) ==> c in s
  {
    TrimFacts(s);
    var i :| OccursAt(s, Trim(s), i);
    forall c | c in Trim(s) ensures c in s {
      var j :| 0 <= j < |Trim(s)| && Trim(s)[j] == c;
      assert s[i..i + |Trim(s)|][j] == s[i + j];
    }
  }

  /** `allowAll`: no domain configured, or the wildcard. */
  predicate AllowAll(domains: seq<string>) {
    "*" in domains || |domains| == 0
  }

  /** `domains.some(d => email.toLowerCase().endsWith('@' + d))`. */
  function SomeDomain(email: string, domains: seq<string>): bool
  {
    if domains == [] then false
    else EndsWith(ToLower(email), "@" + domains[0]) || SomeDomain(email, domains[1..])
  }

  /** The address passes exactly when its lower-cased form ends with "@" and one of the domains. */
  lemma {:induction false} SomeDomainMeans(email: string, domains: seq<string>)
    ensures SomeDomain(email, domains) <==> exists d :: d in domains && EndsWith(ToLower(email), "@" + d)
  {
    if domains != [] {
      SomeDomainMeans(email, domains[1..]);
      assert forall d :: d in domains <==> d == domains[0] || d in domains[1..];
    }
  }

  /** The domain gate of `register`. */
  predicate DomainAccepted(email: string, setting: Option<string>) {
    AllowAll(AllowedDomains(setting)) || SomeDomain(email, AllowedDomains(setting))
  }

  /** The error text naming the allowed domains. */
  function DomainError(setting: Option<string>): string {
    "Email domain not allowed. Allowed: " + JoinWith(AllowedDomains(setting), ", ")
  }

  /** `parts.join(sep)` for a text separator. */
  function JoinWith(parts: seq<string>, sep: string): string
  {
    if |parts| == 0 then "" else if |parts| == 1 then parts[0] else parts[0] + sep + JoinWith(parts[1..], sep)
  }

  /** With no setting every address passes; the domain test ignores the letter case of the address. */
  lemma DomainGateFacts(email: string, email2: string, setting: Option<string>)
    ensures !Truthy(setting) ==> DomainAccepted(email, setting)
    ensures ToLower(email) == ToLower(email2) ==> (DomainAccepted(email, setting) <==> DomainAccepted(email2, setting))
  {
    if !Truthy(setting) {
      assert Entries(setting) == [""];
      assert Trim("") == "";
      assert Domains([""]) == [];
    }
    if ToLower(email) == ToLower(email2) {
      SomeDomainSameCase(email, email2, AllowedDomains(setting));
    }
  }

  lemma {:induction false} SomeDomainSameCase(email: string, email2: string, domains: seq<string>)
    requires ToLower(email) == ToLower(email2)
    ensures SomeDomain(email, domains) == SomeDomain(email2, domains)
  {
    if domains != [] {
      SomeDomainSameCase(email, email2, domains[1..]);
    }
  }

  // ---------------------------------------------------------------- the decision table

  /** `presidentEmail && email.toLowerCase() === presidentEmail`, the setting trimmed and lower-cased. */
  predicate IsPresident(email: string, presidentSetting: Option<string>) {
    var p := ToLower(Trim(OrElse(presidentSetting, "")));
    p != "" && ToLower(email) == p
  }

  /** `!isPresident && requestedRole && requestedRole !== 'member'`, the role lower-cased. */
  predicate NeedsApproval(isPresident: bool, role: Option<string>) {
    var requested := ToLower(OrElse(role, ""));
    !isPresident && requested != "" && requested != "member"
  }

  /** The role, requested role, status and system role a registration is given. */
  datatype Decision = Decision(role: string, requestedRole: string, status: string, systemRole: string)

  /**
    The decision table. The president becomes an active super admin; a user
    asking for a role other than member is stored as a pending member holding
    the request, with no system role; anyone else is active with the role
    asked for (member when none) and system role member.
  */
  function Decide(email: string, role: Option<string>, presidentSetting: Option<string>): (d: Decision)
    ensures IsPresident(email, presidentSetting) ==> d == Decision("president", "", "active", "super_admin")
    ensures NeedsApproval(IsPresident(email, presidentSetting), role) ==>
              Truthy(role) && d == Decision("member", role.value, "pending", "")
    ensures !IsPresident(email, presidentSetting) && !NeedsApproval(false, role) ==>
              d == Decision(OrElse(role, "member"), "", "active", "member")
  {
    var president := IsPresident(email, presidentSetting);
    var approval := NeedsApproval(president, role);
    Decision(
      if president then "president" else if approval then "member" else OrElse(role, "member"),
      if approval then role.value else "",
      if president then "active" else if approval then "pending" else "active",
      if president then "super_admin" else if approval then "" else "member")
  }

  /** A pending status marks exactly the registrations that need approval; super admin marks exactly the president. */
  lemma DecisionStatus(email: string, role: Option<string>, presidentSetting: Option<string>)
    ensures Decide(email, role, presidentSetting).status == "pending" <==> NeedsApproval(IsPresident(email, presidentSetting), role)
    ensures Decide(email, role, presidentSetting).systemRole == "super_admin" <==> IsPresident(email, presidentSetting)
    ensures Decide(email, role, presidentSetting).status in {"active", "pending"}
  {
    var president := IsPresident(email, presidentSetting);
    if !president && !NeedsApproval(false, role) {
      assert Decide(email, role, presidentSetting).status == "active";
    }
  }

  /** The stored `users/<uid>` record. */
  datatype Profile = Profile(
    uid: string,
    email: string,
    fullName: string,
    role: string,
    requestedRole: string,
    studentId: string,
    phone: string,
    organization: string,
    department: string,
    status: string,
    systemRole: string,
    createdAt: string,
    lastActive: string)

  /** The profile `register` stores. */
  function MakeProfile(uid: string, email: string, fullName: string, role: Option<string>, studentId: Option<string>,
                       phone: Option<string>, presidentSetting: Option<string>, now: string): (p: Profile)
    ensures var d := Decide(email, role, presidentSetting);
            p.role == d.role && p.requestedRole == d.requestedRole && p.status == d.status && p.systemRole == d.systemRole
    ensures p.uid == uid && p.email == email && p.fullName == fullName
    ensures p.studentId == OrElse(studentId, "") && p.phone == OrElse(phone, "")
    ensures p.organization == Organization && p.department == Department
    ensures p.createdAt == now && p.lastActive == now
  {
    var d := Decide(email, role, presidentSetting);
    Profile(uid, email, fullName, d.role, d.requestedRole, OrElse(studentId, ""), OrElse(phone, ""),
            Organization, Department, d.status, d.systemRole, now, now)
  }

  /** Asking for "member" in any letter case, or for no role, never needs approval. */
  lemma MemberNeedsNoApproval(isPresident: bool, role: Option<string>)
    requires !Truthy(role) || ToLower(role.value) == "member"
    ensures !NeedsApproval(isPresident, role)
  {
  }

  /** The success message depends only on the approval rule. */
  function RegisteredMessage(needsApproval: bool): string
  {
    if needsApproval then ApprovalText else RegisteredText
  }

  const ApprovalText := "Request submitted. Approval will be required."
  const RegisteredText := "User registered successfully"

  /** The two messages differ, so the reply tells whether approval is pending. */
  lemma RegisteredMessageTells(needsApproval: bool)
    ensures RegisteredMessage(needsApproval) == ApprovalText <==> needsApproval
    ensures RegisteredMessage(needsApproval) == RegisteredText <==> !needsApproval
  {
    assert ApprovalText[|ApprovalText| - 1] == '.' && RegisteredText[|RegisteredText| - 1] == 'y';
  }

  // ---------------------------------------------------------------- handlers

  datatype Reply = Failed(status: int, error: string) | Registered(message: string, uid: string) | Sent(message: string)

  /** `POST /forgot-password`: 400 without an e-mail; `linkError` is the message of a failed reset-link call. */
  function ForgotPassword(email: Option<string>, linkError: Option<string>): (r: Reply)
    ensures !Truthy(email) <==> r == Failed(400, "Email required")
    ensures Truthy(email) && linkError.Some? ==> r == Failed(500, linkError.value)
    ensures Truthy(email) && linkError.None? ==> r == Sent("Password reset link sent")
  {
    if !Truthy(email) then Failed(400, "Email required")
    else if linkError.Some? then Failed(500, linkError.value)
    else Sent("Password reset link sent")
  }

  /** The sign-in directory (e-mail to uid) and the `users` table. */
  class AuthApi {
    var accounts: map<string, string>
    var users: map<string, Profile>

    constructor(accounts0: map<string, string>, users0: map<string, Profile>)
      ensures accounts == accounts0 && users == users0
    {
      accounts, users := accounts0, users0;
    }

    /**
      `POST /register`: 400 for a missing field, then 400 for a domain not
      allowed; an existing account is reused, otherwise one is made under
      `newUid`; then the profile is written with `set`, replacing any
      record there. `createError` is the message of a directory failure other
      than an existing account, which answers 500.
    */
    method Register(email: Option<string>, password: Option<string>, fullName: Option<string>, role: Option<string>,
                    studentId: Option<string>, phone: Option<string>, allowedSetting: Option<string>,
                    presidentSetting: Option<string>, newUid: string, now: string, createError: Option<string>)
      returns (r: Reply)
      modifies this
      ensures !Truthy(email) || !Truthy(password) || !Truthy(fullName) ==> r == Failed(400, FieldsRequired)
      ensures Truthy(email) && Truthy(password) && Truthy(fullName) && !DomainAccepted(email.value, allowedSetting) ==>
                r == Failed(400, DomainError(allowedSetting))
      ensures r.Failed? ==> accounts == old(accounts) && users == old(users)
      ensures r.Registered? <==> (Truthy(email) && Truthy(password) && Truthy(fullName) && DomainAccepted(email.value, allowedSetting)
                                  && (email.value in old(accounts) || createError.None?))
      ensures r.Registered? ==>
                var uid := if email.value in old(accounts) then old(accounts)[email.value] else newUid;
                r.uid == uid
                && r.message == RegisteredMessage(NeedsApproval(IsPresident(email.value, presidentSetting), role))
                && accounts == old(accounts)[email.value := uid]
                && users == old(users)[uid := MakeProfile(uid, email.value, fullName.value, role, studentId, phone, presidentSetting, now)]
      ensures r.Failed? || r.Registered?
    {
      if !Truthy(email) || !Truthy(password) || !Truthy(fullName) {
        r := Failed(400, FieldsRequired);
      } else if !DomainAccepted(email.value, allowedSetting) {
        r := Failed(400, DomainError(allowedSetting));
      } else if email.value !in accounts && createError.Some? {
        r := Failed(500, createError.value);
      } else {
        r := Admit(email.value, fullName.value, role, studentId, phone, presidentSetting, newUid, now);
      }
    }

    /**
      The writes of a registration that passed its checks: the account (the
      existing one, or a new one under `newUid`) and the `set` of the profile.
    */
    method Admit(email: string, fullName: string, role: Option<string>, studentId: Option<string>, phone: Option<string>,
                 presidentSetting: Option<string>, newUid: string, now: string)
      returns (r: Reply)
      modifies this
      ensures var uid := if email in old(accounts) then old(accounts)[email] else newUid;
              r == Registered(RegisteredMessage(NeedsApproval(IsPresident(email, presidentSetting), role)), uid)
              && accounts == old(accounts)[email := uid]
              && users == old(users)[uid := MakeProfile(uid, email, fullName, role, studentId, phone, presidentSetting, now)]
    {
      var uid := if email in accounts then accounts[email] else newUid;
      var approval := NeedsApproval(IsPresident(email, presidentSetting), role);
      accounts := accounts[email := uid];
      users := users[uid := MakeProfile(uid, email, fullName, role, studentId, phone, presidentSetting, now)];
      r := Registered(RegisteredMessage(approval), uid);
    }
  }
}
