/**
  The sign-up page (`src/pages/Signup.tsx`): the form, its field updates, the
  ordered checks of `handleSubmit`, and the registration payload it sends
  when every check passes.
*/
module Signup {
  import opened Common
  import AuthService

  const UmtcSuffix := "@umtc.edu.ph"

  const FillRequired := "Please fill in all required fields"
  const UseUmtcEmail := "Please use your UMTC email address"
  const PasswordTooShort := "Password must be at least 6 characters"
  const PasswordsDiffer := "Passwords do not match"
  const AgreeToTerms := "Please agree to the terms and conditions"

  datatype SignupForm = SignupForm(fullName: string, email: string, password: string, confirmPassword: string,
                                   role: string, studentId: string, phone: string)

  const EmptyForm := SignupForm("", "", "", "", "", "", "")

  /**
    `handleInputChange`: the field named by the input's id takes the value.
    The text inputs are fullName, email, password, confirmPassword, studentId
    and phone; any other id touches none of the fields the page reads.
  */
  function WithInput(f: SignupForm, id: string, value: string): (g: SignupForm)
    ensures id == "fullName" ==> g == f.(fullName := value)
    ensures id == "email" ==> g == f.(email := value)
    ensures id == "password" ==> g == f.(password := value)
    ensures id == "confirmPassword" ==> g == f.(confirmPassword := value)
    ensures id == "studentId" ==> g == f.(studentId := value)
    ensures id == "phone" ==> g == f.(phone := value)
    ensures id !in {"fullName", "email", "password", "confirmPassword", "studentId", "phone"} ==> g == f
    ensures g.role == f.role
  {
    match id
    case "fullName" => f.(fullName := value)
    case "email" => f.(email := value)
    case "password" => f.(password := value)
    case "confirmPassword" => f.(confirmPassword := value)
    case "studentId" => f.(studentId := value)
    case "phone" => f.(phone := value)
    case _ => f
  }

  /** `handleRoleChange`. */
  function WithRole(f: SignupForm, value: string): (g: SignupForm)
    ensures g.role == value
    ensures g.(role := f.role) == f
  {
    f.(role := value)
  }

  predicate MissingRequired(f: SignupForm) {
    f.fullName == "" || f.email == "" || f.password == "" || f.role == "" || f.studentId == ""
  }

  /**
    The checks of `handleSubmit`, in order; the first that fails names the
    message shown. Phone is optional.
  */
  function Validate(f: SignupForm, agreed: bool): (m: Option<string>)
    ensures MissingRequired(f) <==> m == Some(FillRequired)
    ensures m == Some(UseUmtcEmail) <==> !MissingRequired(f) && !EndsWith(f.email, UmtcSuffix)
    ensures m == Some(PasswordTooShort) <==> !MissingRequired(f) && EndsWith(f.email, UmtcSuffix) && |f.password| < 6
    ensures m == Some(PasswordsDiffer) <==>
              !MissingRequired(f) && EndsWith(f.email, UmtcSuffix) && |f.password| >= 6 && f.password != f.confirmPassword
    ensures m == Some(AgreeToTerms) <==>
              !MissingRequired(f) && EndsWith(f.email, UmtcSuffix) && |f.password| >= 6 && f.password == f.confirmPassword
              && !agreed
    ensures m.None? <==>
              !MissingRequired(f) && EndsWith(f.email, UmtcSuffix) && |f.password| >= 6 && f.password == f.confirmPassword
              && agreed
  {
    assert |FillRequired| == 34 && |UseUmtcEmail| == 34 && |PasswordTooShort| == 38;
    assert |PasswordsDiffer| == 22 && |AgreeToTerms| == 40;
    assert FillRequired[7] != UseUmtcEmail[7];
    if MissingRequired(f) then Some(FillRequired)
    else if !EndsWith(f.email, UmtcSuffix) then Some(UseUmtcEmail)
    else if |f.password| < 6 then Some(PasswordTooShort)
    else if f.password != f.confirmPassword then Some(PasswordsDiffer)
    else if !agreed then Some(AgreeToTerms)
    else None
  }

  /** The data sent to `register`, with organization and department fixed. */
  function Payload(f: SignupForm): AuthService.RegisterData
  {
    AuthService.RegisterData(f.fullName, f.email, f.password, f.role, f.studentId, Some(f.phone),
                             Some("Computer Debuggers Society"), Some("Department of Computing Education"))
  }

  datatype Submission = Rejected(message: string) | Send(data: AuthService.RegisterData)

  /** `handleSubmit`: the first failing check is shown; only a form passing all of them is sent. */
  function Submit(f: SignupForm, agreed: bool): (s: Submission)
    ensures s.Send? <==> Validate(f, agreed).None?
    ensures s.Rejected? ==> Some(s.message) == Validate(f, agreed)
    ensures s.Send? ==> s.data == Payload(f)
  {
    match Validate(f, agreed)
    case Some(m) => Rejected(m)
    case None => Send(Payload(f))
  }

  /**
    A profile made from a submitted form has every required field, a UMTC
    address, a password of at least six characters behind it, and the fixed
    organization and department.
  */
  lemma SubmittedProfile(f: SignupForm, agreed: bool, uid: string, now: string)
    requires Submit(f, agreed).Send?
    ensures var u := AuthService.NewUserData(uid, Submit(f, agreed).data, now);
            u.fullName != "" && u.role != "" && u.studentId != "" && EndsWith(u.email, UmtcSuffix)
            && u.organization == AuthService.DefaultOrganization && u.department == AuthService.DefaultDepartment
            && u.phone == f.phone
    ensures |Submit(f, agreed).data.password| >= 6
  {
  }

  /** Editing the confirmation field never changes the result of the checks before the match check. */
  lemma ConfirmOnlyAffectsMatch(f: SignupForm, agreed: bool, value: string)
    requires Validate(f, agreed) in {Some(FillRequired), Some(UseUmtcEmail), Some(PasswordTooShort)}
    ensures Validate(WithInput(f, "confirmPassword", value), agreed) == Validate(f, agreed)
  {
  }
}
