/**
 * The registration form's validation: an ordered chain of guards in which the
 * first failing check picks the single error message shown; when every check
 * passes the form is accepted.
 */
module Register {

  /** The roles a new account may ask for. */
  datatype RegistrationRole = Member | AdminCabang

  datatype RegisterForm = RegisterForm(
    name: string,
    email: string,
    phone: string,
    nik: string,
    password: string,
    confirmPassword: string,
    selectedRole: RegistrationRole,
    branch: string)

  /** The form as the screen first shows it: every field empty, role `member`. */
  function InitialForm(): (f: RegisterForm)
    ensures f.selectedRole == Member
    ensures f.name == f.email == f.phone == f.nik == f.password == f.confirmPassword == f.branch == ""
  {
    RegisterForm("", "", "", "", "", "", Member, "")
  }

  const RequiredMessage: string := "Semua field harus diisi"
  const MismatchMessage: string := "Password tidak cocok"
  const NikMessage: string := "NIK harus 16 digit"
  const BranchMessage: string := "Cabang harus diisi untuk Admin Cabang"

  /** The length a NIK (national identity number) must have. */
  const NikLength: nat := 16

  datatype RegisterOutcome = Rejected(message: string) | Accepted

  /** One of the six always-required fields is empty (the branch is not among them). */
  predicate MissingRequired(f: RegisterForm) {
    f.name == "" || f.email == "" || f.phone == "" || f.nik == "" || f.password == "" || f.confirmPassword == ""
  }

  /** The branch check: only an `admin_cabang` registration needs a branch. */
  predicate BranchMissing(f: RegisterForm) {
    f.selectedRole == AdminCabang && f.branch == ""
  }

  /**
   * `handleRegister`'s decision. Each message is reported exactly when its
   * check fails and every earlier check passed; the form is accepted exactly
   * when all four checks pass.
   */
  function ValidateRegistration(f: RegisterForm): (r: RegisterOutcome)
    ensures r == Rejected(RequiredMessage) <==> MissingRequired(f)
    ensures r == Rejected(MismatchMessage) <==> !MissingRequired(f) && f.password != f.confirmPassword
    ensures r == Rejected(NikMessage) <==>
      !MissingRequired(f) && f.password == f.confirmPassword && |f.nik| != NikLength
    ensures r == Rejected(BranchMessage) <==>
      !MissingRequired(f) && f.password == f.confirmPassword && |f.nik| == NikLength && BranchMissing(f)
    ensures r.Accepted? <==>
      !MissingRequired(f) && f.password == f.confirmPassword && |f.nik| == NikLength && !BranchMissing(f)
  {
    if MissingRequired(f) then
      Rejected(RequiredMessage)
    else if f.password != f.confirmPassword then
      Rejected(MismatchMessage)
    else if |f.nik| != NikLength then
      Rejected(NikMessage)
    else if BranchMissing(f) then
      Rejected(BranchMessage)
    else
      Accepted
  }

  /** The decision only ever reports one of the four messages. */
  lemma RejectionMessages(f: RegisterForm)
    ensures ValidateRegistration(f).Rejected? ==>
      ValidateRegistration(f).message in {RequiredMessage, MismatchMessage, NikMessage, BranchMessage}
  {
  }

  /** For a `member` registration the branch field never affects the outcome. */
  lemma BranchIgnoredForMember(f: RegisterForm, branch: string)
    requires f.selectedRole == Member
    ensures ValidateRegistration(f.(branch := branch)) == ValidateRegistration(f)
  {
  }

  /** Only the NIK's length is checked: any sixteen characters pass that check. */
  lemma NikContentNotChecked(f: RegisterForm, nik: string)
    requires |f.nik| == NikLength && |nik| == NikLength
    ensures ValidateRegistration(f.(nik := nik)) == ValidateRegistration(f)
  {
  }

  /** The untouched form is rejected for its empty fields, and a complete one is accepted. */
  lemma ExampleForms()
    ensures ValidateRegistration(InitialForm()) == Rejected(RequiredMessage)
    ensures ValidateRegistration(RegisterForm("Ahmad", "a@nu.or.id", "0812", "3578012345678901",
                                              "rahasia", "rahasia", Member, "")) == Accepted
    ensures ValidateRegistration(RegisterForm("Siti", "s@nu.or.id", "0813", "3578012345678901",
                                              "rahasia", "rahasia", AdminCabang, "")) == Rejected(BranchMessage)
  {
  }

  /**
   * The screen's `error` field: a rejection replaces it with the message; an
   * accepted form leaves it as it was (it is not cleared).
   */
  function ErrorAfter(previous: string, f: RegisterForm): (e: string)
    ensures ValidateRegistration(f).Rejected? ==> e == ValidateRegistration(f).message
    ensures ValidateRegistration(f).Accepted? ==> e == previous
  {
    match ValidateRegistration(f)
    case Rejected(message) => message
    case Accepted => previous
  }

  /** The registration screen's `error` state. */
  class RegisterScreen {
    var error: string

    constructor ()
      ensures error == ""
    {
      error := "";
    }

    /**
     * `handleRegister`: runs the checks; on a rejection sets `error` to its
     * message, on acceptance leaves `error` alone and takes the success path.
     */
    method HandleRegister(f: RegisterForm) returns (outcome: RegisterOutcome)
      modifies this
      ensures outcome == ValidateRegistration(f)
      ensures error == ErrorAfter(old(error), f)
    {
      outcome := ValidateRegistration(f);
      if outcome.Rejected? {
        error := outcome.message;
      }
    }
  }
}
