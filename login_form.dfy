/** The login wizard of the portal (src/components/LoginForm.tsx): one `LoginState`
    record that every step handler changes by merging a partial update into it. */
module LoginFlow {
  import opened JsValues

  datatype Role = Beneficiary | Employee | Admin

  /** What the user-type selection screen reports: a role, or "register as a new beneficiary". */
  datatype Choice = PickRole(role: Role) | NewBeneficiaryChoice

  /** The wizard step. The step is a string in the source, so a tag outside the six
      known ones is representable; it is rendered like `selection`. `Unrecognised`
      stands only for such a tag: one of the six names is always its own constructor. */
  datatype Step =
    | Selection
    | NewBeneficiary
    | Success
    | NationalId
    | Otp
    | AdminLogin
    | Unrecognised(tag: string)

  /** `LoginState`; `null` is None, the registered user record is an arbitrary value. */
  datatype LoginState = LoginState(
    step: Step,
    userType: Option<Role>,
    sessionId: Option<int>,
    nationalId: string,
    otp: string,
    email: string,
    password: string,
    isLoading: bool,
    error: Option<string>,
    user: Json)

  /** `Partial<LoginState>`: a key that is present carries its new value. */
  datatype Partial = Partial(
    step: Option<Step>,
    userType: Option<Option<Role>>,
    sessionId: Option<Option<int>>,
    nationalId: Option<string>,
    otp: Option<string>,
    email: Option<string>,
    password: Option<string>,
    isLoading: Option<bool>,
    error: Option<Option<string>>,
    user: Option<Json>)

  const NoKeys := Partial(None, None, None, None, None, None, None, None, None, None)

  /** The state the wizard starts in. */
  function Initial(): (s: LoginState)
    ensures s.step == Selection && s.userType == None && s.sessionId == None
    ensures s.nationalId == "" && s.otp == "" && s.email == "" && s.password == ""
    ensures !s.isLoading && s.error == None && s.user == JNull
  {
    LoginState(Selection, None, None, "", "", "", "", false, None, JNull)
  }

  function Pick<T>(update: Option<T>, current: T): T {
    if update.Some? then update.value else current
  }

  /** `{ ...prev, ...updates }`. */
  function Merge(s: LoginState, u: Partial): LoginState {
    LoginState(
      Pick(u.step, s.step), Pick(u.userType, s.userType), Pick(u.sessionId, s.sessionId),
      Pick(u.nationalId, s.nationalId), Pick(u.otp, s.otp), Pick(u.email, s.email),
      Pick(u.password, s.password), Pick(u.isLoading, s.isLoading), Pick(u.error, s.error),
      Pick(u.user, s.user))
  }

  /** The keys an update object carries. */
  function Keys(u: Partial): set<string> {
    (if u.step.Some? then {"step"} else {}) +
    (if u.userType.Some? then {"userType"} else {}) +
    (if u.sessionId.Some? then {"sessionId"} else {}) +
    (if u.nationalId.Some? then {"nationalId"} else {}) +
    (if u.otp.Some? then {"otp"} else {}) +
    (if u.email.Some? then {"email"} else {}) +
    (if u.password.Some? then {"password"} else {}) +
    (if u.isLoading.Some? then {"isLoading"} else {}) +
    (if u.error.Some? then {"error"} else {}) +
    (if u.user.Some? then {"user"} else {})
  }

  /** The names of the fields on which two states differ. */
  function Differing(s: LoginState, t: LoginState): set<string> {
    (if s.step != t.step then {"step"} else {}) +
    (if s.userType != t.userType then {"userType"} else {}) +
    (if s.sessionId != t.sessionId then {"sessionId"} else {}) +
    (if s.nationalId != t.nationalId then {"nationalId"} else {}) +
    (if s.otp != t.otp then {"otp"} else {}) +
    (if s.email != t.email then {"email"} else {}) +
    (if s.password != t.password then {"password"} else {}) +
    (if s.isLoading != t.isLoading then {"isLoading"} else {}) +
    (if s.error != t.error then {"error"} else {}) +
    (if s.user != t.user then {"user"} else {})
  }

  /** Two states agree on every field outside `keys`. */
  predicate SameExcept(s: LoginState, t: LoginState, keys: set<string>) {
    Differing(s, t) <= keys
  }

  /** `updateState` only changes keys the update carries, and every key it carries
      ends up holding the update's value. */
  lemma MergeOverwritesPresentKeys(s: LoginState, u: Partial)
    ensures SameExcept(s, Merge(s, u), Keys(u))
    ensures u.step.Some? ==> Merge(s, u).step == u.step.value
    ensures u.userType.Some? ==> Merge(s, u).userType == u.userType.value
    ensures u.sessionId.Some? ==> Merge(s, u).sessionId == u.sessionId.value
    ensures u.nationalId.Some? ==> Merge(s, u).nationalId == u.nationalId.value
    ensures u.otp.Some? ==> Merge(s, u).otp == u.otp.value
    ensures u.email.Some? ==> Merge(s, u).email == u.email.value
    ensures u.password.Some? ==> Merge(s, u).password == u.password.value
    ensures u.isLoading.Some? ==> Merge(s, u).isLoading == u.isLoading.value
    ensures u.error.Some? ==> Merge(s, u).error == u.error.value
    ensures u.user.Some? ==> Merge(s, u).user == u.user.value
  {
  }

  /** An empty update leaves the state as it is, and applying the same update twice
      is the same as applying it once. */
  lemma MergeIdentityAndIdempotence(s: LoginState, u: Partial)
    ensures Merge(s, NoKeys) == s
    ensures Merge(Merge(s, u), u) == Merge(s, u)
  {
  }

  // The update object each handler of LoginForm passes to updateState.

  function SelectUpdate(c: Choice): Partial {
    match c
    case NewBeneficiaryChoice => NoKeys.(step := Some(NewBeneficiary))
    case PickRole(Admin) => NoKeys.(userType := Some(Some(Admin)), step := Some(AdminLogin))
    case PickRole(r) => NoKeys.(userType := Some(Some(r)), step := Some(NationalId))
  }

  const BackToSelectionUpdate := NoKeys.(
    step := Some(Selection), userType := Some(None), nationalId := Some(""), otp := Some(""),
    email := Some(""), password := Some(""), error := Some(None))

  function NewBeneficiaryCompleteUpdate(userData: Json): Partial {
    NoKeys.(user := Some(userData), step := Some(Success))
  }

  function NationalIdNextUpdate(session: int): Partial {
    NoKeys.(step := Some(Otp), sessionId := Some(Some(session)))
  }

  const OtpBackUpdate := NoKeys.(step := Some(NationalId), otp := Some(""), sessionId := Some(None))

  /** Which fields each handler may touch, and what it writes into them. */
  lemma HandlerUpdateKeys(c: Choice, session: int, userData: Json)
    ensures c == NewBeneficiaryChoice ==> Keys(SelectUpdate(c)) == {"step"}
    ensures c.PickRole? ==> Keys(SelectUpdate(c)) == {"userType", "step"}
    ensures SelectUpdate(c).step.value == (
      match c
      case NewBeneficiaryChoice => NewBeneficiary
      case PickRole(Admin) => AdminLogin
      case PickRole(_) => NationalId)
    ensures c.PickRole? ==> SelectUpdate(c).userType == Some(Some(c.role))
    ensures Keys(BackToSelectionUpdate) ==
      {"step", "userType", "nationalId", "otp", "email", "password", "error"}
    ensures Keys(NationalIdNextUpdate(session)) == {"step", "sessionId"}
    ensures Keys(OtpBackUpdate) == {"step", "otp", "sessionId"}
    ensures Keys(NewBeneficiaryCompleteUpdate(userData)) == {"user", "step"}
  {
  }

  /** The screen `renderStep` shows for a step; unknown steps fall back to selection. */
  datatype View =
    | UserTypeSelectionView
    | NewBeneficiaryRegistrationView
    | RegistrationSuccessView
    | NationalIdFormView
    | OtpVerificationView
    | AdminLoginView

  function RenderStep(step: Step): (v: View)
    ensures step.Unrecognised? ==> v == UserTypeSelectionView
    ensures v == UserTypeSelectionView <==> step == Selection || step.Unrecognised?
  {
    match step
    case Selection => UserTypeSelectionView
    case NewBeneficiary => NewBeneficiaryRegistrationView
    case Success => RegistrationSuccessView
    case NationalId => NationalIdFormView
    case Otp => OtpVerificationView
    case AdminLogin => AdminLoginView
    case Unrecognised(_) => UserTypeSelectionView
  }

  /** A callback a step screen can invoke on the wizard. */
  datatype Event =
    | SelectType(choice: Choice)
    | NationalIdChanged(nationalIdValue: string)
    | NationalIdNext(session: int)
    | OtpChanged(otpValue: string)
    | OtpBack
    | EmailChanged(emailValue: string)
    | PasswordChanged(passwordValue: string)
    | BackToSelection
    | NewBeneficiaryComplete(userData: Json)
    | LoginSuccess
    | CompleteRegistration

  /** What a handler asks of the host page besides the state change. */
  datatype Effect = NoEffect | ReloadPage

  /** The callbacks `renderStep` wires into the screen it shows. */
  predicate Offered(v: View, e: Event) {
    match v
    case UserTypeSelectionView => e.SelectType?
    case NewBeneficiaryRegistrationView => e.NewBeneficiaryComplete? || e.BackToSelection?
    case RegistrationSuccessView => e.CompleteRegistration?
    case NationalIdFormView => e.NationalIdChanged? || e.NationalIdNext? || e.BackToSelection?
    case OtpVerificationView => e.OtpChanged? || e.OtpBack? || e.LoginSuccess?
    case AdminLoginView =>
      e.EmailChanged? || e.PasswordChanged? || e.BackToSelection? || e.LoginSuccess?
  }

  /** The update a callback merges into the state. */
  function UpdateFor(e: Event): Partial {
    match e
    case SelectType(c) => SelectUpdate(c)
    case NationalIdChanged(v) => NoKeys.(nationalId := Some(v))
    case NationalIdNext(session) => NationalIdNextUpdate(session)
    case OtpChanged(v) => NoKeys.(otp := Some(v))
    case OtpBack => OtpBackUpdate
    case EmailChanged(v) => NoKeys.(email := Some(v))
    case PasswordChanged(v) => NoKeys.(password := Some(v))
    case BackToSelection => BackToSelectionUpdate
    case NewBeneficiaryComplete(u) => NewBeneficiaryCompleteUpdate(u)
    case LoginSuccess => NoKeys
    case CompleteRegistration => NoKeys
  }

  function EffectOf(e: Event): Effect {
    if e.LoginSuccess? || e.CompleteRegistration? then ReloadPage else NoEffect
  }

  function Apply(s: LoginState, e: Event): LoginState {
    Merge(s, UpdateFor(e))
  }

  /** Runs a sequence of callbacks from state `s`. */
  function Run(s: LoginState, es: seq<Event>): LoginState
    decreases |es|
  {
    if es == [] then s else Run(Apply(s, es[0]), es[1..])
  }

  /** Every callback in `es` is one the screen showing at that moment offers. */
  predicate Admissible(s: LoginState, es: seq<Event>)
    decreases |es|
  {
    es == [] || (Offered(RenderStep(s.step), es[0]) && Admissible(Apply(s, es[0]), es[1..]))
  }

  predicate NonAdminRole(r: Option<Role>) {
    r == Some(Beneficiary) || r == Some(Employee)
  }

  /** What holds of every state the wizard can reach from `Initial()`: which role and
      session each step carries, which inputs are still empty, and that the loading
      flag, the error and the user record are never set outside their step. */
  predicate WellFormed(s: LoginState) {
    && !s.isLoading
    && s.error == None
    && (s.step != Success ==> s.user == JNull)
    && match s.step
       case Selection =>
         s.userType == None && s.sessionId == None && s.nationalId == "" && s.otp == ""
         && s.email == "" && s.password == ""
       case NewBeneficiary =>
         s.userType == None && s.sessionId == None && s.nationalId == "" && s.otp == ""
         && s.email == "" && s.password == ""
       case Success =>
         s.userType == None && s.sessionId == None && s.nationalId == "" && s.otp == ""
         && s.email == "" && s.password == ""
       case NationalId =>
         NonAdminRole(s.userType) && s.sessionId == None && s.otp == ""
         && s.email == "" && s.password == ""
       case Otp =>
         NonAdminRole(s.userType) && s.sessionId.Some? && s.email == "" && s.password == ""
       case AdminLogin =>
         s.userType == Some(Admin) && s.sessionId == None && s.nationalId == "" && s.otp == ""
       case Unrecognised(_) => false
  }

  lemma InitialWellFormed()
    ensures WellFormed(Initial())
  {
  }

  /** One offered callback keeps the wizard well formed. */
  lemma ApplyPreservesWellFormed(s: LoginState, e: Event)
    requires WellFormed(s)
    requires Offered(RenderStep(s.step), e)
    ensures WellFormed(Apply(s, e))
  {
  }

  /** Any run of offered callbacks from a well-formed state stays well formed. */
  lemma {:induction false} RunPreservesWellFormed(s: LoginState, es: seq<Event>)
    requires WellFormed(s)
    requires Admissible(s, es)
    ensures WellFormed(Run(s, es))
    decreases |es|
  {
    if es != [] {
      ApplyPreservesWellFormed(s, es[0]);
      RunPreservesWellFormed(Apply(s, es[0]), es[1..]);
    }
  }

  /** On every path from the start, arriving at the national-ID step finds no stored
      session and an empty OTP, the OTP step always has a session, and the fallback
      branch of `renderStep` is never taken. */
  lemma ReachableStates(es: seq<Event>)
    requires Admissible(Initial(), es)
    ensures var s := Run(Initial(), es);
      && (s.step == NationalId ==> s.sessionId == None && s.otp == "")
      && (s.step == Otp ==> s.sessionId.Some? && NonAdminRole(s.userType))
      && (s.step == AdminLogin ==> s.userType == Some(Admin))
      && !s.step.Unrecognised?
  {
    InitialWellFormed();
    RunPreservesWellFormed(Initial(), es);
  }

  /** The handlers do not check the step they fire on. A national-ID lookup that
      resolves after the user went back to selection still moves the wizard to the OTP
      step, now without a role: such a run is outside `Admissible`, and the invariant
      does not cover it. */
  lemma LateLookupAfterBackLeavesInvariant(s: LoginState, session: int)
    requires WellFormed(s) && s.step == NationalId
    ensures var back := Apply(s, BackToSelection);
      var late := Apply(back, NationalIdNext(session));
      && back.step == Selection
      && !Offered(RenderStep(back.step), NationalIdNext(session))
      && late.step == Otp && late.userType == None && late.sessionId == Some(session)
      && !WellFormed(late)
  {
  }

  /** Going back to selection keeps `sessionId` and `user`; on reachable states both
      are already empty there, so nothing stale survives the reset. */
  lemma BackToSelectionLeavesNothingStale(s: LoginState)
    requires WellFormed(s)
    requires Offered(RenderStep(s.step), BackToSelection)
    ensures Apply(s, BackToSelection).sessionId == s.sessionId == None
    ensures Apply(s, BackToSelection).user == s.user == JNull
  {
  }

  /** Registering a new beneficiary and completing it carries exactly the registered
      record into the success step, and the success screen then reloads the page. */
  lemma RegistrationRoundTrip(userData: Json)
    ensures var es := [SelectType(NewBeneficiaryChoice), NewBeneficiaryComplete(userData)];
      && Admissible(Initial(), es)
      && Run(Initial(), es).step == Success
      && Run(Initial(), es).user == userData
      && Offered(RenderStep(Run(Initial(), es).step), CompleteRegistration)
      && EffectOf(CompleteRegistration) == ReloadPage
  {
    var es := [SelectType(NewBeneficiaryChoice), NewBeneficiaryComplete(userData)];
    var s1 := Apply(Initial(), es[0]);
    var s2 := Apply(s1, es[1]);
    assert es[1..][0] == es[1] && es[1..][1..] == [];
    assert Run(s1, es[1..]) == Run(s2, []) == s2;
    assert Admissible(s1, es[1..]);
  }

  /** The wizard of LoginForm.tsx: the fields of its one `LoginState`, changed by one
      method per handler. */
  class LoginForm {
    var step: Step
    var userType: Option<Role>
    var sessionId: Option<int>
    var nationalId: string
    var otp: string
    var email: string
    var password: string
    var isLoading: bool
    var error: Option<string>
    var user: Json

    function State(): LoginState
      reads this
    {
      LoginState(step, userType, sessionId, nationalId, otp, email, password, isLoading, error, user)
    }

    constructor ()
      ensures State() == Initial()
    {
      step, userType, sessionId := Selection, None, None;
      nationalId, otp, email, password := "", "", "", "";
      isLoading, error, user := false, None, JNull;
    }

    /** `updateState`: merge the keys present in `u`, keep every other field. */
    method UpdateState(u: Partial)
      modifies this
      ensures State() == Merge(old(State()), u)
    {
      step, userType, sessionId := Pick(u.step, step), Pick(u.userType, userType), Pick(u.sessionId, sessionId);
      nationalId, otp := Pick(u.nationalId, nationalId), Pick(u.otp, otp);
      email, password := Pick(u.email, email), Pick(u.password, password);
      isLoading, error, user := Pick(u.isLoading, isLoading), Pick(u.error, error), Pick(u.user, user);
    }

    method HandleUserTypeSelect(c: Choice)
      modifies this
      ensures State() == Apply(old(State()), SelectType(c))
      ensures c == NewBeneficiaryChoice ==>
        step == NewBeneficiary && SameExcept(old(State()), State(), {"step"})
      ensures c == PickRole(Admin) ==> step == AdminLogin && userType == Some(Admin)
      ensures c == PickRole(Beneficiary) ==> step == NationalId && userType == Some(Beneficiary)
      ensures c == PickRole(Employee) ==> step == NationalId && userType == Some(Employee)
      ensures SameExcept(old(State()), State(), {"step", "userType"})
    {
      UpdateState(SelectUpdate(c));
    }

    method HandleBackToSelection()
      modifies this
      ensures State() == Apply(old(State()), BackToSelection)
      ensures step == Selection && userType == None && error == None
      ensures nationalId == "" && otp == "" && email == "" && password == ""
      ensures sessionId == old(sessionId) && user == old(user) && isLoading == old(isLoading)
    {
      UpdateState(BackToSelectionUpdate);
    }

    method HandleNewBeneficiaryComplete(userData: Json)
      modifies this
      ensures State() == Apply(old(State()), NewBeneficiaryComplete(userData))
      ensures user == userData && step == Success
      ensures SameExcept(old(State()), State(), {"user", "step"})
    {
      UpdateState(NewBeneficiaryCompleteUpdate(userData));
    }

    method HandleNationalIdNext(session: int)
      modifies this
      ensures State() == Apply(old(State()), NationalIdNext(session))
      ensures step == Otp && sessionId == Some(session)
      ensures SameExcept(old(State()), State(), {"step", "sessionId"})
    {
      UpdateState(NationalIdNextUpdate(session));
    }

    method HandleOtpBack()
      modifies this
      ensures State() == Apply(old(State()), OtpBack)
      ensures step == NationalId && otp == "" && sessionId == None
      ensures SameExcept(old(State()), State(), {"step", "otp", "sessionId"})
    {
      UpdateState(OtpBackUpdate);
    }

    /** The inline `onNationalIdChange`, `onOtpChange`, `onEmailChange` and
        `onPasswordChange` callbacks each write one input field. */
    method HandleFieldChange(e: Event)
      requires e.NationalIdChanged? || e.OtpChanged? || e.EmailChanged? || e.PasswordChanged?
      modifies this
      ensures State() == Apply(old(State()), e)
      ensures e.NationalIdChanged? ==>
        nationalId == e.nationalIdValue && SameExcept(old(State()), State(), {"nationalId"})
      ensures e.OtpChanged? ==> otp == e.otpValue && SameExcept(old(State()), State(), {"otp"})
      ensures e.EmailChanged? ==>
        email == e.emailValue && SameExcept(old(State()), State(), {"email"})
      ensures e.PasswordChanged? ==>
        password == e.passwordValue && SameExcept(old(State()), State(), {"password"})
    {
      UpdateState(UpdateFor(e));
    }

    /** `handleLoginSuccess` and `handleCompleteRegistration`: reload the page and
        leave the state alone. */
    method HandleReload() returns (effect: Effect)
      ensures effect == ReloadPage
    {
      effect := ReloadPage;
    }

    /** Routes a callback to its handler. */
    method Dispatch(e: Event) returns (effect: Effect)
      modifies this
      ensures State() == Apply(old(State()), e)
      ensures effect == EffectOf(e)
    {
      effect := NoEffect;
      match e
      case SelectType(c) => HandleUserTypeSelect(c);
      case NationalIdChanged(_) => HandleFieldChange(e);
      case NationalIdNext(session) => HandleNationalIdNext(session);
      case OtpChanged(_) => HandleFieldChange(e);
      case OtpBack => HandleOtpBack();
      case EmailChanged(_) => HandleFieldChange(e);
      case PasswordChanged(_) => HandleFieldChange(e);
      case BackToSelection => HandleBackToSelection();
      case NewBeneficiaryComplete(u) => HandleNewBeneficiaryComplete(u);
      case LoginSuccess => effect := HandleReload();
      case CompleteRegistration => effect := HandleReload();
    }
  }

  /** An employee signs in: the national-ID lookup yields session 42, a code is typed,
      and the user goes back from the OTP screen. */
  method EmployeeLoginScenario() {
    var form := new LoginForm();
    form.HandleUserTypeSelect(PickRole(Employee));
    assert form.step == NationalId && form.userType == Some(Employee);
    form.HandleFieldChange(NationalIdChanged("1234567890"));
    form.HandleNationalIdNext(42);
    assert form.step == Otp && form.sessionId == Some(42) && form.nationalId == "1234567890";
    form.HandleFieldChange(OtpChanged("0000"));
    form.HandleOtpBack();
    assert form.step == NationalId && form.sessionId == None && form.otp == "";
    assert form.nationalId == "1234567890" && form.userType == Some(Employee);
  }
}
