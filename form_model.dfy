/**
 * The state of the `Register` component as a value, the transitions its event
 * handlers make, and the enabled condition of its two submit buttons.
 *
 * `Form` holds the seven `useState` slots of Register.jsx; the class
 * `Register.FormState` has the same seven fields and each of its handlers is
 * specified by one transition below.
 */
module FormModel {
  import opened Wrappers
  import opened Validation

  /** The seven state slots, initialised as `useState` initialises them. */
  datatype Form = Form(
    isSignUp: bool,
    name: string,
    email: string,
    cnic: string,
    password: string,
    confirmPassword: string,
    role: string)

  /** The state when the component mounts: sign-in mode, every field empty. */
  const Initial: Form := Form(false, "", "", "", "", "", "")

  /** The six entered values, mode aside, are the same in `a` and `b`. */
  predicate SameEntries(a: Form, b: Form) {
    a.name == b.name && a.email == b.email && a.cnic == b.cnic &&
    a.password == b.password && a.confirmPassword == b.confirmPassword && a.role == b.role
  }

  // ---------------------------------------------------------------------------
  // Mode toggles: handleSignUp, handleSignIn

  /** `setIsSignUp(signUp)`: the mode changes and no entered value is cleared. */
  function WithMode(f: Form, signUp: bool): (r: Form)
    ensures r.isSignUp == signUp
    ensures SameEntries(r, f)
  {
    f.(isSignUp := signUp)
  }

  /** Toggling back and forth restores the original state; each toggle is idempotent. */
  lemma ModeToggleRoundTrip(f: Form)
    ensures WithMode(WithMode(f, !f.isSignUp), f.isSignUp) == f
    ensures WithMode(WithMode(f, true), true) == WithMode(f, true)
    ensures WithMode(WithMode(f, false), false) == WithMode(f, false)
  {
  }

  // ---------------------------------------------------------------------------
  // Plain setters: handleInputChange(setter)

  /** The state slots that the form's inputs set through `handleInputChange`. */
  datatype Field = Name | Email | Password | ConfirmPassword | Role

  /** The value currently held by `field`. */
  function Get(f: Form, field: Field): string {
    match field
    case Name => f.name
    case Email => f.email
    case Password => f.password
    case ConfirmPassword => f.confirmPassword
    case Role => f.role
  }

  /** `setter(e.target.value)`: `field` takes the typed value verbatim; nothing else changes. */
  function WithInput(f: Form, field: Field, value: string): (r: Form)
    ensures Get(r, field) == value
    ensures forall g :: g != field ==> Get(r, g) == Get(f, g)
    ensures r.isSignUp == f.isSignUp && r.cnic == f.cnic
  {
    match field
    case Name => f.(name := value)
    case Email => f.(email := value)
    case Password => f.(password := value)
    case ConfirmPassword => f.(confirmPassword := value)
    case Role => f.(role := value)
  }

  /** Writing back the value a field already holds changes nothing; a later write wins. */
  lemma InputOverwrite(f: Form, field: Field, v: string, w: string)
    ensures WithInput(f, field, Get(f, field)) == f
    ensures WithInput(WithInput(f, field, v), field, w) == WithInput(f, field, w)
  {
  }

  // ---------------------------------------------------------------------------
  // The CNIC handler: handleCnicChange

  /** `setCnic(value.replace(/[^\d]/g, ""))`: only the CNIC changes, to the digits of the input. */
  function WithCnicInput(f: Form, raw: string): (r: Form)
    ensures AllDigits(r.cnic)
    ensures |r.cnic| <= |raw|
    ensures r.cnic == DigitsOnly(raw)
    ensures r.isSignUp == f.isSignUp && forall g :: Get(r, g) == Get(f, g)
  {
    f.(cnic := DigitsOnly(raw))
  }

  /**
   * The CNIC handler keeps every digit and nothing else, in the input's order,
   * without a length cap; feeding it the stored value again changes nothing.
   */
  lemma {:induction false} CnicInputProperties(f: Form, raw: string, c: char)
    ensures IsSubsequence(WithCnicInput(f, raw).cnic, raw)
    ensures IsDigit(c) ==> multiset(WithCnicInput(f, raw).cnic)[c] == multiset(raw)[c]
    ensures !IsDigit(c) ==> c !in WithCnicInput(f, raw).cnic
    ensures AllDigits(raw) ==> WithCnicInput(f, raw).cnic == raw
    ensures var g := WithCnicInput(f, raw); WithCnicInput(g, g.cnic) == g
  {
    DigitsOnlyIsSubsequence(raw);
    DigitsOnlyCounts(raw, c);
    DigitsOnlyFixpoint(raw);
    DigitsOnlyIdempotent(raw);
  }

  // ---------------------------------------------------------------------------
  // The URL initialiser: the useEffect on location.search

  /**
   * The URL initialiser (Register.jsx:22-25): a truthy role parameter becomes
   * the role and switches to sign-up mode. By JavaScript truthiness an absent
   * parameter (`null`) and an empty one are both ignored; any other value is
   * accepted as it is.
   */
  function WithRoleParam(f: Form, roleFromUrl: Option<string>): (r: Form)
    ensures roleFromUrl.Some? && roleFromUrl.value != "" ==>
              r.role == roleFromUrl.value && r.isSignUp &&
              r.name == f.name && r.email == f.email && r.cnic == f.cnic &&
              r.password == f.password && r.confirmPassword == f.confirmPassword
    ensures roleFromUrl.None? || roleFromUrl.value == "" ==> r == f
  {
    if roleFromUrl.Some? && roleFromUrl.value != "" then
      f.(role := roleFromUrl.value, isSignUp := true)
    else
      f
  }

  /** Mounting with `?role=agent` opens the sign-up panel with the agent role chosen. */
  lemma RoleParamExample()
    ensures WithRoleParam(Initial, Some("agent")) == Initial.(isSignUp := true, role := "agent")
    ensures WithRoleParam(Initial, None) == Initial
    ensures WithRoleParam(Initial, Some("")) == Initial
  {
  }

  // ---------------------------------------------------------------------------
  // The submit buttons

  /** The two submit buttons: of the sign-up form and of the sign-in form. */
  datatype Button = SignUpButton | SignInButton

  /**
   * The `disabled` attribute of a button (Register.jsx:111, 135): the Sign Up
   * button is disabled when any of the three validity flags is false or no
   * role is chosen; the Sign In button has no such attribute.
   */
  function Disabled(f: Form, b: Button): (r: bool)
    ensures b == SignInButton ==> !r
    ensures b == SignUpButton ==>
              (r <==> !(EmailValid(f.email) && CnicValid(f.cnic) &&
                        PasswordsMatch(f.password, f.confirmPassword) && |f.role| > 0))
  {
    match b
    case SignUpButton =>
      !EmailValid(f.email) || !CnicValid(f.cnic) || !PasswordsMatch(f.password, f.confirmPassword) || f.role == ""
    case SignInButton => false
  }

  /**
   * The Sign Up button is enabled exactly when the e-mail has an '@', the CNIC
   * is 13 digits, the passwords agree and a role is chosen; the Sign In button
   * is always enabled.
   */
  lemma EnabledIff(f: Form)
    ensures !Disabled(f, SignUpButton) <==>
              (exists i :: 0 <= i < |f.email| && f.email[i] == '@') &&
              |f.cnic| == 13 && AllDigits(f.cnic) &&
              f.password == f.confirmPassword &&
              |f.role| > 0
    ensures !Disabled(f, SignInButton)
  {
  }

  /** The gate depends on the entered values only, not on the mode. */
  lemma DisabledIgnoresMode(f: Form, b: Button, signUp: bool)
    ensures Disabled(WithMode(f, signUp), b) == Disabled(f, b)
  {
  }

  /** The name field plays no part in the gate. */
  lemma DisabledIgnoresName(f: Form, b: Button, v: string)
    ensures Disabled(WithInput(f, Name, v), b) == Disabled(f, b)
  {
  }

  /** With a freshly mounted form the Sign Up button is disabled. */
  lemma InitialDisabled()
    ensures Disabled(Initial, SignUpButton)
  {
  }

  /** The enabled scenario: a valid e-mail, 13 digits, equal passwords, a role; any name, either mode. */
  lemma EnabledExample(signUp: bool, name: string, role: string)
    requires role != ""
    ensures !Disabled(Form(signUp, name, "x@y.com", "1234567890123", "pw1", "pw1", role), SignUpButton)
  {
    assert "x@y.com"[1] == '@';
    CnicExamples();
  }
}
