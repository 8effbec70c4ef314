/**
 * The `Register` component as an object: its seven `useState` slots are the
 * fields, its event handlers the methods. Each method is specified by the
 * transition of `FormModel` or the dispatcher of `Submission` that states
 * what it does; the properties of those are proved there.
 */
module Register {
  import opened Wrappers
  import opened Validation
  import opened FormModel
  import opened Effects
  import opened Submission

  class FormState {
    var isSignUp: bool
    var name: string
    var email: string
    var cnic: string
    var password: string
    var confirmPassword: string
    var role: string

    /** The current state as a value. */
    function Snapshot(): Form
      reads this
    {
      Form(isSignUp, name, email, cnic, password, confirmPassword, role)
    }

    /** Mounting: every `useState` takes its initial value. */
    constructor ()
      ensures Snapshot() == Initial
    {
      isSignUp, name, email, cnic, password, confirmPassword, role := false, "", "", "", "", "", "";
    }

    /** The `useEffect` on `location.search`, given `params.get('role')`. */
    method ApplyRoleFromUrl(roleFromUrl: Option<string>)
      modifies this
      ensures Snapshot() == WithRoleParam(old(Snapshot()), roleFromUrl)
    {
      if roleFromUrl.Some? && roleFromUrl.value != "" {
        role := roleFromUrl.value;
        isSignUp := true;
      }
    }

    /** `handleSignUp`. */
    method HandleSignUp()
      modifies this
      ensures Snapshot() == WithMode(old(Snapshot()), true)
    {
      isSignUp := true;
    }

    /** `handleSignIn`. */
    method HandleSignIn()
      modifies this
      ensures Snapshot() == WithMode(old(Snapshot()), false)
    {
      isSignUp := false;
    }

    /** `handleInputChange(setter)(e)` for the setter of `field`, with `e.target.value == value`. */
    method HandleInputChange(field: Field, value: string)
      modifies this
      ensures Snapshot() == WithInput(old(Snapshot()), field, value)
    {
      match field
      case Name => name := value;
      case Email => email := value;
      case Password => password := value;
      case ConfirmPassword => confirmPassword := value;
      case Role => role := value;
    }

    /** `handleCnicChange(e)` with `e.target.value == raw`. */
    method HandleCnicChange(raw: string)
      modifies this
      ensures Snapshot() == WithCnicInput(old(Snapshot()), raw)
    {
      cnic := DigitsOnly(raw);
    }

    /** The derived `disabled` attribute of a submit button, recomputed from the current fields. */
    function IsDisabled(b: Button): (r: bool)
      reads this
      ensures b == SignInButton ==> !r
      ensures b == SignUpButton ==>
                (!r <==> EmailValid(email) && CnicValid(cnic) && PasswordsMatch(password, confirmPassword) && role != "")
    {
      Disabled(Snapshot(), b)
    }

    /**
     * `handleSubmit`: builds the request for the current mode, and carries out
     * on `env` the effects of `outcome`, the result of sending it. The form's
     * own state does not change.
     */
    method HandleSubmit(outcome: Outcome, env: Browser) returns (request: Request)
      modifies env
      ensures request == RequestFor(Snapshot())
      ensures env.View() == ApplyAll(old(env.View()), Dispatch(Snapshot(), outcome))
    {
      var url := if isSignUp then SignUpUrl else LoginUrl;
      var payload := if isSignUp then SignUpPayload(name, email, cnic, password, role)
                     else SignInPayload(email, password, role);
      request := Request("POST", url, JsonContentType, payload);

      ghost var w := env.View();
      ghost var es := Dispatch(Snapshot(), outcome);
      match outcome
      case Thrown(message) =>
        env.ShowToast(Toast(Error, Some(ErrorText(isSignUp, message))));
        assert es[1..] == [];
      case Responded(status, data) =>
        if IsOk(status) {
          if isSignUp {
            env.ShowToast(Toast(Success, data.message));
            assert es[1..] == [];
          } else {
            env.ShowToast(Toast(Success, data.message));
            if HasUserId(data.user) {
              env.SessionSetItem(LoggedInUserKey, data.user.value.id.value);
            }
            env.LocalSetItem(TokenKey, StorageText(data.token));
            env.NavigateTo(DashboardPath(role));
            SignInSuccess(w, Snapshot(), status, data);
          }
        } else {
          env.ShowToast(Toast(Error, data.message));
          assert es[1..] == [];
        }
    }
  }

  /**
   * A session of the component: mount with `?role=agent`, fill in the sign-up
   * form and submit it; the button is enabled, the sign-up request carries the
   * entered values, and a successful response only shows a toast.
   */
  method SignUpSession(env: Browser, b: Body) returns (form: FormState, request: Request)
    modifies env
    ensures fresh(form)
    ensures !form.IsDisabled(SignUpButton)
    ensures request.url == SignUpUrl
    ensures request.payload == SignUpPayload("Ali", "x@y.com", "1234567890123", "pw1", "agent")
    ensures env.View() == old(env.View()).(toasts := old(env.toasts) + [Toast(Success, b.message)])
  {
    form := new FormState();
    form.ApplyRoleFromUrl(Some("agent"));
    form.HandleInputChange(Name, "Ali");
    form.HandleInputChange(Email, "x@y.com");
    form.HandleCnicChange("1234567890123");
    form.HandleInputChange(Password, "pw1");
    form.HandleInputChange(ConfirmPassword, "pw1");
    CnicExamples();
    DigitsOnlyFixpoint("1234567890123");
    assert form.Snapshot() == Form(true, "Ali", "x@y.com", "1234567890123", "pw1", "pw1", "agent");
    EnabledExample(true, "Ali", "agent");
    request := form.HandleSubmit(Responded(201, b), env);
    SignUpSuccess(old(env.View()), form.Snapshot(), 201, b);
  }
}
