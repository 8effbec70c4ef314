/**
 * The decision logic of `handleSubmit`: which request the form sends in each
 * mode, and which effects each outcome of that request produces.
 *
 * `fetch` and `response.json()` are not modelled; their result is an input,
 * `Outcome`: a response with its status category and decoded body, or a
 * thrown error with its message (a network failure and a body that is not
 * JSON both end up there).
 */
module Submission {
  import opened Wrappers
  import opened FormModel
  import opened Effects

  // ---------------------------------------------------------------------------
  // The request

  const SignUpUrl: string := "http://localhost:5000/api/signup"
  const LoginUrl: string := "http://localhost:5000/api/login"
  const JsonContentType: string := "application/json"

  /** The object passed to `JSON.stringify`, with the keys the source gives it. */
  datatype Payload =
    | SignUpPayload(name: string, email: string, cnic: string, password: string, role: string)
    | SignInPayload(email: string, password: string, role: string)

  /** The `fetch` call: `method: 'POST'`, a JSON content type, one of the two endpoints. */
  datatype Request = Request(httpMethod: string, url: string, contentType: string, payload: Payload)

  /** The endpoint and payload for the current mode. No validity check is made here. */
  function RequestFor(f: Form): (r: Request)
    ensures r.httpMethod == "POST" && r.contentType == JsonContentType
    ensures f.isSignUp ==>
              (r.url == SignUpUrl && r.payload == SignUpPayload(f.name, f.email, f.cnic, f.password, f.role))
    ensures !f.isSignUp ==>
              (r.url == LoginUrl && r.payload == SignInPayload(f.email, f.password, f.role))
  {
    var url := if f.isSignUp then SignUpUrl else LoginUrl;
    var payload := if f.isSignUp then SignUpPayload(f.name, f.email, f.cnic, f.password, f.role)
                   else SignInPayload(f.email, f.password, f.role);
    Request("POST", url, JsonContentType, payload)
  }

  /**
   * What leaves the form: the confirmation password never does, and in
   * sign-in mode neither do the name nor the CNIC. Two forms that agree on the
   * values a mode sends produce the same request in that mode.
   */
  lemma RequestDependsOnSentFields(f: Form, g: Form)
    requires f.isSignUp == g.isSignUp && f.email == g.email && f.password == g.password && f.role == g.role
    requires f.isSignUp ==> f.name == g.name && f.cnic == g.cnic
    ensures RequestFor(f) == RequestFor(g)
  {
  }

  /** The two modes send to different endpoints, so the mode can be read off the request. */
  lemma RequestUrlDeterminesMode(f: Form, g: Form)
    requires RequestFor(f).url == RequestFor(g).url
    ensures f.isSignUp == g.isSignUp
  {
    assert SignUpUrl[26] == 's' && LoginUrl[26] == 'l';
  }

  // ---------------------------------------------------------------------------
  // The outcome

  /** `user` in the body: an object whose `_id` may be missing. */
  datatype User = User(id: Option<string>)

  /** The members of the decoded body that the component reads; `None` is `undefined`. */
  datatype Body = Body(message: Option<string>, token: Option<string>, user: Option<User>)

  /** What the awaited `fetch` and `response.json()` produced. */
  datatype Outcome =
    | Responded(status: int, body: Body)
    | Thrown(message: string)

  /** `response.ok`: the status is in the range 200 to 299, the 2xx category. */
  predicate IsOk(status: int)
    ensures IsOk(status) <==> status / 100 == 2
  {
    200 <= status <= 299
  }

  const LoggedInUserKey: string := "loggedInUser"
  const TokenKey: string := "token"

  /** `user && user._id`: a user object with a non-empty identifier (the empty string is falsy). */
  predicate HasUserId(user: Option<User>)
    ensures HasUserId(user) ==> user.Some? && user.value.id.Some?
    ensures user.Some? && user.value.id.Some? ==> (HasUserId(user) <==> |user.value.id.value| > 0)
  {
    user.Some? && user.value.id.Some? && user.value.id.value != ""
  }

  /** `setItem` stores `String(value)`: an absent token is stored as the text "undefined". */
  function StorageText(v: Option<string>): (r: string)
    ensures v.Some? ==> r == v.value
    ensures v.None? ==> r == "undefined"
  {
    v.GetOr("undefined")
  }

  /** The navigation target after a sign-in: `/${role}-dashboard`. */
  function DashboardPath(role: string): (p: string)
    ensures |p| == |role| + 11
    ensures p[0] == '/' && p[1..|role| + 1] == role && p[|role| + 1..] == "-dashboard"
  {
    "/" + role + "-dashboard"
  }

  /** Different roles lead to different destinations. */
  lemma DashboardPathInjective(a: string, b: string)
    requires DashboardPath(a) == DashboardPath(b)
    ensures a == b
  {
    assert a == DashboardPath(a)[1..|a| + 1];
  }

  /** The text of the error toast for a thrown error. */
  function ErrorText(isSignUp: bool, message: string): (r: string)
    ensures |r| == 15 + |message|
    ensures r[..5] == "Sign " && r[7..15] == " Error: " && r[15..] == message
    ensures r[5..7] == (if isSignUp then "Up" else "In")
  {
    (if isSignUp then "Sign Up" else "Sign In") + " Error: " + message
  }

  /** The mode and the error message can both be read back from an error toast's text. */
  lemma ErrorTextInjective(m1: bool, e1: string, m2: bool, e2: string)
    requires ErrorText(m1, e1) == ErrorText(m2, e2)
    ensures m1 == m2 && e1 == e2
  {
    assert ErrorText(m1, e1)[5] == ErrorText(m2, e2)[5];
    assert e1 == ErrorText(m1, e1)[15..];
  }

  // ---------------------------------------------------------------------------
  // The dispatcher

  /** The effects of one submission of `f` whose request ended in `o`, in the order they happen. */
  function Dispatch(f: Form, o: Outcome): (r: seq<Effect>)
    ensures |r| >= 1 && r[0].ShowToast?
    ensures forall i :: 1 <= i < |r| ==> IsWrite(r[i])
    ensures r[0].toast.kind == Success <==> o.Responded? && IsOk(o.status)
    ensures o.Thrown? ==> r[0].toast.text == Some(ErrorText(f.isSignUp, o.message))
    ensures o.Responded? ==> r[0].toast.text == o.body.message
    ensures |r| > 1 <==> o.Responded? && IsOk(o.status) && !f.isSignUp
    ensures o.Responded? && IsOk(o.status) && !f.isSignUp ==>
              |r| == (if HasUserId(o.body.user) then 4 else 3) &&
              (HasUserId(o.body.user) ==> r[1] == SessionSet(LoggedInUserKey, o.body.user.value.id.value)) &&
              r[|r| - 2] == LocalSet(TokenKey, StorageText(o.body.token)) &&
              r[|r| - 1] == Navigate(DashboardPath(f.role))
  {
    match o
    case Thrown(message) =>
      [ShowToast(Toast(Error, Some(ErrorText(f.isSignUp, message))))]
    case Responded(status, data) =>
      if IsOk(status) then
        if f.isSignUp then
          [ShowToast(Toast(Success, data.message))]
        else
          [ShowToast(Toast(Success, data.message))] +
          (if HasUserId(data.user) then [SessionSet(LoggedInUserKey, data.user.value.id.value)] else []) +
          [LocalSet(TokenKey, StorageText(data.token)), Navigate(DashboardPath(f.role))]
      else
        [ShowToast(Toast(Error, data.message))]
  }

  /**
   * A successful sign-in: a success toast with the server's message, the
   * user id in session storage when there is one, the token in local storage
   * always, and a move to the role's dashboard.
   */
  lemma SignInSuccess(w: World, f: Form, status: int, b: Body)
    requires !f.isSignUp && IsOk(status)
    ensures ApplyAll(w, Dispatch(f, Responded(status, b))) ==
              World(w.toasts + [Toast(Success, b.message)],
                    if HasUserId(b.user) then w.session[LoggedInUserKey := b.user.value.id.value] else w.session,
                    w.local[TokenKey := StorageText(b.token)],
                    w.history + [DashboardPath(f.role)])
  {
    var es := Dispatch(f, Responded(status, b));
    var tail := [LocalSet(TokenKey, StorageText(b.token)), Navigate(DashboardPath(f.role))];
    var w1 := Apply(w, es[0]);
    var w2 := if HasUserId(b.user) then Apply(w1, es[1]) else w1;
    if HasUserId(b.user) {
      assert es[1..][1..] == tail;
      assert ApplyAll(w, es) == ApplyAll(w2, tail);
    } else {
      assert es[1..] == tail;
      assert ApplyAll(w, es) == ApplyAll(w2, tail);
    }
    var w3 := Apply(w2, tail[0]);
    assert ApplyAll(w2, tail) == ApplyAll(w3, tail[1..]);
    assert tail[1..][1..] == [];
    assert ApplyAll(w3, tail[1..]) == ApplyAll(Apply(w3, tail[1]), []);
  }

  /**
   * Every other outcome only shows a toast: no storage is written and no
   * navigation happens.
   */
  lemma OnlyToastUnlessSignedIn(w: World, f: Form, o: Outcome)
    requires !(o.Responded? && IsOk(o.status) && !f.isSignUp)
    ensures ApplyAll(w, Dispatch(f, o)) == w.(toasts := w.toasts + [Dispatch(f, o)[0].toast])
  {
    var es := Dispatch(f, o);
    assert es[1..] == [];
  }

  /** A successful sign-up shows the server's message as a success toast. */
  lemma SignUpSuccess(w: World, f: Form, status: int, b: Body)
    requires f.isSignUp && IsOk(status)
    ensures ApplyAll(w, Dispatch(f, Responded(status, b))) == w.(toasts := w.toasts + [Toast(Success, b.message)])
  {
    OnlyToastUnlessSignedIn(w, f, Responded(status, b));
  }

  /** A non-ok response shows the server's message as an error toast, in either mode. */
  lemma NotOkResponse(w: World, f: Form, status: int, b: Body)
    requires !IsOk(status)
    ensures ApplyAll(w, Dispatch(f, Responded(status, b))) == w.(toasts := w.toasts + [Toast(Error, b.message)])
  {
    OnlyToastUnlessSignedIn(w, f, Responded(status, b));
  }

  /** A thrown error shows "Sign Up Error: " or "Sign In Error: " followed by its message. */
  lemma ThrownError(w: World, f: Form, message: string)
    ensures ApplyAll(w, Dispatch(f, Thrown(message))) ==
              w.(toasts := w.toasts + [Toast(Error, Some(ErrorText(f.isSignUp, message)))])
  {
    OnlyToastUnlessSignedIn(w, f, Thrown(message));
  }

  /**
   * The sign-in path does not enforce a role: with none chosen, a successful
   * sign-in navigates to "/-dashboard".
   */
  lemma SignInWithoutRole(w: World, f: Form, b: Body)
    requires !f.isSignUp && f.role == ""
    ensures ApplyAll(w, Dispatch(f, Responded(200, b))).history == w.history + ["/-dashboard"]
  {
    SignInSuccess(w, f, 200, b);
    assert DashboardPath("") == "/-dashboard";
  }

  /**
   * A customer signs in and the server answers 200 with a token and a user:
   * the id goes to session storage, the token to local storage, and the
   * browser moves to "/customer-dashboard".
   */
  lemma SignInExample(w: World, f: Form)
    requires !f.isSignUp && f.role == "customer"
    ensures var w' := ApplyAll(w, Dispatch(f, Responded(200, Body(Some("ok"), Some("T1"), Some(User(Some("U1")))))));
            w'.session == w.session[LoggedInUserKey := "U1"] &&
            w'.local == w.local[TokenKey := "T1"] &&
            w'.history == w.history + ["/customer-dashboard"] &&
            w'.toasts == w.toasts + [Toast(Success, Some("ok"))]
  {
    SignInSuccess(w, f, 200, Body(Some("ok"), Some("T1"), Some(User(Some("U1")))));
    assert DashboardPath("customer") == "/customer-dashboard";
  }

  /** Wrong credentials: a 401 shows the server's message and writes and navigates nothing. */
  lemma RejectedSignInExample(w: World, f: Form)
    ensures ApplyAll(w, Dispatch(f, Responded(401, Body(Some("bad credentials"), None, None)))) ==
              w.(toasts := w.toasts + [Toast(Error, Some("bad credentials"))])
  {
    NotOkResponse(w, f, 401, Body(Some("bad credentials"), None, None));
  }
}
