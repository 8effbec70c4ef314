# Register: the credential form of a sign-up / sign-in page

This project models the `Register` React component. It is one form with two
modes. In sign-up mode it registers an account: name, e-mail, a 13-digit
national identity number (CNIC), a password entered twice, and a role. In
sign-in mode it authenticates a user with e-mail, password and role. The model
covers the component's logic:

- the seven pieces of state (`isSignUp` and six strings);
- the three validators for e-mail, CNIC and matching passwords;
- the input handlers, including the CNIC normaliser that removes non-digits;
- the two mode toggles;
- the initialiser that reads `?role=` from the URL, which runs at mount and again whenever the query string changes;
- the `disabled` condition of the Sign Up button;
- the submission dispatcher. It picks the endpoint and payload for the current
  mode, then turns the request's outcome into toasts, storage writes and a
  navigation.

Layout, one module per file:

- `wrappers.dfy` (`Wrappers`): `Option`, standing for JavaScript's `null` / `undefined`.
- `validation.dfy` (`Validation`): the validators and the normaliser. The
  library calls they rely on are modelled by small recursive definitions, each
  with a lemma giving a declarative characterisation: `String.prototype.includes`,
  the regular expression `^\d{13}$`, and `replace(/[^\d]/g, "")`.
- `form_model.dfy` (`FormModel`): the state as a value `Form`, one pure
  transition per handler, and the button gate.
- `effects.dfy` (`Effects`): the collaborators the component calls, as
  effects on a `World` value. `Browser` is the mutable object that carries
  them out.
- `submission.dfy` (`Submission`): the request and the dispatcher, with one
  lemma per kind of outcome.
- `register.dfy` (`Register`): the class `FormState`. Its fields are the
  component's state and its methods are the handlers. Each method is proved
  against the transition or dispatcher that specifies it.

Three places where the component is looser than one might expect:

- The URL role is taken whenever it is non-empty. It is not checked against
  `customer` / `agent`.
- The CNIC handler does not cap the value at 13 characters. Only the
  `maxLength` attribute of the input does that (Register.jsx:93).
- The post-sign-in destination is `"/" + role + "-dashboard"`, with the leading slash.

## Model

| member | source | states |
|---|---|---|
| Register.FormState.constructor | Register.jsx:8-14 | on mount the state is sign-in mode with every field empty |
| Validation.IncludesIff | Register.jsx:29 | the left-to-right `includes` scan succeeds exactly when the search string occurs at some position |
| Validation.IncludesChar | Register.jsx:29 | a one-character search string is found exactly when some index holds that character |
| Validation.EmailValid | Register.jsx:29 | the e-mail is valid exactly when it contains an '@' somewhere; no other format check |
| Validation.EmailExamples | Register.jsx:29 | "a@b" is valid and "ab.com" is not |
| Validation.MatchesDigitsIff | Register.jsx:30 | the anchored pattern of n digits accepts exactly the strings of length n made only of digits |
| Validation.CnicValid | Register.jsx:30 | the CNIC is valid exactly when it has 13 characters, all digits; the length test and the pattern agree |
| Validation.CnicExamples | Register.jsx:30 | "1234567890123" is valid; "12345" and "12345678901a3" are not |
| Validation.PasswordsMatch | Register.jsx:31 | the passwords match exactly when they have the same length and agree at every position |
| Validation.DigitsOnly | Register.jsx:40 | the normalised value contains only digits and is never longer than its input |
| Validation.DigitsOnlyAppend | Register.jsx:40 | normalising a concatenation is concatenating the normalised parts, so digits keep their order |
| Validation.DigitsOnlyIsSubsequence | Register.jsx:40 | the normalised value is obtained from the input by deleting characters only |
| Validation.DigitsOnlyCounts | Register.jsx:40 | each digit occurs as often in the output as in the input; non-digits do not occur at all |
| Validation.DigitsOnlyFixpoint | Register.jsx:40 | a string is left unchanged by the normaliser exactly when all its characters are digits |
| Validation.DigitsOnlyIdempotent | Register.jsx:40 | normalising twice equals normalising once |
| Validation.DigitsOnlyKeepsDigitStrings | Register.jsx:39-42 | an all-digit input is kept whole, so more than 13 digits are stored and the CNIC is then invalid |
| Validation.NormaliserExamples | Register.jsx:40 | "12a3" becomes "123"; "123" stays "123" |
| FormModel.WithMode | Register.jsx:34-35 | a toggle sets the mode and keeps all six entered values |
| FormModel.ModeToggleRoundTrip | Register.jsx:34-35 | toggling away and back restores the state; each toggle is idempotent |
| FormModel.WithInput | Register.jsx:38 | a setter stores the typed value verbatim in its field; every other field and the mode are unchanged |
| FormModel.InputOverwrite | Register.jsx:38 | writing a field's own value back changes nothing, and the last of two writes wins |
| FormModel.WithCnicInput | Register.jsx:39-42 | the CNIC handler stores the digits of the input and changes nothing else |
| FormModel.CnicInputProperties | Register.jsx:39-42 | the stored CNIC keeps every digit and nothing else, in the input's order, with no cap; re-feeding it changes nothing |
| FormModel.WithRoleParam | Register.jsx:19-26 | a present, non-empty URL role is stored and turns on sign-up mode; an absent or empty one leaves the state as it was |
| FormModel.RoleParamExample | Register.jsx:19-26 | `?role=agent` at mount gives sign-up mode with role "agent"; a missing or empty parameter gives the initial state |
| FormModel.Disabled | Register.jsx:111 | the Sign In button is never disabled; the Sign Up button is disabled exactly when the e-mail, CNIC or password flag is false or the role is empty |
| Register.FormState.IsDisabled | Register.jsx:111 | the same gate read off the object's current fields: Sign In always enabled, Sign Up enabled exactly when all three flags hold and a role is chosen |
| FormModel.EnabledIff | Register.jsx:111 | Sign Up is enabled exactly when: the e-mail has an '@', the CNIC is 13 digits, the passwords are equal and a role is chosen |
| FormModel.DisabledIgnoresMode | Register.jsx:111 | whether a button is enabled does not depend on the mode |
| FormModel.DisabledIgnoresName | Register.jsx:111 | the name plays no part in enabling a button |
| FormModel.InitialDisabled | Register.jsx:111 | Sign Up is disabled on a freshly mounted form |
| FormModel.EnabledExample | Register.jsx:111 | with "x@y.com", "1234567890123", equal passwords "pw1" and a role chosen, Sign Up is enabled |
| Submission.RequestFor | Register.jsx:47-55 | a POST with JSON content; sign-up mode sends {name, email, cnic, password, role} to the signup URL, sign-in mode sends {email, password, role} to the login URL |
| Submission.RequestDependsOnSentFields | Register.jsx:48 | the confirmation password is never sent; in sign-in mode the name and the CNIC are not sent either |
| Submission.RequestUrlDeterminesMode | Register.jsx:47 | the two modes use different endpoints |
| Submission.IsOk | Register.jsx:58 | `response.ok` holds exactly for a status whose hundreds digit is 2 (200 to 299) |
| Submission.HasUserId | Register.jsx:64 | a session write needs a user object with an `_id`; given both, it happens exactly when the id is a non-empty string |
| Submission.StorageText | Register.jsx:67 | a present token is stored verbatim; an absent one is stored as "undefined" |
| Submission.DashboardPath | Register.jsx:68 | the destination is "/", then the role, then "-dashboard" |
| Submission.DashboardPathInjective | Register.jsx:68 | different roles get different destinations |
| Submission.ErrorText | Register.jsx:74 | the text reads "Sign Up" or "Sign In" by mode, then " Error: ", then the error message |
| Submission.ErrorTextInjective | Register.jsx:74 | both the mode and the message can be read back from the error text |
| Submission.Dispatch | Register.jsx:58-74 | every outcome shows exactly one toast first, followed only by writes and navigation. The toast is a success toast exactly for a 2xx response. Its text is the server's message, or the mode-prefixed error text when an error is thrown. Writes or navigation happen exactly on a successful sign-in, and then in the source's order: the session write (only with a user id), the token write, the navigation |
| Submission.SignInSuccess | Register.jsx:61-68 | a successful sign-in shows the server's message as a success toast and stores the user id in session storage exactly when it is present and non-empty. It always stores the token in local storage and moves to the role's dashboard |
| Submission.OnlyToastUnlessSignedIn | Register.jsx:58-74 | every outcome other than a successful sign-in only adds its toast; storage and navigation are untouched |
| Submission.SignUpSuccess | Register.jsx:59-60 | a successful sign-up adds a success toast with the server's message and does nothing else |
| Submission.NotOkResponse | Register.jsx:70-71 | a non-2xx response adds an error toast with the server's message and does nothing else |
| Submission.ThrownError | Register.jsx:73-74 | a thrown error adds an error toast "Sign Up Error: " or "Sign In Error: " plus its message, and does nothing else |
| Submission.SignInWithoutRole | Register.jsx:68 | sign-in does not require a role: with none chosen, a successful sign-in navigates to "/-dashboard" |
| Submission.SignInExample | Register.jsx:61-68 | a 200 response with token "T1" and user id "U1" stores both and moves a customer to "/customer-dashboard" |
| Submission.RejectedSignInExample | Register.jsx:70-71 | a 401 response with "bad credentials" only shows that message as an error toast |
| Effects.Browser.ShowToast | Register.jsx:60 | a toast call appends one notification and changes nothing else |
| Effects.Browser.SessionSetItem | Register.jsx:65 | a session storage write sets one key and changes nothing else |
| Effects.Browser.LocalSetItem | Register.jsx:67 | a local storage write sets one key and changes nothing else |
| Effects.Browser.NavigateTo | Register.jsx:68 | a navigation appends one path and changes nothing else |
| Register.FormState.ApplyRoleFromUrl | Register.jsx:19-26 | the new state is `WithRoleParam` of the old state and the looked-up parameter |
| Register.FormState.HandleSignUp | Register.jsx:34 | the new state is the old one in sign-up mode |
| Register.FormState.HandleSignIn | Register.jsx:35 | the new state is the old one in sign-in mode |
| Register.FormState.HandleInputChange | Register.jsx:38 | the new state is the old one with the chosen field set to the typed value |
| Register.FormState.HandleCnicChange | Register.jsx:39-42 | the new state is the old one with the CNIC set to the digits of the typed value |
| Register.FormState.HandleSubmit | Register.jsx:45-75 | returns the mode's request. The browser ends in the state that the dispatcher's effects for the outcome produce, applied in order. The form itself is unchanged |
| Register.SignUpSession | Register.jsx:19-75 | mount with `?role=agent`, fill in valid fields and submit: Sign Up is enabled, the request carries the typed values, and a 201 response only adds a success toast |

## Left out

- Rendering, CSS classes, inline styles and the field hints (Register.jsx:82-156) are presentation. Of the markup, only the two buttons' `disabled` conditions are modelled.
- `fetch`, `JSON.stringify` and `response.json()` (Register.jsx:51-56) are network I/O and library code. Their result is the input `Outcome`: either a status with the decoded body members the component reads, or a thrown error message. A body that is not JSON counts as a thrown error. `Payload` stands for the object handed to `JSON.stringify`; its serialisation is not modelled.
- A decoded body that is `null` is not modelled. In the source, reading `data.message` would then throw and reach the catch branch. A number, string or boolean body reads every member as `undefined`; that case is `Body(None, None, None)`.
- `async`/`await` is not modelled: each submission is one atomic step. Two submissions in flight at once, and a response that arrives after the form has changed, are therefore not represented.
- The toast library, the two web storages and the router are represented only by the calls the component makes (`Effects.Browser`). A storage write that throws part-way through the success branch is not modelled; in the source it would add a second, error toast.
- Body members are modelled as absent or a string. JSON `null` and non-string values are not represented, and the source treats them differently: a `null` token is stored as "null", a numeric `_id` is stored as its decimal text, a non-object `user` such as `"x"` is truthy but has no `_id`, and a non-string `message` goes to the toast unchanged.
- `e.preventDefault()` (Register.jsx:46) stops the browser's own form submission and page reload. It is browser behaviour, not component state, and is not modelled.
- `URLSearchParams` parsing (Register.jsx:20-21) is a library call. The looked-up `role` parameter is an input, `Option<string>`.
- The regular expressions are replaced by the digit predicate `'0'..'9'`. This is what `\d` means in a JavaScript pattern, with or without the `u` flag.
- The `maxLength={13}` attribute (Register.jsx:93) is browser input behaviour, not component logic. So the model lets the stored CNIC grow past 13 digits, as the handler itself does.
- The source never invokes `handleInputChange(setCnic)`, so `Field` has no CNIC case. The CNIC changes only through `HandleCnicChange`.
- Which form's submit event fires is not modelled. `HandleSubmit` dispatches on `isSignUp` alone, as the source does, and checks no validity itself. The only gate is the Sign Up button's `disabled` attribute.
