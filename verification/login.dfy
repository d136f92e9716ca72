/**
 * The login screen's state and its two handlers: `handleChange`, which
 * writes one property of `formData`, and `handleSubmit`, which runs the
 * required-field check, then the password check, and on success clears the
 * error and navigates to "/home".
 */
module Login {
  import opened Password
  import opened Browser

  /** A property of `formData`: text inputs store their `value`, checkboxes their `checked`. */
  datatype FieldValue = Text(units: JsString) | Flag(on: bool)

  /** The `formData` object, from property name to value. */
  type FormData = map<string, FieldValue>

  /** The parts of `e.target` that `handleChange` reads. */
  datatype InputTarget = InputTarget(name: string, value: JsString, inputType: string, checked: bool)

  /** The screen's state: `formData`, `error` (the empty string shows no alert) and the browser. */
  datatype LoginState = LoginState(form: FormData, error: string, browser: Session)

  const MissingFieldMessage: string := "Username and password are required."
  const WeakPasswordMessage: string :=
    "Password must be at least 8 characters, contain 1 uppercase letter and 1 number."
  const HomePath: string := "/home"

  /** The form as the screen mounts it. */
  function InitialForm(): FormData
  {
    map["username" := Text([]), "password" := Text([]), "remember" := Flag(false)]
  }

  function Initial(b: Session): LoginState
  {
    LoginState(InitialForm(), "", b)
  }

  /** JavaScript truthiness of `formData[key]`; a missing property reads as `undefined`. */
  function Present(form: FormData, key: string): (truthy: bool)
    ensures key !in form ==> !truthy
    ensures key in form && form[key].Text? ==> (truthy <==> |form[key].units| > 0)
    ensures key in form && form[key].Flag? ==> (truthy <==> form[key].on)
    ensures truthy ==> |AsString(form[key])| > 0
  {
    key in form &&
    match form[key]
    case Text(u) => |u| > 0
    case Flag(b) => b
  }

  /** `String(v)`, the conversion `RegExp.prototype.test` applies to its argument. */
  function AsString(v: FieldValue): (r: JsString)
    ensures v.Text? ==> r == v.units
    ensures v.Flag? ==> |r| > 0 && !PasswordRule(r)
  {
    match v
    case Text(u) => u
    case Flag(b) => if b then [0x74, 0x72, 0x75, 0x65] else [0x66, 0x61, 0x6C, 0x73, 0x65]
  }

  /**
   * `handleChange`: a copy of the form in which the property named by the
   * input holds the input's checked state for a checkbox and its text for any
   * other input type.
   */
  function HandleChange(s: LoginState, t: InputTarget): (r: LoginState)
    ensures r.form.Keys == s.form.Keys + {t.name}
    ensures r.form[t.name] == if t.inputType == "checkbox" then Flag(t.checked) else Text(t.value)
    ensures forall k :: k in s.form && k != t.name ==> r.form[k] == s.form[k]
    ensures r.error == s.error && r.browser == s.browser
  {
    var v := if t.inputType == "checkbox" then Flag(t.checked) else Text(t.value);
    s.(form := s.form[t.name := v])
  }

  /** The form may proceed: both required fields are present and the password meets the rule. */
  predicate Acceptable(form: FormData)
  {
    Present(form, "username") && Present(form, "password") && PasswordRule(AsString(form["password"]))
  }

  /** `handleSubmit`: the required-field check first, then the password check, then success. */
  function HandleSubmit(s: LoginState): (r: LoginState)
    ensures r.form == s.form
    ensures !Present(s.form, "username") || !Present(s.form, "password") ==>
              r.error == MissingFieldMessage && r.browser == s.browser
    ensures Present(s.form, "username") && Present(s.form, "password") && !Acceptable(s.form) ==>
              r.error == WeakPasswordMessage && r.browser == s.browser
    ensures Acceptable(s.form) <==> r.error == ""
    ensures Acceptable(s.form) <==> r.browser == Navigate(s.browser, HomePath)
    ensures r.browser == s.browser || r.browser == Navigate(s.browser, HomePath)
  {
    assert |Navigate(s.browser, HomePath).history| == |s.browser.history| + 1;
    if !Present(s.form, "username") || !Present(s.form, "password") then
      s.(error := MissingFieldMessage)
    else if !ValidatePassword(AsString(s.form["password"])) then
      s.(error := WeakPasswordMessage)
    else
      s.(error := "", browser := Navigate(s.browser, HomePath))
  }

  /** A successful submit pushes "/home" exactly once and leaves no alert. */
  lemma SubmitSuccessNavigatesOnce(s: LoginState)
    requires Acceptable(s.form)
    ensures HandleSubmit(s).error == ""
    ensures HandleSubmit(s).browser.history == s.browser.history + [HomePath]
    ensures Location(HandleSubmit(s).browser).Some?
    ensures Location(HandleSubmit(s).browser).value == HomePath
  {
  }

  /** Every failing submit leaves a non-empty alert and navigates nowhere. */
  lemma SubmitFailureStays(s: LoginState)
    requires !Acceptable(s.form)
    ensures HandleSubmit(s).error != ""
    ensures HandleSubmit(s).browser == s.browser
  {
  }

  /** A missing field is reported as such whatever the password looks like, so an empty password never draws the weak-password alert. */
  lemma EmptyPasswordIsMissing(s: LoginState)
    requires "password" in s.form && s.form["password"] == Text([])
    ensures HandleSubmit(s).error == MissingFieldMessage
    ensures HandleSubmit(s).error != WeakPasswordMessage
  {
  }

  /** The "remember" checkbox never changes what a submit does. */
  lemma RememberIrrelevant(s: LoginState, v: FieldValue)
    ensures HandleSubmit(s.(form := s.form["remember" := v])).error == HandleSubmit(s).error
    ensures HandleSubmit(s.(form := s.form["remember" := v])).browser == HandleSubmit(s).browser
  {
  }

  /** The username check is emptiness only: a single space counts as a username. */
  lemma BlankUsernameCounts(s: LoginState)
    requires "username" in s.form && s.form["username"] == Text([0x20])
    requires "password" in s.form && s.form["password"] == Text([0x41, 0x62, 0x63, 0x64, 0x65, 0x66, 0x67, 0x31])
    ensures HandleSubmit(s).error == ""
    ensures HandleSubmit(s).browser == Navigate(s.browser, HomePath)
  {
  }

  /** Typing "abc" as the password and submitting with a username gives the weak-password alert. */
  lemma ShortPasswordIsWeak(b: Session, user: JsString)
    requires |user| > 0
    ensures
      var typed := HandleChange(HandleChange(Initial(b), InputTarget("username", user, "text", false)),
                                InputTarget("password", [0x61, 0x62, 0x63], "password", false));
      var r := HandleSubmit(typed);
      r.error == WeakPasswordMessage && r.browser == b
  {
  }

  /** The form keeps its shape under the three rendered inputs: two text fields and one checkbox. */
  predicate WellShaped(form: FormData)
  {
    && "username" in form && form["username"].Text?
    && "password" in form && form["password"].Text?
    && "remember" in form && form["remember"].Flag?
  }

  /** The events the three rendered inputs produce. */
  predicate RenderedInput(t: InputTarget)
  {
    || (t.name == "username" && t.inputType == "text")
    || (t.name == "password" && t.inputType == "password")
    || (t.name == "remember" && t.inputType == "checkbox")
  }

  /** Edits through the rendered inputs keep the form well shaped, so `String(v)` never applies to a flag. */
  lemma {:induction false} RenderedInputsKeepShape(s: LoginState, ts: seq<InputTarget>)
    requires WellShaped(s.form)
    requires forall i :: 0 <= i < |ts| ==> RenderedInput(ts[i])
    ensures WellShaped(ApplyChanges(s, ts).form)
    ensures ApplyChanges(s, ts).form.Keys == s.form.Keys
    decreases |ts|
  {
    if |ts| > 0 {
      var s1 := HandleChange(s, ts[0]);
      assert WellShaped(s1.form);
      RenderedInputsKeepShape(s1, ts[1..]);
    }
  }

  /** A sequence of `handleChange` calls, in order. */
  function ApplyChanges(s: LoginState, ts: seq<InputTarget>): LoginState
    decreases |ts|
  {
    if |ts| == 0 then s else ApplyChanges(HandleChange(s, ts[0]), ts[1..])
  }
}
