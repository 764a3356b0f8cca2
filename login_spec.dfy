/** The login hook's eight state fields as one value, and each handler as a
    function from the fields before to the fields after. The class in
    LoginHook is proved to change its fields exactly as these functions say. */
module LoginSpec {
  import opened Wrappers
  import opened Text
  import opened Auth

  datatype Form = Form(
    selectedType: Option<LoginType>,
    identifier: string,
    password: string,
    captcha: string,
    captchaInput: string,
    error: Option<string>,
    loading: bool,
    infoMessage: Option<string>)

  /** What a submit does outside the fields: the service call it makes, and the
      session its 1-second timer will hand to the success callback. */
  datatype Effects = Effects(request: Option<Request>, timer: Option<Session>)

  const NoEffects := Effects(None, None)

  datatype Step = Step(form: Form, effects: Effects)

  /** The fields on mount; `firstCaptcha` is the first generated challenge. */
  function Initial(firstCaptcha: string): (f: Form)
    ensures f.selectedType.None? && !f.loading && f.error.None? && f.infoMessage.None?
    ensures f.identifier == "" && f.password == ""
    ensures f.captcha == firstCaptcha && f.captchaInput == ""
  {
    Form(None, "", "", firstCaptcha, "", None, false, None)
  }

  /** Fields other than the challenge and its input are the same. */
  predicate SameExceptCaptcha(f: Form, g: Form)
  {
    g.selectedType == f.selectedType && g.identifier == f.identifier &&
    g.password == f.password && g.error == f.error && g.loading == f.loading &&
    g.infoMessage == f.infoMessage
  }

  /** `refreshCaptcha` with `generated` as the newly generated challenge. */
  function RefreshCaptcha(f: Form, generated: string): (g: Form)
  {
    f.(captcha := generated, captchaInput := "")
  }

  /** The reset shared by `handleSelectType` and `handleBack`. */
  function Reset(f: Form, selected: Option<LoginType>, generated: string): Form
  {
    Form(selected, "", "", generated, "", None, f.loading, None)
  }

  function SelectType(f: Form, t: LoginType, generated: string): Form
  {
    Reset(f, Some(t), generated)
  }

  function Back(f: Form, generated: string): Form
  {
    Reset(f, None, generated)
  }

  /** `refreshCaptcha` touches the challenge and its input and nothing else. */
  lemma RefreshOnlyTouchesCaptcha(f: Form, generated: string)
    ensures SameExceptCaptcha(f, RefreshCaptcha(f, generated))
    ensures RefreshCaptcha(f, generated).captcha == generated && RefreshCaptcha(f, generated).captchaInput == ""
  {
  }

  /** Going back after choosing a type is the same as going back directly:
      the selection leaves nothing behind in the form. */
  lemma BackUndoesSelect(f: Form, t: LoginType, first: string, second: string)
    ensures Back(SelectType(f, t, first), second) == Back(f, second)
  {
  }

  /** Whichever state the form was in, choosing a type lands in the same state. */
  lemma SelectForgetsForm(f: Form, g: Form, t: LoginType, generated: string)
    requires f.loading == g.loading
    ensures SelectType(f, t, generated) == SelectType(g, t, generated)
  {
  }

  // ---------------------------------------------------------------- submit

  /** The synchronous part of `handleSubmit`, up to the awaited call: the state
      while the call is pending and the request made, if any. */
  function BeginSubmit(f: Form, generated: string): (r: (Form, Option<Request>))
    ensures r.1.Some? <==> f.selectedType.Some? && CaptchaAccepted(f.captchaInput, f.captcha)
    ensures r.1.Some? ==>
      r.1.value == Request(f.identifier, f.password, f.selectedType.value) &&
      r.0 == f.(loading := true, error := None, infoMessage := None)
    ensures f.selectedType.None? ==> r.0 == f
    ensures f.selectedType.Some? && r.1.None? ==>
      SameExceptCaptcha(f.(error := Some(CaptchaMismatchMessage)), r.0) &&
      r.0.captcha == generated && r.0.captchaInput == ""
  {
    if f.selectedType.None? then (f, None)
    else if Upper(Trim(f.captchaInput)) != f.captcha then
      (RefreshCaptcha(f.(error := Some(CaptchaMismatchMessage)), generated), None)
    else
      (f.(loading := true, error := None, infoMessage := None),
       Some(Request(f.identifier, f.password, f.selectedType.value)))
  }

  /** The part of `handleSubmit` after the call has settled and the `try`
      block has classified the reply as `outcome`: the success path, the
      `catch` and the `finally`. */
  function CompleteSubmit(f: Form, request: Request, outcome: Outcome, generated: string): (s: Step)
    ensures s.effects.request == Some(request)
    ensures !s.form.loading
    ensures s.form.selectedType == f.selectedType && s.form.identifier == f.identifier &&
            s.form.password == f.password
    ensures s.effects.timer.Some? <==> outcome.LoggedIn?
    ensures s.effects.timer.Some? ==>
      s.effects.timer.value == outcome.session &&
      s.form.infoMessage == Some(outcome.info) &&
      s.form.error == f.error &&
      s.form.captcha == f.captcha && s.form.captchaInput == f.captchaInput
    ensures s.effects.timer.None? ==>
      s.form.error == Some(outcome.message) &&
      s.form.infoMessage == f.infoMessage &&
      s.form.captcha == generated && s.form.captchaInput == ""
  {
    match outcome
    case LoggedIn(session, info) =>
      Step(f.(infoMessage := Some(info)).(loading := false), Effects(Some(request), Some(session)))
    case Failed(message) =>
      Step(RefreshCaptcha(f.(error := Some(message)), generated).(loading := false),
           Effects(Some(request), None))
  }

  /** The whole of `handleSubmit`, with `outcome` as the classification of the
      service's reply and `generated` as the challenge any refresh generates. */
  function Submit(f: Form, outcome: Outcome, generated: string): (s: Step)
    // no selected type: nothing happens at all
    ensures f.selectedType.None? ==> s == Step(f, NoEffects)
    // the service is called exactly when a type is selected and the guard passes
    ensures s.effects.request.Some? <==>
      f.selectedType.Some? && CaptchaAccepted(f.captchaInput, f.captcha)
    ensures s.effects.request.Some? ==>
      s.effects.request.value == Request(f.identifier, f.password, f.selectedType.value)
    // the guard rejects: fixed message, new challenge, the rest untouched
    ensures f.selectedType.Some? && s.effects.request.None? ==>
      s.effects.timer.None? &&
      SameExceptCaptcha(f.(error := Some(CaptchaMismatchMessage)), s.form) &&
      s.form.captcha == generated && s.form.captchaInput == ""
    // the service was called: not loading afterwards, whatever happened
    ensures s.effects.request.Some? ==> !s.form.loading
    // success: no error, an info text, a timer for the validated session, same challenge
    ensures s.effects.timer.Some? ==>
      s.effects.request.Some? && outcome.LoggedIn? &&
      s.effects.timer.value == outcome.session &&
      s.form.error.None? &&
      s.form.infoMessage == Some(outcome.info) &&
      s.form.captcha == f.captcha && s.form.captchaInput == f.captchaInput
    // failure after the guard: the attempt's message, no info text, new challenge
    ensures s.effects.request.Some? && s.effects.timer.None? ==>
      outcome.Failed? &&
      s.form.error == Some(outcome.message) &&
      s.form.infoMessage.None? &&
      s.form.captcha == generated && s.form.captchaInput == ""
    // the credentials and the selection are never changed by a submit
    ensures s.form.selectedType == f.selectedType && s.form.identifier == f.identifier &&
            s.form.password == f.password
  {
    var (pending, request) := BeginSubmit(f, generated);
    if request.None? then Step(pending, NoEffects)
    else CompleteSubmit(pending, request.value, outcome, generated)
  }

  /** A submit right after mount does nothing at all, whatever the service would
      answer: no type is selected yet. */
  lemma SubmitOnMountDoesNothing(firstCaptcha: string, reply: Reply, generated: string)
    ensures Submit(Initial(firstCaptcha), Attempt(reply), generated) ==
            Step(Initial(firstCaptcha), NoEffects)
  {
  }

  // ---------------------------------------------------------------- traces

  /** Everything that can happen to the hook between renders: the handlers it
      returns, the three field setters, each with its inputs. */
  datatype Event =
    | Choose(t: LoginType, generated: string)
    | GoBack(generated: string)
    | NewCaptcha(generated: string)
    | EditIdentifier(identifier: string)
    | EditPassword(password: string)
    | EditCaptchaInput(captchaInput: string)
    | SubmitForm(reply: Reply, generated: string)

  function Apply(f: Form, e: Event): Step
  {
    match e
    case Choose(t, generated) => Step(SelectType(f, t, generated), NoEffects)
    case GoBack(generated) => Step(Back(f, generated), NoEffects)
    case NewCaptcha(generated) => Step(RefreshCaptcha(f, generated), NoEffects)
    case EditIdentifier(s) => Step(f.(identifier := s), NoEffects)
    case EditPassword(s) => Step(f.(password := s), NoEffects)
    case EditCaptchaInput(s) => Step(f.(captchaInput := s), NoEffects)
    case SubmitForm(reply, generated) => Submit(f, Attempt(reply), generated)
  }

  function Option2Seq<T>(o: Option<T>): seq<T>
  {
    if o.Some? then [o.value] else []
  }

  /** The fields after a run of events, the service calls made and the
      sessions timers were set with, in order. */
  datatype Trace = Trace(form: Form, requests: seq<Request>, timers: seq<Session>)

  function Run(f: Form, events: seq<Event>): Trace
    decreases |events|
  {
    if events == [] then Trace(f, [], [])
    else
      var step := Apply(f, events[0]);
      var rest := Run(step.form, events[1..]);
      Trace(rest.form,
            Option2Seq(step.effects.request) + rest.requests,
            Option2Seq(step.effects.timer) + rest.timers)
  }

  /** `loading` is false between events: once the hook is idle, any run of
      completed handlers leaves it idle. */
  lemma {:induction false} RunStaysIdle(f: Form, events: seq<Event>)
    requires !f.loading
    ensures !Run(f, events).form.loading
    decreases |events|
  {
    if events != [] {
      var step := Apply(f, events[0]);
      assert !step.form.loading;
      RunStaysIdle(step.form, events[1..]);
    }
  }

  /** No session is handed on without a service call, and none with a blank token. */
  lemma {:induction false} RunTimersWellFormed(f: Form, events: seq<Event>)
    ensures |Run(f, events).timers| <= |Run(f, events).requests| <= |events|
    ensures forall s :: s in Run(f, events).timers ==> s.token != [] && IsTrimmed(s.token)
    decreases |events|
  {
    if events != [] {
      var e := events[0];
      var step := Apply(f, e);
      if e.SubmitForm? {
        AttemptSessionWellFormed(e.reply);
      }
      RunTimersWellFormed(step.form, events[1..]);
    }
  }

  /** Every event keeps the CAPTCHA discipline: when the challenge changes, the
      typed input is cleared with it. */
  lemma NewChallengeClearsInput(f: Form, e: Event)
    ensures Apply(f, e).form.captcha != f.captcha ==> Apply(f, e).form.captchaInput == ""
  {
  }

  /** At most one of `error` and `infoMessage` is shown. */
  predicate StatusExclusive(f: Form)
  {
    f.error.None? || f.infoMessage.None?
  }

  /** A submit whose CAPTCHA guard rejects the input. */
  predicate GuardRejects(f: Form, e: Event)
  {
    e.SubmitForm? && f.selectedType.Some? && !CaptchaAccepted(f.captchaInput, f.captcha)
  }

  /** Every event but a rejected CAPTCHA keeps error and info text exclusive. */
  lemma StatusExclusivePreserved(f: Form, e: Event)
    requires StatusExclusive(f) && !GuardRejects(f, e)
    ensures StatusExclusive(Apply(f, e).form)
  {
  }

  /** A submit the guard rejects sets the mismatch error next to whatever info
      text was already shown, and makes no call: after a successful login (which
      leaves its info text and the same challenge), a mistyped challenge shows
      both the error and the info text. */
  lemma GuardRejectionKeepsInfo(g: Form, outcome: Outcome, generated: string)
    requires g.selectedType.Some? && !CaptchaAccepted(g.captchaInput, g.captcha)
    ensures
      var last := Submit(g, outcome, generated);
      last.form.error == Some(CaptchaMismatchMessage) &&
      last.form.infoMessage == g.infoMessage && last.effects == NoEffects
    ensures g.infoMessage.Some? ==> !StatusExclusive(Submit(g, outcome, generated).form)
  {
  }

  // --------------------------------------------------- examples

  /** A reply `{success: true, token, perfil}` with a clean token sets the
      success text and a timer for `{token, perfil}`. */
  lemma SuccessExample(f: Form, t: string, p: Profile, generated: string)
    requires f.selectedType.Some? && CaptchaAccepted(f.captchaInput, f.captcha)
    requires t != [] && IsTrimmed(t)
    ensures
      var s := Submit(f, Attempt(Resolved(Some(AuthResponse(Some(true), None, Some(t), Some(p))))),
                      generated);
      s.effects.timer == Some(Session(t, p)) &&
      s.form.infoMessage == Some(LoginSucceededMessage) && s.form.error.None?
  {
    CleanSuccessLogsIn(t, p, None);
  }

  /** A successful reply without a token reports the missing token and sets no timer. */
  lemma MissingTokenExample(f: Form, p: Profile, generated: string)
    requires f.selectedType.Some? && CaptchaAccepted(f.captchaInput, f.captcha)
    ensures
      var s := Submit(f, Attempt(Resolved(Some(AuthResponse(Some(true), None, None, Some(p))))),
                      generated);
      s.effects.timer.None? && s.form.error == Some(MissingTokenMessage)
  {
    MissingTokenFails(p);
  }

  /** A rejection with `Error("Network down")` shows that message and a new challenge. */
  lemma NetworkDownExample(f: Form, generated: string)
    requires f.selectedType.Some? && CaptchaAccepted(f.captchaInput, f.captcha)
    ensures
      var s := Submit(f, Attempt(Rejected(ErrorObject("Network down"))), generated);
      s.effects.timer.None? && s.form.error == Some("Network down") &&
      s.form.captcha == generated && s.form.captchaInput == ""
  {
  }
}
