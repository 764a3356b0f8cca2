/** The `useLogin` hook as an object: its eight state fields, updated in place
    by its handlers in the order the hook calls its setters. Each handler is
    proved to leave the fields exactly as the matching LoginSpec function says. */
module LoginHook {
  import opened Wrappers
  import opened Text
  import opened Auth
  import LoginSpec

  class LoginControl {
    /** Whether the caller passed an `onLoginSuccess` callback. */
    const hasCallback: bool

    var selectedType: Option<LoginType>
    var identifier: string
    var password: string
    var captcha: string
    var captchaInput: string
    var error: Option<string>
    var loading: bool
    var infoMessage: Option<string>

    /** The fields as one value. */
    ghost function Snapshot(): LoginSpec.Form
      reads this
    {
      LoginSpec.Form(selectedType, identifier, password, captcha, captchaInput,
                     error, loading, infoMessage)
    }

    /** Mounting the hook; `firstCaptcha` is the challenge generated for the
        initial state. */
    constructor (onLoginSuccess: bool, firstCaptcha: string)
      ensures hasCallback == onLoginSuccess
      ensures Snapshot() == LoginSpec.Initial(firstCaptcha)
    {
      hasCallback := onLoginSuccess;
      selectedType := None;
      identifier := "";
      password := "";
      captcha := firstCaptcha;
      captchaInput := "";
      error := None;
      loading := false;
      infoMessage := None;
    }

    method SetIdentifier(value: string)
      modifies this
      ensures Snapshot() == old(Snapshot()).(identifier := value)
    {
      identifier := value;
    }

    method SetPassword(value: string)
      modifies this
      ensures Snapshot() == old(Snapshot()).(password := value)
    {
      password := value;
    }

    method SetCaptchaInput(value: string)
      modifies this
      ensures Snapshot() == old(Snapshot()).(captchaInput := value)
    {
      captchaInput := value;
    }

    /** New challenge `generated`, typed input cleared, nothing else touched. */
    method RefreshCaptcha(generated: string)
      modifies this
      ensures Snapshot() == LoginSpec.RefreshCaptcha(old(Snapshot()), generated)
      ensures LoginSpec.SameExceptCaptcha(old(Snapshot()), Snapshot())
    {
      captcha := generated;
      captchaInput := "";
    }

    method HandleSelectType(t: LoginType, generated: string)
      modifies this
      ensures Snapshot() == LoginSpec.SelectType(old(Snapshot()), t, generated)
      ensures loading == old(loading)
    {
      selectedType := Some(t);
      identifier := "";
      password := "";
      captcha := generated;
      captchaInput := "";
      error := None;
      infoMessage := None;
    }

    method HandleBack(generated: string)
      modifies this
      ensures Snapshot() == LoginSpec.Back(old(Snapshot()), generated)
      ensures loading == old(loading)
    {
      selectedType := None;
      identifier := "";
      password := "";
      captcha := generated;
      captchaInput := "";
      error := None;
      infoMessage := None;
    }

    /** `handleSubmit` up to the awaited call: the early return, the CAPTCHA
        guard, and the pending state. `request` is the call it makes, if any. */
    method BeginSubmit(generated: string) returns (request: Option<Request>)
      modifies this
      ensures (Snapshot(), request) == LoginSpec.BeginSubmit(old(Snapshot()), generated)
    {
      if selectedType.None? {
        return None;
      }
      ghost var before := Snapshot();
      if Upper(Trim(captchaInput)) != captcha {
        error := Some(CaptchaMismatchMessage);
        RefreshCaptcha(generated);
        assert Snapshot() == LoginSpec.RefreshCaptcha(before.(error := Some(CaptchaMismatchMessage)), generated);
        return None;
      }
      loading := true;
      error := None;
      infoMessage := None;
      request := Some(Request(identifier, password, selectedType.value));
    }

    /** `handleSubmit` after `request` has settled with `reply`: the checks on
        the reply, the `catch` and the `finally`. */
    method CompleteSubmit(request: Request, reply: Reply, generated: string)
      returns (effects: LoginSpec.Effects)
      modifies this
      ensures LoginSpec.Step(Snapshot(), effects) ==
              LoginSpec.CompleteSubmit(old(Snapshot()), request, Attempt(reply), generated)
    {
      var outcome := Attempt(reply);
      match outcome {
        case LoggedIn(session, info) =>
          infoMessage := Some(info);
          effects := LoginSpec.Effects(Some(request), Some(session));
        case Failed(message) =>
          error := Some(message);
          RefreshCaptcha(generated);
          effects := LoginSpec.Effects(Some(request), None);
      }
      loading := false;
    }

    /** The whole submit, with the service answering `reply`. */
    method HandleSubmit(reply: Reply, generated: string) returns (effects: LoginSpec.Effects)
      modifies this
      ensures LoginSpec.Step(Snapshot(), effects) ==
              LoginSpec.Submit(old(Snapshot()), Attempt(reply), generated)
    {
      var request := BeginSubmit(generated);
      if request.None? {
        return LoginSpec.NoEffects;
      }
      effects := CompleteSubmit(request.value, reply, generated);
    }

    /** The timer's body: the session goes to `onLoginSuccess` when there is one. */
    method FireTimer(session: Session) returns (delivered: Option<Session>)
      ensures delivered.Some? <==> hasCallback
      ensures delivered.Some? ==> delivered.value == session
    {
      if hasCallback {
        delivered := Some(session);
      } else {
        delivered := None;
      }
    }
  }
}
