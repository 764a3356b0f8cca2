/** What the login hook knows about the authentication service: the request it
    sends, the replies it can get back, and how it turns a reply into either a
    session or a user-facing error message. */
module Auth {
  import opened Wrappers
  import opened Text

  datatype LoginType = Academic | Administrative

  /** The user profile the backend returns; the hook never looks inside it. */
  datatype Profile = Profile(fields: map<string, string>)

  /** The JSON body `login` resolves with; every member may be absent. */
  datatype AuthResponse = AuthResponse(
    success: Option<bool>,
    message: Option<string>,
    token: Option<string>,
    perfil: Option<Profile>)

  /** What a rejected call or a `throw` carries: an `Error` (with its `message`)
      or some other value. */
  datatype Thrown = ErrorObject(message: string) | NonError

  /** How the awaited `login` call settles: it resolves with a body (possibly
      `null`/`undefined`) or it rejects. */
  datatype Reply = Resolved(data: Option<AuthResponse>) | Rejected(thrown: Thrown)

  /** The arguments of the one call to the authentication service. */
  datatype Request = Request(identifier: string, password: string, loginType: LoginType)

  /** What the success callback is handed. */
  datatype Session = Session(token: string, perfil: Profile)

  /** How one attempt ends once the service has answered. */
  datatype Outcome = LoggedIn(session: Session, info: string) | Failed(message: string)

  const CaptchaMismatchMessage := "El código de seguridad es incorrecto. Intenta nuevamente."
  const InvalidCredentialsMessage := "Credenciales inválidas."
  const MissingProfileMessage := "No se recibió el perfil del usuario."
  const MissingTokenMessage := "No se recibió el token de sesión. Intenta nuevamente."
  const LoginSucceededMessage := "Inicio de sesión exitoso. Redirigiendo..."
  const UnexpectedErrorMessage := "Ocurrió un error inesperado durante el inicio de sesión."

  /** The local CAPTCHA guard: the typed text, trimmed and upper-cased, must equal
      the challenge, which itself is compared as it is. */
  predicate CaptchaAccepted(input: string, challenge: string)
  {
    Upper(Trim(input)) == challenge
  }

  /** `data?.success` is truthy. */
  predicate Succeeded(data: Option<AuthResponse>)
  {
    data.Some? && data.value.success == Some(true)
  }

  /** The token is missing or is nothing but whitespace. */
  predicate TokenUnusable(token: Option<string>)
  {
    token.None? || Blank(token.value)
  }

  /** The three checks on a resolved body, in the order the hook makes them:
      the success flag, then the profile, then a token that is not blank once
      trimmed. The error is the message of the `Error` the hook throws. */
  function Validate(data: Option<AuthResponse>): (r: Result<Session, string>)
    ensures !Succeeded(data) ==>
      r == Failure(if data.Some? then data.value.message.GetOr(InvalidCredentialsMessage)
                   else InvalidCredentialsMessage)
    ensures Succeeded(data) && data.value.perfil.None? ==> r == Failure(MissingProfileMessage)
    ensures Succeeded(data) && data.value.perfil.Some? && TokenUnusable(data.value.token) ==>
      r == Failure(MissingTokenMessage)
    ensures r.Success? <==>
      Succeeded(data) && data.value.perfil.Some? && !TokenUnusable(data.value.token)
    ensures r.Success? ==>
      r.value.perfil == data.value.perfil.value &&
      r.value.token == Trim(data.value.token.value)
    ensures r.Success? ==> r.value.token != [] && IsTrimmed(r.value.token)
  {
    if !(data.Some? && data.value.success == Some(true)) then
      Failure(if data.Some? then data.value.message.GetOr(InvalidCredentialsMessage)
              else InvalidCredentialsMessage)
    else
      var perfil := data.value.perfil;
      if perfil.None? then
        Failure(MissingProfileMessage)
      else if data.value.token.None? then
        Failure(MissingTokenMessage)
      else
        var token := Trim(data.value.token.value);
        TrimEmptyIffBlank(data.value.token.value);
        if token == [] then Failure(MissingTokenMessage)
        else Success(Session(token, perfil.value))
  }

  /** The `catch` clause: an `Error` yields its own message, anything else the
      generic one. */
  function CaughtMessage(thrown: Thrown): (m: string)
    ensures thrown.ErrorObject? ==> m == thrown.message
    ensures thrown.NonError? ==> m == UnexpectedErrorMessage
  {
    match thrown
    case ErrorObject(message) => message
    case NonError => UnexpectedErrorMessage
  }

  /** The body of the `try` block after the call, with its `catch`: a validated
      session and the info text to show, or the message the failure surfaces. */
  function Attempt(reply: Reply): (o: Outcome)
    ensures o.LoggedIn? <==> reply.Resolved? && Validate(reply.data).Success?
    ensures o.LoggedIn? ==>
      o.session == Validate(reply.data).value &&
      o.info == reply.data.value.message.GetOr(LoginSucceededMessage)
    ensures reply.Resolved? && Validate(reply.data).Failure? ==>
      o == Failed(Validate(reply.data).error)
    ensures reply.Rejected? ==> o == Failed(CaughtMessage(reply.thrown))
  {
    match reply
    case Rejected(thrown) => Failed(CaughtMessage(thrown))
    case Resolved(data) =>
      match Validate(data)
      case Success(session) => LoggedIn(session, data.value.message.GetOr(LoginSucceededMessage))
      case Failure(message) => Failed(CaughtMessage(ErrorObject(message)))
  }

  /** Whatever the reply, a session that comes out carries a usable token. */
  lemma AttemptSessionWellFormed(reply: Reply)
    ensures Attempt(reply).LoggedIn? ==>
      Attempt(reply).session.token != [] && IsTrimmed(Attempt(reply).session.token)
  {
  }

  /** A successful reply whose token needs no trimming logs in with exactly
      that token and profile, showing the server's message or the default one. */
  lemma CleanSuccessLogsIn(t: string, p: Profile, m: Option<string>)
    requires t != [] && IsTrimmed(t)
    ensures Attempt(Resolved(Some(AuthResponse(Some(true), m, Some(t), Some(p))))) ==
            LoggedIn(Session(t, p), m.GetOr(LoginSucceededMessage))
  {
    TrimmedIsFixed(t);
    TrimEmptyIffBlank(t);
    var data := Some(AuthResponse(Some(true), m, Some(t), Some(p)));
    assert Validate(data) == Success(Session(t, p));
  }

  /** A successful reply with a profile but no token fails with the missing-token message. */
  lemma MissingTokenFails(p: Profile)
    ensures Attempt(Resolved(Some(AuthResponse(Some(true), None, None, Some(p))))) ==
            Failed(MissingTokenMessage)
  {
  }

  /** A challenge that someone can match has no lower-case letter and no padding:
      the challenge is not normalised, only the input is. */
  lemma AcceptedChallengeIsNormal(input: string, challenge: string)
    requires CaptchaAccepted(input, challenge)
    ensures NoLower(challenge) && IsTrimmed(challenge)
  {
    var t := Trim(input);
    UpperNormalises(t);
    if t != [] {
      UpperKeepsWhitespace(t[0]);
      UpperKeepsWhitespace(t[|t| - 1]);
    }
  }

  /** Conversely, retyping a normal challenge exactly is accepted. */
  lemma NormalChallengeEchoAccepted(challenge: string)
    requires NoLower(challenge) && IsTrimmed(challenge)
    ensures CaptchaAccepted(challenge, challenge)
  {
    TrimUnique([], challenge, []);
    assert [] + challenge + [] == challenge;
    UpperNormalises(challenge);
  }

  /** The guard ignores surrounding whitespace of the input. */
  lemma CaptchaIgnoresPadding(pre: string, input: string, post: string, challenge: string)
    requires Blank(pre) && Blank(post)
    ensures CaptchaAccepted(pre + input + post, challenge) <==> CaptchaAccepted(input, challenge)
  {
    TrimIgnoresPadding(pre, input, post);
  }

  /** The guard ignores the case of the input: two inputs that upper-case alike
      are accepted alike. */
  lemma CaptchaIgnoresCase(a: string, b: string, challenge: string)
    requires Upper(a) == Upper(b)
    ensures CaptchaAccepted(a, challenge) <==> CaptchaAccepted(b, challenge)
  {
    TrimUpperCommute(a);
    TrimUpperCommute(b);
  }

  /** The input "ab3d" matches the challenge "AB3D". */
  lemma LowerCaseInputMatches()
    ensures CaptchaAccepted("ab3d", "AB3D")
  {
    TrimmedAB3D();
    UpperAB3D();
  }

  lemma TrimmedAB3D()
    ensures Trim("ab3d") == "ab3d"
  {
    TrimUnique([], "ab3d", []);
    assert [] + "ab3d" + [] == "ab3d";
  }

  lemma UpperAB3D()
    ensures Upper("ab3d") == "AB3D"
  {
    var u := Upper("ab3d");
    assert u[0] == 'A' && u[1] == 'B' && u[2] == '3' && u[3] == 'D';
  }

  /** The same input typed with whitespace around it still matches. */
  lemma PaddedLowerCaseInputMatches(pre: string, post: string)
    requires Blank(pre) && Blank(post)
    ensures CaptchaAccepted(pre + "ab3d" + post, "AB3D")
  {
    LowerCaseInputMatches();
    CaptchaIgnoresPadding(pre, "ab3d", post, "AB3D");
  }
}
