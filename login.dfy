/** Sign-in and registration: the validation of what the user typed, the employee-code gate
    for admin accounts, the mapping from backend errors to messages, and the loading flag
    shown while a backend operation runs. The backend's answers are parameters here, and
    every request the view model sends is recorded, with the loading flag in force when it
    was sent. */
module Login {
  import opened KotlinStd

  datatype LoginState = LoginState(loading: bool)

  /** The one-shot events the screens react to. */
  datatype LoginEvent = LoginSuccess | RegisterSuccess | Error(message: string)

  const MsgFillAllFields := "Por favor, completa todos los campos"
  const MsgPasswordsDiffer := "Las contraseñas no coinciden"
  const MsgPasswordTooShort := "La contraseña debe tener al menos 8 caracteres"
  const MsgBadEmployeeCode := "Código de empleado incorrecto"
  const MsgNoUserCreated := "Error inesperado al crear usuario"
  const MsgDefault := "Error inesperado. Inténtalo de nuevo."

  /** The shortest password registration accepts. */
  const MinPasswordLength := 8

  /** The role that needs an employee code. */
  const AdminRole := "admin"

  /** A failure raised by a backend call or by the view model itself. `authErrorCode` is
      present exactly when the failure is an authentication exception, which carries one. */
  datatype Exception = Exception(message: Option<string>, authErrorCode: Option<string>)

  /** The failure the view model raises itself, with a message and no error code. */
  function Raised(message: string): Exception {
    Exception(Some(message), None)
  }

  /** The seven authentication error codes with a message of their own. */
  const AuthMessages: map<string, string> := map[
    "ERROR_INVALID_EMAIL" := "El correo tiene un formato inválido.",
    "ERROR_WRONG_PASSWORD" := "La contraseña es incorrecta.",
    "ERROR_USER_NOT_FOUND" := "No existe un usuario con ese correo.",
    "ERROR_EMAIL_ALREADY_IN_USE" := "El correo ya está registrado.",
    "ERROR_WEAK_PASSWORD" := "La contraseña debe tener al menos 8 caracteres.",
    "ERROR_TOO_MANY_REQUESTS" := "Demasiados intentos. Intenta más tarde.",
    "ERROR_INVALID_CREDENTIAL" := "El correo o la contraseña son incorrectos."
  ]

  // ---------------------------------------------------------------------------
  // Messages for failures

  /** `firebaseError`, in its order: the employee-code rejection passes through unchanged;
      then a known authentication code gives its fixed message; anything else shows the
      failure's own message, or the default text when it has none. */
  function FirebaseError(exception: Option<Exception>): (msg: string)
    ensures exception.Some? && exception.value.message == Some(MsgBadEmployeeCode) ==> msg == MsgBadEmployeeCode
    ensures !(exception.Some? && exception.value.message == Some(MsgBadEmployeeCode)) ==>
      if exception.Some? && exception.value.authErrorCode.Some? && exception.value.authErrorCode.value in AuthMessages
      then msg == AuthMessages[exception.value.authErrorCode.value]
      else if exception.Some? && exception.value.message.Some? then msg == exception.value.message.value
      else msg == MsgDefault
  {
    if exception.Some? && exception.value.message == Some(MsgBadEmployeeCode) then
      exception.value.message.value
    else
      var code := if exception.Some? then exception.value.authErrorCode else None;
      if code.Some? && code.value in AuthMessages then AuthMessages[code.value]
      else if exception.Some? && exception.value.message.Some? then exception.value.message.value
      else MsgDefault
  }

  /** Different known codes give different messages, so each message names one cause. */
  lemma AuthMessagesDistinct(a: string, b: string)
    requires a in AuthMessages && b in AuthMessages && a != b
    ensures AuthMessages[a] != AuthMessages[b]
  {
  }

  /** The view model's own failures reach the user with their message: the code rejection
      and the "no user created" failure alike. */
  lemma RaisedMessagesPassThrough(message: string)
    ensures FirebaseError(Some(Raised(message))) == message
  {
  }

  // ---------------------------------------------------------------------------
  // Validation of what the user typed

  /** The check `login` makes before signing in: the message to show, if any. */
  function LoginCheck(email: string, password: string): (err: Option<string>)
    ensures err.None? <==> !IsBlank(email) && !IsBlank(password)
    ensures err.Some? ==> err.value == MsgFillAllFields
  {
    if IsBlank(email) || IsBlank(password) then Some(MsgFillAllFields) else None
  }

  /** The checks `createUser` makes before anything else, in order: all fields filled, the
      two passwords equal, the password long enough. The first failing one gives the message. */
  function RegisterCheck(email: string, password: string, confirmPassword: string): (err: Option<string>)
    ensures err == Some(MsgFillAllFields) <==> IsBlank(email) || IsBlank(password) || IsBlank(confirmPassword)
    ensures err == Some(MsgPasswordsDiffer) <==>
      !IsBlank(email) && !IsBlank(password) && !IsBlank(confirmPassword) && password != confirmPassword
    ensures err == Some(MsgPasswordTooShort) <==>
      !IsBlank(email) && !IsBlank(password) && !IsBlank(confirmPassword) && password == confirmPassword
      && |password| < MinPasswordLength
    ensures err.None? <==>
      !IsBlank(email) && !IsBlank(password) && !IsBlank(confirmPassword) && password == confirmPassword
      && |password| >= MinPasswordLength
  {
    if IsBlank(email) || IsBlank(password) || IsBlank(confirmPassword) then Some(MsgFillAllFields)
    else if password != confirmPassword then Some(MsgPasswordsDiffer)
    else if |password| < MinPasswordLength then Some(MsgPasswordTooShort)
    else None
  }

  /** What the access document lookup gives: a failure, or the stored code (which may be missing). */
  datatype CodeLookup = CodeLookupFailed | AccessDocument(employeeCode: Option<string>)

  /** `validateEmployeeCode`, with the stored code as a parameter: a missing or blank input is
      refused without a lookup; otherwise the input must equal the stored code, and a failed
      lookup or a missing stored code refuses it. */
  function ValidateEmployeeCode(inputCode: Option<string>, lookup: CodeLookup): (ok: bool)
    ensures IsNullOrBlank(inputCode) ==> !ok
    ensures !IsNullOrBlank(inputCode) ==> (ok <==> lookup.AccessDocument? && lookup.employeeCode == inputCode)
    ensures lookup.CodeLookupFailed? ==> !ok
  {
    if IsNullOrBlank(inputCode) then false
    else match lookup
      case CodeLookupFailed => false
      case AccessDocument(realCode) => realCode == inputCode
  }

  // ---------------------------------------------------------------------------
  // The backend, as requests and answers

  /** The profile document stored for a new account. */
  datatype Profile = Profile(email: string, role: string)

  datatype Request =
    | SignIn(email: string, password: string)
    | ReadEmployeeCode
    | CreateAccount(email: string, password: string)
    | SaveProfile(uid: string, profile: Profile)

  /** A request as sent, with the loading flag shown at that moment. */
  datatype Sent = Sent(request: Request, loading: bool)

  /** The answer of a call that returns nothing. */
  datatype Outcome = Succeeded | Failed(exception: Exception)

  /** The answer of account creation: the new user's id, no user at all, or a failure. */
  datatype AccountOutcome = Created(uid: string) | CreatedWithoutUser | AccountFailed(exception: Exception)

  /** The backend's answers to the calls one registration can make. */
  datatype RegisterBackend = RegisterBackend(codeLookup: CodeLookup, account: AccountOutcome, profileWrite: Outcome)

  /** What one operation does: the requests it sends, the event it emits, and whether it ran
      the remote part (and so set the loading flag on and then off). */
  datatype Run = Run(requests: seq<Request>, event: LoginEvent, remote: bool)

  /** The event for a sign-in answer. */
  function SignInEvent(answer: Outcome): (e: LoginEvent)
    ensures answer.Succeeded? <==> e == LoginSuccess
    ensures answer.Failed? ==> e == Error(FirebaseError(Some(answer.exception)))
  {
    match answer
    case Succeeded => LoginSuccess
    case Failed(ex) => Error(FirebaseError(Some(ex)))
  }

  /** `login`: a blank field shows a message and nothing is sent; otherwise one sign-in is sent. */
  function LoginRun(email: string, password: string, answer: Outcome): (run: Run)
    ensures LoginCheck(email, password).Some? ==>
      run == Run([], Error(MsgFillAllFields), false)
    ensures LoginCheck(email, password).None? ==>
      run == Run([SignIn(email, password)], SignInEvent(answer), true)
  {
    match LoginCheck(email, password)
    case Some(msg) => Run([], Error(msg), false)
    case None => Run([SignIn(email, password)], SignInEvent(answer), true)
  }

  /** The requests the employee-code check sends: the lookup happens only for a filled-in code. */
  function CodeRequests(inputCode: Option<string>): seq<Request> {
    if IsNullOrBlank(inputCode) then [] else [ReadEmployeeCode]
  }

  /** The exception the `try` block of `createUser` ends with, if any: the code gate for
      admins, then account creation, then the profile document. */
  function RegisterFailure(role: string, employeeCodeInput: Option<string>, backend: RegisterBackend): Option<Exception> {
    if role == AdminRole && !ValidateEmployeeCode(employeeCodeInput, backend.codeLookup) then
      Some(Raised(MsgBadEmployeeCode))
    else
      match backend.account
      case AccountFailed(ex) => Some(ex)
      case CreatedWithoutUser => Some(Raised(MsgNoUserCreated))
      case Created(_) => if backend.profileWrite.Failed? then Some(backend.profileWrite.exception) else None
  }

  /** The requests the `try` block of `createUser` sends before it ends. */
  function RegisterRequests(email: string, password: string, role: string, employeeCodeInput: Option<string>,
                            backend: RegisterBackend): seq<Request>
  {
    var codeReqs := if role == AdminRole then CodeRequests(employeeCodeInput) else [];
    if role == AdminRole && !ValidateEmployeeCode(employeeCodeInput, backend.codeLookup) then codeReqs
    else
      var reqs := codeReqs + [CreateAccount(email, password)];
      match backend.account
      case Created(uid) => reqs + [SaveProfile(uid, Profile(email, role))]
      case _ => reqs
  }

  /** The event `createUser` emits: success when the `try` block completes, otherwise the
      caught exception's message. */
  function CaughtEvent(failure: Option<Exception>): (e: LoginEvent)
    ensures e == RegisterSuccess <==> failure.None?
    ensures failure.Some? ==> e == Error(FirebaseError(failure))
  {
    match failure
    case None => RegisterSuccess
    case Some(ex) => Error(FirebaseError(Some(ex)))
  }

  /** The remote part of `createUser`; the first failure ends it with its message. */
  function RegisterRemote(email: string, password: string, role: string, employeeCodeInput: Option<string>,
                          backend: RegisterBackend): Run
  {
    Run(RegisterRequests(email, password, role, employeeCodeInput, backend),
        CaughtEvent(RegisterFailure(role, employeeCodeInput, backend)), true)
  }

  /** `createUser`: the input checks, and the remote part only when they pass. */
  function RegisterRun(email: string, password: string, confirmPassword: string, role: string,
                       employeeCodeInput: Option<string>, backend: RegisterBackend): Run
  {
    match RegisterCheck(email, password, confirmPassword)
    case Some(msg) => Run([], Error(msg), false)
    case None => RegisterRemote(email, password, role, employeeCodeInput, backend)
  }

  /** An input check failure emits its message and nothing else happens. */
  lemma RegisterCheckFailureStops(email: string, password: string, confirmPassword: string, role: string,
                                  code: Option<string>, backend: RegisterBackend)
    requires RegisterCheck(email, password, confirmPassword).Some?
    ensures var run := RegisterRun(email, password, confirmPassword, role, code, backend);
      run.requests == [] && !run.remote && run.event == Error(RegisterCheck(email, password, confirmPassword).value)
  {
  }

  /** Every account creation request comes from an input with all fields filled, matching
      passwords and a long enough password, and carries that email and password. */
  lemma AccountCreationNeedsValidInput(email: string, password: string, confirmPassword: string, role: string,
                                       code: Option<string>, backend: RegisterBackend, e: string, p: string)
    requires CreateAccount(e, p) in RegisterRun(email, password, confirmPassword, role, code, backend).requests
    ensures !IsBlank(email) && !IsBlank(password) && !IsBlank(confirmPassword)
    ensures password == confirmPassword && |password| >= MinPasswordLength
    ensures e == email && p == password
  {
  }

  /** An admin registration with a code that does not check out shows the code message and
      creates no account and no profile. */
  lemma AdminNeedsValidCode(email: string, password: string, confirmPassword: string,
                            code: Option<string>, backend: RegisterBackend)
    requires RegisterCheck(email, password, confirmPassword).None?
    requires !ValidateEmployeeCode(code, backend.codeLookup)
    ensures var run := RegisterRun(email, password, confirmPassword, AdminRole, code, backend);
      && run.event == Error(MsgBadEmployeeCode)
      && (forall r :: r in run.requests ==> r == ReadEmployeeCode)
  {
    RaisedMessagesPassThrough(MsgBadEmployeeCode);
  }

  /** A saved profile always holds the email typed and the role asked for. */
  lemma SavedProfileMatchesInput(email: string, password: string, confirmPassword: string, role: string,
                                 code: Option<string>, backend: RegisterBackend, uid: string, profile: Profile)
    requires SaveProfile(uid, profile) in RegisterRun(email, password, confirmPassword, role, code, backend).requests
    ensures profile == Profile(email, role)
    ensures backend.account == Created(uid)
  {
  }

  /** A successful registration created the account and then stored its profile, and a
      non-admin never needs a code. */
  lemma RegisterSuccessMeansAccountAndProfile(email: string, password: string, confirmPassword: string, role: string,
                                              code: Option<string>, backend: RegisterBackend)
    requires RegisterRun(email, password, confirmPassword, role, code, backend).event == RegisterSuccess
    ensures backend.account.Created? && backend.profileWrite.Succeeded?
    ensures var run := RegisterRun(email, password, confirmPassword, role, code, backend);
      |run.requests| >= 2
      && run.requests[|run.requests| - 2] == CreateAccount(email, password)
      && run.requests[|run.requests| - 1] == SaveProfile(backend.account.uid, Profile(email, role))
    ensures role == AdminRole ==> ValidateEmployeeCode(code, backend.codeLookup)
    ensures role != AdminRole ==>
      RegisterRun(email, password, confirmPassword, role, code, backend).requests
      == [CreateAccount(email, password), SaveProfile(backend.account.uid, Profile(email, role))]
  {
    var run := RegisterRun(email, password, confirmPassword, role, code, backend);
    assert RegisterCheck(email, password, confirmPassword).None?;
    assert !(role == AdminRole && !ValidateEmployeeCode(code, backend.codeLookup)) by {
      if role == AdminRole && !ValidateEmployeeCode(code, backend.codeLookup) {
        RaisedMessagesPassThrough(MsgBadEmployeeCode);
      }
    }
    if backend.account.CreatedWithoutUser? {
      RaisedMessagesPassThrough(MsgNoUserCreated);
    }
  }

  /** Requests as sent with the loading flag at `loading`. */
  function SentAs(rs: seq<Request>, loading: bool): (sent: seq<Sent>)
    ensures |sent| == |rs|
    ensures forall i :: 0 <= i < |rs| ==> sent[i] == Sent(rs[i], loading)
  {
    seq(|rs|, i requires 0 <= i < |rs| => Sent(rs[i], loading))
  }

  /** The requests of a run as the view model sends them: all while loading. */
  function WhileLoading(rs: seq<Request>): seq<Sent> {
    SentAs(rs, true)
  }

  lemma WhileLoadingAppend(rs: seq<Request>, r: Request)
    ensures WhileLoading(rs + [r]) == WhileLoading(rs) + [Sent(r, true)]
  {
  }

  // ---------------------------------------------------------------------------
  // The view model

  /** `LoginViewModel`: the screen state (the loading flag), the events emitted so far and
      the requests sent so far. Each operation runs to its end, backend answers included. */
  class LoginViewModel {
    var screenState: LoginState
    var events: seq<LoginEvent>
    var sent: seq<Sent>

    constructor ()
      ensures screenState == LoginState(false) && events == [] && sent == []
    {
      screenState := LoginState(false);
      events := [];
      sent := [];
    }

    method SetLoading(value: bool)
      modifies this
      ensures screenState == LoginState(value)
      ensures events == old(events) && sent == old(sent)
    {
      screenState := screenState.(loading := value);
    }

    method EmitEvent(event: LoginEvent)
      modifies this
      ensures events == old(events) + [event]
      ensures screenState == old(screenState) && sent == old(sent)
    {
      events := events + [event];
    }

    method Send(request: Request)
      modifies this
      ensures sent == old(sent) + [Sent(request, screenState.loading)]
      ensures screenState == old(screenState) && events == old(events)
    {
      sent := sent + [Sent(request, screenState.loading)];
    }

    /** The code gate's check; the lookup is sent only for a filled-in code. */
    method CheckEmployeeCode(inputCode: Option<string>, lookup: CodeLookup) returns (ok: bool)
      modifies this
      ensures ok == ValidateEmployeeCode(inputCode, lookup)
      ensures sent == old(sent) + SentAs(CodeRequests(inputCode), screenState.loading)
      ensures screenState == old(screenState) && events == old(events)
    {
      if IsNullOrBlank(inputCode) {
        assert SentAs(CodeRequests(inputCode), screenState.loading) == [];
        return false;
      }
      Send(ReadEmployeeCode);
      ok := match lookup
        case CodeLookupFailed => false
        case AccessDocument(realCode) => realCode == inputCode;
    }

    /** `login`, with the sign-in answer given. */
    method LogIn(email: string, password: string, answer: Outcome)
      modifies this
      ensures var run := LoginRun(email, password, answer);
        && events == old(events) + [run.event]
        && sent == old(sent) + WhileLoading(run.requests)
        && screenState.loading == (if run.remote then false else old(screenState.loading))
    {
      if IsBlank(email) || IsBlank(password) {
        EmitEvent(Error(MsgFillAllFields));
        return;
      }
      SetLoading(true);
      Send(SignIn(email, password));
      match answer {
        case Succeeded => EmitEvent(LoginSuccess);
        case Failed(ex) => EmitEvent(Error(FirebaseError(Some(ex))));
      }
      SetLoading(false);
    }

    /** `createUser`, with the backend's answers given. */
    method CreateUser(email: string, password: string, confirmPassword: string, role: string,
                      employeeCodeInput: Option<string>, backend: RegisterBackend)
      modifies this
      ensures var run := RegisterRun(email, password, confirmPassword, role, employeeCodeInput, backend);
        && events == old(events) + [run.event]
        && sent == old(sent) + WhileLoading(run.requests)
        && screenState.loading == (if run.remote then false else old(screenState.loading))
    {
      if IsBlank(email) || IsBlank(password) || IsBlank(confirmPassword) {
        EmitEvent(Error(MsgFillAllFields));
        return;
      }
      if password != confirmPassword {
        EmitEvent(Error(MsgPasswordsDiffer));
        return;
      }
      if |password| < MinPasswordLength {
        EmitEvent(Error(MsgPasswordTooShort));
        return;
      }
      Register(email, password, role, employeeCodeInput, backend);
    }

    /** The coroutine `createUser` launches once the input checks pass. */
    method Register(email: string, password: string, role: string, employeeCodeInput: Option<string>,
                    backend: RegisterBackend)
      modifies this
      ensures var run := RegisterRemote(email, password, role, employeeCodeInput, backend);
        && events == old(events) + [run.event]
        && sent == old(sent) + WhileLoading(run.requests)
        && !screenState.loading
    {
      SetLoading(true);
      var failure := TryRegister(email, password, role, employeeCodeInput, backend);
      EmitEvent(CaughtEvent(failure));
      SetLoading(false);
    }

    /** The `try` block of `createUser`, run with the loading flag on; it returns the
        exception it ends with. */
    method TryRegister(email: string, password: string, role: string, employeeCodeInput: Option<string>,
                       backend: RegisterBackend) returns (failure: Option<Exception>)
      requires screenState.loading
      modifies this
      ensures failure == RegisterFailure(role, employeeCodeInput, backend)
      ensures sent == old(sent) + WhileLoading(RegisterRequests(email, password, role, employeeCodeInput, backend))
      ensures events == old(events) && screenState == old(screenState)
    {
      ghost var start := sent;
      failure := None;
      if role == AdminRole {
        var isCodeValid := CheckEmployeeCode(employeeCodeInput, backend.codeLookup);
        if !isCodeValid {
          return Some(Raised(MsgBadEmployeeCode));
        }
      }
      ghost var codeReqs := if role == AdminRole then CodeRequests(employeeCodeInput) else [];
      assert sent == start + WhileLoading(codeReqs) by {
        if role != AdminRole { assert WhileLoading(codeReqs) == []; }
      }
      Send(CreateAccount(email, password));
      WhileLoadingAppend(codeReqs, CreateAccount(email, password));
      match backend.account {
        case AccountFailed(ex) =>
          failure := Some(ex);
        case CreatedWithoutUser =>
          failure := Some(Raised(MsgNoUserCreated));
        case Created(uid) =>
          Send(SaveProfile(uid, Profile(email, role)));
          WhileLoadingAppend(codeReqs + [CreateAccount(email, password)], SaveProfile(uid, Profile(email, role)));
          if backend.profileWrite.Failed? {
            failure := Some(backend.profileWrite.exception);
          }
      }
    }
  }
}
