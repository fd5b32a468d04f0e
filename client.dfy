/**
 * The browser application of app/client/src/app.js: one global state record
 * that the wizard and login actions change in place.
 *
 * Each action is first given as a pure function on `AppState`; the class
 * `App` holds the same fields and performs each action in place, proved to
 * agree with that function. Network replies arrive as parameters (`None` when
 * `fetch` or `response.json()` throws); `localStorage`'s 'sessionId' entry is
 * the field `stored`; `confirm` is a boolean parameter. Rendering is left out,
 * except for the classes of the progress dots.
 */
module Client {
  import opened Wrappers
  import opened ConfigStore
  import Server

  /** state.mode: 'loading', 'installer', 'login' or 'dashboard'. */
  datatype Mode = Loading | Installer | LoginScreen | Dashboard

  /** The two keys the page ever passes to updateFormData (app.js:161, 194). */
  datatype FormKey = AdminEmailKey | UsageContextKey

  datatype FormData = FormData(adminEmail: string, usageContext: string)

  /** The global `state` (app.js:9-19), with `stored` standing for localStorage's 'sessionId'. */
  datatype AppState = AppState(
    mode: Mode,
    step: int,
    formData: FormData,
    sessionId: Option<string>,
    stored: Option<string>,
    adminEmail: Option<string>,
    error: Option<string>)

  const InitialForm: FormData := FormData("", "personal")
  const ConnectError: string := "Failed to connect to server"
  const StepEmailError: string := "Please enter a valid email address"
  const SetupFailedFallback: string := "Setup failed"
  const SetupRequestFailedError: string := "Failed to save configuration"
  const LoginRejectedFallback: string := "Invalid email"
  const LoginFailedError: string := "Login failed"

  /** The page as it loads: mode 'loading', step 1, and the session id read from storage. */
  function Boot(stored: Option<string>): (s: AppState)
    ensures s.mode == Loading && s.step == 1 && s.formData == InitialForm
    ensures s.sessionId == stored && s.stored == stored && s.adminEmail == None && s.error == None
  {
    AppState(Loading, 1, InitialForm, stored, stored, None, None)
  }

  /** JavaScript truthiness of an optional string. */
  predicate Truthy(o: Option<string>)
  {
    o.Some? && o.value != ""
  }

  // The fields of a reply body as the client reads them; a key the body does
  // not carry reads as undefined.

  predicate InstalledField(b: Server.Body)
  {
    b.StatusBody? && b.installed
  }

  function StatusEmailField(b: Server.Body): Option<string>
  {
    if b.StatusBody? then b.adminEmail else None
  }

  predicate ValidField(b: Server.Body)
  {
    b.SessionBody? && b.valid
  }

  function EmailField(b: Server.Body): Option<string>
  {
    if b.SessionBody? then b.email else None
  }

  /** `data.error || fallback`: the server's message when it sent one, the fallback otherwise. */
  function ErrorOr(b: Server.Body, fallback: string): (e: string)
    ensures e == fallback || (b.ErrorBody? && e == b.error)
    ensures !b.ErrorBody? ==> e == fallback
    ensures b.ErrorBody? && b.error != "" ==> e == b.error
    ensures e != "" <==> fallback != "" || (b.ErrorBody? && b.error != "")
  {
    if b.ErrorBody? && b.error != "" then b.error else fallback
  }

  /**
   * init (app.js:22-56): the mode from the status reply and, when the system is
   * installed and a session id is held, from the session check's reply.
   */
  function Initialized(s: AppState, status: Option<Server.Body>, session: Option<Server.Body>): (r: AppState)
    ensures r.step == s.step && r.formData == s.formData && r.sessionId == s.sessionId && r.stored == s.stored
    ensures status.None? ==> r == s.(error := Some(ConnectError))
    ensures status.Some? && !InstalledField(status.value) ==> r == s.(mode := Installer)
    ensures status.Some? && InstalledField(status.value) && Truthy(s.sessionId) && session.Some? && ValidField(session.value)
      ==> r == s.(mode := Dashboard, adminEmail := EmailField(session.value))
    ensures status.Some? && InstalledField(status.value)
            && (!Truthy(s.sessionId) || (session.Some? && !ValidField(session.value)))
      ==> r == s.(mode := LoginScreen, adminEmail := StatusEmailField(status.value))
    ensures status.Some? && InstalledField(status.value) && Truthy(s.sessionId) && session.None?
      ==> r == s.(error := Some(ConnectError))
  {
    match status
    case None => s.(error := Some(ConnectError))
    case Some(data) =>
      if !InstalledField(data) then
        s.(mode := Installer)
      else if !Truthy(s.sessionId) then
        s.(mode := LoginScreen, adminEmail := StatusEmailField(data))
      else
        match session
        case None => s.(error := Some(ConnectError))
        case Some(check) =>
          if ValidField(check) then
            s.(mode := Dashboard, adminEmail := EmailField(check))
          else
            s.(mode := LoginScreen, adminEmail := StatusEmailField(data))
  }

  /** updateFormData (app.js:321-325): one key of the form changes and the error is cleared. */
  function FormUpdated(s: AppState, key: FormKey, value: string): (r: AppState)
    ensures key == AdminEmailKey ==> r.formData == s.formData.(adminEmail := value)
    ensures key == UsageContextKey ==> r.formData == s.formData.(usageContext := value)
    ensures r == s.(formData := r.formData, error := None)
  {
    match key
    case AdminEmailKey => s.(formData := s.formData.(adminEmail := value), error := None)
    case UsageContextKey => s.(formData := s.formData.(usageContext := value), error := None)
  }

  /** nextStep (app.js:327-340): leaving step 2 needs a well-formed email; otherwise the step goes up by one. */
  function SteppedForward(s: AppState): (r: AppState)
    ensures s.step == 2 && !Server.LooksLikeEmail(s.formData.adminEmail) ==> r == s.(error := Some(StepEmailError))
    ensures s.step != 2 || Server.LooksLikeEmail(s.formData.adminEmail) ==> r == s.(step := s.step + 1, error := None)
  {
    if s.step == 2 && !Server.LooksLikeEmail(s.formData.adminEmail) then
      s.(error := Some(StepEmailError))
    else
      s.(error := None, step := s.step + 1)
  }

  /** prevStep (app.js:342-346). */
  function SteppedBack(s: AppState): (r: AppState)
    ensures r == s.(step := s.step - 1, error := None)
  {
    s.(error := None, step := s.step - 1)
  }

  /** The synchronous start of completeSetup (app.js:349): the installing screen. */
  function SetupStarted(s: AppState): (r: AppState)
    ensures r == s.(step := 5)
  {
    s.(step := 5)
  }

  /**
   * The rest of completeSetup (app.js:352-376), once the reply to POST
   * /api/setup is in: the dashboard on success, otherwise back to step 2 with
   * the error and the form kept.
   */
  function SetupFinished(s: AppState, reply: Option<Server.Body>): (r: AppState)
    ensures r.formData == s.formData
    ensures reply.Some? && reply.value.Issued? ==>
      r == s.(mode := Dashboard, sessionId := Some(reply.value.sessionId), stored := Some(reply.value.sessionId),
              adminEmail := Some(s.formData.adminEmail))
    ensures reply.Some? && !reply.value.Issued? ==> r == s.(step := 2, error := Some(ErrorOr(reply.value, SetupFailedFallback)))
    ensures reply.None? ==> r == s.(step := 2, error := Some(SetupRequestFailedError))
  {
    match reply
    case None => s.(error := Some(SetupRequestFailedError), step := 2)
    case Some(data) =>
      if data.Issued? then
        s.(stored := Some(data.sessionId), sessionId := Some(data.sessionId),
           adminEmail := Some(s.formData.adminEmail), mode := Dashboard)
      else
        s.(error := Some(ErrorOr(data, SetupFailedFallback)), step := 2)
  }

  /** login (app.js:379-406), with `email` read from the login field. */
  function LoggedIn(s: AppState, email: string, reply: Option<Server.Body>): (r: AppState)
    ensures r.step == s.step && r.formData == s.formData
    ensures reply.Some? && reply.value.Issued? ==>
      r == s.(mode := Dashboard, sessionId := Some(reply.value.sessionId), stored := Some(reply.value.sessionId),
              adminEmail := Some(email), error := None)
    ensures reply.Some? && !reply.value.Issued? ==> r == s.(error := Some(ErrorOr(reply.value, LoginRejectedFallback)))
    ensures reply.None? ==> r == s.(error := Some(LoginFailedError))
  {
    match reply
    case None => s.(error := Some(LoginFailedError))
    case Some(data) =>
      if data.Issued? then
        s.(stored := Some(data.sessionId), sessionId := Some(data.sessionId),
           adminEmail := Some(email), mode := Dashboard, error := None)
      else
        s.(error := Some(ErrorOr(data, LoginRejectedFallback)))
  }

  /** logout (app.js:408-413): only the client's copy of the token goes. */
  function LoggedOut(s: AppState): (r: AppState)
    ensures r == s.(sessionId := None, stored := None, mode := LoginScreen)
  {
    s.(stored := None, sessionId := None, mode := LoginScreen)
  }

  /**
   * resetSetup (app.js:415-431): nothing happens unless confirmed and the POST
   * reaches the server; the server's answer is not looked at.
   */
  function SetupReset(s: AppState, confirmed: bool, reached: bool): (r: AppState)
    ensures !(confirmed && reached) ==> r == s
    ensures confirmed && reached ==>
      r == s.(sessionId := None, stored := None, step := 1, formData := InitialForm, mode := Installer)
  {
    if !confirmed || !reached then s
    else s.(stored := None, sessionId := None, step := 1, formData := InitialForm, mode := Installer)
  }

  /** A user action or the arrival of a reply. */
  datatype Action =
    | Init(status: Option<Server.Body>, session: Option<Server.Body>)
    | Edit(key: FormKey, value: string)
    | Next
    | Prev
    | Complete
    | SetupReply(reply: Option<Server.Body>)
    | SignIn(email: string, loginReply: Option<Server.Body>)
    | SignOut
    | StartOver(confirmed: bool, reached: bool)

  function Apply(s: AppState, a: Action): AppState
  {
    match a
    case Init(status, session) => Initialized(s, status, session)
    case Edit(k, v) => FormUpdated(s, k, v)
    case Next => SteppedForward(s)
    case Prev => SteppedBack(s)
    case Complete => SetupStarted(s)
    case SetupReply(reply) => SetupFinished(s, reply)
    case SignIn(email, reply) => LoggedIn(s, email, reply)
    case SignOut => LoggedOut(s)
    case StartOver(confirmed, reached) => SetupReset(s, confirmed, reached)
  }

  /**
   * Which actions the rendered page offers: init runs once at load; the
   * installer's steps carry the buttons and inputs of app.js:142, 161, 171-172,
   * 194, 205-206 and 241-242; the reply to setup arrives while step 5 shows;
   * the login screen has its button (278) and the dashboard its two (312-313).
   */
  function Enabled(s: AppState, a: Action): (b: bool)
    ensures b ==> (a.Init? <==> s.mode == Loading)
    ensures b && s.mode == Installer ==> 1 <= s.step <= 5
    ensures b && s.mode == LoginScreen ==> a.SignIn?
    ensures b && s.mode == Dashboard ==> a.SignOut? || a.StartOver?
    ensures b && a.Complete? ==> s.step == 4
  {
    match a
    case Init(_, _) => s.mode == Loading
    case Edit(k, _) => s.mode == Installer && s.step == (if k == AdminEmailKey then 2 else 3)
    case Next => s.mode == Installer && 1 <= s.step <= 3
    case Prev => s.mode == Installer && 2 <= s.step <= 4
    case Complete => s.mode == Installer && s.step == 4
    case SetupReply(_) => s.mode == Installer && s.step == 5
    case SignIn(_, _) => s.mode == LoginScreen
    case SignOut => s.mode == Dashboard
    case StartOver(_, _) => s.mode == Dashboard
  }

  /** `acts` can be performed one after another from `s`, each offered by the page at its turn. */
  predicate EnabledRun(s: AppState, acts: seq<Action>)
    decreases |acts|
  {
    acts == [] || (Enabled(s, acts[0]) && EnabledRun(Apply(s, acts[0]), acts[1..]))
  }

  function RunActions(s: AppState, acts: seq<Action>): AppState
    decreases |acts|
  {
    if acts == [] then s else RunActions(Apply(s, acts[0]), acts[1..])
  }

  /**
   * The wizard's invariant: the step indexes one of the five screens (so
   * `steps[state.step - 1]` at app.js:103 exists), the loading screen is only
   * ever at step 1, no installer step past 2 shows without a well-formed email,
   * and the session id in memory is the one in storage.
   */
  predicate WizardOk(s: AppState)
  {
    && 1 <= s.step <= 5
    && (s.mode == Loading ==> s.step == 1)
    && (s.mode == Installer && s.step >= 3 ==> Server.LooksLikeEmail(s.formData.adminEmail))
    && s.sessionId == s.stored
  }

  lemma BootOk(stored: Option<string>)
    ensures WizardOk(Boot(stored))
  {
  }

  lemma ApplyKeepsWizardOk(s: AppState, a: Action)
    requires WizardOk(s) && Enabled(s, a)
    ensures WizardOk(Apply(s, a))
  {
  }

  /** The invariant holds after any run of offered actions. */
  lemma {:induction false} RunKeepsWizardOk(s: AppState, acts: seq<Action>)
    requires WizardOk(s) && EnabledRun(s, acts)
    ensures WizardOk(RunActions(s, acts))
    decreases |acts|
  {
    if acts != [] {
      ApplyKeepsWizardOk(s, acts[0]);
      RunKeepsWizardOk(Apply(s, acts[0]), acts[1..]);
    }
  }

  /** From page load, whatever the user does and whatever the server answers, the step stays within 1..5. */
  lemma StepWithinBounds(stored: Option<string>, acts: seq<Action>)
    requires EnabledRun(Boot(stored), acts)
    ensures 1 <= RunActions(Boot(stored), acts).step <= 5
  {
    BootOk(stored);
    RunKeepsWizardOk(Boot(stored), acts);
  }

  /** Boot against a server in state `st`: the mode init picks, with the session id the page loaded with. */
  lemma BootAgainstServer(st: Server.ServerState, stored: Option<string>, firstReadFails: bool, secondReadFails: bool)
    ensures var r := Initialized(Boot(stored), Some(Server.HandleStatus(st.file, firstReadFails, secondReadFails).body),
                                 Some(Server.CheckSession(st.sessions, stored)));
      && (r.mode == Installer <==> !IsInstalled(st.file, firstReadFails))
      && (r.mode == Dashboard <==> IsInstalled(st.file, firstReadFails) && Truthy(stored) && stored.value in st.sessions)
      && (r.mode == Dashboard ==> r.adminEmail == Some(st.sessions[stored.value]))
      && (r.mode == LoginScreen ==>
            r.adminEmail == if secondReadFails then None else Some(st.file.config.adminEmail))
  {
  }

  /**
   * Completing the wizard posts a form the server's validation accepts; when
   * the write succeeds the page reaches the dashboard holding a token that the
   * server checks valid for the email entered.
   */
  lemma CompleteSetupRoundTrip(s: AppState, st: Server.ServerState, token: Server.SessionToken, now: string)
    requires WizardOk(s) && Enabled(s, Complete)
    ensures Server.HandleSetup(st, s.formData.adminEmail, s.formData.usageContext, token, now, true).1.code == 500
    ensures var served := Server.HandleSetup(st, s.formData.adminEmail, s.formData.usageContext, token, now, false);
      var r := SetupFinished(SetupStarted(s), Some(served.1.body));
      && served.1.code == 200
      && r.mode == Dashboard && r.step == 5
      && r.sessionId == Some(token) && r.adminEmail == Some(s.formData.adminEmail)
      && Server.CheckSession(served.0.sessions, r.sessionId) == Server.SessionBody(true, r.adminEmail)
  {
  }

  const ProgressDot: string := "progress-dot"
  const DoneDot: string := "progress-dot done"
  const ActiveDot: string := "progress-dot active"

  /** The class of dot `i` (renderProgress, app.js:109-114): done before the step, active at it, plain after. */
  function DotClass(i: int, step: int): (c: string)
    ensures c == (if i < step then DoneDot else if i == step then ActiveDot else ProgressDot)
  {
    ProgressDot + (if i < step then " done" else "") + (if i == step then " active" else "")
  }

  /** The five progress dots for `step`. */
  function ProgressDots(step: int): (dots: seq<string>)
    ensures |dots| == 5
    ensures forall k :: 0 <= k < 5 ==> dots[k] == DoneDot || dots[k] == ActiveDot || dots[k] == ProgressDot
  {
    seq(5, k => DotClass(k + 1, step))
  }

  function Count(dots: seq<string>, cls: string): nat
    decreases |dots|
  {
    if dots == [] then 0 else (if dots[0] == cls then 1 else 0) + Count(dots[1..], cls)
  }

  /** The dots before the step are done, the step's own is active, the rest are plain. */
  lemma DotsClassified(step: int, i: int)
    requires 1 <= i <= 5
    ensures ProgressDots(step)[i - 1] == (if i < step then DoneDot else if i == step then ActiveDot else ProgressDot)
  {
  }

  /** On steps 1 to 5 exactly one dot is active and step - 1 are done. */
  lemma DotCounts(step: int)
    requires 1 <= step <= 5
    ensures Count(ProgressDots(step), ActiveDot) == 1
    ensures Count(ProgressDots(step), DoneDot) == step - 1
    ensures Count(ProgressDots(step), ProgressDot) == 5 - step
  {
    var d := ProgressDots(step);
    DotsClassified(step, 1);
    DotsClassified(step, 2);
    DotsClassified(step, 3);
    DotsClassified(step, 4);
    DotsClassified(step, 5);
    assert DoneDot != ActiveDot && DoneDot != ProgressDot && ActiveDot != ProgressDot by {
      assert DoneDot[13] == 'd' && ActiveDot[13] == 'a' && |ProgressDot| == 12;
    }
    CountFive(d, ActiveDot);
    CountFive(d, DoneDot);
    CountFive(d, ProgressDot);
  }

  lemma CountFive(d: seq<string>, cls: string)
    requires |d| == 5
    ensures Count(d, cls) == (if d[0] == cls then 1 else 0) + (if d[1] == cls then 1 else 0)
      + (if d[2] == cls then 1 else 0) + (if d[3] == cls then 1 else 0) + (if d[4] == cls then 1 else 0)
  {
    var d1 := d[1..];
    var d2 := d1[1..];
    var d3 := d2[1..];
    var d4 := d3[1..];
    assert d4[1..] == [];
    assert Count(d4, cls) == (if d[4] == cls then 1 else 0);
    assert Count(d3, cls) == (if d[3] == cls then 1 else 0) + Count(d4, cls);
    assert Count(d2, cls) == (if d[2] == cls then 1 else 0) + Count(d3, cls);
    assert Count(d1, cls) == (if d[1] == cls then 1 else 0) + Count(d2, cls);
  }

  /** The page's state record, changed in place by the actions (app.js:9-19, 321-427). */
  class App {
    var mode: Mode
    var step: int
    var formData: FormData
    var sessionId: Option<string>
    var stored: Option<string>
    var adminEmail: Option<string>
    var error: Option<string>

    function State(): AppState
      reads this
    {
      AppState(mode, step, formData, sessionId, stored, adminEmail, error)
    }

    constructor (storedSession: Option<string>)
      ensures State() == Boot(storedSession)
    {
      mode := Loading;
      step := 1;
      formData := InitialForm;
      stored := storedSession;
      sessionId := storedSession;
      adminEmail := None;
      error := None;
    }

    method Init(status: Option<Server.Body>, session: Option<Server.Body>)
      modifies this
      ensures State() == Initialized(old(State()), status, session)
    {
      if status.None? {
        error := Some(ConnectError);
        return;
      }
      var data := status.value;
      if InstalledField(data) {
        if Truthy(sessionId) {
          if session.None? {
            error := Some(ConnectError);
            return;
          }
          if ValidField(session.value) {
            mode := Dashboard;
            adminEmail := EmailField(session.value);
          } else {
            mode := LoginScreen;
            adminEmail := StatusEmailField(data);
          }
        } else {
          mode := LoginScreen;
          adminEmail := StatusEmailField(data);
        }
      } else {
        mode := Installer;
      }
    }

    method UpdateFormData(key: FormKey, value: string)
      modifies this
      ensures State() == FormUpdated(old(State()), key, value)
    {
      match key {
        case AdminEmailKey => formData := formData.(adminEmail := value);
        case UsageContextKey => formData := formData.(usageContext := value);
      }
      error := None;
    }

    method NextStep()
      modifies this
      ensures State() == SteppedForward(old(State()))
    {
      if step == 2 {
        if !Server.LooksLikeEmail(formData.adminEmail) {
          error := Some(StepEmailError);
          return;
        }
      }
      error := None;
      step := step + 1;
    }

    method PrevStep()
      modifies this
      ensures State() == SteppedBack(old(State()))
    {
      error := None;
      step := step - 1;
    }

    method StartCompleteSetup()
      modifies this
      ensures State() == SetupStarted(old(State()))
    {
      step := 5;
    }

    method FinishCompleteSetup(reply: Option<Server.Body>)
      modifies this
      ensures State() == SetupFinished(old(State()), reply)
    {
      if reply.Some? && reply.value.Issued? {
        stored := Some(reply.value.sessionId);
        sessionId := Some(reply.value.sessionId);
        adminEmail := Some(formData.adminEmail);
        mode := Dashboard;
      } else if reply.Some? {
        error := Some(ErrorOr(reply.value, SetupFailedFallback));
        step := 2;
      } else {
        error := Some(SetupRequestFailedError);
        step := 2;
      }
    }

    method Login(email: string, reply: Option<Server.Body>)
      modifies this
      ensures State() == LoggedIn(old(State()), email, reply)
    {
      if reply.None? {
        error := Some(LoginFailedError);
      } else if reply.value.Issued? {
        stored := Some(reply.value.sessionId);
        sessionId := Some(reply.value.sessionId);
        adminEmail := Some(email);
        mode := Dashboard;
        error := None;
      } else {
        error := Some(ErrorOr(reply.value, LoginRejectedFallback));
      }
    }

    method Logout()
      modifies this
      ensures State() == LoggedOut(old(State()))
    {
      stored := None;
      sessionId := None;
      mode := LoginScreen;
    }

    method ResetSetup(confirmed: bool, reached: bool)
      modifies this
      ensures State() == SetupReset(old(State()), confirmed, reached)
    {
      if !confirmed {
        return;
      }
      if reached {
        stored := None;
        sessionId := None;
        step := 1;
        formData := InitialForm;
        mode := Installer;
      }
    }
  }
}
