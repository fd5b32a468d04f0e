/**
 * The HTTP handlers of app/server/index.js over the installation record and
 * the in-memory session map.
 *
 * Each handler is first given as a pure function from the server state (the
 * config file and the session map) to the new state and the response; the
 * class `Server` then performs the same handler in place, on a `Store` and a
 * `sessions` field, and is proved to agree with that function. Session tokens,
 * timestamps and file-system failures (each read of the file as well as the
 * writes) are parameters.
 */
module Server {
  import opened Wrappers
  import opened ConfigStore

  /**
   * A session id as generateSessionId (index.js:135-137) makes it: never
   * empty, since it always ends with `Date.now().toString(36)`.
   */
  type SessionToken = t: string | t != "" witness "0"

  const InvalidEmailError: string := "Please enter a valid email address"
  const SaveFailedError: string := "Failed to save configuration. Please try again."
  const SetupCompleteMessage: string := "Setup complete!"
  const NotConfiguredError: string := "System not configured"
  const InvalidAdminError: string := "Invalid admin email"
  const ResetCompleteMessage: string := "Reset complete. Refresh to re-run setup."
  const ResetFailedError: string := "Failed to reset"

  /** The mode /api/status reports. */
  datatype StatusMode = InstallerMode | DashboardMode

  /** The JSON bodies the handlers send; `None` stands for a JSON `null` or an absent key. */
  datatype Body =
    | StatusBody(installed: bool, mode: StatusMode, adminEmail: Option<string>, installedAt: Option<string>)
    | Issued(sessionId: SessionToken, message: Option<string>)
    | SessionBody(valid: bool, email: Option<string>)
    | ResetBody(notice: string)
    | ErrorBody(error: string)

  /** An HTTP status code and a body; `res.json` alone answers 200. */
  datatype Response = Response(code: int, body: Body)

  /** The state the handlers share: the config file and the session map from token to email. */
  datatype ServerState = ServerState(file: FileState, sessions: map<string, string>)

  /** The email test of index.js:47, also used by the wizard at app.js:330: non-empty and containing '@'. */
  function LooksLikeEmail(s: string): (b: bool)
    ensures b <==> exists i :: 0 <= i < |s| && s[i] == '@'
  {
    s != "" && '@' in s
  }

  /**
   * The object /api/setup hands to writeConfig (index.js:54-58): the given email,
   * the usage context or 'personal' when it is empty, and loginMethod 'email'.
   * It carries no installed, installedAt or version key.
   */
  function SetupRecord(adminEmail: string, usageContext: string): (c: Config)
    ensures c.adminEmail == adminEmail && c.loginMethod == "email"
    ensures c.usageContext == (if usageContext == "" then "personal" else usageContext)
  {
    Config(adminEmail, if usageContext == "" then "personal" else usageContext, "email", false, "", "")
  }

  /** `x || null` for a string field. */
  function OrNull(s: string): (r: Option<string>)
    ensures r.None? <==> s == ""
  {
    if s == "" then None else Some(s)
  }

  /**
   * GET /api/status (index.js:27-37). The file is read twice, once by
   * isInstalled and once by readConfig; `firstReadFails` and
   * `secondReadFails` say which of the two reads throws. When only the second
   * throws, the answer is installed and DASHBOARD with a null adminEmail.
   */
  function HandleStatus(f: FileState, firstReadFails: bool, secondReadFails: bool): (r: Response)
    ensures r.code == 200 && r.body.StatusBody?
    ensures r.body.installed == IsInstalled(f, firstReadFails)
    ensures r.body.mode == DashboardMode <==> IsInstalled(f, firstReadFails)
    ensures r.body.adminEmail.Some? <==> IsInstalled(f, firstReadFails) && !secondReadFails
    ensures r.body.adminEmail.Some? ==> r.body.adminEmail.value == f.config.adminEmail
    ensures r.body.installedAt ==
      if IsInstalled(f, firstReadFails) && !secondReadFails then OrNull(f.config.installedAt) else None
  {
    var installed := IsInstalled(f, firstReadFails);
    var current := if installed then ReadConfig(f, secondReadFails) else None;
    Response(200, StatusBody(
      installed,
      if installed then DashboardMode else InstallerMode,
      if current.Some? then OrNull(current.value.adminEmail) else None,
      if current.Some? then OrNull(current.value.installedAt) else None))
  }

  /**
   * POST /api/setup (index.js:43-75). The installation state is not
   * consulted: a valid setup overwrites whatever record there is.
   */
  function HandleSetup(st: ServerState, adminEmail: string, usageContext: string,
                       token: SessionToken, now: string, writeFails: bool): (r: (ServerState, Response))
    ensures r.1.code in {200, 400, 500}
    ensures r.1.code == 400 <==> !LooksLikeEmail(adminEmail)
    ensures r.1.code == 500 <==> LooksLikeEmail(adminEmail) && writeFails
    ensures r.1.code != 200 ==> r.0 == st && r.1.body.ErrorBody?
    ensures r.1.code == 200 ==>
      && r.1.body == Issued(token, Some(SetupCompleteMessage))
      && r.0.file == Present(WithMeta(SetupRecord(adminEmail, usageContext), now))
      && IsInstalled(r.0.file, false)
      && r.0.sessions == st.sessions[token := adminEmail]
  {
    if !LooksLikeEmail(adminEmail) then
      (st, Response(400, ErrorBody(InvalidEmailError)))
    else if writeFails then
      (st, Response(500, ErrorBody(SaveFailedError)))
    else
      (ServerState(Present(WithMeta(SetupRecord(adminEmail, usageContext), now)), st.sessions[token := adminEmail]),
       Response(200, Issued(token, Some(SetupCompleteMessage))))
  }

  /**
   * POST /api/login (index.js:80-95): reads the record (not isInstalled) and
   * compares the email with exact string equality. A read that throws
   * (`readFails`) answers 'System not configured' even on an installed system.
   */
  function HandleLogin(st: ServerState, email: string, token: SessionToken, readFails: bool): (r: (ServerState, Response))
    ensures r.0.file == st.file
    ensures ReadConfig(st.file, readFails).None? ==> r == (st, Response(400, ErrorBody(NotConfiguredError)))
    ensures r.1.code == 200 <==> st.file.Present? && !readFails && email == st.file.config.adminEmail
    ensures r.1.code == 200 ==> r.0.sessions == st.sessions[token := email] && r.1.body == Issued(token, None)
    ensures st.file.Present? && !readFails && email != st.file.config.adminEmail ==>
      r == (st, Response(401, ErrorBody(InvalidAdminError)))
  {
    match ReadConfig(st.file, readFails)
    case None => (st, Response(400, ErrorBody(NotConfiguredError)))
    case Some(c) =>
      if email == c.adminEmail then
        (st.(sessions := st.sessions[token := email]), Response(200, Issued(token, None)))
      else
        (st, Response(401, ErrorBody(InvalidAdminError)))
  }

  /** GET /api/session (index.js:100-109): a present, truthy header that is a key of the map. */
  function CheckSession(sessions: map<string, string>, header: Option<string>): (r: Body)
    ensures r.SessionBody?
    ensures r.valid <==> header.Some? && header.value != "" && header.value in sessions
    ensures r.valid ==> r.email == Some(sessions[header.value])
    ensures !r.valid ==> r.email == None
  {
    if header.Some? && header.value != "" && header.value in sessions then
      SessionBody(true, Some(sessions[header.value]))
    else
      SessionBody(false, None)
  }

  /**
   * POST /api/reset (index.js:114-123): the sessions are cleared whether or
   * not resetConfig succeeds; only the status code tells the two apart.
   */
  function HandleReset(st: ServerState, resetFails: bool): (r: (ServerState, Response))
    ensures r.0.sessions == map[]
    ensures forall t :: !CheckSession(r.0.sessions, Some(t)).valid
    ensures r.1.code == 200 <==> st.file == Missing || !resetFails
    ensures r.1.code == 200 ==> r.0.file == Missing && (forall readFails :: !IsInstalled(r.0.file, readFails)) && r.1.body == ResetBody(ResetCompleteMessage)
    ensures r.1.code != 200 ==> r.1 == Response(500, ErrorBody(ResetFailedError)) && r.0.file == st.file
  {
    if st.file == Missing || !resetFails then
      (ServerState(Missing, map[]), Response(200, ResetBody(ResetCompleteMessage)))
    else
      (ServerState(st.file, map[]), Response(500, ErrorBody(ResetFailedError)))
  }

  /** The running server: the config module's file and the module-level `sessions` Map (index.js:21). */
  class Server {
    const store: Store
    var sessions: map<string, string>

    constructor (store: Store)
      ensures this.store == store && sessions == map[]
    {
      this.store := store;
      sessions := map[];
    }

    function State(): ServerState
      reads this, store
    {
      ServerState(store.file, sessions)
    }

    method Status(firstReadFails: bool, secondReadFails: bool) returns (resp: Response)
      ensures resp == HandleStatus(store.file, firstReadFails, secondReadFails)
      ensures resp.body.mode == DashboardMode <==> IsInstalled(store.file, firstReadFails)
    {
      var installed := IsInstalled(store.file, firstReadFails);
      var current := if installed then ReadConfig(store.file, secondReadFails) else None;
      var email := if current.Some? && current.value.adminEmail != "" then Some(current.value.adminEmail) else None;
      var at := if current.Some? && current.value.installedAt != "" then Some(current.value.installedAt) else None;
      resp := Response(200, StatusBody(installed, if installed then DashboardMode else InstallerMode, email, at));
    }

    method Setup(adminEmail: string, usageContext: string, token: SessionToken, now: string, writeFails: bool)
      returns (resp: Response)
      modifies this, store
      ensures (State(), resp) == HandleSetup(old(State()), adminEmail, usageContext, token, now, writeFails)
    {
      if !LooksLikeEmail(adminEmail) {
        return Response(400, ErrorBody(InvalidEmailError));
      }
      var success := store.WriteConfig(SetupRecord(adminEmail, usageContext), now, writeFails);
      if success {
        sessions := sessions[token := adminEmail];
        resp := Response(200, Issued(token, Some(SetupCompleteMessage)));
      } else {
        resp := Response(500, ErrorBody(SaveFailedError));
      }
    }

    method Login(email: string, token: SessionToken, readFails: bool) returns (resp: Response)
      modifies this
      ensures (State(), resp) == HandleLogin(old(State()), email, token, readFails)
    {
      var current := ReadConfig(store.file, readFails);
      if current.None? {
        return Response(400, ErrorBody(NotConfiguredError));
      }
      if email == current.value.adminEmail {
        sessions := sessions[token := email];
        resp := Response(200, Issued(token, None));
      } else {
        resp := Response(401, ErrorBody(InvalidAdminError));
      }
    }

    method Session(header: Option<string>) returns (resp: Response)
      ensures resp == Response(200, CheckSession(sessions, header))
    {
      if header.Some? && header.value != "" && header.value in sessions {
        resp := Response(200, SessionBody(true, Some(sessions[header.value])));
      } else {
        resp := Response(200, SessionBody(false, None));
      }
    }

    method Reset(resetFails: bool) returns (resp: Response)
      modifies this, store
      ensures (State(), resp) == HandleReset(old(State()), resetFails)
    {
      var success := store.ResetConfig(resetFails);
      sessions := map[];
      if success {
        resp := Response(200, ResetBody(ResetCompleteMessage));
      } else {
        resp := Response(500, ErrorBody(ResetFailedError));
      }
    }
  }
}
