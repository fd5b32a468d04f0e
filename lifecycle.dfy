/**
 * Sequences of requests against the server of app/server/index.js: what holds
 * of every state reachable from a fresh install, how long an issued session
 * token stays valid, what a read of the file that throws does to status and
 * login, and the request scenarios the server was written for (app/test-api.js
 * walks status, setup and status again).
 */
module Lifecycle {
  import opened Wrappers
  import opened ConfigStore
  import opened Server

  /** One request, together with the outcomes of the randomness, clock and file system it meets. */
  datatype Request =
    | GetStatus(firstReadFails: bool, secondReadFails: bool)
    | PostSetup(adminEmail: string, usageContext: string, token: SessionToken, now: string, writeFails: bool)
    | PostLogin(email: string, token: SessionToken, readFails: bool)
    | GetSession(header: Option<string>)
    | PostReset(resetFails: bool)

  /**
   * The route table of index.js: each request goes to its handler. Only setup
   * and reset touch the file, and the two GET routes change nothing.
   */
  function Step(st: ServerState, req: Request): (r: (ServerState, Response))
    ensures r.1.code in {200, 400, 401, 500}
    ensures r.1.code == 401 ==> req.PostLogin?
    ensures req.GetStatus? || req.GetSession? ==> r.0 == st && r.1.code == 200
    ensures r.0.file != st.file ==> req.PostSetup? || req.PostReset?
  {
    match req
    case GetStatus(first, second) => (st, HandleStatus(st.file, first, second))
    case PostSetup(e, u, t, now, fails) => HandleSetup(st, e, u, t, now, fails)
    case PostLogin(e, t, fails) => HandleLogin(st, e, t, fails)
    case GetSession(h) => (st, Response(200, CheckSession(st.sessions, h)))
    case PostReset(fails) => HandleReset(st, fails)
  }

  /** The state after serving `reqs` one after another. */
  function Run(st: ServerState, reqs: seq<Request>): ServerState
    decreases |reqs|
  {
    if reqs == [] then st else Run(Step(st, reqs[0]).0, reqs[1..])
  }

  /**
   * A fresh install: the process starts with no config file and, like every
   * start, no sessions. A restart over an existing file is a start from
   * `ServerState(file, map[])`, which `RunKeepsHealthy` covers whenever that
   * state is `Healthy`.
   */
  const Fresh: ServerState := ServerState(Missing, map[])

  /** A record as /api/setup writes it. */
  predicate WrittenBySetup(c: Config)
  {
    LooksLikeEmail(c.adminEmail) && c.installed && c.loginMethod == "email"
    && c.usageContext != "" && c.version == Version
  }

  /**
   * What holds of every state reachable from `Fresh`: either no file or a
   * record written by setup, and every session bound to a well-formed email.
   */
  predicate Healthy(st: ServerState)
  {
    && (st.file.Missing? || (st.file.Present? && WrittenBySetup(st.file.config)))
    && forall t :: t in st.sessions ==> LooksLikeEmail(st.sessions[t])
  }

  predicate NoReset(reqs: seq<Request>)
  {
    forall i :: 0 <= i < |reqs| ==> !reqs[i].PostReset?
  }

  lemma StepKeepsHealthy(st: ServerState, req: Request)
    requires Healthy(st)
    ensures Healthy(Step(st, req).0)
  {
  }

  /** Every state reachable from a healthy one is healthy. */
  lemma {:induction false} RunKeepsHealthy(st: ServerState, reqs: seq<Request>)
    requires Healthy(st)
    ensures Healthy(Run(st, reqs))
    decreases |reqs|
  {
    if reqs != [] {
      StepKeepsHealthy(st, reqs[0]);
      RunKeepsHealthy(Step(st, reqs[0]).0, reqs[1..]);
    }
  }

  /**
   * In every state reachable from a fresh install, the file is never left
   * unparseable, a record exists exactly when a read that does not throw
   * counts the system as installed, and a session never names a malformed
   * email. Reads that throw change no state, so they do not break this.
   */
  lemma ReachableRecordIffInstalled(reqs: seq<Request>)
    ensures var st := Run(Fresh, reqs);
      && !st.file.Unreadable?
      && (IsInstalled(st.file, false) <==> st.file.Present?)
      && forall t :: t in st.sessions ==> LooksLikeEmail(st.sessions[t])
  {
    RunKeepsHealthy(Fresh, reqs);
  }

  /** Status and session checks change nothing, only reset removes sessions, and setup or login rebind no token but the one they mint. */
  lemma StepSessions(st: ServerState, req: Request)
    ensures var st' := Step(st, req).0;
      && (req.PostReset? ==> st'.sessions == map[])
      && (!req.PostReset? ==> st.sessions.Keys <= st'.sessions.Keys)
      && (req.GetStatus? || req.GetSession? ==> st' == st)
      && ((req.PostSetup? || req.PostLogin?) ==>
            forall t :: t in st.sessions && t != req.token ==> t in st'.sessions && st'.sessions[t] == st.sessions[t])
  {
  }

  /** Without a reset, no token ever stops being a key of the session map. */
  lemma {:induction false} TokensSurvive(st: ServerState, reqs: seq<Request>)
    requires NoReset(reqs)
    ensures st.sessions.Keys <= Run(st, reqs).sessions.Keys
    decreases |reqs|
  {
    if reqs != [] {
      StepSessions(st, reqs[0]);
      assert NoReset(reqs[1..]) by {
        forall i | 0 <= i < |reqs| - 1 ensures !reqs[1..][i].PostReset? {
          assert reqs[1..][i] == reqs[i + 1];
        }
      }
      TokensSurvive(Step(st, reqs[0]).0, reqs[1..]);
    }
  }

  /**
   * A token returned by a successful setup or login checks valid after any
   * later requests that include no reset.
   */
  lemma IssuedTokenValidUntilReset(st: ServerState, req: Request, later: seq<Request>)
    requires (req.PostSetup? || req.PostLogin?) && Step(st, req).1.code == 200
    requires NoReset(later)
    ensures Step(st, req).1.body == Issued(req.token, Step(st, req).1.body.message)
    ensures CheckSession(Run(Step(st, req).0, later).sessions, Some(req.token)).valid
  {
    TokensSurvive(Step(st, req).0, later);
  }

  /** After a reset, whether or not the file could be deleted, no token checks valid. */
  lemma ResetRevokesEveryToken(st: ServerState, resetFails: bool, header: Option<string>)
    ensures CheckSession(Step(st, PostReset(resetFails)).0.sessions, header) == SessionBody(false, None)
  {
  }

  /** A session is only ever minted for the email the stored record holds right after the request. */
  lemma IssuedSessionMatchesRecord(st: ServerState, req: Request)
    requires Step(st, req).1.body.Issued?
    ensures var st' := Step(st, req).0;
      && req.token in st'.sessions
      && ReadConfig(st'.file, false).Some?
      && st'.sessions[req.token] == st'.file.config.adminEmail
  {
  }

  /** Setup followed by status reports the system installed with the email just given. */
  lemma SetupThenStatus(st: ServerState, adminEmail: string, usageContext: string, token: SessionToken, now: string)
    requires LooksLikeEmail(adminEmail)
    ensures var st' := Step(st, PostSetup(adminEmail, usageContext, token, now, false)).0;
      HandleStatus(st'.file, false, false) == Response(200, StatusBody(true, DashboardMode, Some(adminEmail), OrNull(now)))
  {
  }

  /** A rejected setup answers 400 and leaves the whole server state as it was. */
  lemma InvalidSetupChangesNothing(st: ServerState, adminEmail: string, usageContext: string, token: SessionToken, now: string, writeFails: bool)
    requires !LooksLikeEmail(adminEmail)
    ensures var r := Step(st, PostSetup(adminEmail, usageContext, token, now, writeFails));
      r.0 == st && r.1 == Response(400, ErrorBody(InvalidEmailError))
  {
  }

  /** Resetting twice succeeds both times and leaves the system uninstalled, whatever the file system does the second time. */
  lemma ResetIdempotent(st: ServerState, firstFails: bool, secondFails: bool, readFails1: bool, readFails2: bool)
    requires Step(st, PostReset(firstFails)).1.code == 200
    ensures var st1 := Step(st, PostReset(firstFails)).0;
      && Step(st1, PostReset(secondFails)) == (st1, Response(200, ResetBody(ResetCompleteMessage)))
      && HandleStatus(st1.file, readFails1, readFails2).body.mode == InstallerMode
  {
  }

  /**
   * The run of app/test-api.js: status on a fresh install reports the
   * installer, setup with admin@test.com and small_business succeeds, and
   * status then reports the dashboard with that email, the record holding
   * both values.
   */
  lemma TestApiScript(token: SessionToken, now: string)
    ensures HandleStatus(Fresh.file, false, false) == Response(200, StatusBody(false, InstallerMode, None, None))
    ensures var s1 := Step(Fresh, PostSetup("admin@test.com", "small_business", token, now, false));
      && s1.1 == Response(200, Issued(token, Some(SetupCompleteMessage)))
      && s1.0.file.Present?
      && s1.0.file.config.adminEmail == "admin@test.com"
      && s1.0.file.config.usageContext == "small_business"
      && HandleStatus(s1.0.file, false, false)
         == Response(200, StatusBody(true, DashboardMode, Some("admin@test.com"), OrNull(now)))
  {
    assert "admin@test.com"[5] == '@';
  }

  /** A longer walk through the routes: setup, a wrong login, a session check, reset, status, the old token. */
  lemma ServerWalkthrough(token: SessionToken, now: string, other: SessionToken)
    ensures var s1 := Step(Fresh, PostSetup("a@b.com", "personal", token, now, false));
      && s1.1 == Response(200, Issued(token, Some(SetupCompleteMessage)))
      && Step(s1.0, PostLogin("wrong@x.com", other, false)) == (s1.0, Response(401, ErrorBody(InvalidAdminError)))
      && CheckSession(s1.0.sessions, Some(token)) == SessionBody(true, Some("a@b.com"))
      && var s2 := Step(s1.0, PostReset(false));
      && s2.1.code == 200
      && !HandleStatus(s2.0.file, false, false).body.installed
      && CheckSession(s2.0.sessions, Some(token)) == SessionBody(false, None)
  {
    assert "a@b.com"[1] == '@';
    assert "wrong@x.com" != "a@b.com";
  }

  /**
   * On an installed system, a read of the file that throws once is visible:
   * if the second read of status throws, status reports DASHBOARD with no
   * adminEmail; if the first throws, it reports INSTALLER, and the setup the
   * page then offers overwrites the record; a login whose read throws answers
   * 'System not configured'. None of these changes the state.
   */
  lemma ReadFailuresOnInstalled(st: ServerState, email: string, token: SessionToken,
                                other: string, otherToken: SessionToken, now: string, secondReadFails: bool)
    requires IsInstalled(st.file, false) && LooksLikeEmail(other)
    ensures Step(st, GetStatus(false, true)) == (st, Response(200, StatusBody(true, DashboardMode, None, None)))
    ensures Step(st, GetStatus(true, secondReadFails)) == (st, Response(200, StatusBody(false, InstallerMode, None, None)))
    ensures Step(st, PostLogin(email, token, true)) == (st, Response(400, ErrorBody(NotConfiguredError)))
    ensures Step(st, PostSetup(other, "", otherToken, now, false)).0.file.config.adminEmail == other
  {
  }

  /**
   * Setup does not check whether the system is installed: a second setup
   * replaces the record, and a token from the first still checks valid, bound
   * to the first email, which the record no longer holds.
   */
  lemma SecondSetupOverwrites(t1: SessionToken, t2: SessionToken, now: string)
    requires t1 != t2
    ensures var s1 := Step(Fresh, PostSetup("a@b.com", "", t1, now, false)).0;
      && var s2 := Step(s1, PostSetup("c@d.com", "", t2, now, false));
      && s2.1.code == 200
      && s2.0.file.config.adminEmail == "c@d.com"
      && s2.0.file.config.usageContext == "personal"
      && CheckSession(s2.0.sessions, Some(t1)) == SessionBody(true, Some("a@b.com"))
  {
    assert "a@b.com"[1] == '@';
    assert "c@d.com"[1] == '@';
  }
}
