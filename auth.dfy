/** The OTP login flow, logout and the two guards of
    internal/handlers/auth.go.

    LoginHandler is a chain of early returns; each return is one `LoginExit`
    and its contract states, for every exit, the condition that leads there,
    the response written and what happened to the session, the handle and
    the otp_requests table. The code lookup follows the query of
    auth.go:241 literally, including its `valid_till < now` test. */
module Auth {
  import opened Common
  import Security
  import opened Handlers

  // ---------------------------------------------------------------------
  // The two queries of the login flow

  /** SELECT user_id, email, user_type_id FROM users WHERE email = ? */
  function UserByEmail(users: seq<User>, email: string): (u: Option<User>)
    ensures u.Some? ==> u.value in users && u.value.email == email
    ensures u.None? ==> forall x :: x in users ==> x.email != email
  {
    if |users| == 0 then None
    else if users[0].email == email then Some(users[0])
    else UserByEmail(users[1..], email)
  }

  /** The user row the LEFT JOIN of auth.go:241 pairs with an otp_requests
      row of `userId`, kept only when its email is `email`. */
  function JoinUser(users: seq<User>, userId: int, email: string): (u: Option<User>)
    ensures u.Some? ==> u.value in users && u.value.id == userId && u.value.email == email
    ensures u.None? ==> forall x :: x in users ==> !(x.id == userId && x.email == email)
  {
    if |users| == 0 then None
    else if users[0].id == userId && users[0].email == email then Some(users[0])
    else JoinUser(users[1..], userId, email)
  }

  /** The WHERE clause of auth.go:241 on one otp_requests row. */
  predicate RowMatches(users: seq<User>, row: OtpRequest, email: string, code: string, sessionId: string, now: int) {
    && JoinUser(users, row.userId, email).Some?
    && row.code == code
    && row.sessionId == sessionId
    && ValidTill(row) < now
  }

  /** The columns LoginHandler keeps from a matching row. */
  datatype OtpMatch = OtpMatch(requestId: nat, userId: int, userTypeId: int)

  function MatchOf(users: seq<User>, row: OtpRequest, email: string): OtpMatch
    requires JoinUser(users, row.userId, email).Some?
  {
    OtpMatch(row.id, row.userId, JoinUser(users, row.userId, email).value.userTypeId)
  }

  /** The code lookup of auth.go:241 (QueryRow keeps the first row). */
  function FindOtp(otps: seq<OtpRequest>, users: seq<User>, email: string, code: string,
                   sessionId: string, now: int): (m: Option<OtpMatch>)
  {
    if |otps| == 0 then None
    else if RowMatches(users, otps[0], email, code, sessionId, now) then Some(MatchOf(users, otps[0], email))
    else FindOtp(otps[1..], users, email, code, sessionId, now)
  }

  /** The lookup finds a row exactly when some row meets the WHERE clause,
      and what it finds comes from such a row. */
  lemma {:induction false} FindOtpSpec(otps: seq<OtpRequest>, users: seq<User>, email: string, code: string,
                                       sessionId: string, now: int)
    ensures var m := FindOtp(otps, users, email, code, sessionId, now);
      && (m.Some? <==> exists i :: 0 <= i < |otps| && RowMatches(users, otps[i], email, code, sessionId, now))
      && (m.Some? ==> exists i :: 0 <= i < |otps| && RowMatches(users, otps[i], email, code, sessionId, now)
                                && m.value == MatchOf(users, otps[i], email))
  {
    if |otps| > 0 {
      FindOtpSpec(otps[1..], users, email, code, sessionId, now);
      var m := FindOtp(otps, users, email, code, sessionId, now);
      if !RowMatches(users, otps[0], email, code, sessionId, now) {
        if exists i :: 0 <= i < |otps| && RowMatches(users, otps[i], email, code, sessionId, now) {
          var i :| 0 <= i < |otps| && RowMatches(users, otps[i], email, code, sessionId, now);
          assert otps[1..][i - 1] == otps[i];
        }
        if m.Some? {
          var i :| 0 <= i < |otps[1..]| && RowMatches(users, otps[1..][i], email, code, sessionId, now)
                   && m.value == MatchOf(users, otps[1..][i], email);
          assert otps[i + 1] == otps[1..][i];
        }
      }
    }
  }

  /** Whatever the lookup accepts is expired: its 33-second window closed
      before `now`. */
  lemma FindOtpOnlyExpired(otps: seq<OtpRequest>, users: seq<User>, email: string, code: string,
                           sessionId: string, now: int)
    requires FindOtp(otps, users, email, code, sessionId, now).Some?
    ensures exists i :: 0 <= i < |otps| && otps[i].code == code && otps[i].sessionId == sessionId
                        && otps[i].requestedAt + ValidityWindow < now
                        && FindOtp(otps, users, email, code, sessionId, now).value.requestId == otps[i].id
  {
    FindOtpSpec(otps, users, email, code, sessionId, now);
  }

  /** With unique user ids and emails and a unique (user_id, otp_code,
      session_id) triple, at most one row meets the WHERE clause. */
  lemma MatchingRowUnique(otps: seq<OtpRequest>, users: seq<User>, email: string, code: string,
                          sessionId: string, i: int, j: int)
    requires UniqueUsers(users) && UniqueTriples(otps)
    requires 0 <= i < |otps| && 0 <= j < |otps|
    requires JoinUser(users, otps[i].userId, email).Some? && JoinUser(users, otps[j].userId, email).Some?
    requires otps[i].code == code && otps[i].sessionId == sessionId
    requires otps[j].code == code && otps[j].sessionId == sessionId
    ensures i == j
  {
    var ui := JoinUser(users, otps[i].userId, email).value;
    var uj := JoinUser(users, otps[j].userId, email).value;
    var a :| 0 <= a < |users| && users[a] == ui;
    var b :| 0 <= b < |users| && users[b] == uj;
    assert a == b;
    assert otps[i].userId == otps[j].userId;
  }

  /** A code submitted while its row is still inside the 33-second window
      (now <= requested_at + 33) is rejected: the only row that could match
      fails `valid_till < now`. */
  lemma FreshCodeRejected(otps: seq<OtpRequest>, users: seq<User>, email: string, code: string,
                          sessionId: string, now: int, i: int)
    requires UniqueUsers(users) && UniqueTriples(otps)
    requires 0 <= i < |otps| && JoinUser(users, otps[i].userId, email).Some?
    requires otps[i].code == code && otps[i].sessionId == sessionId
    requires now <= otps[i].requestedAt + ValidityWindow
    ensures FindOtp(otps, users, email, code, sessionId, now) == None
  {
    FindOtpSpec(otps, users, email, code, sessionId, now);
    forall k | 0 <= k < |otps| && RowMatches(users, otps[k], email, code, sessionId, now)
      ensures k == i
    {
      MatchingRowUnique(otps, users, email, code, sessionId, i, k);
    }
  }

  /** A code is never accepted for a session other than the one it was
      issued to. */
  lemma WrongSessionRejected(otps: seq<OtpRequest>, users: seq<User>, email: string, code: string,
                             sessionId: string, now: int)
    requires forall i :: 0 <= i < |otps| && otps[i].code == code ==> otps[i].sessionId != sessionId
    ensures FindOtp(otps, users, email, code, sessionId, now) == None
  {
    FindOtpSpec(otps, users, email, code, sessionId, now);
  }

  /** The session a successful lookup promotes passes IsLoggedIn's trust
      decision against the same users table. */
  lemma PromotedSessionTrusted(otps: seq<OtpRequest>, users: seq<User>, email: string, code: string,
                               sessionId: string, now: int, v: SessionValues)
    requires FindOtp(otps, users, email, code, sessionId, now).Some?
    ensures var m := FindOtp(otps, users, email, code, sessionId, now).value;
      Trusted(Promote(v, m.userId, m.userTypeId), users)
  {
    FindOtpSpec(otps, users, email, code, sessionId, now);
    var m := FindOtp(otps, users, email, code, sessionId, now).value;
    var i :| 0 <= i < |otps| && RowMatches(users, otps[i], email, code, sessionId, now)
             && m == MatchOf(users, otps[i], email);
    var u := JoinUser(users, otps[i].userId, email).value;
    var k :| 0 <= k < |users| && users[k] == u;
    assert users[k].id == m.userId && users[k].userTypeId == m.userTypeId;
  }

  // ---------------------------------------------------------------------
  // UserSendOTP

  /** An empty mode means "email" (auth.go:37-39). */
  function DeliveryMode(mode: string): (m: string)
    ensures m != ""
    ensures mode != "" ==> m == mode
  {
    if mode == "" then "email" else mode
  }

  /** The modes with an empty case in the switch of auth.go:84-89. */
  predicate SilentMode(mode: string) {
    mode == "sms" || mode == "both" || mode == "combined"
  }

  /** UserSendOTP (auth.go:35-100) for the user row `user`. Steps run in
      order (generate, reconnect, prepare, then the mode switch) and the
      first failing step's error is returned with no later step taken.
      In "email" mode the row is inserted before the e-mail is sent, so a
      send failure leaves the row in place. The other three known modes
      insert and send nothing, close the shared handle and return nil; an
      unknown mode returns its error and keeps the handle open. `delivered`
      is the code handed to the mail server for the user's address. */
  method UserSendOTP(wh: WebHandlers, user: User, mode: string, sessionId: string, length: int, o: Oracles)
    returns (err: Option<Error>, delivered: Option<string>)
    requires wh.db.Handle? && wh.server.Valid() && length >= 0
    modifies wh`db, wh.server`otpRequests, wh.server`nextOtpRequestId
    ensures wh.server.Valid()
    ensures var m := DeliveryMode(mode);
      var ready := Security.DrawsSucceed(o.draw, length) && Reconnects(old(wh.db), o) && o.prepareOk;
      var code := if Security.DrawsSucceed(o.draw, length) then Security.CodeFromDraws(o.draw, length) else "";
      var inserted := ready && m == "email" && o.execOk
                      && InsertAllowed(old(wh.server.otpRequests), user.id, code, m, sessionId);
      && (!Security.DrawsSucceed(o.draw, length) ==> err.Some? && err.value.RandomError? && wh.db == old(wh.db))
      && (Security.DrawsSucceed(o.draw, length) ==> wh.db.Handle? || err == Some(ConnectError))
      && (Security.DrawsSucceed(o.draw, length) && !Reconnects(old(wh.db), o) ==> err == Some(ConnectError) && wh.db == NilHandle)
      && (Security.DrawsSucceed(o.draw, length) && Reconnects(old(wh.db), o) && !o.prepareOk ==>
            err == Some(PrepareError) && wh.db == Reconnected(old(wh.db), o))
      && (ready && m == "email" ==>
            && wh.db == Reconnected(old(wh.db), o)
            && (!inserted ==> err == Some(ExecError))
            && (inserted ==> err == (if o.sendOk then None else Some(SendError))))
      && (ready && SilentMode(m) ==> err == None && wh.db == Reconnected(old(wh.db), o).(closed := true))
      && (ready && m != "email" && !SilentMode(m) ==>
            err == Some(UnknownModeError(m)) && wh.db == Reconnected(old(wh.db), o))
      && (delivered.Some? <==> inserted && o.sendOk)
      && (delivered.Some? ==> delivered.value == code && |code| == length)
      && wh.server.otpRequests == (if inserted
           then old(wh.server.otpRequests) + [OtpRequest(old(wh.server.nextOtpRequestId), user.id, code, "email", o.now, sessionId)]
           else old(wh.server.otpRequests))
  {
    var m := DeliveryMode(mode);
    delivered := None;
    var code, genErr := Security.GenerateAlNumOTP(length, o.draw);
    if genErr.Some? {
      return Some(RandomError(genErr.value)), None;
    }
    err := wh.ReconnectDB(o);
    if err.Some? {
      return;
    }
    if !o.prepareOk {
      return Some(PrepareError), None;
    }
    if m == "email" {
      var ok := wh.server.InsertOtpRequest(user.id, code, m, sessionId, o.now, o.execOk);
      if !ok {
        return Some(ExecError), None;
      }
      if !o.sendOk {
        return Some(SendError), None;
      }
      return None, Some(code);
    } else if SilentMode(m) {
    } else {
      return Some(UnknownModeError(m)), None;
    }
    wh.db := wh.db.(closed := true);
    err := None;
  }

  // ---------------------------------------------------------------------
  // Responses

  const TemplateFailureMessage: string := "error executing template"
  const SessionReadFailureMessage: string := "error reading session"
  const SessionSaveFailureMessage: string := "Failed to save session"

  /** What a fresh response holds after the login page was rendered with
      `status`, or after the template failed. */
  predicate Rendered(w: ResponseWriter, page: LoginPage, status: int, o: Oracles)
    reads w
  {
    if o.templateOk then w.status == status && w.location == None && w.body == [Html(page)]
    else w.status == StatusInternalServerError && w.location == None && w.body == [Text(TemplateFailureMessage)]
  }

  /** What a fresh response holds after http.Redirect(w, r, url, 303). */
  predicate Redirected(w: ResponseWriter, url: string)
    reads w
  {
    w.status == StatusSeeOther && w.location == Some(url) && w.body == []
  }

  /** What a fresh response holds after http.Error(w, msg, status). */
  predicate Failed(w: ResponseWriter, msg: string, status: int)
    reads w
  {
    w.status == status && w.location == None && w.body == [Text(msg)]
  }

  /** ExecuteTemplate("login", lp) followed by WriteHTML, or http.Error
      with 500 when the template fails. */
  method RenderLogin(wh: WebHandlers, w: ResponseWriter, page: LoginPage, status: int, o: Oracles)
    requires w.status == 0 && w.location == None && w.body == []
    requires 100 <= status <= 600
    modifies w
    ensures Rendered(w, page, status, o)
  {
    if o.templateOk {
      wh.WriteHTML(w, Html(page), status);
    } else {
      w.Error(TemplateFailureMessage, StatusInternalServerError);
    }
  }

  // ---------------------------------------------------------------------
  // LoginHandler

  /** The return points of LoginHandler, in source order. */
  datatype LoginExit =
    | SessionUnavailable        // store.Get failed: 500
    | AlreadyLoggedIn           // the guard trusts the session: redirect to "/"
    | FormShown                 // GET: the empty login page
    | DbUnavailable             // ReconnectDB failed: 500
    | UnknownEmail              // no user with that email: "Invalid email", 401
    | OtpIssued                 // no code given: a code was stored and mailed, 401 with the email filled in
    | OtpNotSent(err: Error)    // UserSendOTP failed: 500
    | CodeTooShort              // shorter than the configured length: "Illegal credentials", 401
    | CodeRejected              // the lookup found nothing: "Invalid Credentials", 401
    | SessionNotSaved           // promoted, but the store refused the save: 500
    | LoggedIn(m: OtpMatch)     // promoted and saved: redirect to "/"

  /** The configured code length, or the default when it is not positive
      (auth.go:177-186). */
  function OtpLength(o: Oracles): (n: int)
    ensures o.otpLength > 0 ==> n == o.otpLength
    ensures o.otpLength <= 0 ==> n == o.defaultOtpLength
    ensures o.defaultOtpLength > 0 ==> n > 0
  {
    if o.otpLength <= 0 then o.defaultOtpLength else o.otpLength
  }

  /** Whether an exit of LoginHandler is reached after the user row was found. */
  predicate PastUserLookup(exit: LoginExit) {
    exit == OtpIssued || exit.OtpNotSent? || exit == CodeTooShort || exit == CodeRejected
    || exit == SessionNotSaved || exit.LoggedIn?
  }

  /** The response each exit writes on a fresh ResponseWriter; `email` is
      the submitted address, shown again once it matched a user. */
  predicate Responded(w: ResponseWriter, exit: LoginExit, email: string, o: Oracles)
    reads w
  {
    match exit
    case SessionUnavailable => Failed(w, SessionReadFailureMessage, StatusInternalServerError)
    case AlreadyLoggedIn => Redirected(w, "/")
    case FormShown => Rendered(w, LoginPage(false, "", []), StatusOK, o)
    case DbUnavailable => Failed(w, ErrorMessage(ConnectError), StatusInternalServerError)
    case UnknownEmail => Rendered(w, LoginPage(false, "", ["Invalid email"]), StatusUnauthorized, o)
    case OtpIssued => Rendered(w, LoginPage(false, email, []), StatusUnauthorized, o)
    case OtpNotSent(err) => Failed(w, ErrorMessage(err), StatusInternalServerError)
    case CodeTooShort => Rendered(w, LoginPage(false, email, ["Illegal credentials"]), StatusUnauthorized, o)
    case CodeRejected => Rendered(w, LoginPage(false, email, ["Invalid Credentials"]), StatusUnauthorized, o)
    case SessionNotSaved => Failed(w, SessionSaveFailureMessage, StatusInternalServerError)
    case LoggedIn(_) => Redirected(w, "/")
  }

  /** Two ReconnectDB calls in a row, the second on a usable handle. */
  function ReconnectedTwice(h: Handle, o: Oracles): Handle
    requires h.Handle?
  {
    var h1 := Reconnected(h, o);
    if h1.Handle? then Reconnected(h1, o) else NilHandle
  }

  /** The handle each exit leaves in `wh.db`, from the handle `h` the
      request started with: the POST path reconnects once, issuing a code
      reconnects again unless the code could not be generated. */
  function HandleAfter(exit: LoginExit, h: Handle, o: Oracles): Handle
    requires h.Handle?
  {
    match exit
    case SessionUnavailable => h
    case AlreadyLoggedIn => h
    case FormShown => h
    case DbUnavailable => NilHandle
    case OtpIssued => ReconnectedTwice(h, o)
    case OtpNotSent(err) =>
      if err.RandomError? then Reconnected(h, o)
      else if err == ConnectError then NilHandle
      else ReconnectedTwice(h, o)
    case _ => Reconnected(h, o)
  }

  /** The branch of LoginHandler for a known user who submitted no code
      (auth.go:190-215): a code is generated, stored for this session and
      mailed, and the page comes back with the email filled in. */
  method IssueCode(wh: WebHandlers, w: ResponseWriter, r: Request, o: Oracles, user: User, email: string)
    returns (exit: LoginExit)
    requires wh.db.Handle? && wh.server.Valid() && o.defaultOtpLength > 0
    requires user.email == email
    requires w.status == 0 && w.location == None && w.body == []
    modifies w, wh`db, wh.server`otpRequests, wh.server`nextOtpRequestId
    ensures wh.server.Valid()
    ensures exit == OtpIssued || exit.OtpNotSent?
    ensures Responded(w, exit, email, o)
    ensures wh.db == (if exit.OtpNotSent? && exit.err.RandomError? then old(wh.db)
                      else if exit.OtpNotSent? && exit.err == ConnectError then NilHandle
                      else Reconnected(old(wh.db), o))
    ensures exit == OtpIssued ==>
      && Security.DrawsSucceed(o.draw, OtpLength(o))
      && wh.server.otpRequests == old(wh.server.otpRequests) + [OtpRequest(
           old(wh.server.nextOtpRequestId), user.id, Security.CodeFromDraws(o.draw, OtpLength(o)), "email", o.now, r.session.id)]
  {
    var sendErr, _ := UserSendOTP(wh, user, "email", r.session.id, OtpLength(o), o);
    if sendErr.Some? {
      w.Error(ErrorMessage(sendErr.value), StatusInternalServerError);
      return OtpNotSent(sendErr.value);
    }
    RenderLogin(wh, w, LoginPage(false, user.email, []), StatusUnauthorized, o);
    exit := OtpIssued;
  }

  /** The branch of LoginHandler for a known user who submitted a code
      (auth.go:220-279): too short a code is refused without a query, the
      others are looked up, and a match promotes and saves the session. */
  method CheckCode(wh: WebHandlers, w: ResponseWriter, r: Request, o: Oracles, user: User, email: string)
    returns (exit: LoginExit)
    requires o.defaultOtpLength > 0 && user.email == email && FormValue(r, "otp") != ""
    requires w.status == 0 && w.location == None && w.body == []
    modifies w, r.session
    ensures var code := FormValue(r, "otp");
      var found := FindOtp(wh.server.otpRequests, wh.server.users, email, code, r.session.id, o.now);
      && (exit == CodeTooShort <==> |code| < OtpLength(o))
      && (exit == CodeRejected <==> |code| >= OtpLength(o) && found.None?)
      && (exit.LoggedIn? || exit == SessionNotSaved <==> |code| >= OtpLength(o) && found.Some?)
      && (exit.LoggedIn? ==> exit.m == found.value)
    ensures Responded(w, exit, email, o)
    ensures !exit.LoggedIn? && exit != SessionNotSaved ==> unchanged(r.session)
    ensures exit.LoggedIn? || exit == SessionNotSaved ==>
      var m := FindOtp(wh.server.otpRequests, wh.server.users, email, FormValue(r, "otp"), r.session.id, o.now).value;
      && r.session.values == Promote(old(r.session.values), m.userId, m.userTypeId)
      && Trusted(r.session.values, wh.server.users)
      && r.session.saves == old(r.session.saves) + 1
      && r.session.stored == (if o.saveOk then r.session.values else old(r.session.stored))
      && (exit.LoggedIn? <==> o.saveOk)
  {
    var page := LoginPage(false, user.email, []);
    var code := FormValue(r, "otp");
    if |code| < OtpLength(o) {
      RenderLogin(wh, w, page.(errors := ["Illegal credentials"]), StatusUnauthorized, o);
      return CodeTooShort;
    }
    var found := FindOtp(wh.server.otpRequests, wh.server.users, email, code, r.session.id, o.now);
    if found.None? {
      RenderLogin(wh, w, page.(errors := ["Invalid Credentials"]), StatusUnauthorized, o);
      return CodeRejected;
    }
    PromotedSessionTrusted(wh.server.otpRequests, wh.server.users, email, code, r.session.id, o.now, r.session.values);
    r.session.values := Promote(r.session.values, found.value.userId, found.value.userTypeId);
    page := page.(isLoggedIn := true);
    var failed := r.session.Save(o.saveOk);
    if failed {
      w.Error(SessionSaveFailureMessage, StatusInternalServerError);
      return SessionNotSaved;
    }
    w.Redirect("/");
    exit := LoggedIn(found.value);
  }

  /** The part of LoginHandler after the user row for `email` was found
      (auth.go:174-279), on an open handle that answers queries. */
  method LoginWithUser(wh: WebHandlers, w: ResponseWriter, r: Request, o: Oracles, user: User, email: string)
    returns (exit: LoginExit)
    requires wh.db.Handle? && !wh.db.closed && o.queryOk
    requires wh.server.Valid() && o.defaultOtpLength > 0 && !r.sessionErr
    requires UserByEmail(wh.server.users, email) == Some(user)
    requires w.status == 0 && w.location == None && w.body == []
    modifies w, r.session, wh`db, wh.server`otpRequests, wh.server`nextOtpRequestId
    ensures wh.server.Valid()
    ensures PastUserLookup(exit)
    ensures var code := FormValue(r, "otp");
      var found := FindOtp(old(wh.server.otpRequests), wh.server.users, email, code, r.session.id, o.now);
      && (exit == OtpIssued || exit.OtpNotSent? <==> code == "")
      && (exit == CodeTooShort <==> 0 < |code| < OtpLength(o))
      && (exit == CodeRejected <==> 0 < |code| && |code| >= OtpLength(o) && found.None?)
      && (exit.LoggedIn? || exit == SessionNotSaved <==> 0 < |code| && |code| >= OtpLength(o) && found.Some?)
      && (exit.LoggedIn? ==> exit.m == found.value)
    ensures Responded(w, exit, email, o)
    ensures !exit.LoggedIn? && exit != SessionNotSaved ==> unchanged(r.session)
    ensures exit.LoggedIn? || exit == SessionNotSaved ==>
      var m := FindOtp(old(wh.server.otpRequests), wh.server.users, email, FormValue(r, "otp"), r.session.id, o.now).value;
      && r.session.values == Promote(old(r.session.values), m.userId, m.userTypeId)
      && Trusted(r.session.values, wh.server.users)
      && r.session.saves == old(r.session.saves) + 1
      && r.session.stored == (if o.saveOk then r.session.values else old(r.session.stored))
      && (exit.LoggedIn? <==> o.saveOk)
    ensures exit == OtpIssued || exit.OtpNotSent? ==>
      wh.db == (if exit.OtpNotSent? && exit.err.RandomError? then old(wh.db)
                else if exit.OtpNotSent? && exit.err == ConnectError then NilHandle
                else Reconnected(old(wh.db), o))
    ensures exit != OtpIssued && !exit.OtpNotSent? ==> wh.db == old(wh.db)
    ensures exit == OtpIssued ==>
      && Security.DrawsSucceed(o.draw, OtpLength(o))
      && wh.server.otpRequests == old(wh.server.otpRequests) + [OtpRequest(
           old(wh.server.nextOtpRequestId), user.id, Security.CodeFromDraws(o.draw, OtpLength(o)), "email", o.now, r.session.id)]
    ensures exit != OtpIssued && !exit.OtpNotSent? ==> wh.server.otpRequests == old(wh.server.otpRequests)
  {
    if FormValue(r, "otp") == "" {
      exit := IssueCode(wh, w, r, o, user, email);
    } else {
      exit := CheckCode(wh, w, r, o, user, email);
    }
  }

  /** The POST part of LoginHandler (auth.go:139-279) for a readable
      session the guard did not trust. */
  method LoginPost(wh: WebHandlers, w: ResponseWriter, r: Request, o: Oracles) returns (exit: LoginExit)
    requires wh.db.Handle? && wh.server.Valid() && o.defaultOtpLength > 0 && !r.sessionErr
    requires w.status == 0 && w.location == None && w.body == []
    modifies w, r.session, wh`db, wh.server`otpRequests, wh.server`nextOtpRequestId
    ensures wh.server.Valid()
    ensures exit == DbUnavailable <==> !Reconnects(old(wh.db), o)
    ensures exit == UnknownEmail <==>
      Reconnects(old(wh.db), o) && (!o.queryOk || UserByEmail(wh.server.users, FormValue(r, "email")).None?)
    ensures PastUserLookup(exit) <==>
      Reconnects(old(wh.db), o) && o.queryOk && UserByEmail(wh.server.users, FormValue(r, "email")).Some?
    ensures PastUserLookup(exit) ==>
      var code := FormValue(r, "otp");
      var found := FindOtp(old(wh.server.otpRequests), wh.server.users, FormValue(r, "email"), code, r.session.id, o.now);
      && (exit == OtpIssued || exit.OtpNotSent? <==> code == "")
      && (exit == CodeTooShort <==> 0 < |code| < OtpLength(o))
      && (exit == CodeRejected <==> 0 < |code| && |code| >= OtpLength(o) && found.None?)
      && (exit.LoggedIn? || exit == SessionNotSaved <==> 0 < |code| && |code| >= OtpLength(o) && found.Some?)
      && (exit.LoggedIn? ==> exit.m == found.value)
    ensures Responded(w, exit, FormValue(r, "email"), o)
    ensures !exit.LoggedIn? && exit != SessionNotSaved ==> unchanged(r.session)
    ensures exit.LoggedIn? || exit == SessionNotSaved ==>
      var m := FindOtp(old(wh.server.otpRequests), wh.server.users, FormValue(r, "email"), FormValue(r, "otp"), r.session.id, o.now).value;
      && r.session.values == Promote(old(r.session.values), m.userId, m.userTypeId)
      && Trusted(r.session.values, wh.server.users)
      && r.session.saves == old(r.session.saves) + 1
      && r.session.stored == (if o.saveOk then r.session.values else old(r.session.stored))
      && (exit.LoggedIn? <==> o.saveOk)
    ensures wh.db == HandleAfter(exit, old(wh.db), o)
    ensures exit == OtpIssued ==>
      && Security.DrawsSucceed(o.draw, OtpLength(o))
      && wh.server.otpRequests == old(wh.server.otpRequests) + [OtpRequest(
           old(wh.server.nextOtpRequestId), UserByEmail(wh.server.users, FormValue(r, "email")).value.id,
           Security.CodeFromDraws(o.draw, OtpLength(o)), "email", o.now, r.session.id)]
    ensures exit != OtpIssued && !exit.OtpNotSent? ==> wh.server.otpRequests == old(wh.server.otpRequests)
  {
    var email := FormValue(r, "email");
    var err := wh.ReconnectDB(o);
    if err.Some? {
      w.Error(ErrorMessage(err.value), StatusInternalServerError);
      return DbUnavailable;
    }
    var user := if QueriesSucceed(wh.db, o) then UserByEmail(wh.server.users, email) else None;
    if user.None? {
      RenderLogin(wh, w, LoginPage(false, "", ["Invalid email"]), StatusUnauthorized, o);
      return UnknownEmail;
    }
    exit := LoginWithUser(wh, w, r, o, user.value, email);
  }

  /** LoginHandler (auth.go:103-280) on a fresh response. The exit taken
      follows the source's order of checks; before the code lookup succeeds
      the session holds nothing but the guard's normalisation, and after it
      the promoted session passes the guard. */
  method LoginHandler(wh: WebHandlers, w: ResponseWriter, r: Request, o: Oracles) returns (exit: LoginExit)
    requires wh.db.Handle? && wh.server.Valid() && o.defaultOtpLength > 0
    requires w.status == 0 && w.location == None && w.body == []
    modifies w, r.session, wh`db, wh.server`otpRequests, wh.server`nextOtpRequestId
    ensures wh.server.Valid()
    // Which exit is taken.
    ensures exit == SessionUnavailable <==> r.sessionErr
    ensures exit == AlreadyLoggedIn <==>
      !r.sessionErr && QueriesSucceed(old(wh.db), o) && Trusted(old(r.session.values), wh.server.users)
    ensures var open := !r.sessionErr && !(QueriesSucceed(old(wh.db), o) && Trusted(old(r.session.values), wh.server.users));
      && (exit == FormShown <==> open && r.httpMethod == "GET")
      && (exit == DbUnavailable <==> open && r.httpMethod != "GET" && !Reconnects(old(wh.db), o))
      && (exit == UnknownEmail <==> open && r.httpMethod != "GET" && Reconnects(old(wh.db), o)
                                    && (!o.queryOk || UserByEmail(wh.server.users, FormValue(r, "email")).None?))
      && (PastUserLookup(exit) <==> open && r.httpMethod != "GET" && Reconnects(old(wh.db), o) && o.queryOk
                                    && UserByEmail(wh.server.users, FormValue(r, "email")).Some?)
    ensures PastUserLookup(exit) ==>
      var code := FormValue(r, "otp");
      var found := FindOtp(old(wh.server.otpRequests), wh.server.users, FormValue(r, "email"), code, r.session.id, o.now);
      && (exit == OtpIssued || exit.OtpNotSent? <==> code == "")
      && (exit == CodeTooShort <==> 0 < |code| < OtpLength(o))
      && (exit == CodeRejected <==> 0 < |code| && |code| >= OtpLength(o) && found.None?)
      && (exit.LoggedIn? || exit == SessionNotSaved <==> 0 < |code| && |code| >= OtpLength(o) && found.Some?)
      && (exit.LoggedIn? ==> exit.m == found.value)
    // The response, the handle and the otp_requests table.
    ensures Responded(w, exit, FormValue(r, "email"), o)
    ensures wh.db == HandleAfter(exit, old(wh.db), o)
    ensures exit == OtpIssued ==>
      && Security.DrawsSucceed(o.draw, OtpLength(o))
      && wh.server.otpRequests == old(wh.server.otpRequests) + [OtpRequest(
           old(wh.server.nextOtpRequestId), UserByEmail(wh.server.users, FormValue(r, "email")).value.id,
           Security.CodeFromDraws(o.draw, OtpLength(o)), "email", o.now, r.session.id)]
    ensures exit != OtpIssued && !exit.OtpNotSent? ==> wh.server.otpRequests == old(wh.server.otpRequests)
    // The session.
    ensures r.sessionErr ==> unchanged(r.session)
    ensures !r.sessionErr && !exit.LoggedIn? && exit != SessionNotSaved ==>
      && r.session.values == Guarded(old(r.session.values))
      && r.session.saves == old(r.session.saves) + (if GuardWrites(r.sessionErr, old(r.session.values)) then 1 else 0)
      && r.session.stored == (if GuardWrites(r.sessionErr, old(r.session.values)) && o.saveOk
                              then r.session.values else old(r.session.stored))
    ensures exit.LoggedIn? || exit == SessionNotSaved ==>
      var m := FindOtp(old(wh.server.otpRequests), wh.server.users, FormValue(r, "email"), FormValue(r, "otp"), r.session.id, o.now).value;
      && r.session.values == Promote(Guarded(old(r.session.values)), m.userId, m.userTypeId)
      && Trusted(r.session.values, wh.server.users)
      && r.session.saves == old(r.session.saves) + (if GuardWrites(r.sessionErr, old(r.session.values)) then 1 else 0) + 1
      && r.session.stored == (if o.saveOk then r.session.values else old(r.session.stored))
      && (exit.LoggedIn? <==> o.saveOk)
  {
    var loggedIn := wh.IsLoggedIn(r, o);
    assert !r.sessionErr ==>
      && r.session.values == Guarded(old(r.session.values))
      && r.session.saves == old(r.session.saves) + (if GuardWrites(r.sessionErr, old(r.session.values)) then 1 else 0)
      && r.session.stored == (if GuardWrites(r.sessionErr, old(r.session.values)) && o.saveOk
                              then r.session.values else old(r.session.stored));
    if r.sessionErr {
      w.Error(SessionReadFailureMessage, StatusInternalServerError);
      return SessionUnavailable;
    }
    if loggedIn {
      w.Redirect("/");
      return AlreadyLoggedIn;
    }
    if r.httpMethod == "GET" {
      RenderLogin(wh, w, LoginPage(false, "", []), StatusOK, o);
      return FormShown;
    }
    exit := LoginPost(wh, w, r, o);
  }

  /** A code issued by LoginHandler is refused by every later submission
      made within 33 seconds of its issue, whatever the submitted form,
      as long as the table keeps the issued row. */
  lemma IssuedCodeRejectedWithinWindow(otps: seq<OtpRequest>, users: seq<User>, email: string, code: string,
                                       sessionId: string, issuedAt: int, now: int, id: nat, userId: int)
    requires UniqueUsers(users) && UniqueTriples(otps)
    requires UserByEmail(users, email).Some? && UserByEmail(users, email).value.id == userId
    requires OtpRequest(id, userId, code, "email", issuedAt, sessionId) in otps
    requires now <= issuedAt + ValidityWindow
    ensures FindOtp(otps, users, email, code, sessionId, now) == None
  {
    var i :| 0 <= i < |otps| && otps[i] == OtpRequest(id, userId, code, "email", issuedAt, sessionId);
    var u := UserByEmail(users, email).value;
    assert u in users;
    JoinFindsUser(users, u);
    FreshCodeRejected(otps, users, email, code, sessionId, now, i);
  }

  /** Every row of the users table is found by the join on its own id and email. */
  lemma {:induction false} JoinFindsUser(users: seq<User>, u: User)
    requires u in users
    ensures JoinUser(users, u.id, u.email).Some?
  {
    if users[0] != u {
      JoinFindsUser(users[1..], u);
    }
  }

  // ---------------------------------------------------------------------
  // LogoutHandler and the guards

  const LogoutReadFailureMessage: string := "failed to get session"
  const LogoutSaveFailureMessage: string := "failed to save session"
  const AdminsOnlyMessage: string := "Unauthorized: Admins only"

  /** LogoutHandler (auth.go:283-302). A store error is reported with 500
      but the handler carries on with the session the store returned, so
      the keys are still deleted and saved; the later redirect then cannot
      change the status or set its Location header. */
  method LogoutHandler(wh: WebHandlers, w: ResponseWriter, r: Request, o: Oracles)
    requires w.status == 0 && w.location == None && w.body == []
    modifies w, r.session, wh`isLoggedIn, wh`isAdmin
    ensures r.session.values == LoggedOut(old(r.session.values))
    ensures r.session.saves == old(r.session.saves) + 1
    ensures r.session.stored == (if o.saveOk then r.session.values else old(r.session.stored))
    ensures !wh.isLoggedIn && !wh.isAdmin
    ensures !r.sessionErr && o.saveOk ==> Redirected(w, "/login")
    ensures !r.sessionErr && !o.saveOk ==> Failed(w, LogoutSaveFailureMessage, StatusInternalServerError)
    ensures r.sessionErr ==>
      && w.status == StatusInternalServerError && w.location == None
      && w.body == [Text(LogoutReadFailureMessage)] + (if o.saveOk then [] else [Text(LogoutSaveFailureMessage)])
  {
    if r.sessionErr {
      w.Error(LogoutReadFailureMessage, StatusInternalServerError);
    }
    r.session.values := LoggedOut(r.session.values);
    wh.isLoggedIn := false;
    wh.isAdmin := false;
    var failed := r.session.Save(o.saveOk);
    if failed {
      w.Error(LogoutSaveFailureMessage, StatusInternalServerError);
      return;
    }
    w.Redirect("/login");
  }

  /** After logout no session passes the guard, whatever the users table. */
  lemma LoggedOutNotTrusted(v: SessionValues, users: seq<User>, adminUserTypeId: int)
    ensures !Trusted(LoggedOut(v), users) && !TrustedAdmin(LoggedOut(v), users, adminUserTypeId)
    ensures Guarded(LoggedOut(v)) == Normalized(LoggedOut(v))
  {
  }

  /** RequireAuth (auth.go:305-314): `served` says whether the wrapped
      handler runs; otherwise the response is a redirect to /login. */
  method RequireAuth(wh: WebHandlers, w: ResponseWriter, r: Request, o: Oracles) returns (served: bool)
    requires wh.db.Handle?
    requires w.status == 0 && w.location == None && w.body == []
    modifies w, r.session
    ensures served == (!r.sessionErr && QueriesSucceed(wh.db, o) && Trusted(old(r.session.values), wh.server.users))
    ensures served ==> w.status == 0 && w.location == None && w.body == []
    ensures !served ==> Redirected(w, "/login")
    ensures !GuardWrites(r.sessionErr, old(r.session.values)) ==> unchanged(r.session)
    ensures GuardWrites(r.sessionErr, old(r.session.values)) ==>
      && r.session.values == Normalized(old(r.session.values))
      && r.session.saves == old(r.session.saves) + 1
      && r.session.stored == (if o.saveOk then r.session.values else old(r.session.stored))
  {
    served := wh.IsLoggedIn(r, o);
    if !served {
      w.Redirect("/login");
    }
  }

  /** RequireAdmin (auth.go:317-332): a session that fails IsLoggedIn is
      redirected to /login; a logged-in session that fails IsLoggedInAdmin
      gets 401 "Unauthorized: Admins only" and, when its claimed type is
      not the admin type, one more save of unchanged values. */
  method RequireAdmin(wh: WebHandlers, w: ResponseWriter, r: Request, o: Oracles) returns (served: bool)
    requires wh.db.Handle?
    requires w.status == 0 && w.location == None && w.body == []
    modifies w, r.session
    ensures served == (!r.sessionErr && QueriesSucceed(wh.db, o)
                       && TrustedAdmin(old(r.session.values), wh.server.users, wh.adminUserTypeID))
    ensures served ==> w.status == 0 && w.location == None && w.body == []
    ensures var loggedIn := !r.sessionErr && QueriesSucceed(wh.db, o) && Trusted(old(r.session.values), wh.server.users);
      && (!loggedIn ==> Redirected(w, "/login"))
      && (loggedIn && !served ==> Failed(w, AdminsOnlyMessage, StatusUnauthorized))
    // The session: IsLoggedIn's effect on the redirect path, then
    // IsLoggedInAdmin's on a logged-in session.
    ensures GuardWrites(r.sessionErr, old(r.session.values)) ==>
      && r.session.values == Normalized(old(r.session.values))
      && r.session.saves == old(r.session.saves) + 1
      && r.session.stored == (if o.saveOk then r.session.values else old(r.session.stored))
    ensures var loggedIn := !r.sessionErr && QueriesSucceed(wh.db, o) && Trusted(old(r.session.values), wh.server.users);
      && (!loggedIn && !GuardWrites(r.sessionErr, old(r.session.values)) ==> unchanged(r.session))
      && (loggedIn && ReadClaims(old(r.session.values)).userTypeId == Some(wh.adminUserTypeID) ==> unchanged(r.session))
      && (loggedIn && ReadClaims(old(r.session.values)).userTypeId != Some(wh.adminUserTypeID) ==>
            && r.session.values == old(r.session.values)
            && r.session.saves == old(r.session.saves) + 1
            && r.session.stored == (if o.saveOk then r.session.values else old(r.session.stored)))
  {
    var loggedIn := wh.IsLoggedIn(r, o);
    if !loggedIn {
      w.Redirect("/login");
      return false;
    }
    NormalizedKeepsTypedClaims(r.session.values);
    served := wh.IsLoggedInAdmin(r, o);
    if !served {
      w.Error(AdminsOnlyMessage, StatusUnauthorized);
    }
  }
}
