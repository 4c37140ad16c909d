/** The shared state and the authorisation guard of
    internal/handlers/handlers.go, with the stores they talk to.

    - A gorilla session is a `Session` object: its `values` map (keys to
      values tagged by their Go dynamic type), what the store last saved for
      it, and how many times it was saved.
    - The MySQL server is a `Database` object holding the rows of the users,
      user_types and otp_requests tables; `*sql.DB` is a `Handle` value in
      the `db` field of `WebHandlers`, which ReconnectDB replaces.
    - The response is a `ResponseWriter` object: the first status written
      wins, as in net/http.
    - Everything a request cannot control (clock, randomness, whether the
      server answers, whether a write or an e-mail goes through) comes in as
      an `Oracles` value. */
module Handlers {
  import opened Common
  import Security

  // ---------------------------------------------------------------------
  // Session values and the claims the guard reads from them

  /** A session value, tagged by its Go dynamic type (gob keeps int and
      int64 apart). */
  datatype SessionValue = IntValue(i: int) | Int64Value(i64: int) | BoolValue(b: bool) | StringValue(s: string)

  type SessionValues = map<string, SessionValue>

  const UserIdKey: string := "user_id"
  const UserTypeIdKey: string := "user_type_id"
  const IsLoggedInKey: string := "is_logged_in"

  /** The three comma-ok type assertions of handlers.go:58-60 and 97-99:
      `user_id` must hold an int64, `user_type_id` an int and
      `is_logged_in` a bool; None is a failed assertion. */
  datatype Claims = Claims(userId: Option<int>, userTypeId: Option<int>, isLoggedIn: Option<bool>)

  function ReadClaims(v: SessionValues): Claims {
    Claims(
      if UserIdKey in v && v[UserIdKey].Int64Value? then Some(v[UserIdKey].i64) else None,
      if UserTypeIdKey in v && v[UserTypeIdKey].IntValue? then Some(v[UserTypeIdKey].i) else None,
      if IsLoggedInKey in v && v[IsLoggedInKey].BoolValue? then Some(v[IsLoggedInKey].b) else None)
  }

  /** The session's own claim to be logged in (the condition at handlers.go:63). */
  predicate ClaimsLogin(c: Claims) {
    c.userId.Some? && c.userTypeId.Some? && c.isLoggedIn == Some(true)
  }

  /** The self-healing pass of handlers.go:75-83: every key whose assertion
      failed gets its default. The user_id default is the untyped constant 0,
      which Go stores as an int, not an int64. */
  function Normalized(v: SessionValues): (r: SessionValues)
    ensures r.Keys == v.Keys + {UserIdKey, UserTypeIdKey, IsLoggedInKey}
    ensures forall k :: k in v && k != UserIdKey && k != UserTypeIdKey && k != IsLoggedInKey ==> r[k] == v[k]
  {
    var c := ReadClaims(v);
    var v1 := if c.userId.None? then v[UserIdKey := IntValue(0)] else v;
    var v2 := if c.userTypeId.None? then v1[UserTypeIdKey := IntValue(0)] else v1;
    if c.isLoggedIn.None? then v2[IsLoggedInKey := BoolValue(false)] else v2
  }

  /** Normalisation keeps every well-typed claim, defaults the others, and
      cannot repair user_id: its default is an int, so the int64 assertion
      keeps failing. */
  lemma NormalizedClaims(v: SessionValues)
    ensures var c, n := ReadClaims(v), ReadClaims(Normalized(v));
      && n.userId == c.userId
      && n.userTypeId == (if c.userTypeId.Some? then c.userTypeId else Some(0))
      && n.isLoggedIn == (if c.isLoggedIn.Some? then c.isLoggedIn else Some(false))
      && (c.userId.None? ==> Normalized(v)[UserIdKey] == IntValue(0))
  {
  }

  /** Normalising twice is normalising once: a session the guard has
      healed is stored unchanged by every later pass. */
  lemma {:induction false} NormalizedIdempotent(v: SessionValues)
    ensures Normalized(Normalized(v)) == Normalized(v)
  {
    NormalizedClaims(v);
    NormalizedClaims(Normalized(v));
    var n := Normalized(v);
    var nn := Normalized(n);
    assert nn.Keys == n.Keys;
    forall k | k in n
      ensures nn[k] == n[k]
    {
      if k == UserIdKey {
        assert n[k] == if ReadClaims(v).userId.Some? then v[k] else IntValue(0);
      }
    }
  }

  /** Normalisation turns a session that does not claim a login into one
      that does exactly when user_id held an int64, is_logged_in held true
      and user_type_id was missing or mistyped; the healed claim then names
      user type 0. */
  lemma NormalizedLoginClaim(v: SessionValues)
    requires !ClaimsLogin(ReadClaims(v))
    ensures var c := ReadClaims(v);
      ClaimsLogin(ReadClaims(Normalized(v))) <==> c.userId.Some? && c.userTypeId.None? && c.isLoggedIn == Some(true)
    ensures ClaimsLogin(ReadClaims(Normalized(v))) ==> ReadClaims(Normalized(v)).userTypeId == Some(0)
  {
    NormalizedClaims(v);
  }

  /** A session whose three claims are all well typed is left as it is. */
  lemma NormalizedKeepsTypedClaims(v: SessionValues)
    requires var c := ReadClaims(v); c.userId.Some? && c.userTypeId.Some? && c.isLoggedIn.Some?
    ensures Normalized(v) == v
  {
  }

  /** Whether IsLoggedIn (and IsLoggedInAdmin, for a non-admin claim)
      normalises and saves a session it could read. */
  predicate GuardWrites(sessionErr: bool, v: SessionValues) {
    !sessionErr && !ClaimsLogin(ReadClaims(v))
  }

  /** The values a readable session holds after IsLoggedIn has looked at it. */
  function Guarded(v: SessionValues): SessionValues {
    if ClaimsLogin(ReadClaims(v)) then v else Normalized(v)
  }

  /** The writes of a successful login (auth.go:262-264): user_id as an
      int64, user_type_id as an int and is_logged_in as true, so the session
      passes all three type assertions of the guard. */
  function Promote(v: SessionValues, userId: int, userTypeId: int): (r: SessionValues)
    ensures ReadClaims(r) == Claims(Some(userId), Some(userTypeId), Some(true))
    ensures ClaimsLogin(ReadClaims(r))
    ensures r.Keys == v.Keys + {UserIdKey, UserTypeIdKey, IsLoggedInKey}
    ensures forall k :: k in v && k != UserIdKey && k != UserTypeIdKey && k != IsLoggedInKey ==> r[k] == v[k]
  {
    v[UserIdKey := Int64Value(userId)][UserTypeIdKey := IntValue(userTypeId)][IsLoggedInKey := BoolValue(true)]
  }

  /** The deletes of LogoutHandler (auth.go:289-291): exactly the three
      claim keys go, every other key stays. */
  function LoggedOut(v: SessionValues): (r: SessionValues)
    ensures ReadClaims(r) == Claims(None, None, None)
    ensures r.Keys == v.Keys - {UserIdKey, UserTypeIdKey, IsLoggedInKey}
    ensures forall k :: k in r ==> r[k] == v[k]
  {
    v - {UserIdKey, UserTypeIdKey, IsLoggedInKey}
  }

  // ---------------------------------------------------------------------
  // The database server

  datatype User = User(id: int, email: string, userTypeId: int)

  datatype UserTypeRow = UserTypeRow(id: int, name: string)

  /** A row of otp_requests (pkg/db/migrate.go:120-129). */
  datatype OtpRequest = OtpRequest(id: nat, userId: int, code: string, deliveryMethod: string,
                                   requestedAt: int, sessionId: string)

  /** valid_till is a generated column: UNIX_TIMESTAMP(requested_at) + 33. */
  const ValidityWindow: int := 33
  /** Column widths of otp_code, delivery_method and session_id; MySQL in
      strict mode refuses longer values. */
  const MaxCodeLength: nat := 24
  const MaxDeliveryMethodLength: nat := 10
  const MaxSessionIdLength: nat := 1024

  function ValidTill(r: OtpRequest): int {
    r.requestedAt + ValidityWindow
  }

  predicate HasTriple(otps: seq<OtpRequest>, userId: int, code: string, sessionId: string) {
    exists i :: 0 <= i < |otps| && otps[i].userId == userId && otps[i].code == code && otps[i].sessionId == sessionId
  }

  /** Whether the INSERT of security-relevant columns is accepted by the
      schema: the values fit their columns and UNIQUE KEY(user_id, otp_code,
      session_id) is not violated. */
  predicate InsertAllowed(otps: seq<OtpRequest>, userId: int, code: string, deliveryMethod: string, sessionId: string) {
    && |code| <= MaxCodeLength
    && |deliveryMethod| <= MaxDeliveryMethodLength
    && |sessionId| <= MaxSessionIdLength
    && !HasTriple(otps, userId, code, sessionId)
  }

  predicate UniqueTriples(otps: seq<OtpRequest>) {
    forall i, j :: 0 <= i < j < |otps| ==>
      !(otps[i].userId == otps[j].userId && otps[i].code == otps[j].code && otps[i].sessionId == otps[j].sessionId)
  }

  /** The users table's keys: user_id and email are both unique. */
  predicate UniqueUsers(users: seq<User>) {
    forall i, j :: 0 <= i < j < |users| ==> users[i].id != users[j].id && users[i].email != users[j].email
  }

  /** Whether the users table holds a row with exactly this (user_id, user_type_id). */
  predicate HasUserRow(users: seq<User>, id: int, userTypeId: int) {
    exists i :: 0 <= i < |users| && users[i].id == id && users[i].userTypeId == userTypeId
  }

  class Database {
    var users: seq<User>
    var userTypes: seq<UserTypeRow>
    var otpRequests: seq<OtpRequest>
    var nextOtpRequestId: nat

    /** The schema's keys: user_id and email are unique, user_type_id is
        the clustered primary key (rows come out in increasing id order),
        and (user_id, otp_code, session_id) is unique. */
    ghost predicate Valid()
      reads this
    {
      && UniqueUsers(users)
      && (forall i, j :: 0 <= i < j < |userTypes| ==> userTypes[i].id < userTypes[j].id)
      && UniqueTriples(otpRequests)
      && (forall i :: 0 <= i < |otpRequests| ==> otpRequests[i].id < nextOtpRequestId)
    }

    constructor (users: seq<User>, userTypes: seq<UserTypeRow>)
      requires UniqueUsers(users)
      requires forall i, j :: 0 <= i < j < |userTypes| ==> userTypes[i].id < userTypes[j].id
      ensures Valid()
      ensures this.users == users && this.userTypes == userTypes && otpRequests == []
    {
      this.users := users;
      this.userTypes := userTypes;
      otpRequests := [];
      nextOtpRequestId := 1;
    }

    /** INSERT INTO otp_requests(user_id, otp_code, delivery_method,
        session_id); requested_at defaults to the current time. `execOk`
        stands for every failure the schema does not explain. */
    method InsertOtpRequest(userId: int, code: string, deliveryMethod: string, sessionId: string,
                            now: int, execOk: bool) returns (ok: bool)
      requires Valid()
      modifies this`otpRequests, this`nextOtpRequestId
      ensures Valid()
      ensures ok <==> execOk && InsertAllowed(old(otpRequests), userId, code, deliveryMethod, sessionId)
      ensures ok ==> otpRequests == old(otpRequests) + [OtpRequest(old(nextOtpRequestId), userId, code, deliveryMethod, now, sessionId)]
      ensures !ok ==> otpRequests == old(otpRequests) && nextOtpRequestId == old(nextOtpRequestId)
    {
      ok := execOk && InsertAllowed(otpRequests, userId, code, deliveryMethod, sessionId);
      if ok {
        otpRequests := otpRequests + [OtpRequest(nextOtpRequestId, userId, code, deliveryMethod, now, sessionId)];
        nextOtpRequestId := nextOtpRequestId + 1;
      }
    }
  }

  // ---------------------------------------------------------------------
  // The trust decisions

  /** IsLoggedIn's answer when its query can run: the session claims a
      login and the users table confirms the (user_id, user_type_id) pair. */
  predicate Trusted(v: SessionValues, users: seq<User>) {
    var c := ReadClaims(v);
    ClaimsLogin(c) && HasUserRow(users, c.userId.value, c.userTypeId.value)
  }

  /** IsLoggedInAdmin's answer when its query can run: as Trusted, and the
      claimed user type is the configured admin type. */
  predicate TrustedAdmin(v: SessionValues, users: seq<User>, adminUserTypeId: int) {
    var c := ReadClaims(v);
    ClaimsLogin(c) && c.userTypeId.value == adminUserTypeId
    && HasUserRow(users, c.userId.value, c.userTypeId.value)
  }

  /** IsLoggedInAdmin implies IsLoggedIn for the same session and table. */
  lemma TrustedAdminIsTrusted(v: SessionValues, users: seq<User>, adminUserTypeId: int)
    requires TrustedAdmin(v, users, adminUserTypeId)
    ensures Trusted(v, users)
  {
  }

  // ---------------------------------------------------------------------
  // Per-request environment

  /** What one request observes of the world outside the model. */
  datatype Oracles = Oracles(
    now: int,                          // time.Now().Unix()
    draw: nat -> Security.Draw,        // the i-th rand.Int draw of an OTP generation
    pingOk: bool,                      // PingContext succeeds on an open handle
    connectOk: bool,                   // ConnectDB (sql.Open) succeeds
    queryOk: bool,                     // the server answers queries on an open handle
    prepareOk: bool,                   // Prepare succeeds
    execOk: bool,                      // Exec fails for no reason the schema explains
    sendOk: bool,                      // the SMTP server accepts the e-mail
    templateOk: bool,                  // ExecuteTemplate succeeds
    saveOk: bool,                      // the session store accepts a Save
    otpLength: int,                    // viper.GetInt("otp_length")
    defaultOtpLength: int,             // utils.DefaultOTPLength
    restrictedUserTypes: string        // viper.GetString("delete_restricted_user_types")
  )

  /** A *sql.DB: nil, or a connection pool identified by a serial number. */
  datatype Handle = NilHandle | Handle(serial: nat, closed: bool)

  predicate PingSucceeds(h: Handle, o: Oracles) {
    h.Handle? && !h.closed && o.pingOk
  }

  predicate QueriesSucceed(h: Handle, o: Oracles) {
    h.Handle? && !h.closed && o.queryOk
  }

  /** Whether ReconnectDB ends with a usable handle. */
  predicate Reconnects(h: Handle, o: Oracles) {
    PingSucceeds(h, o) || o.connectOk
  }

  /** The handle ReconnectDB leaves behind. */
  function Reconnected(h: Handle, o: Oracles): (r: Handle)
    requires h.Handle?
    ensures Reconnects(h, o) <==> r.Handle?
    ensures r.Handle? ==> !r.closed
    ensures PingSucceeds(h, o) ==> r == h
  {
    if PingSucceeds(h, o) then h
    else if o.connectOk then Handle(h.serial + 1, false)
    else NilHandle
  }

  /** Errors returned by the handlers' collaborators. */
  datatype Error =
    | RandomError(reason: string)
    | ConnectError
    | QueryError
    | PrepareError
    | ExecError
    | SendError
    | UnknownModeError(mode: string)
    | TemplateError
    | SessionStoreError

  /** The text http.Error writes for an error. Only the unknown-mode
      message is fixed by the source; the others come from libraries. */
  function ErrorMessage(e: Error): string {
    match e
    case RandomError(reason) => reason
    case ConnectError => "error connecting to database"
    case QueryError => "error querying database"
    case PrepareError => "error preparing statement"
    case ExecError => "error executing statement"
    case SendError => "error sending e-mail"
    case UnknownModeError(mode) => "unknown OTP sending mode " + mode
    case TemplateError => "error executing template"
    case SessionStoreError => "error reading session"
  }

  // ---------------------------------------------------------------------
  // Sessions, requests and responses

  class Session {
    const id: string
    var values: SessionValues
    var stored: SessionValues
    var saves: nat

    constructor (id: string, values: SessionValues)
      ensures this.id == id && this.values == values && stored == values && saves == 0
    {
      this.id := id;
      this.values := values;
      stored := values;
      saves := 0;
    }

    /** session.Save: the store keeps the current values when it accepts the write. */
    method Save(ok: bool) returns (failed: bool)
      modifies this
      ensures values == old(values) && saves == old(saves) + 1
      ensures stored == (if ok then values else old(stored))
      ensures failed == !ok
    {
      saves := saves + 1;
      if ok {
        stored := values;
      }
      failed := !ok;
    }
  }

  /** One HTTP request: its method, its form fields and the session that
      store.Get returns for it (with the error it returned, if any; gorilla
      caches both per request). */
  datatype Request = Request(httpMethod: string, form: map<string, string>, session: Session, sessionErr: bool)

  function FormValue(r: Request, key: string): string {
    if key in r.form then r.form[key] else ""
  }

  /** The data of the login template (auth.go:13-17). */
  datatype LoginPage = LoginPage(isLoggedIn: bool, userEmail: string, errors: seq<string>)

  datatype Body = Html(page: LoginPage) | Text(msg: string)

  const StatusOK: int := 200
  const StatusSeeOther: int := 303
  const StatusUnauthorized: int := 401
  const StatusMethodNotAllowed: int := 405
  const StatusConflict: int := 409
  const StatusInternalServerError: int := 500

  class ResponseWriter {
    var status: int               // 0 until the header has been written
    var location: Option<string>  // the Location header, if set before the header was written
    var body: seq<Body>

    constructor ()
      ensures status == 0 && location == None && body == []
    {
      status, location, body := 0, None, [];
    }

    method WriteHeader(code: int)
      modifies this
      ensures status == (if old(status) == 0 then code else old(status))
      ensures location == old(location) && body == old(body)
    {
      if status == 0 {
        status := code;
      }
    }

    method Write(b: Body)
      modifies this
      ensures status == (if old(status) == 0 then StatusOK else old(status))
      ensures location == old(location) && body == old(body) + [b]
    {
      WriteHeader(StatusOK);
      body := body + [b];
    }

    /** http.Error */
    method Error(msg: string, code: int)
      modifies this
      ensures status == (if old(status) == 0 then code else old(status))
      ensures location == old(location) && body == old(body) + [Text(msg)]
    {
      WriteHeader(code);
      body := body + [Text(msg)];
    }

    /** http.Redirect with 303 See Other; headers set after the header was
        written are lost. */
    method Redirect(url: string)
      modifies this
      ensures status == (if old(status) == 0 then StatusSeeOther else old(status))
      ensures location == (if old(status) == 0 then Some(url) else old(location))
      ensures body == old(body)
    {
      if status == 0 {
        location := Some(url);
      }
      WriteHeader(StatusSeeOther);
    }
  }

  /** The status WriteHTML actually writes (handlers.go:204-209). */
  function ClampStatus(httpStatus: int): (r: int)
    ensures 100 <= r <= 600
    ensures r == httpStatus <==> 100 <= httpStatus <= 600
    ensures r != httpStatus ==> r == StatusOK
  {
    if httpStatus < 100 || httpStatus > 600 then StatusOK else httpStatus
  }

  // ---------------------------------------------------------------------
  // WebHandlers

  class WebHandlers {
    const adminUserTypeID: int
    const server: Database
    var db: Handle
    /** Assigned by LogoutHandler (auth.go:292-293) although the Go struct
        does not declare them. */
    var isLoggedIn: bool
    var isAdmin: bool

    constructor (adminUserTypeID: int, server: Database, db: Handle)
      ensures this.adminUserTypeID == adminUserTypeID && this.server == server && this.db == db
      ensures !isLoggedIn && !isAdmin
    {
      this.adminUserTypeID := adminUserTypeID;
      this.server := server;
      this.db := db;
      isLoggedIn, isAdmin := false, false;
    }

    /** ReconnectDB (handlers.go:130-150): a live handle is kept; otherwise
        the old pool is closed and replaced by ConnectDB's result (nil on
        error), whose error is returned. A nil handle makes PingContext
        panic, hence the requires. */
    method ReconnectDB(o: Oracles) returns (err: Option<Error>)
      requires db.Handle?
      modifies this`db
      ensures db == Reconnected(old(db), o)
      ensures err.None? <==> Reconnects(old(db), o)
      ensures err.Some? ==> err == Some(ConnectError) && db == NilHandle
      ensures PingSucceeds(old(db), o) ==> db == old(db)
      ensures !PingSucceeds(old(db), o) && o.connectOk ==> db == Handle(old(db).serial + 1, false)
    {
      if PingSucceeds(db, o) {
        return None;
      }
      var serial := db.serial;
      db := db.(closed := true);
      db := NilHandle;
      if !o.connectOk {
        return Some(ConnectError);
      }
      db := Handle(serial + 1, false);
      err := None;
    }

    /** IsLoggedIn (handlers.go:52-89). A session-store error answers false
        and writes nothing. A session claiming a login is checked against
        the users table, without reconnecting, and is never written. Any
        other session is normalised and saved (a save error is ignored). */
    method IsLoggedIn(r: Request, o: Oracles) returns (ok: bool)
      requires !r.sessionErr && ClaimsLogin(ReadClaims(r.session.values)) ==> db.Handle?
      modifies r.session
      ensures ok == (!r.sessionErr && QueriesSucceed(db, o) && Trusted(old(r.session.values), server.users))
      ensures r.sessionErr || ClaimsLogin(ReadClaims(old(r.session.values))) ==> unchanged(r.session)
      ensures !r.sessionErr && !ClaimsLogin(ReadClaims(old(r.session.values))) ==>
        && r.session.values == Normalized(old(r.session.values))
        && r.session.saves == old(r.session.saves) + 1
        && r.session.stored == (if o.saveOk then r.session.values else old(r.session.stored))
    {
      if r.sessionErr {
        return false;
      }
      var session := r.session;
      var c := ReadClaims(session.values);
      if ClaimsLogin(c) {
        ok := QueriesSucceed(db, o) && HasUserRow(server.users, c.userId.value, c.userTypeId.value);
        return;
      }
      session.values := Normalized(session.values);
      var _ := session.Save(o.saveOk);
      ok := false;
    }

    /** IsLoggedInAdmin (handlers.go:91-128): as IsLoggedIn, with the claimed
        user type compared to the admin type before any query; a mismatch
        takes the normalisation branch. */
    method IsLoggedInAdmin(r: Request, o: Oracles) returns (ok: bool)
      requires (!r.sessionErr && ClaimsLogin(ReadClaims(r.session.values))
                && ReadClaims(r.session.values).userTypeId.value == adminUserTypeID) ==> db.Handle?
      modifies r.session
      ensures ok == (!r.sessionErr && QueriesSucceed(db, o) && TrustedAdmin(old(r.session.values), server.users, adminUserTypeID))
      ensures var c := ReadClaims(old(r.session.values));
        r.sessionErr || (ClaimsLogin(c) && c.userTypeId.value == adminUserTypeID) ==> unchanged(r.session)
      ensures var c := ReadClaims(old(r.session.values));
        !r.sessionErr && !(ClaimsLogin(c) && c.userTypeId.value == adminUserTypeID) ==>
        && r.session.values == Normalized(old(r.session.values))
        && r.session.saves == old(r.session.saves) + 1
        && r.session.stored == (if o.saveOk then r.session.values else old(r.session.stored))
    {
      if r.sessionErr {
        return false;
      }
      var session := r.session;
      var c := ReadClaims(session.values);
      if ClaimsLogin(c) && c.userTypeId.value == adminUserTypeID {
        ok := QueriesSucceed(db, o) && HasUserRow(server.users, c.userId.value, c.userTypeId.value);
        return;
      }
      session.values := Normalized(session.values);
      var _ := session.Save(o.saveOk);
      ok := false;
    }

    /** WriteHTML (handlers.go:204-217): statuses outside [100, 600] become 200. */
    method WriteHTML(w: ResponseWriter, data: Body, httpStatus: int)
      modifies w
      ensures w.status == (if old(w.status) == 0 then ClampStatus(httpStatus) else old(w.status))
      ensures w.location == old(w.location) && w.body == old(w.body) + [data]
    {
      var httpStatus := httpStatus;
      if httpStatus < 100 || httpStatus > 600 {
        httpStatus := StatusOK;
      }
      w.WriteHeader(httpStatus);
      w.Write(data);
    }
  }
}
