# bitebuddy login and authorisation, modelled in Dafny

bitebuddy is a Go web back office for restaurants, users and reviews. This
project models the part of it with real behaviour: the one-time-password
(OTP) login, the session-based authorisation guard, and the table of
routes that decides which guard protects which page. Around that core it
also models the small helpers the login depends on:

- the OTP generator;
- the role-key prettifier and the restricted delete of user types;
- the lenient string conversions;
- the log-level naming;
- `~` expansion;
- the choice of configuration file.

One Dafny module per Go file:

| module | Go file | form |
|---|---|---|
| `Common` | — | `Option` |
| `StrConv` | pkg/utils/strconv.go | functions and lemmas |
| `Logs` | pkg/log/logs.go | functions and lemmas |
| `Security` | pkg/utils/security.go | method filling an `array` in a loop |
| `FileSystem` | pkg/utils/filesystem.go (`GetAbsolutePath`) | function and lemma |
| `Config` | pkg/utils/config.go (path choice) | method reassigning locals |
| `Handlers` | internal/handlers/handlers.go | classes `Database`, `Session`, `ResponseWriter`, `WebHandlers` |
| `Auth` | internal/handlers/auth.go | methods on those classes, lemmas on the lookup |
| `UserTypes` | internal/handlers/user_types.go | loop methods, reference functions, lemmas |
| `Routes` | internal/routes/routes.go | class `Router`, route table, dispatch lemmas |

## How the model is built

- **Stores are objects.**
  - A gorilla session is a `Session` object. Its `values` map holds session values tagged by their Go dynamic type, because `int` and `int64` are different there. It also records what the store last accepted (`stored`) and how many times `Save` was called.
  - The MySQL server is a `Database` object holding the users, user_types and otp_requests rows. Its invariant `Valid()` states the schema's keys:
    - unique user id;
    - unique e-mail, every user having one (no NULL e-mail, see "## Left out");
    - increasing user_type id;
    - unique `(user_id, otp_code, session_id)`.
  - `*sql.DB` is a `Handle` value in `WebHandlers.db`. ReconnectDB replaces it, and UserSendOTP closes it.
- **The outside world is a parameter.** Everything a request cannot control comes in as one `Oracles` value:
  - the clock;
  - the i-th `rand.Int` draw;
  - whether ping, connect, query, prepare and exec succeed;
  - whether the SMTP server accepts the message;
  - whether the template renders;
  - whether the session store accepts a save;
  - the configured `otp_length`, `DefaultOTPLength` and `delete_restricted_user_types`.
- **LoginHandler is modelled literally.**
  - Each return point is a `LoginExit`. The method's contract says, for every exit:
    - which inputs lead there;
    - the response;
    - the session after the request;
    - the handle after the request;
    - the otp_requests table after the request.
  - The code lookup keeps the query's `valid_till < now` test as written. Since `valid_till = requested_at + 33`, only a code older than its 33-second window can match. The model proves this consequence (`Auth.FreshCodeRejected`, `Auth.IssuedCodeRejectedWithinWindow`) rather than changing the test.
- **Routing is first match.** gorilla/mux is modelled as first match in registration order. A route matches when both its path matcher and its method list accept the request. A request whose method is not listed falls through to later routes and ends at the matcher-less route that `NewRoute()` appends last, so it gets the not-found handler.

Places where the code differs from what its comments or its surroundings suggest. The model follows the code:

- **Capitalisation.** The comment in `UserTypeNameToString` says the rest of each word is lower-cased; the code leaves it unchanged (`UserTypes.PrettyNameKeepsCase`).
- **The `prod` suffix.** In `ViperReadConfig` the `"prod"`/`"production"` test sits in the branch for an empty env, so it never fires (`Config.EnvSuffix`).
- **The filters delete route.** `/filters/delete` is registered with `FiltersHandler`, the list handler (`Routes.FiltersDeleteServedByList`).
- **Logout is registered twice.** The second registration is never reached (`Routes.SecondLogoutShadowed`).
- **The guard never heals `user_id`.** The `user_id` default written by the guard is the untyped constant `0`, which Go stores as an `int`. It therefore never passes the guard's `int64` assertion (`Handlers.NormalizedClaims`).
- **The restriction test is a substring test.** It checks the configured string, not a list of ids: an empty id is always refused, and `"1"` is refused when only `"12"` is configured (`UserTypes.ContainsEmpty`, `UserTypes.ContainsExamples`).
- **The delete ignores a parse error.** It uses the value `strconv.ParseInt` returns beside its error. An out-of-range id is clamped to the int64 bound, where `atoi64` would give 0 (`StrConv.ParseInt64ValueVersusAtoi64`).

## Model

| member | source | states |
|---|---|---|
| StrConv.ParseInt | pkg/utils/strconv.go:18 | the parse succeeds exactly when the input is a well-formed decimal whose value lies in the range of the requested bit size, and then returns that value |
| StrConv.Atoi64 | pkg/utils/strconv.go:17-23 | a well-formed input within int64 gives its decimal value; a malformed or out-of-range input gives 0 |
| StrConv.Atoui8 | pkg/utils/strconv.go:25-31 | a well-formed input in [-128, 127] gives its value modulo 256; a malformed or out-of-range input gives 0 |
| StrConv.DigitsValueLeadingZero | pkg/utils/strconv.go:18 | a leading zero does not change the value of a digit run |
| StrConv.DigitsParse | pkg/utils/strconv.go:18 | an unsigned digit run parses to its value |
| StrConv.LeadingZeroSpelling | pkg/utils/strconv.go:18 | leading zeros are accepted and parse to the same value |
| StrConv.PlusSpelling | pkg/utils/strconv.go:18 | an explicit "+" parses to the unsigned value |
| StrConv.MinusSpelling | pkg/utils/strconv.go:18 | a "-" parses to the negated value, so "-0" is zero |
| StrConv.Atoi64Spellings | pkg/utils/strconv.go:17-23 | atoi64 reads "ds", "0ds" and "+ds" as the same value and "-ds" as its negation, for any in-range digit run |
| StrConv.ParseDecimalFormatInt | pkg/utils/strconv.go:6 | the decimal grammar reads every integer's rendering back as that integer |
| StrConv.AtoiFormatRoundTrip | pkg/utils/strconv.go:5-23 | Atoi and atoi64 invert Itoa on every int64 |
| StrConv.AtoiOverflowIsZero | pkg/utils/strconv.go:6-9 | a well-formed number outside int64 gives 0, the same answer as "0" |
| StrConv.AtoiRejectsBlanks | pkg/utils/strconv.go:6-9 | the empty string, and any input with a leading or trailing blank, give 0 |
| StrConv.Atoui8OfFormatInt | pkg/utils/strconv.go:25-31 | values in [0, 127] come back unchanged, values in [-128, -1] come back plus 256, and values out of the int8 range give 0 |
| StrConv.Atoui8Examples | pkg/utils/strconv.go:25-31 | "-1" gives 255, "200" gives 0, "127" gives 127 |
| StrConv.Atob | pkg/utils/strconv.go:37-43 | true exactly when ParseBool accepts the input as true; false on every error |
| StrConv.AtobTrueSpellings | pkg/utils/strconv.go:37-43 | Atob is true on exactly "1", "t", "T", "TRUE", "true" and "True" |
| StrConv.AtobFormatBool | pkg/utils/strconv.go:37-43 | Atob inverts FormatBool |
| StrConv.ParseInt64Value | internal/handlers/user_types.go:220 | the value ParseInt returns beside its error always lies in the int64 range |
| StrConv.ParseInt64ValueVersusAtoi64 | internal/handlers/user_types.go:220 | discarding ParseInt's error agrees with atoi64 except on out-of-range numbers, which clamp to the nearer int64 bound instead of 0 |
| Logs.Classify | pkg/log/logs.go:39-54 | the name chosen is the highest severity whose threshold the level reaches, and no higher-ranked name's threshold is reached |
| Logs.CustomLogLevel | pkg/log/logs.go:20-58 | the time attribute becomes the empty attribute; the level attribute is renamed "sev" and carries its severity name; every other attribute is returned unchanged |
| Logs.ClassifyLevelOf | pkg/log/logs.go:39-54 | each named level constant gets its own name |
| Logs.ClassifyMonotone | pkg/log/logs.go:39-54 | a higher level never gets a lower-ranked name |
| Security.CharsetIsAlphaNumeric | pkg/utils/security.go:11 | the alphabet has 62 symbols, each an ASCII letter or digit |
| Security.CodeFromDraws | pkg/utils/security.go:13-18 | the code built from n successful draws has length n |
| Security.GenerateAlNumOTP | pkg/utils/security.go:10-21 | success happens exactly when every draw succeeds; then the code has the requested length, holds one alphabet symbol per draw in draw order, and is alphanumeric; a failed draw returns "" with the error of the first failing draw |
| FileSystem.GetAbsolutePath | pkg/utils/filesystem.go:243-259 | paths without "~" go to absolute-path resolution; a failed home lookup gives "" and its error; "~" gives the home directory; "~/rest" gives Join(home, rest); "~name" gives the home directory |
| FileSystem.TildeNameDiscardsRest | pkg/utils/filesystem.go:245-256 | whatever follows "~" (when it is not "/") is discarded: any two such paths expand alike |
| Config.EnvSuffix | pkg/utils/config.go:15-23 | a non-empty env gives "." + env, an empty env gives ".local", and the suffix is never empty |
| Config.ViperReadConfig | pkg/utils/config.go:14-86 | the process exits when home is needed and unknown, or when neither the working directory nor the executable's directory is known; otherwise it settles on the existing one of "<home>/.<app>.yaml" (or the given file) and "<dir>/configs/app<suffix>.yml", in that order of preference, loads it when it exists and the read succeeds, and reads nothing when it does not exist; it exits exactly in the two cases above or when the final file exists but cannot be read |
| Handlers.Normalized | internal/handlers/handlers.go:75-83 | the three claim keys become present and every other key keeps its value |
| Handlers.NormalizedClaims | internal/handlers/handlers.go:75-83 | well-typed claims are kept, missing ones get 0 and false, and user_id can never be repaired because its default is an int |
| Handlers.NormalizedIdempotent | internal/handlers/handlers.go:75-83 | normalising a normalised session changes nothing |
| Handlers.NormalizedLoginClaim | internal/handlers/handlers.go:63-83 | normalisation makes a session claim a login exactly when user_id held an int64, is_logged_in held true and user_type_id was missing or mistyped; the claim then names user type 0 |
| Handlers.NormalizedKeepsTypedClaims | internal/handlers/handlers.go:75-83 | a session whose three claims are well typed is left as it is |
| Handlers.Promote | internal/handlers/auth.go:262-264 | after a login the session carries an int64 user_id, an int user_type_id and is_logged_in = true, so it claims a login; other keys are kept |
| Handlers.LoggedOut | internal/handlers/auth.go:289-291 | exactly the three claim keys are removed and every other key keeps its value |
| Handlers.TrustedAdminIsTrusted | internal/handlers/handlers.go:102-110 | a session IsLoggedInAdmin trusts is also trusted by IsLoggedIn |
| Handlers.Reconnected | internal/handlers/handlers.go:130-150 | the handle left behind is usable exactly when the ping or the reconnect succeeds, is never a closed pool, and is the old handle when the ping succeeds |
| Handlers.Database.constructor | pkg/db/migrate.go:15-31 | a database built from unique users and id-ordered user types meets the schema's keys |
| Handlers.Database.InsertOtpRequest | pkg/db/migrate.go:120-129 | the insert succeeds exactly when the values fit their columns and the (user_id, otp_code, session_id) triple is new; it then appends one row stamped with the current time; the keys stay valid |
| Handlers.ClampStatus | internal/handlers/handlers.go:205-208 | the written status lies in [100, 600]; it equals the requested one exactly when that one is in range, and is 200 otherwise |
| Handlers.WebHandlers.ReconnectDB | internal/handlers/handlers.go:130-150 | a live handle is kept; otherwise the pool is replaced by a fresh connection, or by nil with the connect error |
| Handlers.WebHandlers.IsLoggedIn | internal/handlers/handlers.go:52-89 | true exactly when the session is readable, claims a login and the users table holds its (user_id, user_type_id); a claimed login is never written; any other readable session is normalised and saved once |
| Handlers.WebHandlers.IsLoggedInAdmin | internal/handlers/handlers.go:91-128 | as IsLoggedIn, and the claimed type must be the admin type, which is checked before any query; a mismatch normalises and saves |
| Handlers.WebHandlers.WriteHTML | internal/handlers/handlers.go:204-217 | writes the clamped status (unless a status was already written) and appends the page |
| Auth.UserByEmail | internal/handlers/auth.go:152-153 | a user found has that e-mail and is in the table; none is found only when no row has it |
| Auth.JoinUser | internal/handlers/auth.go:241 | the join keeps a user row exactly when it has that id and that e-mail |
| Auth.FindOtpSpec | internal/handlers/auth.go:241 | the lookup finds a row exactly when some otp_requests row meets the WHERE clause, and what it returns comes from such a row |
| Auth.FindOtpOnlyExpired | internal/handlers/auth.go:241 | any accepted code belongs to a row of this session whose 33-second window closed before now |
| Auth.MatchingRowUnique | pkg/db/migrate.go:128 | with unique users and unique triples, at most one row meets the WHERE clause |
| Auth.FreshCodeRejected | internal/handlers/auth.go:241 | a code whose row is still inside its 33-second window is rejected |
| Auth.WrongSessionRejected | internal/handlers/auth.go:241 | a code is never accepted for a session it was not issued to |
| Auth.PromotedSessionTrusted | internal/handlers/auth.go:259-264 | the session a successful lookup promotes passes IsLoggedIn's check against the same users table |
| Auth.IssuedCodeRejectedWithinWindow | internal/handlers/auth.go:190-257 | a code issued to a user is refused by every submission within 33 seconds of issue, whatever the form says |
| Auth.JoinFindsUser | internal/handlers/auth.go:241 | every user row is found by the join on its own id and e-mail |
| Auth.DeliveryMode | internal/handlers/auth.go:37-39 | an empty mode becomes "email" and any other mode is kept |
| Auth.UserSendOTP | internal/handlers/auth.go:35-100 | steps run in order (generate, reconnect, prepare, mode switch) and the first failure is returned with no later step taken; "email" inserts the row (user, code, "email", session) before mailing, so a send failure leaves it stored; "sms", "both" and "combined" insert nothing and close the handle; other modes return "unknown OTP sending mode"; the code mailed is the code stored |
| Auth.RenderLogin | internal/handlers/auth.go:126-132 | the page is written with the requested status, or 500 with the template error |
| Auth.OtpLength | internal/handlers/auth.go:177-186 | the configured length if positive, else the default |
| Auth.IssueCode | internal/handlers/auth.go:190-215 | a stored and mailed code re-renders the page with 401 and the e-mail filled in; the new row belongs to this user and this session; a failure answers 500 |
| Auth.CheckCode | internal/handlers/auth.go:220-279 | a short code gets "Illegal credentials" with no lookup; an unmatched one gets "Invalid Credentials"; a match promotes the session so it passes the guard, and redirects to "/" only if the save succeeds; the session is untouched otherwise |
| Auth.LoginWithUser | internal/handlers/auth.go:174-279 | an empty code issues a new one; a non-empty code follows CheckCode; the handle and the table change only when a code is issued |
| Auth.LoginPost | internal/handlers/auth.go:139-279 | a failed reconnect answers 500; an unknown e-mail gets "Invalid email" with 401 and changes neither session nor table; otherwise as LoginWithUser |
| Auth.LoginHandler | internal/handlers/auth.go:103-280 | the exit taken, for every input, in the source's order of checks; the response of each exit; no session key is written before a successful lookup except by the guard's normalisation; after one, the promoted session passes the guard and is saved once more, and the store then holds it if that save succeeds and otherwise keeps what it held |
| Auth.LogoutHandler | internal/handlers/auth.go:283-302 | exactly the three claim keys are deleted and the session is saved; the response redirects to /login, or answers 500 when a read or save fails, and a read error does not stop the delete |
| Auth.LoggedOutNotTrusted | internal/handlers/auth.go:289-291 | after logout neither guard trusts the session, whatever the users table |
| Auth.RequireAuth | internal/handlers/auth.go:305-314 | the wrapped handler runs exactly when IsLoggedIn holds; otherwise the response redirects to /login |
| Auth.RequireAdmin | internal/handlers/auth.go:317-332 | the wrapped handler runs exactly when IsLoggedInAdmin holds; a session IsLoggedIn refuses is redirected to /login, with IsLoggedIn's session effect (unchanged, or normalised and saved once); a logged-in non-admin gets 401 "Unauthorized: Admins only"; a logged-in session keeps its values and is saved once more exactly when its claimed type is not the admin type |
| UserTypes.TrimLeftStrips | internal/handlers/user_types.go:23 | the left trim drops exactly a leading run of underscores |
| UserTypes.TrimRightStrips | internal/handlers/user_types.go:23 | the right trim drops exactly a trailing run of underscores |
| UserTypes.TrimStrips | internal/handlers/user_types.go:23 | Trim returns a slice of the input with only underscores around it, and the slice neither starts nor ends with one |
| UserTypes.Split | internal/handlers/user_types.go:26 | Split always gives at least one piece, so the empty key still yields one empty word |
| UserTypes.SplitCons | internal/handlers/user_types.go:26 | an underscore starts a new piece; any other character joins the first piece of the rest |
| UserTypes.SplitPiecesHaveNoUnderscore | internal/handlers/user_types.go:26 | no piece contains the separator "_" |
| UserTypes.SplitJoinRoundTrip | internal/handlers/user_types.go:26 | joining the pieces with "_" gives back the input |
| UserTypes.SplitAppend | internal/handlers/user_types.go:26 | splitting around an underscore splits each side |
| UserTypes.CapitalizedWords | internal/handlers/user_types.go:29-36 | the loop keeps no empty word |
| UserTypes.CapitalizedWordsAppend | internal/handlers/user_types.go:29-36 | the loop treats a concatenation piece by piece |
| UserTypes.TrimKeepsWords | internal/handlers/user_types.go:23-30 | trimming removes only pieces that the loop skips anyway |
| UserTypes.WordsAround | internal/handlers/user_types.go:26-36 | an underscore separates the words of both sides |
| UserTypes.UnderscoreRunsCollapse | internal/handlers/user_types.go:26-30 | a run of underscores separates words like a single one |
| UserTypes.UserTypeNameToString | internal/handlers/user_types.go:21-40 | the loop computes the display name: the words of the trimmed key, each with its first rune upper-cased, joined by single spaces |
| UserTypes.PrettyNameHasNoUnderscore | internal/handlers/user_types.go:39 | the display name never contains "_" |
| UserTypes.PrettyNameEmptyIff | internal/handlers/user_types.go:21-40 | the display name is empty exactly for the empty and the all-underscore keys |
| UserTypes.PrettyNameOneWord | internal/handlers/user_types.go:21-40 | "__word__" becomes the word with its first rune upper-cased |
| UserTypes.PrettyNameTwoWords | internal/handlers/user_types.go:21-40 | "__a_b__" becomes the two capitalised words separated by a space |
| UserTypes.PrettyNameSeededKeys | pkg/db/seed.go:14 | the seeded keys give "Superadmin", "Admin" and "Customer" |
| UserTypes.PrettyNameRestaurantOwner | pkg/db/seed.go:14 | "__restaurant_owner__" gives "Restaurant Owner" |
| UserTypes.PrettyNameKeepsCase | internal/handlers/user_types.go:31-34 | the rest of each word is not lower-cased: "__ADMIN__" gives "ADMIN" |
| UserTypes.GetUserTypes | internal/handlers/user_types.go:73-106 | after reconnecting, it fails exactly when the reconnect or the query fails, and then returns the one zero placeholder; otherwise it returns one entry per row, in increasing id order, whose name is the row key's display name |
| UserTypes.ContainsEmpty | internal/handlers/user_types.go:216 | every configured string contains the empty id, so an empty id is always refused |
| UserTypes.ContainsExamples | internal/handlers/user_types.go:216 | the test is on substrings: "1,2" contains "1", "2" and ",", but not "12" |
| UserTypes.WithoutType | pkg/db/migrate.go:15-18 | the delete keeps exactly the user types with other ids, in increasing id order |
| UserTypes.WithoutUsersOfType | pkg/db/migrate.go:30 | the cascade keeps exactly the users of other types, and user id and e-mail stay unique |
| UserTypes.UserTypesDeleteHandler | internal/handlers/user_types.go:208-240 | a non-POST gets 405 "Invalid method"; an id contained in the configured string gets 409 and nothing is deleted; otherwise, when prepare and exec succeed, the type and its users are deleted and the response redirects to /user_types; on failure nothing changes and the response is 500 |
| Routes.Dispatch | internal/routes/routes.go:11-108 | the route chosen is in the table and matches the request; none is chosen exactly when no route matches |
| Routes.DispatchIsFirstMatch | internal/routes/routes.go:11-108 | the first matching route serves the request |
| Routes.DispatchAppend | internal/routes/routes.go:11-108 | routes registered later are consulted only when no earlier route matches |
| Routes.DuplicateShadowed | internal/routes/routes.go:101 | dropping a later copy of an earlier route changes no dispatch |
| Routes.Router.Handle | internal/routes/routes.go:29 | each registration appends one route at the end |
| Routes.Router.NewRoute | internal/routes/routes.go:105 | a matcher-less route is appended and its handler returned |
| Routes.RegisterCrud | internal/routes/routes.go:38-42 | an entity block appends its list, new, edit and delete routes |
| Routes.RegisterEntities | internal/routes/routes.go:37-98 | the nine entity blocks are appended in source order |
| Routes.RegisterBlocks | internal/routes/routes.go:37-98 | three consecutive entity blocks extend the registered prefix of the entity list by three |
| Routes.RegisterHead | internal/routes/routes.go:26-35 | an empty router receives the static, login, logout and dashboard routes, in that order |
| Routes.RegisterTail | internal/routes/routes.go:101-105 | the second logout route and the catch-all are appended, and the catch-all's handler becomes NotFoundHandler |
| Routes.SetupRoutes | internal/routes/routes.go:11-108 | the router holds exactly the table: static, login, logout, dashboard, the nine entity blocks, logout again, the catch-all; NotFoundHandler is set |
| Routes.EntityPathInjective | internal/routes/routes.go:37-98 | distinct entity routes have distinct paths |
| Routes.CrudRoutesMiss | internal/routes/routes.go:37-98 | no other entity's block serves an entity path |
| Routes.CrudRoutesHit | internal/routes/routes.go:37-98 | an entity path is served by its own route when the method is one it lists |
| Routes.HeadMisses | internal/routes/routes.go:26-35 | the public routes and the dashboard serve no entity path |
| Routes.EntityRouteDispatch | internal/routes/routes.go:37-98 | in the whole table, an entity path reaches its own route when the method is listed, and the catch-all otherwise |
| Routes.ListRoutesRequireAuth | internal/routes/routes.go:38 | each of the nine list pages is served to GET behind RequireAuth, and nothing else reaches it |
| Routes.AdminRoutesRequireAdmin | internal/routes/routes.go:40-98 | every /new, /edit and /delete path is served behind RequireAdmin; /delete accepts only POST, /new and /edit accept GET and POST, and any other method reaches the catch-all |
| Routes.FiltersDeleteServedByList | internal/routes/routes.go:91 | POST /filters/delete reaches the filters list handler, never a delete handler |
| Routes.PublicRoutes | internal/routes/routes.go:26-30 | /static/… is served unguarded for any method; /login for GET and POST; /logout for GET |
| Routes.UnmatchedReachNotFound | internal/routes/routes.go:105 | every request is served, and a request no registered route matches gets NotFound |
| Routes.ServedRoutesGuarded | internal/routes/routes.go:11-108 | whatever serves a request carries a fitting guard: new, edit and delete handlers are admin-only, and only static, login, logout and not-found are unguarded |
| Routes.SecondLogoutShadowed | internal/routes/routes.go:101 | the second /logout registration changes no dispatch |

## Left out

- StrConv.Atoi: modelled for a 64-bit target, where Go's `int` has 64 bits and `strconv.Atoi` behaves as `atoi64`; on a 32-bit build it would give 0 outside the int32 range instead.
- Handlers.Database.InsertOtpRequest: the row's `requested_at` is stamped with the same clock value `o.now` that the lookup later compares against. In the source, `requested_at` (and so `valid_till`) comes from MySQL's `CURRENT_TIMESTAMP`, and the lookup bound comes from Go's `time.Now().Unix()`. The model treats the database clock and the application clock as one clock. `Auth.FreshCodeRejected` and `Auth.IssuedCodeRejectedWithinWindow` hold only under that assumption: a database clock more than 33 seconds behind the application clock would let a fresh code through.
- **NULL e-mails.** `users.email` is a nullable UNIQUE column (pkg/db/migrate.go:23), so SQL admits several users without an e-mail. The model gives every user an e-mail string and keeps these pairwise distinct, so it has no NULL e-mail.
- **The nil handle.** After a failed reconnect `wh.db` is nil, and the next `Ping`, `QueryRow` or `Prepare` on it panics in Go. The methods that use the handle require a non-nil one instead of modelling the panic.
- **Collation and lengths.**
  - MySQL's comparison rules (`utf8mb4_bin` with PAD SPACE) are left out; e-mails and codes are compared exactly.
  - String lengths are counted in characters, not in UTF-8 bytes.
- **Unicode.** `unicode.ToUpper` is modelled on ASCII letters only; other runes are kept as they are.
- **Infrastructure.** Everything below comes in as oracle outcomes:
  - minting session ids and cookies;
  - the SMTP dialogue and the message text;
  - the templates;
  - concurrency between requests.
- **External constants.** `DefaultOTPLength` and `APP_NAME` are defined in files that are not part of this model. `DefaultOTPLength` is a parameter assumed positive; `APP_NAME` appears only in the e-mail text.
- **One outcome per request.** A request sees a single `queryOk` and `saveOk` for all its queries and saves.
- **Response details.**
  - Headers other than Location are not modelled.
  - The body http.Redirect writes is not modelled.
  - `http.Error` messages that come from library errors are fixed placeholders (`Handlers.ErrorMessage`).
- **Handlers.WebHandlers.IsLoggedIn:** the session-store read error is a per-request flag. A cookie store that answers a different session on a second `Get` is not modelled.
- **UserTypes.GetUserTypes:** `Scan` errors and `rows.Err()` are not modelled. The two columns are NOT NULL and typed, so a scan cannot fail on a valid table.
- **UserTypes.UserTypesDeleteHandler:** only the cascade to users is modelled. Other foreign keys that reach users (reviews and others) are left out.
- **Logging.** Debug and error logging, `LoggerMiddleware`, and viper's read and watch side effects are left out.
- **Routing details.**
  - gorilla/mux's 405 answer for a path that matches with another method is not modelled. With a catch-all route registered last, such requests reach NotFound.
  - Path cleaning, redirects for trailing slashes and the static file server are left out.
- **Other handlers and code.**
  - The CRUD handlers of the other entities, and the insert and update handlers of user types, only pass form values into SQL.
  - Migrations, seeding and the CLI are left out, except for the schema facts and seeded keys cited above.
  - Everything in pkg/utils/filesystem.go except `GetAbsolutePath` is left out.
