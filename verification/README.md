# Gate-access dashboard: a Dafny model of its client-side logic

The dashboard is the React front end of a campus gate-access system. Members
carry a personal QR code, gates carry a gate QR code, and security staff run
scanner screens that post entries and exits to a backend. The front end
itself holds no persistent logic. It is a set of small pure functions and
state transitions inside its components. This project models those pieces
as immutable datatypes and pure Dafny functions, and proves what each one
promises:

- **Gate QR reading** (`GateQr`, `GateScan`, `JsonText`). The three
  interpretations of a scanned gate code are a JSON object, a URL query and
  a plain token. The model also covers the decode callback, the guarded
  submission of an entry or exit, and how the gate page's QR text reads
  back.
- **User QR reading** (`UserQr`, `UserScan`). This covers the
  word-bounded UUID search, its URL and JSON fallbacks, the submission body
  of the staff scanner, and the first-read debounce flag. A camera session
  submits the form captured by the render that started it; the session
  started on mount therefore never sends (see "## Findings").
- **Live alerts** (`Alerts`). This covers the connection flag and the
  newest-first buffer of at most fifty `scan_alert` events.
- **Registration and profile forms** (`Registration`, `Profile`). This
  covers the role-dependent requirements, the ordered checks where the first
  failure wins, and the payloads with their role-dependent nulls.
- **Session** (`Auth`). Boot, init, login, registration, profile update
  and logout are transitions over token, user, stored token and default
  header. Each backend answer is an input.
- **Lists and display helpers** (`Listing`, `Gates`, `Logs`, `Users`,
  `Vehicles`, `Dashboard`, `Layout`, `Badges`). This covers the
  order-preserving filters, badge colours and initials, the security-role
  check, the side bar, and test ids.
- **Service worker** (`ServiceWorker`). This covers the loopback-host
  pattern and the guards before registration.

`JSON.parse` and `new URL(..).searchParams` are not re-implemented. They are
parameters of the extraction functions (`JsValue.JsonParser`,
`JsValue.UrlParser`). These are arbitrary functions from the text to a parsed
JSON value or a query, with `None` standing for a thrown exception. Every
property below holds for every such parser. JavaScript truthiness, `||`
chains, `String(..)` and `trim()` on top of the parsers are modelled in
`JsValue` and `JsText`. `String(..)` of a parsed value throws when the value
is an object with its own `toString` member, or an array holding one
(`JsValue.Convertible`); the QR readings catch that and move on to the next
interpretation, and the staff scanner shows the TypeError's message. The
trim uses the full ECMAScript white-space and line-terminator set.
Plain-token lengths are counted in UTF-16 code units.

A gate QR whose JSON `gate_id` is white space only is still read as JSON: the
non-empty string is truthy, so the JSON reading applies and returns an empty
`gate_id` (`GateQr.BlankJsonIdGivesEmptyGate`). The scan screen then keeps
its previous gate (`GateScan.OnGateDecode`, `Gates.BlankGateIdIsNotAdopted`).

## Model

| member | source | states |
|---|---|---|
| `JsValue.ToJsString` | src/pages/Scan.js:27-28 | `String(v)` throws exactly when `v` is an object with its own `toString` member or an array holding one at any depth. A string converts to itself, and any other object to `[object Object]` |
| `GateQr.TrimmedOrEmpty` | src/pages/Scan.js:28 | a falsy member gives the empty string. A truthy one gives its string form trimmed (a string member, itself trimmed), or throws exactly when that conversion throws |
| `GateQr.FromJson` | src/pages/Scan.js:22-33 | the JSON reading applies exactly when the text parses to a non-null value with a truthy `gate_id`, `gateId` or `id` (first truthy wins) and neither that id nor a truthy `location` throws on conversion. The id is the id's string form, trimmed. The location is the trimmed `location` member, or empty |
| `GateQr.FromUrl` | src/pages/Scan.js:36-47 | the URL reading applies exactly when the text parses as a URL whose `gate_id`, `gateId` or `id` parameter is non-empty. It yields that value trimmed, with the trimmed `location` parameter or empty |
| `GateQr.FromPlain` | src/pages/Scan.js:50-54 | the trimmed text is taken as a gate id with no location exactly when it is 2 to 64 code units long |
| `GateQr.ExtractGatePayload` | src/pages/Scan.js:17-55 | empty input gives null. The JSON reading beats the URL reading, which beats the plain token; a JSON reading whose conversion throws does not apply. Every payload has both fields trimmed. An empty gate id can only come from the JSON or URL reading |
| `GateQr.JsonGateIdWins` | src/pages/Scan.js:22-33 | a JSON object with a non-empty string `gate_id` is read through that member, whatever the URL parser says and whatever the text's length, unless converting its `location` throws. Then the URL reading or the plain token is used |
| `GateQr.ThrowingLocationFallsThrough` | src/pages/Scan.js:22-52 | a JSON object with a string `gate_id` and a `location` object with its own `toString`, not readable as a URL, is taken whole as a plain token when 2 to 64 code units long |
| `GateQr.UrlGateIdBeatsPlainToken` | src/pages/Scan.js:36-44 | when the JSON reading does not apply, a URL with a non-empty `gate_id` parameter is read through it and never as a plain token |
| `GateQr.BlankJsonIdGivesEmptyGate` | src/pages/Scan.js:25-29 | a white-space-only JSON id is truthy, so extraction returns an empty gate id instead of falling through |
| `GateQr.NoInterpretationOutsideTokenLengths` | src/pages/Scan.js:50-54 | text that neither parser can use is rejected when shorter than 2 or longer than 64 code units |
| `GateScan.OnGateDecode` | src/pages/Scan.js:99-106 | a decode after teardown changes nothing. Otherwise the raw text is always recorded, and the payload is replaced only by one with a non-empty gate id, so a scanned gate is never lost. Purpose, vehicle number and busy flag are untouched |
| `GateScan.ResponseData` | src/pages/Scan.js:161 | a body that is not JSON is read as the empty object, any other body as itself |
| `GateScan.FailureMessage` | src/pages/Scan.js:163 | a rejection reports the server's truthy `detail`, else `Scan failed (status)` with the decimal status |
| `GateScan.StartScan` | src/pages/Scan.js:135-159 | a missing backend URL, then a missing gate, is reported and changes nothing. Otherwise the form becomes busy and the request goes to `/api/scan` with `Bearer <token>` (`null` without a token) and the scanned gate's body |
| `GateScan.FinishScan` | src/pages/Scan.js:161-172 | busy ends false on every outcome and the scanned gate stays. A failed request escapes silently. A rejection reports the detail or status and keeps the fields. An accepted scan reports `Logged ...` and clears purpose and vehicle number, unless the body is null or its members cannot be interpolated, which escapes |
| `GateScan.SubmitScan` | src/pages/Scan.js:135-173 | without a backend URL or a scanned gate, nothing is sent and nothing changes. Otherwise the request carries the bearer token, the scanned gate, its location or null, and the trimmed purpose and vehicle number or null. Busy ends false. The scanned payload is never touched. A rejection reports the detail or status and keeps the fields. Only an accepted scan clears purpose and vehicle number, and it reports the logged status and gate |
| `GateScan.ClickLogButton` | src/pages/Scan.js:219 | a disabled button (busy, or no gate) does nothing. An enabled one starts the submission, and a request sent leaves the form busy |
| `GateScan.OneRequestInFlight` | src/pages/Scan.js:145-172 | once a click has sent a request, further clicks send nothing and change nothing until it settles; after any outcome the button is enabled again for the same gate |
| `GateScan.PrintedGateIsLogged` | src/pages/Scan.js:99-159 | a QR printed on the gate page for a non-blank id, decoded and logged, sends that gate's trimmed id and trimmed location with the session's bearer token |
| `GateScan.AcceptedScanScenario` | src/pages/Scan.js:167-169 | an accepted scan answered with status `IN` at gate `G2` reports `Logged IN at G2` and clears the optional fields |
| `GateScan.RejectedScanScenario` | src/pages/Scan.js:162-165 | a 409 with detail `Gate inactive` reports that detail and keeps the form apart from the busy flag |
| `GateScan.RejectionWithoutDetailShowsStatus` | src/pages/Scan.js:163 | a 500 whose body is not JSON reports `Scan failed (500)` |
| `UserQr.FindUuidFrom` | src/pages/Scan.jsx:14-15 | the result is the leftmost offset, at or after the start, where the word-bounded UUID pattern matches. There is none exactly when no offset matches |
| `UserQr.MatchUuid` | src/pages/Scan.jsx:14-16 | null exactly when the pattern matches nowhere. Otherwise the result is the 36-character substring at the leftmost match, casing kept, with dashes at 8, 13, 18 and 23 and hex digits elsewhere |
| `UserQr.FromUrl` | src/pages/Scan.jsx:19-25 | the URL reading yields a UUID exactly when the first non-empty of `user_id` and `uid` contains one, and then the leftmost one in it |
| `UserQr.FromJson` | src/pages/Scan.jsx:28-34 | the JSON reading yields a UUID exactly when a non-null parsed value has a truthy `user_id`, `uid` or `id` (first truthy wins) whose string form does not throw and contains one, and then the leftmost one in it |
| `UserQr.ExtractUserId` | src/pages/Scan.jsx:9-37 | empty input gives null. Any result has the UUID shape. A UUID in the text itself wins, then the URL reading, then the JSON reading |
| `UserQr.ThrowingJsonIdGivesNull` | src/pages/Scan.jsx:28-36 | when only the JSON reading is left and its id cannot be converted to a string, no id is found |
| `UserQr.EmbeddedUuidFound` | src/pages/Scan.jsx:14-16 | when the pattern matches anywhere in the trimmed text, that text's leftmost match is the result and neither parser matters |
| `UserQr.GluedUuidRejected` | src/pages/Scan.jsx:14 | hex digits glued to a word character on either side are not a match |
| `UserScan.BackendBase` | src/pages/Scan.jsx:41 | one trailing slash is dropped, so appending it gives back the setting; a setting without one is kept |
| `UserScan.ErrorText` | src/pages/Scan.jsx:101 | the shown error is never empty, and is the exception's message when it has one |
| `UserScan.ScanLocation` | src/pages/Scan.jsx:78 | the location sent is trimmed. Whatever was typed is sent trimmed, so a white-space-only location is sent empty; `Gate <trimmed gate id>` is sent when nothing was typed |
| `UserScan.InitialUserScan` | src/pages/Scan.jsx:43-53 | the screen mounts idle with an empty form, and the camera session started on mount captures exactly that empty form with the token of the first render |
| `UserScan.StartCall` | src/pages/Scan.jsx:66-90 | reading the inputs of the render it belongs to: a blank gate id is reported before a missing user id; either leaves the screen idle with only that error and sends nothing. Otherwise the messages are cleared, the screen is busy, and the request carries the id, that render's trimmed gate id, the derived location, trimmed purpose and vehicle number or null, and its auth header |
| `UserScan.FinishCall` | src/pages/Scan.jsx:92-104 | busy ends false and the typed inputs stay. A failed request shows its message. A rejection shows the detail or `Scan failed (status)`, or the TypeError's message when that cannot be converted. An accepted scan records the status and reports `Logged: <status> for user <id>`, or the TypeError's message when the status cannot be converted |
| `UserScan.CallScan` | src/pages/Scan.jsx:66-105 | a blank gate id is reported before a missing user id, and neither sends anything. A request is sent exactly when both are present, with the trimmed gate id, the derived location, and purpose and vehicle number trimmed or null, all from the inputs of the render it belongs to. The auth header is `Bearer <token>` exactly with a non-empty token of that render. Busy ends false, exactly one of error and success text is set, and the typed inputs on screen are untouched. The error and success texts are those of the outcome, as for `FinishCall` |
| `UserScan.RejectionShowsDetail` | src/pages/Scan.jsx:93-101 | a rejection carrying a non-empty string `detail` shows exactly that text |
| `UserScan.OnUserDecode` | src/pages/Scan.jsx:128-144 | once stopped, a read changes nothing. The first read always sets the flag and records the raw text and the extracted id. A found id has the UUID shape and is handed on; a miss shows the parse error |
| `UserScan.Retry` | src/pages/Scan.jsx:162-206 | while busy the button is disabled (`canRetry`, used at line 251) and nothing changes. Otherwise it re-arms the scanner, clears the messages and the last read, keeps the typed gate, location, purpose and vehicle number, and the new camera session captures the form and token as they are at the click |
| `UserScan.StoppedRunIgnored` | src/pages/Scan.jsx:129-131 | once the stop flag is set, any run of reads changes nothing and submits nothing |
| `UserScan.AtMostOneSubmissionPerSession` | src/pages/Scan.jsx:128-144 | any run of reads in one camera session submits at most one id, and that id is whatever the first read extracted |
| `UserScan.ReadAndSubmit` | src/pages/Scan.jsx:128-144 | a read hands its id to the `callScan` of the render that started the session. A request is sent exactly when the session is not stopped, an id is read and the captured gate id is not blank, and it carries that id with the captured gate, location, purpose, vehicle number and token, never the ones on screen. A read id with a blank captured gate is reported as a missing gate id |
| `UserScan.MountSessionNeverSends` | src/pages/Scan.jsx:107-160 | the session started on mount never sends a scan, whatever gate id was typed since; a read id is reported as a missing gate id |
| `UserScan.ReadAndSubmitLive` | src/pages/Scan.jsx:128-144 | as intended: a request is sent exactly when the session is not stopped, an id is read and the gate id on screen is not blank, with the gate, location and token current at read time |
| `UserScan.LiveReadIsSubmitted` | src/pages/Scan.jsx:128-141 | as intended: a first read that yields an id, with a gate typed, sends exactly that id for the trimmed gate, and the screen shows the same id |
| `UserScan.LiveAgreesWhenFormUnchanged` | src/pages/Scan.jsx:128-144 | the code as written and the intended callback agree whenever the captured form and token are the ones on screen |
| `UserScan.ReadIsSubmitted` | src/pages/Scan.jsx:128-141 | a first read that yields an id, in a session that captured a gate id, sends exactly that id for the trimmed captured gate, and the screen shows the same id |
| `UserScan.RetryRearms` | src/pages/Scan.jsx:164-206 | after "Scan Next" on an idle screen the next session submits the id of its first read, if it has one, and nothing else, and sends it with the gate id typed at the click |
| `Alerts.InitialSocket` | src/contexts/SocketContext.js:18-19 | the feed starts disconnected with an empty buffer |
| `Alerts.OnConnect` | src/contexts/SocketContext.js:29-32 | connecting sets the flag and leaves the buffer as it was |
| `Alerts.OnDisconnect` | src/contexts/SocketContext.js:34-37 | disconnecting clears the flag and leaves the buffer as it was |
| `Alerts.OnScanAlert` | src/contexts/SocketContext.js:41 | the new alert is first and the length is the old length plus one, capped at 50. Below the cap nothing is dropped. At the cap only the oldest entry goes and the rest keep their order |
| `Alerts.Reverse` | src/contexts/SocketContext.js:41 | the reference order of the buffer: position k holds the k-th most recent arrival |
| `Alerts.ReceiveAllKeepsNewest` | src/contexts/SocketContext.js:39-42 | after any run of arrivals the buffer is the arrivals newest first, followed by the earlier contents, cut to 50. Eviction follows arrival order alone |
| `Alerts.FromEmptyKeepsLastFifty` | src/contexts/SocketContext.js:41 | from the empty buffer, k arrivals leave the last min(k, 50) of them in reverse arrival order |
| `Alerts.FirstEvictedAfterFiftyOne` | src/contexts/SocketContext.js:41 | after more than fifty arrivals the first one is gone unless it arrived again |
| `Registration.InitialRegisterForm` | src/pages/Register.js:26-48 | every field starts empty except the role, which starts as Student |
| `Registration.RequirementsPartitionRoles` | src/pages/Register.js:50-59 | every role needs exactly one of roll number, employee id or visitor details. Roll number is needed exactly for students and visitor details exactly for visitors. Designation is only asked of someone who needs an employee id. Phone is required exactly of visitors |
| `Registration.FirstFailureFrom` | src/pages/Register.js:70-87 | none exactly when every check from the position on holds; otherwise a failing check before which all checks hold |
| `Registration.ValidateRegistration` | src/pages/Register.js:70-87 | no error exactly when all eleven checks hold. Otherwise the error is the message of a failing check preceded only by passing checks, so the first failure wins |
| `Registration.ValidFormIsComplete` | src/pages/Register.js:70-87 | a form with no error has a name, a password, a 12-digit Aadhaar number and a vehicle number. It also has its role's fields: a visitor's phone, purpose, host name and host department; a student's roll number; everyone else's employee id; a professor's designation; a non-visitor's institute id or phone |
| `Registration.NullIfEmpty` | src/pages/Register.js:92 | null exactly for the empty string; any other string passes through unchanged, spaces included |
| `Registration.PayloadValue` | src/pages/Register.js:89-111 | name, role, password and Aadhaar go as typed. Optional fields map empty to null and pass anything else untrimmed. The roll number is non-null exactly for students. The employee id is null exactly for students and visitors |
| `Registration.RegisterPayload` | src/pages/Register.js:89-111 | the payload carries every field, each with its per-field value |
| `Registration.SubmitRegistration` | src/pages/Register.js:63-113 | the form is rejected exactly when some check fails, with the message of the first failing check in source order, and then nothing is sent. Otherwise the payload is sent |
| `Registration.SentPayloadMeetsRequirements` | src/pages/Register.js:70-111 | whatever is sent carries a non-blank vehicle number, a visitor's non-blank phone, and the non-blank roll number or employee id its role requires |
| `Registration.BlankNameReportedFirst` | src/pages/Register.js:70 | a blank name is the error reported, whatever else is missing |
| `Registration.BlankFormReportsName` | src/pages/Register.js:26-70 | submitting the untouched form reports the missing name |
| `Profile.InitialProfileForm` | src/pages/Profile.js:14-37 | every field the user lacks, or holds falsy, starts as the empty string; other fields keep the user's value. Both password fields start empty |
| `Profile.RoleFlagsExclusive` | src/pages/Profile.js:41-44 | at most one of the student, employee-like and visitor flags holds, and a role outside the five known ones sets none |
| `Profile.PayloadValue` | src/pages/Profile.js:51-70 | the name is sent as typed, and shared fields as the value or null. A role-specific field is null unless the role shows its group, and is then the value or null |
| `Profile.ProfilePayload` | src/pages/Profile.js:50-75 | every editable field is sent with its per-field value. The two password fields are added exactly when a new password was typed, the current one as value or null and the new one as typed. Nothing else is sent |
| `Profile.PayloadRespectsRole` | src/pages/Profile.js:51-70 | role and institute id are never sent, and a student-only, employee-only or visitor-only field is non-null only for a role that shows it |
| `Profile.ClearPasswords` | src/pages/Profile.js:80 | both passwords become empty and every other field is unchanged |
| `Profile.AfterUpdate` | src/pages/Profile.js:77-84 | a success clears only the passwords and reports saved. A failure keeps the form and reports the returned error |
| `Profile.SavedFormResendsWithoutPasswords` | src/pages/Profile.js:72-80 | after a successful save, saving again sends the same editable values and no password fields |
| `Profile.UntouchedFormSendsNoPassword` | src/pages/Profile.js:72-75 | saving the form as first opened sends exactly the editable fields |
| `Auth.Boot` | src/contexts/AuthContext.js:18-20 | the provider mounts with the stored token, no user and no header, still loading |
| `Auth.ErrorOf` | src/contexts/AuthContext.js:57 | the reported error is the server's truthy detail, else the fallback text |
| `Auth.Init` | src/contexts/AuthContext.js:22-40 | loading ends false on every path. Without a truthy token nothing else changes. An accepted token loads the user and sets the header. A rejected token is dropped from state, storage and header. Coherence is kept |
| `Auth.SignIn` | src/contexts/AuthContext.js:42-60 | success sets token, stored token, user and header from the answer. A failure changes nothing and reports detail or fallback. Coherence is kept |
| `Auth.Login` | src/contexts/AuthContext.js:42-60 | a failed login changes nothing and reports detail or `Login failed`. A successful one stores the returned token |
| `Auth.Register` | src/contexts/AuthContext.js:62-80 | the same transition as login, with fallback `Registration failed` |
| `Auth.UpdateProfile` | src/contexts/AuthContext.js:82-94 | token, stored token, header and loading are never touched. Success replaces the user. Failure changes nothing and reports detail or `Profile update failed` |
| `Auth.Logout` | src/contexts/AuthContext.js:96-101 | token, user, stored token and header are all cleared, leaving an unauthenticated, coherent session |
| `Auth.LogoutIdempotent` | src/contexts/AuthContext.js:96-101 | logging out twice is logging out once |
| `Auth.CoherentThroughout` | src/contexts/AuthContext.js:17-104 | a mounted session is coherent (stored token equals token, header is the bearer of the token), and every transition keeps it so |
| `Listing.KeepCounts` | src/pages/Logs.js:43-53 | `filter` keeps each matching element as often as it occurs and drops every other one |
| `Gates.FilterGates` | src/pages/Gates.js:57-68 | an empty term keeps every gate. Otherwise a gate is kept exactly when the term occurs, ignoring case, in its id, name or location, as many times as it occurs. The result keeps the original order |
| `Gates.FilterGatesIdempotent` | src/pages/Gates.js:57-68 | searching the result again for the same term changes nothing |
| `Gates.QrData` | src/pages/Gates.js:135-138 | the QR text is a JSON object text, braces at both ends |
| `Gates.QrDataIsTrimmed` | src/pages/Gates.js:135-138 | the QR text has nothing for the scanner's trim to remove |
| `Gates.QrRoundTrip` | src/pages/Gates.js:135-138 | for a non-empty gate id, scanning the printed QR on the gate scan screen gives back the gate's trimmed id and trimmed location, provided the JSON parser reads the text as the object it encodes |
| `Gates.QrFieldsReadBack` | src/pages/Gates.js:135-138 | the gate id and location written into the QR text read back unchanged as JSON strings |
| `Gates.BlankGateIdIsNotAdopted` | src/pages/Gates.js:135-138 | a gate whose id is white space only scans as an empty id, which the scan screen does not adopt |
| `Gates.ToggleActive` | src/pages/Gates.js:96-98 | the toggle targets the gate's own path and always asks for the opposite of its current state |
| `Gates.ToggleTwiceRestores` | src/pages/Gates.js:94-98 | toggling from the requested state asks for the original state again |
| `Gates.ToggleToast` | src/pages/Gates.js:99-102 | a failure shows the fixed error. A success names the state the request asked for |
| `Gates.GateTypeColorAsWritten` | src/pages/Gates.js:163-174 | as written, the seven listed types get their colour and other names fall back to gray, except names inherited from the object prototype, which yield that member instead of a class |
| `Gates.InheritedTypeGetsNoClass` | src/pages/Gates.js:173 | a gate of type `constructor` gets no colour class at all |
| `Gates.GateTypeTint` | src/pages/Gates.js:163-174 | as intended, the listed types get their table colour and every other type gray, always one of the table's colours |
| `Gates.GateTypeColorAgrees` | src/pages/Gates.js:163-174 | the intended lookup agrees with the written one wherever that yields a class. The written one fails exactly on inherited names. Every listed type other than parking has a class distinct from parking's, and parking looks like an unknown type |
| `Gates.InitialGateForm` | src/pages/Gates.js:27-34 | the add-gate form starts blank, as an active main gate |
| `Gates.ResetForm` | src/pages/Gates.js:83-91 | resetting restores exactly the initial form |
| `Badges.ClassesInjective` | src/pages/Gates.js:165-171 | two colours give the same badge classes exactly when they are the same colour |
| `JsonText.EscapeRoundTrip` | src/pages/Gates.js:135-138 | a string written as `JSON.stringify` writes it reads back as the same string |
| `Users.FilterUsers` | src/pages/Users.js:41-56 | a user is kept exactly when the role filter is `all` or equals the role, and the term is empty or found, as many times as it occurs. Name and institute id are searched ignoring case, the phone as typed. With `all` and no term every user is kept, and order is always kept |
| `Users.FirstCharsAreWordStarts` | src/pages/Users.js:60 | taking the first character of each space-separated piece picks exactly the characters that start a word |
| `Users.Initials` | src/pages/Users.js:59-61 | the initials are the first two word starts, upper-cased, so at most two characters and no lower-case letter |
| `Users.RoleTint` | src/pages/Users.js:63-75 | Student, Professor, Employee and Visitor each get their own colour, and gray is given exactly to every other role |
| `Users.RoleBadgesDistinct` | src/pages/Users.js:63-75 | two roles share a badge exactly when they are equal or both unlisted; a worker looks like any unlisted role |
| `Logs.FilterLogs` | src/pages/Logs.js:40-56 | a log is kept exactly when the status filter is `all` or equals its status, and the term is empty or found, ignoring case, in gate id, user id or vehicle number, as many times as it occurs. Under a status filter every kept log has that status. With `all` and no term every log is kept |
| `Logs.EmptySearchKeepsEverything` | src/pages/Logs.js:47-53 | skipping the search for an empty term changes nothing: the empty term is found in every log |
| `Logs.FilterOrderIrrelevant` | src/pages/Logs.js:43-53 | applying the search before the status filter gives the same list |
| `Logs.FilterLogsIsSubsequence` | src/pages/Logs.js:40-56 | the filtered logs keep their original order |
| `Logs.FilterLogsIdempotent` | src/pages/Logs.js:40-56 | filtering the result again with the same criteria changes nothing |
| `Logs.StatusBadge` | src/pages/Logs.js:58-81 | `IN` is exactly an entry, `OUT` exactly an exit, and every other status is shown as blocked |
| `Logs.ShortUserId` | src/pages/Logs.js:167 | the shown id is the first eight characters (or the whole id if shorter) followed by an ellipsis |
| `Logs.ShortUuidIsFirstGroup` | src/pages/Logs.js:167 | for a UUID the shown id is its first dash-separated group and an ellipsis, and eight code points are eight UTF-16 code units there |
| `Vehicles.FilterVehicles` | src/pages/Vehicles.js:38-48 | an empty term keeps every vehicle. Otherwise a vehicle is kept exactly when the term occurs, ignoring case, in its number or its model, as many times as it occurs. Order is kept |
| `Vehicles.WheelerCountsBounded` | src/pages/Vehicles.js:138-149 | the two-wheeler and four-wheeler cards never add up to more than the total card |
| `Dashboard.IsSecurityCases` | src/pages/Dashboard.js:31 | a missing role is never security. Otherwise the check holds exactly when the lower-cased role is `security` or `admin`, so case does not matter |
| `Dashboard.DashboardRequests` | src/pages/Dashboard.js:39-59 | every session fetches the ten latest logs. Security sessions fetch analytics and all others their own status |
| `Dashboard.AlertInitials` | src/pages/Dashboard.js:245 | at most two characters: the initials of the alert's user name, or of `Unknown` when there is none |
| `Dashboard.NamelessAlertShowsU` | src/pages/Dashboard.js:245 | an alert without a user name shows `U` |
| `Dashboard.RecentLogIcon` | src/pages/Dashboard.js:313-317 | the check icon is shown exactly for `IN` |
| `Dashboard.IconFollowsBadge` | src/pages/Dashboard.js:313-317 | the icon shows the check exactly where the status badge shows an entry, and the exit arrow for both exits and blocked scans |
| `Layout.Navigation` | src/components/DashboardLayout.js:46-48 | the side bar is the security list exactly for security sessions and the user list otherwise |
| `Layout.UserNavWithinSecurityNav` | src/components/DashboardLayout.js:21-39 | every entry of the user list is also in the security list |
| `Layout.AtMostOneActive` | src/components/DashboardLayout.js:93 | whatever the role and path, at most one entry is highlighted |
| `Layout.TestId` | src/components/DashboardLayout.js:98 | the test id is `nav-` followed by a text as long as the name |
| `Layout.TestIdShape` | src/components/DashboardLayout.js:98 | without a space the id is the lower-cased name. Otherwise it is the lower-cased text before the first space, a dash, and the lower-cased rest |
| `Layout.FirstSpaceOnly` | src/components/DashboardLayout.js:98 | only the first space becomes a dash; later spaces are kept |
| `ServiceWorker.OctetPatternIsByte` | src/serviceWorkerRegistration.js:8 | the octet alternatives accept exactly one to three decimal digits of value at most 255, leading zeros included |
| `ServiceWorker.LoopbackFromOctets` | src/serviceWorkerRegistration.js:4-10 | `127` followed by any three dot-led octets is a loopback host |
| `ServiceWorker.LoopbackExample` | src/serviceWorkerRegistration.js:7-9 | `127.0.0.1` is a loopback host |
| `ServiceWorker.NotLoopbackExamples` | src/serviceWorkerRegistration.js:7-9 | `128.0.0.1` is not a loopback host; `255` and `007` are octets, `256` and `1000` are not |
| `ServiceWorker.RegisterValid` | src/serviceWorkerRegistration.js:34-41 | the script is always fetched, and registration happens exactly when the fetch answered 200 |
| `ServiceWorker.Register` | src/serviceWorkerRegistration.js:12-32 | anything happens only in production, with service-worker support and a same-origin public URL. Registration then happens exactly on a 200 fetch of `<public url>/service-worker.js` |
| `ServiceWorker.HostnameIrrelevant` | src/serviceWorkerRegistration.js:24-29 | the loopback test does not change what registration does |

`Dashboard.js` has its own `getStatusBadge` (lines 61-84), identical in its
mapping to the one in `Logs.js`. It is modelled once, as `Logs.StatusBadge`.
Its `getUserInitials` (lines 86-93) is `Users.Initials`. The side bar's role
check is the dashboard's `Dashboard.IsSecurity`.

## Left out

- Camera handling (starting, stopping and clearing the QR reader, camera errors) is device I/O. Only the decode callbacks and the debounce flag are modelled.
- HTTP requests, the socket transport and its reconnection options are I/O. Every backend answer and every pushed event is an input to a pure transition.
- The internals of `JSON.parse` and of URL parsing are parameters. The QR round trip assumes the JSON parser reads the printed text as the object it encodes. The string escaping is proved to read back in section 7 of RFC 8259's terms (`Gates.QrFieldsReadBack`).
- Local storage and the global request header are fields of the session record, not ambient state.
- The dashboard's 30-second refresh timer, date formatting, the class-name merging helper, QR image rendering and the PNG download are left out. These are timers, locale formatting, foreign libraries and DOM work.
- Adding and deleting gates, the per-gate statistics and the analytics, settings and login pages are left out. They only forward to the backend or render.
- Navigation after registration, the registration page's own error display, and the alert list's rendering are left out.
- The profile page's "loading" placeholder is not modelled.
- `Users.Initials`: upper-casing is ASCII only, and a word's first character is taken as one code point where JavaScript takes one UTF-16 code unit.
- `Users.FilterUsers`, `Logs.FilterLogs`, `Vehicles.FilterVehicles` and `Gates.FilterGates` fold case for ASCII letters only.
- `Dashboard.IsSecurityCases`: lower-casing is ASCII only. No non-ASCII letter lower-cases to a letter of `security` or `admin` except the Kelvin sign, which gives `k`, not in either word, so the check itself is exact.
- `Auth.SignIn`: the answer of login and registration is assumed to carry a string token and a user. An answer without a token, which would store `undefined`, is not modelled.
- `GateScan.SubmitScan`: a request that throws (a network failure, a success body of `null`, or a success body whose `status` or `gate_id` cannot be interpolated) is marked as escaping. The unhandled rejection itself is not modelled.
- `GateScan.FinishScan`: `toast.error` receives the detail as it came, object or not; how the toast library renders a non-string is not modelled.
- `UserScan.FinishCall`: the TypeError's message is V8's wording (`Cannot convert object to primitive value`); other engines word it differently.
- `Logs.ShortUserId`: counts eight code points where `substring(0, 8)` counts eight UTF-16 code units. The two agree whenever none of the first eight characters lies above U+FFFF, which holds for the backend's UUID ids (`Logs.ShortUuidIsFirstGroup`); a lone surrogate left by a cut through a pair cannot be represented in a Dafny string.
- `ServiceWorker.Register`: the public URL's origin is an input. A public URL that fails to parse, which throws, is not modelled.
- The record fields the backend sends (names, roles, ids) are taken to be strings, and values the pages only display are left out of the records.

## Findings

| source | as written | input that shows it | evidently intended | confidence | as-written member | corrected member |
|---|---|---|---|---|---|---|
| src/pages/Gates.js:163-174 | `colors[type] \|\| gray` looks the type up on an object literal, so a type named like an inherited member of `Object.prototype` finds that member | a gate whose `gate_type` is `constructor` gets the `Object` function instead of a class string | the seven listed types get their colour and every other type gets gray | not executed | `Gates.GateTypeColorAsWritten`, `Gates.InheritedTypeGetsNoClass` | `Gates.GateTypeTint`, `Gates.GateTypeColorAgrees` |
| src/pages/Scan.jsx:107-160 | the camera effect runs once on mount, and its read callback calls the `callScan` of the first render, which sees the gate id `''`; a session started by "Scan Next" likewise sends the form as it was at the click | staff type `MAIN_GATE`, then show a member QR holding a UUID to the camera session started on mount: "Gate ID is required." is shown and nothing is sent | the read is sent with the gate id, location, purpose, vehicle number and token on screen at read time | not executed | `UserScan.ReadAndSubmit`, `UserScan.MountSessionNeverSends` | `UserScan.ReadAndSubmitLive`, `UserScan.LiveReadIsSubmitted` |
