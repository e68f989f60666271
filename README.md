# ClassCharts API client — a Dafny model of its deterministic core

The ClassCharts client logs a student or a parent in through a form post. It
keeps the cookies and the session id the server hands back, and it sends both
with every API request. It renews the session id with a ping when the id gets
old. It also reshapes what some endpoints return: it pages through activity,
sanitises homework descriptions, and picks a pupil from a parent's roster.

This project models that logic, in three groups:

- **The current clients** in `src/core/`:
  - `BaseClient` with its session state machine;
  - the student and parent logins;
  - `selectPupil`.
- **The cookie parsers**: `parseCookies` of `src/utils/utils.ts` and its older
  copy in `src/utils.ts`.
- **The earlier generations of the clients**:
  - the axios `src/baseClient.ts` and `src/studentClient.ts`;
  - the ky `src/parentClient.ts`;
  - the undici `src/client.ts`, `src/student.ts` and `src/parent.ts`;
  - the deprecated `src/dummyClient.ts`.

The earlier generations are stated as variants of the current definitions, not
rebuilt from scratch. `Login.Dialect` lists where they differ:

- the recaptcha token;
- the headers of the form post;
- how the stored cookies are split;
- which `parseCookies` is used;
- how errors are worded;
- whether `set-cookie` arrives as an array.

`LegacyBaseClient.Flavor` covers what differs in the base client:

- caller headers are kept or dropped;
- `includeMeta`;
- the invalid-JSON error.

**How the outside world enters the model:**

- **Network.** Every reply is an input. A request-to-reply function stands for
  the server (`ping` for pings, `server` for the rest). A login form's reply is
  a value (`LoginReply`, `CookieArrayReply`).
- **Requests sent.** Each operation returns the requests it dispatched, in
  order. So "fails before anything is sent" reads as `sent == []`.
- **Clock.** `now` is a parameter.
- **`JSON.parse`.** Parsing the credentials cookie is a parameter
  `decode: string -> Option<string>`: the `session_id` it yields, or `None`
  for a syntax error.

**Structure.**

- **Spec functions.** Each stateful operation has a pure function over a
  value of the client's fields (`Session`, `LegacySession`, `ParentState`,
  `UndiciParentState`).
- **Classes.** A class holds the same fields. Its methods update them step by
  step and are proved equal to the spec function.
- **Lemmas.** The lemmas state what the source promises about those
  functions, for every input.

## Model

| member | source | states |
|---|---|---|
| Cookies.ParseCookies | src/utils/utils.ts:7-17 | the for-of loop fills the object fragment by fragment; the result is the object built from the header split on every `,`, each fragment's key and value percent-decoded, or a URIError |
| Cookies.FailureSticks | src/utils/utils.ts:12-14 | once one fragment's decoding throws, the whole parse throws |
| Cookies.AssignSucceeds | src/utils/utils.ts:10-15 | the parse succeeds exactly when every fragment decodes |
| Cookies.AssignKeys | src/utils/utils.ts:10-15 | the keys of the object are exactly the keys some fragment writes |
| Cookies.LastWins | src/utils/utils.ts:9-15 | fragments are written left to right: a key holds the value of the last fragment that writes it |
| Cookies.AttributesIgnored | src/utils/utils.ts:11 | everything from a fragment's first `;` on (expires, Max-Age, path) is ignored |
| Cookies.EntryOfPair | src/utils/utils.ts:11-14 | `name=value; attrs` gives the decoded name as key and the decoded text of value up to a second `=` as value |
| Cookies.EntryWithoutValue | src/utils/utils.ts:12-14 | a fragment without `=` still writes its key, with the value "undefined" |
| CookieTests.ParsesSimpleCookie | src/utils/utils_test.ts:3-8 | `testCookie=Hello%20world!; expires=...` gives testCookie ↦ "Hello world!" |
| CookieTests.ParsesMultipleCookies | src/utils/utils_test.ts:10-16 | both comma-joined cookies are found, the second without its leading space; the date after each `expires` comma becomes a key of its own with value "undefined" |
| CookieTests.ParsesCookieWithNoValue | src/utils/utils_test.ts:18-24 | `cookieWithNoValue=; ...` maps that key to the empty string |
| CookieTests.RawKeysKeepLeadingSpace | src/utils.ts:1-11 | the older parser does not trim keys: the second cookie lands under " secondCookie" and not under "secondCookie" |
| Text.LeftTrimSpec | src/utils/utils.ts:19-22 | `leftTrim` removes exactly a leading whitespace run, nothing else, and a second application changes nothing |
| Text.TrimSpec | src/core/baseClient.ts:238 | `trim` keeps the part of the text that starts where the leading whitespace run ends; only whitespace is removed on either side, and none is left at either end |
| Text.ToUpper | src/core/studentClient.ts:38 | the upper-cased code has the same length, each letter mapped, and no lower-case ASCII letter |
| Text.JoinSplitSubstitutes | src/core/studentClient.ts:57 | the stored cookies joined with `;` give back the `set-cookie` header with its separators replaced by `;` |
| Uri.DecodeEncode | src/utils/utils.ts:12-14 | `decodeURIComponent` undoes `encodeURIComponent` on ASCII text |
| Uri.DecodeUriOfEncoded | src/student.ts:65-67 | for ASCII text whose only reserved characters are `:` and `,` (and no `%`), `decodeURI` of the encoded text gives it back with exactly those still escaped as `%3A` and `%2C`; any other reserved character (`/`, `=`, `+`, ...) would stay escaped through `decodeURI` and reach `JSON.parse` so |
| Cookies.SessionIdOf | src/core/studentClient.ts:58-62 | a missing credentials cookie is a JSON SyntaxError, as `JSON.parse("undefined")` always is; a present one succeeds exactly when its value parses, with the session id it yields |
| Cookies.ThirdCookieSessionId | src/student.ts:66-72 | fewer than three stored cookies is a JSON SyntaxError, as `JSON.parse("undefined")` always is |
| Cookies.CredentialsRoundTrip | src/core/studentClient.ts:56-62 | a header holding `name=encodeURIComponent(json)` with comma-free attributes has the JSON's session id read back |
| Cookies.TruncateCookie | src/student.ts:61 | the cut is the text before the first `;`, and "" when the cookie has no `;` |
| Cookies.TruncateMatchesBefore | src/student.ts:61 | where a `;` is present the cut keeps what `parseCookies` keeps of a fragment |
| Cookies.TruncateCookies | src/student.ts:60-62 | the in-place loop leaves each array cell cut at its first `;` |
| Cookies.FromFirstBrace | src/student.ts:68-70 | the text from the first `{`, which then starts with `{` and follows only `{`-free text; all of it when there is no `{` |
| Cookies.ThirdCookieRoundTrip | src/student.ts:59-71 | a third cookie `name=encodeURIComponent(json); attrs` is read back, after the cut, `decodeURI`, the `%3A`/`%2C` replacements and the cut at `{`, as the JSON's session id, for a JSON whose only reserved characters are `:` and `,` (a `/`, `=` or `+` would reach `JSON.parse` still escaped) |
| Http.PresentMembers | src/core/baseClient.ts:147-150 | a query pair is sent exactly when its option is given and not empty |
| Http.PresentConcat | src/baseClient.ts:155-162 | the query of options appended one after another is the concatenation of their queries: order is kept |
| Http.PresentAll | src/core/baseClient.ts:214-219 | when every option is given, every option is sent, in order |
| HomeworkText.StripTags | src/core/baseClient.ts:230-233 | removing tags never lengthens the text nor introduces a character |
| HomeworkText.StripTagsLeavesNoTag | src/core/baseClient.ts:230-233 | no match of `<([^>]+)>` is left after the replacement |
| HomeworkText.StripTagsIdempotent | src/core/baseClient.ts:230-233 | stripping tags twice strips nothing more |
| HomeworkText.StripTagsKeepsPrefix | src/core/baseClient.ts:230-233 | the text before the first `<` is kept as it is, in front of what the rest strips to |
| HomeworkText.StripTagsDropsTag | src/core/baseClient.ts:230-233 | a tag `<inner>` at the front is removed and only it: what follows is stripped on its own |
| HomeworkText.SanitiseClean | src/core/baseClient.ts:230-238 | a description with no tag, no `&nbsp;` and no surrounding whitespace is left unchanged |
| HomeworkText.SanitiseHomework | src/core/baseClient.ts:228-238 | `description_raw` is the old description, `description` its sanitised form, id and lesson kept |
| HomeworkText.SanitiseAll | src/core/baseClient.ts:227-239 | the same number of homeworks, each sanitised in its place |
| HomeworkText.SanitiseInPlace | src/core/baseClient.ts:227-239 | the loop rewrites every array element in place to its sanitised form |
| HomeworkText.SanitiseList | src/baseClient.ts:170-176 | the list handed back is the input list sanitised element by element |
| CoreBaseClient.AuthHeaders | src/core/baseClient.ts:100-108 | Cookie is the cookies joined with `;`, Authorization is "Basic " + session id, and the caller's headers win on a clash |
| CoreBaseClient.CheckEnvelope | src/core/baseClient.ts:115-123 | `success == 0` throws the envelope's `error`; otherwise the whole envelope comes back unchanged; a non-JSON body is a SyntaxError |
| CoreBaseClient.NewSessionIdFacts | src/core/baseClient.ts:63-76 | one ping is sent; on success only the session id (from `meta.session_id`) and `lastPing` (now) change; on failure nothing does |
| CoreBaseClient.AuthedFacts | src/core/baseClient.ts:88-124 | no session id: "No session ID" with nothing sent; with no revalidation due, the request alone with its reply checked; when revalidation is due (option defaulting to true, `lastPing` set, `now - lastPing + 5000 > 180000`) the ping goes first: if it fails, that failure with nothing else sent and nothing changed; if it succeeds, the session id becomes the ping's `meta.session_id`, `lastPing` becomes now, and the request follows with the headers of the state on entry; a success is the last reply's envelope; only session id and `lastPing` change |
| CoreBaseClient.AuthedUnsendable | src/core/baseClient.ts:93-114 | a request to a URL `ky` cannot build never succeeds |
| CoreBaseClient.AuthedUnsendableStopsShort | src/core/baseClient.ts:93-114 | against the same call on a URL that can be sent, on any server: the same session check, ping and state, and a TypeError exactly where that request would have been sent; any other failure is the same failure with the same requests |
| CoreBaseClient.FullActivityFrom | src/core/baseClient.ts:166-189 | the activity gathered so far is a prefix of what the walk returns |
| CoreBaseClient.FullActivityPage | src/core/baseClient.ts:172-186 | a failed or empty page ends the walk; a full page continues it with the cursor at its last item's id and its items appended |
| CoreBaseClient.WalkFromCollects | src/core/baseClient.ts:166-189 | a page walk whose fetch leaves the session as it is returns the pages before the first empty one, concatenated in order, each cursor the previous page's last id |
| CoreBaseClient.FullActivityCollects | src/core/baseClient.ts:166-189 | while no ping is due, `getFullActivity` leaves the session unchanged and returns the pages before the first empty one, concatenated in order, each cursor the previous last id (0 meaning none) |
| CoreBaseClient.FullActivityPingFails | src/core/baseClient.ts:109-113 | when a ping is due and fails, `getFullActivity` fails with the ping's failure, having sent only the ping, and nothing changes |
| CoreBaseClient.FullActivityAfterPing | src/core/baseClient.ts:109-113 | when a ping is due and succeeds, `getFullActivity` pings once, before the first page: the session is renewed (`meta.session_id`, `lastPing` now), the ping and then the first page go out, the first page with the old headers; the result is the first page's failure, or `acc` on an empty first page, or the rest of the pages gathered from the renewed session as `FullActivityCollects` states; a renewed session id that is empty stops the walk at its second page with "No session ID" |
| CoreBaseClient.WalkFromAfterFirst | src/core/baseClient.ts:166-189 | a walk whose first fetch moves to a session that later fetches leave alone: the first fetch's requests lead, and after the first page it collects the pages of that session in order |
| CoreBaseClient.Homeworks | src/core/baseClient.ts:213-241 | the same requests and session as the authenticated request; it succeeds exactly when that request does, with the envelope's homework list sanitised, and a failure is passed on with its error unchanged |
| CoreBaseClient.Lessons | src/core/baseClient.ts:247-257 | a missing or empty date throws "No date specified" before anything is sent |
| CoreBaseClient.BaseClient.constructor | src/core/baseClient.ts:53-56 | a new client has the given API base, no cookies, no session id, student 0 and `lastPing` 0 |
| CoreBaseClient.BaseClient.GetNewSessionId | src/core/baseClient.ts:63-76 | the fields after the call are those of the renewed session |
| CoreBaseClient.BaseClient.MakeAuthedRequest | src/core/baseClient.ts:88-124 | result, requests sent and new fields are those of the authenticated-request function |
| CoreBaseClient.BaseClient.GetStudentInfo | src/core/baseClient.ts:129-137 | a ping with `include_data=true`, revalidating as usual |
| CoreBaseClient.BaseClient.GetActivity | src/core/baseClient.ts:146-157 | `GET /activity/<id>` with from, to, last_id each only when present |
| CoreBaseClient.BaseClient.ActivityRound | src/core/baseClient.ts:172-186 | one pass of the loop keeps the walk's outcome: either it is finished with that outcome or the rest of the walk from the new cursor yields it |
| CoreBaseClient.BaseClient.ActivityLoop | src/core/baseClient.ts:172-187 | the `while (gotData)` loop, from any cursor and data, ends with the result, requests and fields of the rest of the walk |
| CoreBaseClient.BaseClient.GetFullActivity | src/core/baseClient.ts:166-189 | the while loop returns and leaves exactly what the walk over pages does |
| CoreBaseClient.BaseClient.GetBehaviour | src/core/baseClient.ts:195-207 | `GET /behaviour/<id>` with from and to only when present |
| CoreBaseClient.BaseClient.GetHomeworks | src/core/baseClient.ts:213-241 | the homeworks request with the returned list sanitised in place |
| CoreBaseClient.BaseClient.GetLessons | src/core/baseClient.ts:247-257 | the date guard, then `GET /timetable/<id>?date=` |
| CoreBaseClient.BaseClient.GetAttendance | src/core/baseClient.ts:303-321 | `GET /attendance/<id>` with from and to only when present; the `data` of the envelope |
| Login.AcceptedNeeds302 | src/core/studentClient.ts:48 | only a 302 that sets a cookie lets the login through |
| Login.ArrayHeaderOnlyDiffersWhenEmpty | src/studentClient.ts:49 | reading `set-cookie` as an array or as a string changes the verdict only for a 302 with an empty header |
| Login.Followed | src/core/parentClient.ts:38-43 | a post sent without `redirect: "manual"` hands back a reply that is not followed (not a redirect, or a redirect without a `Location`, which comes back as it is): the post's own reply when it is not followed, otherwise the end of the chain; a chain that still ends in a followed redirect is a TypeError |
| Login.FollowedAcceptsOnlyWithoutLocation | src/core/parentClient.ts:38-44 | a post that follows redirects passes the test for a 302 only on a reply without a `Location`: a 302 that points elsewhere is checked as the end of its chain, one without a `Location` as itself |
| CoreStudentClient.StudentLoginNeedsCode | src/core/studentClient.ts:35 | an empty code throws "Student Code not inputted" before any request, and no field changes |
| CoreStudentClient.StudentFormOrder | src/core/studentClient.ts:36-41 | the form is `_method`=POST, upper-cased `code`, `dob`, `remember_me`=1, `recaptcha-token`, in that order |
| CoreStudentClient.StudentLoginRejected | src/core/studentClient.ts:48-55 | a rejected post throws the message with status and status text after the post alone, and changes nothing |
| CoreStudentClient.StudentLoginOutcome | src/core/studentClient.ts:56-65 | the API base is kept, the login post goes first; a success has stored the header split on `,`, pinged at `now`, and sent three requests |
| CoreStudentClient.StudentLoginRoundTrip | src/core/studentClient.ts:56-65 | with a `student_session_credentials` cookie and a ping that answers: success, the cookies stored, the renewed session id, `lastPing` now, and the user's id as student |
| CoreStudentClient.CredentialsCookieIsPlain | src/core/studentClient.ts:60 | the credentials cookie name needs no decoding or trimming |
| CoreStudentClient.AxiosStudentRejected | src/studentClient.ts:49-55 | the axios login is rejected with exactly "Unauthenticated: Classcharts returned an error" after the post alone, and exactly when the status is not 302 or `set-cookie` is missing |
| CoreStudentClient.AxiosStudentDialect | src/studentClient.ts:31-61 | the axios login stores the cookies split on `;` and sends the token "no-token-avaliable" |
| CoreStudentClient.AcceptedFailures | src/studentClient.ts:49-60 | once the post is accepted, a failure comes from the cookie, the JSON or the pings, never a rejection after the post alone |
| CoreStudentClient.StudentClient.constructor | src/core/studentClient.ts:25-29 | the student API base; code and `String(dateOfBirth)`, an omitted date being "undefined" |
| CoreStudentClient.StudentClient.Login | src/core/studentClient.ts:34-66 | the fields after the login are those of the login function |
| Roster.FindPupil | src/core/parentClient.ts:81-89 | the index of the first pupil with the id, and none exactly when no pupil has it |
| Roster.FindPupilSkips | src/core/parentClient.ts:82-88 | a match further down the roster is the same pupil one place later |
| Roster.FindPupilFirst | src/core/parentClient.ts:82-88 | a pupil with the id and none before it is the one the scan finds |
| Roster.FirstPupil | src/core/parentClient.ts:60-62 | the login's choice as intended: the first pupil exactly when the roster is non-empty, else "Account has no pupils attached" |
| Roster.EmptyRosterThrowsTypeError | src/core/parentClient.ts:61-62 | an empty roster: a TypeError as written, the intended message once corrected |
| Roster.FirstPupilAgrees | src/core/parentClient.ts:61-62 | as written and corrected agree on every roster but the empty one |
| CoreParentClient.ParentLoginNeedsEmail | src/core/parentClient.ts:28 | an empty email throws "Email not provided" before any request, and nothing changes |
| CoreParentClient.ParentSignInFollowingOutcome | src/core/parentClient.ts:38-51 | as written, a login with an email sends the post alone and changes no state; it is a TypeError exactly when the chain still ends in a followed redirect; it succeeds only with `fetch` and only on a 302 with the cookie and no `Location`; a 302 with a `Location` to a page that is not a redirect is rejected with that page's status (the ky generation, src/parentClient.ts:40-52, throws its HTTPError on a status that is not 2xx); a reply that is not followed gets the intended sign-in under `fetch`, and under `ky` the HTTPError when its status is not 2xx |
| CoreParentClient.ParentLoginOutcome | src/core/parentClient.ts:53-62 | the login as intended (the post's own reply checked, the pupils asked of `API_BASE`, the envelope's data kept): API base and cookies are kept (the assignment is commented out), the post goes first; a success lists a non-empty roster, the last reply's data, and selects its first pupil |
| CoreParentClient.ParentLoginRoundTrip | src/core/parentClient.ts:53-62 | the login as intended, with a `parent_session_credentials` cookie and a non-empty roster: success in two requests, the session id stored and the first pupil selected |
| CoreParentClient.CredentialsCookieIsPlain | src/core/parentClient.ts:57 | the credentials cookie name needs no decoding or trimming |
| CoreParentClient.WrittenPupilsUrlIsRelative | src/core/parentClient.ts:69 | `super.API_BASE + "/pupils"` is `undefined/pupils`, which names no scheme, while `API_BASE + "/pupils"` does |
| CoreParentClient.WrittenPupilsAgainstIntended | src/core/parentClient.ts:60-72 | from the session the sign-in gave, the written pupils request leaves the session as the intended one does (with no pupil selected) and throws a TypeError exactly where the intended one sends `GET /pupils`; otherwise the two fail alike |
| CoreParentClient.ParentLoginAsWrittenNeverSucceeds | src/core/parentClient.ts:59-62 | with the sign-in getting through, the written login still never succeeds: the session id is stored (and a due ping done) but `this.pupils` is never assigned and no pupil is selected; where the intended login sends the pupils request it throws a TypeError with every earlier request sent; elsewhere it matches the intended login |
| CoreParentClient.NoPupilAfterWrittenLogin | src/core/parentClient.ts:79-82 | after the written login on a client without pupils, `selectPupil` with an id reads `length` of `undefined` and throws a TypeError |
| CoreParentClient.FirstOfEnvelope | src/core/parentClient.ts:60-62 | reading `this.pupils[0].id` of the envelope never succeeds |
| CoreParentClient.EnvelopeIsNoRoster | src/core/parentClient.ts:60-62 | an envelope listing pupils: a TypeError as written, its first pupil when the envelope's `data` is kept |
| CoreParentClient.SelectPupilFinds | src/core/parentClient.ts:79-90 | on a listed roster `selectPupil` succeeds exactly when some pupil has the id, then selects it and changes nothing else; otherwise it fails with "No pupil with specified ID returned" and changes nothing |
| CoreParentClient.KyParentDialect | src/parentClient.ts:29-63 | the ky login as intended: "Email not inputted", a rejection that reports the status, cookies not stored, token "no-token-avaliable" |
| CoreParentClient.KyRejection | src/parentClient.ts:46-52 | the ky rejection message is "Unauthenticated: Classcharts returned an error: " + status + " " + status text |
| CoreParentClient.ParentClient.constructor | src/core/parentClient.ts:18-22 | the parent API base, `String(email)` and `String(password)`, no pupils |
| CoreParentClient.ParentClient.GetPupils | src/core/parentClient.ts:68-72 | `GET <API_BASE>/pupils` through the authenticated request, with the URL repaired (the written `super.API_BASE` is `undefined`, see Findings) |
| CoreParentClient.ParentClient.Login | src/core/parentClient.ts:27-63 | the fields after the login are those of the corrected login function |
| CoreParentClient.ParentClient.SelectPupil | src/core/parentClient.ts:79-90 | the for loop leaves the fields and result of the selection function |
| LegacyBaseClient.LegacyHeaders | src/client.ts:42-48 | undici: exactly Cookie and lower-case authorization, caller headers dropped; axios (src/baseClient.ts:51-59): caller headers spread last |
| LegacyBaseClient.LegacyCheck | src/client.ts:53-64 | undici: a non-JSON body throws "Invalid JSON response recieved"; `success == 0` throws `error`; otherwise `data`, or the whole envelope with `includeMeta` |
| LegacyBaseClient.LegacyAuthed | src/baseClient.ts:45-69 | no cookies: "Not authenticated" with nothing sent (the session id is not checked); otherwise exactly one request: the call's URL, verb, query and body, with the headers of `LegacyHeaders` (the joined cookies and `authorization: "Basic " + sessionId`, undici sending only those two), its reply checked |
| LegacyBaseClient.UndiciHomeworksQuery | src/client.ts:137-142 | the undici homework query is the current one with `fromDate` and `toDate` as from and to |
| LegacyBaseClient.AxiosHomeworksQuery | src/baseClient.ts:155-162 | the axios query is that query followed by from and to again, each only when given |
| LegacyBaseClient.AxiosFromTwice | src/baseClient.ts:159-161 | given both `fromDate` and `from`, "from" occurs twice, `fromDate` first |
| LegacyBaseClient.LegacyHomeworks | src/baseClient.ts:152-178 | the same requests; success exactly when data came back, then the list sanitised; a failed request passes its error on unchanged (the server's `error`, "Not authenticated", the invalid-JSON message); data that is `undefined` throws a TypeError at `data.length` |
| LegacyBaseClient.LegacyLessons | src/baseClient.ts:184-194 | a missing or empty date throws "No date specified" before anything is sent |
| LegacyBaseClient.LegacyWalkPage | src/baseClient.ts:111-126 | a failed or empty page ends the axios walk; a full one continues it from its last id |
| LegacyBaseClient.WalkCollects | src/baseClient.ts:105-128 | any page walk returns the pages its fetch reads before the first empty one, concatenated in order, each cursor the previous page's last id |
| LegacyBaseClient.LegacyWalkCollects | src/baseClient.ts:105-128 | the axios `getFullActivity` returns the pages before the first empty one, concatenated in order, cursors from the last ids |
| LegacyBaseClient.CutCookies | src/student.ts:59-63 | the `set-cookie` array cut in place, cookie by cookie |
| LegacyBaseClient.LegacyClient.constructor | src/client.ts:23-35 | the given API base, student 0, name "", cookies undefined, session id "" |
| LegacyBaseClient.LegacyClient.MakeAuthedRequest | src/client.ts:36-65 | result and requests are those of the legacy authenticated request; no field changes |
| LegacyBaseClient.LegacyClient.GetStudentInfo | src/client.ts:72-79 | a ping with `include_data=true`, and `data?.user` |
| LegacyBaseClient.LegacyClient.GetActivity | src/client.ts:85-96 | from, to and last_id added in that order, each only if present |
| LegacyBaseClient.LegacyClient.GetPupil | src/client.ts:99-109 | `GET /pupils` through the undici request |
| LegacyBaseClient.LegacyClient.WalkRound | src/baseClient.ts:111-126 | one pass of the axios loop keeps the walk's outcome |
| LegacyBaseClient.LegacyClient.WalkLoop | src/baseClient.ts:111-126 | the axios `while (gotData)` loop, from any cursor and data, ends with the result and requests of the rest of the walk |
| LegacyBaseClient.LegacyClient.GetFullActivity | src/baseClient.ts:105-128 | the while loop returns exactly what the axios walk does |
| LegacyBaseClient.LegacyClient.ListHomeworks | src/client.ts:134-160 | the homework request with the list sanitised in place |
| LegacyBaseClient.LegacyClient.GetLessons | src/client.ts:166-176 | the date guard, then the timetable request |
| LegacyStudentLogin.UndiciStudentLoginNeedsCode | src/student.ts:43 | an empty code throws "Student Code not inputted" before any request, and nothing changes |
| LegacyStudentLogin.UndiciStudentLoginRejected | src/student.ts:57-58 | a status other than 302 or no `set-cookie` throws "Unauthenticated: Classcharts returned an error" after the post alone |
| LegacyStudentLogin.UndiciStudentLoginCookies | src/student.ts:59-74 | once accepted the stored cookies are the header's, one for one, each cut before its `;`; id and name change only on success, to the user the ping returned |
| LegacyStudentLogin.UndiciStudentLoginRoundTrip | src/student.ts:59-74 | with the credentials as third cookie and a ping that answers: success in two requests, cookies, session id, id and name stored |
| LegacyStudentLogin.LoginOn | src/student.ts:42-75 | the fields after the login are those of the undici login function |
| LegacyStudentLogin.UndiciStudentClient.constructor | src/student.ts:33-37 | the student API base on the undici client; code and `String(dateOfBirth)` |
| LegacyStudentLogin.UndiciStudentClient.Login | src/student.ts:42-75 | the login with the `include_data=true` ping |
| LegacyStudentLogin.DummyClient.constructor | src/dummyClient.ts:35-41 | `String(studentCode)` and `String(dateOfBirth)`, an omitted date being "undefined" |
| LegacyStudentLogin.DummyClient.MakeAuthedRequest | src/dummyClient.ts:42-65 | "Not authenticated" without cookies; exactly Cookie and authorization; invalid JSON, `success == 0` and `data` as in the undici client |
| LegacyStudentLogin.DummyClient.GetStudentInfo | src/dummyClient.ts:117-123 | the ping sends `include_date=true` |
| LegacyStudentLogin.DummyClient.Login | src/dummyClient.ts:70-103 | the undici login with the `include_date=true` ping |
| LegacyStudentLogin.DummyClient.ListHomeworks | src/dummyClient.ts:164-190 | the undici homework request, sanitised |
| LegacyStudentLogin.DummyClient.GetLessons | src/dummyClient.ts:196-206 | the date guard, then the timetable request |
| LegacyParentClient.UndiciParentLoginNeedsEmail | src/parent.ts:29 | an empty email throws "Email not inputted" before any request, and nothing changes |
| LegacyParentClient.UndiciParentLoginRejected | src/parent.ts:44-45 | a status other than 302 or no `set-cookie` throws "Unauthenticated: Classcharts returned an error" after the post alone |
| LegacyParentClient.UndiciParentFetchFacts | src/parent.ts:28-60 | up to the pupils request the login keeps the API base, sends the post first, stores the cut cookies once accepted, and on success stores the roster the second reply holds |
| LegacyParentClient.UndiciParentLoginOutcome | src/parent.ts:47-64 | the API base is kept and the post goes first; once accepted the cut cookies are stored; a success stores a non-empty roster, the pupils reply's data, and takes its first pupil's id and name |
| LegacyParentClient.UndiciEmptyRoster | src/parent.ts:61-64 | as written and corrected send the same requests and leave the same fields; the results differ exactly on an empty roster, TypeError against "Account has no pupils attached" |
| LegacyParentClient.UndiciEmptyRosterExample | src/parent.ts:61-64 | a pupils reply with an empty list: TypeError as written, "Account has no pupils attached" corrected |
| LegacyParentClient.UndiciSelectPupilFinds | src/parent.ts:79-91 | on a stored roster `selectPupil` succeeds exactly when some pupil has the id, and then takes the id and name of the first pupil with that id; otherwise it fails with "No pupil with specified ID returned" and changes nothing |
| LegacyParentClient.UndiciParentLoginRoundTrip | src/parent.ts:47-64 | with the credentials as third cookie and a non-empty roster: success in two requests, the cut cookies, session id, roster and first pupil stored |
| LegacyParentClient.UndiciParentClient.constructor | src/parent.ts:19-23 | the parent API base on the undici client, `String(email)`, `String(password)`, no pupils |
| LegacyParentClient.UndiciParentClient.GetPupils | src/parent.ts:70-74 | `GET /pupils`, handing back the reply's data |
| LegacyParentClient.UndiciParentClient.Login | src/parent.ts:28-65 | the fields after the login are those of the corrected undici login function |
| LegacyParentClient.UndiciParentClient.SelectPupil | src/parent.ts:79-91 | the for loop leaves the fields and result of the selection function, id and name |

## Left out

- **Network dispatch** (fetch, ky, axios, undici): every reply is an input value. Redirects are modelled only where a login post follows them (`Login.Followed`); a chain is one reply, its end, and a `Location` header is present or absent, not a URL (one that does not parse is not modelled). ky's retries of a failed GET and its 10-second timeout on the `ky(...)` call (src/core/baseClient.ts:114) are not modelled: every `sent` log records logical requests, one per call, not attempts on the wire.
- CheckEnvelope: the current `ky` request (src/core/baseClient.ts:114) throws an HTTPError on a reply whose status is not 2xx before its body is read; a `Reply` carries no status, so every API reply is taken as 2xx.
- ParentLogin: the intended login checks the post's own reply; with `ky` (`KyParentDialect`) that also needs `throwHttpErrors: false`, or the 302 itself would throw, and the model does not say which option the repair uses.
- ParentLoginAsWritten: a URL with no scheme is refused as `fetch` does outside a web page (Deno, Node); in a browser `undefined/pupils` would resolve against the page's own address and reach some other server, which is not modelled.
- **The clock.** `Date.now()` is the parameter `now`, read once per top-level call.
- **`JSON.parse` of the credentials cookie** is the parameter `decode`.
  - A missing credentials cookie, or a missing third cookie in the undici logins, reaches `JSON.parse` as "undefined", which always throws a SyntaxError; the model gives that error itself (`Cookies.SessionIdOf`, `Cookies.ThirdCookieSessionId`). A cookie that is present and whose text is "undefined" (one written without `=`) is left to `decode`, which is expected to reject it as JSON.parse does.
  - A JSON without `session_id` leaves the field `undefined` in the source. The model only carries the string `decode` yields, so `undefined`'s own behaviour is not represented: falsy in the current guard, "Basic undefined" in a header.
- **`JSON.parse` of response bodies.** A reply is either an envelope or "not JSON". An envelope whose `data` is missing is only modelled where the source tests for it (`getFullActivity` pages).
- **URLSearchParams percent-encoding.** Form bodies and query strings are ordered key/value pairs.
- **`decodeURIComponent`/`decodeURI`.** Only single-byte escapes are decoded. A valid escape of `%80` or above (a UTF-8 sequence) is treated like a malformed one, as a URIError.
- **`encodeURIComponent`** is modelled on ASCII text only.
- **`toUpperCase`** covers ASCII letters only.
- **Whitespace.** `trim` and `\s` use the ECMAScript WhiteSpace and LineTerminator code points; the model leaves out Unicode property tables.
- CoreBaseClient.FullActivityFrom: the walk has a page budget `fuel` and fails with PageLimitReached when it runs out, because the source loops without bound. LegacyBaseClient.LegacyWalk has the same budget.
- **undici `set-cookie` as a single string.** undici gives one string, not an array, when the server sets a single cookie. The model takes the array form.
- **The broken wiring of the older generations.**
  - src/studentClient.ts calls `getNewSessionId`, which src/baseClient.ts does not define.
  - src/parentClient.ts imports a `BaseClient` that src/baseClient.ts does not export.
  - Their login logic is modelled on the current `BaseClient` (the dialects `AxiosStudent` and `KyParent`), not on the axios base client.
- **Endpoints without logic of their own:** `getBadges`, `getAnnouncements`, `getDetentions`, `listAnnouncements` and the legacy `getBehaviour`. Each is an authenticated request to a fixed path, already covered by the request models.
- **`getActivity` and `getBehaviour` of src/dummyClient.ts** are the undici requests of src/client.ts on a fixed API base.
- **Logging and delegation in src/dummyClient.ts.** The `console.warn` notices, and `init()`, which only calls `login()`.
- **Concurrency.** Overlapping calls that race on revalidation are not modelled.

## Findings

| source | as written | input that shows it | evidently intended | confidence | as-written member | corrected member |
|---|---|---|---|---|---|---|
| src/core/parentClient.ts:38-44 | the login post is sent without `redirect: "manual"`, so `fetch` follows the 302 the server accepts it with, and the test `status != 302` sees the reply at the end of the chain and rejects every login accepted with a 302 that carries a `Location`; src/parentClient.ts:40-46 does the same with `ky`, which also throws its HTTPError on a final status that is not 2xx | a server that answers the post with a 302 setting `parent_session_credentials` with a `Location`, and the page it points to with 200 OK: "Unauthenticated: ClassCharts returned an error: 200 OK" | check the post's own reply, as the student login does with `redirect: "manual"` (src/core/studentClient.ts:45) | high (not executed) | CoreParentClient.ParentSignInFollowing | CoreParentClient.ParentLogin |
| src/core/parentClient.ts:69 | `API_BASE` is an instance field, so `super.API_BASE` reads the prototype and is `undefined`; `getPupils` asks for `undefined/pupils`, from which `ky` cannot build a request, and throws a TypeError; the session id stays stored and `this.pupils` stays `undefined`; src/parentClient.ts:70 is the same | with the redirect above repaired, any accepted login: TypeError, and a later `selectPupil(1)` throws a TypeError too | `this.API_BASE + "/pupils"` | high (not executed) | CoreParentClient.ParentLoginAsWritten | CoreParentClient.ParentLogin |
| src/core/parentClient.ts:60-62 | `this.pupils` would hold the whole envelope that `makeAuthedRequest` returns (src/core/baseClient.ts:123), so `this.pupils[0].id` reads a property of `undefined` and the login throws a TypeError | with the two faults above repaired, a pupils reply `{success: 1, data: [{id: 1, name: "A"}]}` | keep the envelope's `data` as the roster and select its first pupil | high (not executed) | CoreParentClient.FirstOfEnvelope | CoreParentClient.ParentLogin |
| src/parent.ts:61-64 | `!this.pupils` is false for an empty array, so an empty roster reaches `this.pupils[0].id` and throws a TypeError | a pupils reply `{success: 1, data: []}` | throw "Account has no pupils attached" | high (not executed) | LegacyParentClient.UndiciParentLoginAsWritten | LegacyParentClient.UndiciParentLogin |
| src/core/parentClient.ts:61-62 | the same guard in the current client lets an empty roster through to `this.pupils[0].id` | with the redirect, URL and envelope faults of src/core/parentClient.ts repaired, a pupils reply `{success: 1, data: []}` | throw "Account has no pupils attached" | high (not executed) | Roster.FirstPupilAsWritten | Roster.FirstPupil |

The tests in src/core/studentClient_test.ts and src/core/parentClient_test.ts expect "Student Code not provided" and "Password not provided". The code throws "Student Code not inputted" and never checks the password. The model follows the code.
