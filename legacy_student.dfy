/**
 * The undici student logins: `ClasschartsClientStudent.login` of
 * src/student.ts and the deprecated `ClasschartsClient` of
 * src/dummyClient.ts, which repeats it on its own fields and pings with
 * `include_date=true`. The `set-cookie` array is cut cookie by cookie, the
 * session id is read from the third cookie, and the student's id and name
 * come from `getStudentInfo`.
 */
module LegacyStudentLogin {
  import opened Wrappers
  import opened Text
  import opened Uri
  import opened Errors
  import opened Http
  import opened Cookies
  import opened Login
  import opened LegacyBaseClient

  const Rejected := "Unauthenticated: Classcharts returned an error"

  /** The body of the deprecated client's ping. */
  const DummyPingBody: Pairs := [("include_date", "true")]

  /** `login()`, with the body the student info is asked for with. */
  function UndiciStudentLogin(s: LegacySession, code: string, dob: string, pingBody: Pairs, reply: CookieArrayReply,
                              decode: string -> Option<string>, server: Request -> Reply<PingData>): Step<LegacySession, ()>
  {
    if code == "" then Step(s, Failure(Thrown(UndiciStudent.missing)), [])
    else
      var login := StudentLoginRequest(UndiciStudent, code, dob);
      if !ArrayAccepted(reply) then Step(s, Failure(Thrown(Rejected)), [login])
      else
        var cookies := TruncateAll(reply.setCookie.value);
        var stored := s.(authCookies := Some(cookies));
        match ThirdCookieSessionId(cookies, decode)
        case Failure(e) => Step(stored, Failure(e), [login])
        case Success(id) =>
          var signed := stored.(sessionId := id);
          var info := StudentInfo(Undici, signed, pingBody, server);
          match info.result
          case Failure(e) => Step(signed, Failure(e), [login] + info.sent)
          case Success(user) =>
            if user.None? then Step(signed, Failure(TypeError), [login] + info.sent)
            else Step(signed.(studentId := user.value.id, studentName := user.value.name), Success(()), [login] + info.sent)
  }

  /** An empty code fails before anything is sent, and nothing changes. */
  lemma UndiciStudentLoginNeedsCode(s: LegacySession, dob: string, pingBody: Pairs, reply: CookieArrayReply,
                                    decode: string -> Option<string>, server: Request -> Reply<PingData>)
    ensures UndiciStudentLogin(s, "", dob, pingBody, reply, decode, server) == Step(s, Failure(Thrown("Student Code not inputted")), [])
  {
  }

  /** A status other than 302, or no `set-cookie` array, fails after the login post alone and changes nothing. */
  lemma UndiciStudentLoginRejected(s: LegacySession, code: string, dob: string, pingBody: Pairs, reply: CookieArrayReply,
                                   decode: string -> Option<string>, server: Request -> Reply<PingData>)
    requires code != "" && (reply.statusCode != 302 || reply.setCookie.None?)
    ensures UndiciStudentLogin(s, code, dob, pingBody, reply, decode, server)
      == Step(s, Failure(Thrown("Unauthenticated: Classcharts returned an error")), [StudentLoginRequest(UndiciStudent, code, dob)])
  {
  }

  /**
   * Once the post is accepted the stored cookies are the header's cookies
   * cut at `;`, one for one and none holding a `;`; the student changes
   * only on success, to the user the ping returned.
   */
  lemma UndiciStudentLoginCookies(s: LegacySession, code: string, dob: string, pingBody: Pairs, reply: CookieArrayReply,
                                  decode: string -> Option<string>, server: Request -> Reply<PingData>)
    requires code != "" && ArrayAccepted(reply)
    ensures var st := UndiciStudentLogin(s, code, dob, pingBody, reply, decode, server);
      && st.state.authCookies == Some(TruncateAll(reply.setCookie.value))
      && |st.state.authCookies.value| == |reply.setCookie.value|
      && (forall i :: 0 <= i < |st.state.authCookies.value| ==> ';' !in st.state.authCookies.value[i])
      && (st.result.Failure? ==> st.state.studentId == s.studentId && st.state.studentName == s.studentName)
      && (st.result.Success? ==>
            (|st.sent| == 2 && server(st.sent[1]).Json?
             && st.state.studentId == server(st.sent[1]).envelope.data.user.id
             && st.state.studentName == server(st.sent[1]).envelope.data.user.name))
  {
  }

  /**
   * A server that sets the credentials as the third cookie,
   * `name=encodeURIComponent(json); attributes`, and answers the ping with
   * the user: the login succeeds with two requests and takes the user's id
   * and name.
   */
  lemma UndiciStudentLoginRoundTrip(s: LegacySession, code: string, dob: string, pingBody: Pairs,
                                    first: string, second: string, name: string, json: string, attrs: string,
                                    decode: string -> Option<string>, sessionId: string, user: User, meta: string,
                                    server: Request -> Reply<PingData>)
    requires code != "" && PlainCookieName(name) && '{' !in name
    requires IsAscii(json) && OnlyColonCommaReserved(json) && json != [] && json[0] == '{' && decode(json) == Some(sessionId)
    requires |attrs| > 0 && attrs[0] == ';'
    requires forall r :: server(r) == Json(Envelope(1, PingData(user), meta, ""))
    ensures var header := [first, second, name + "=" + EncodeComponent(json) + attrs];
      var st := UndiciStudentLogin(s, code, dob, pingBody, CookieArrayReply(302, Some(header)), decode, server);
      && st.result == Success(())
      && st.state == s.(authCookies := Some(TruncateAll(header)), sessionId := sessionId, studentId := user.id, studentName := user.name)
      && |st.sent| == 2 && st.sent[1].body == pingBody
  {
    ThirdCookieRoundTrip(first, second, name, json, attrs, decode, sessionId);
  }

  /**
   * The login both classes run on their fields: the post, the cookies cut
   * in place and stored, the session id, and the student info.
   */
  method LoginOn(base: LegacyClient, code: string, dob: string, pingBody: Pairs, reply: CookieArrayReply,
                 decode: string -> Option<string>, server: Request -> Reply<PingData>)
    returns (r: Result<(), Error>, sent: seq<Request>)
    requires base.flavor == Undici
    modifies base
    ensures Step(base.State(), r, sent) == UndiciStudentLogin(old(base.State()), code, dob, pingBody, reply, decode, server)
  {
    if code == "" {
      return Failure(Thrown(UndiciStudent.missing)), [];
    }
    var login := StudentLoginRequest(UndiciStudent, code, dob);
    if !ArrayAccepted(reply) {
      return Failure(Thrown(Rejected)), [login];
    }
    var cookies := CutCookies(reply.setCookie.value);
    base.authCookies := Some(cookies);
    var sessionId := ThirdCookieSessionId(cookies, decode);
    if sessionId.Failure? {
      return Failure(sessionId.error), [login];
    }
    base.sessionId := sessionId.value;
    var data, infoSent := base.MakeAuthedRequest(LegacyPingCall(base.State(), pingBody), false, server);
    sent := [login] + infoSent;
    if data.Failure? {
      return Failure(data.error), sent;
    }
    var user := UserOf(data.value);
    if user.None? {
      return Failure(TypeError), sent;
    }
    base.studentId := user.value.id;
    base.studentName := user.value.name;
    r := Success(());
  }

  /** `ClasschartsClientStudent` of src/student.ts, on the undici base client. */
  class UndiciStudentClient {
    const base: LegacyClient
    const studentCode: string
    const dateOfBirth: string

    constructor(studentCode: string, dateOfBirth: Option<string>)
      ensures fresh(base) && base.flavor == Undici && base.State() == LegacySession(ApiBaseStudent, 0, "", None, "")
      ensures this.studentCode == studentCode && this.dateOfBirth == StringOf(dateOfBirth)
    {
      base := new LegacyClient(Undici, ApiBaseStudent);
      this.studentCode := studentCode;
      this.dateOfBirth := StringOf(dateOfBirth);
    }

    method Login(reply: CookieArrayReply, decode: string -> Option<string>, server: Request -> Reply<PingData>)
      returns (r: Result<(), Error>, sent: seq<Request>)
      requires base.flavor == Undici
      modifies base
      ensures Step(base.State(), r, sent) == UndiciStudentLogin(old(base.State()), studentCode, dateOfBirth, PingBody, reply, decode, server)
    {
      r, sent := LoginOn(base, studentCode, dateOfBirth, PingBody, reply, decode, server);
    }
  }

  /**
   * The deprecated `ClasschartsClient` of src/dummyClient.ts: the student
   * API base fixed, the undici request handling, and a ping that asks for
   * `include_date`.
   */
  class DummyClient {
    const base: LegacyClient
    const studentCode: string
    const dateOfBirth: string

    /** `String(studentCode)` and `String(dateOfBirth)`: an omitted date of birth is "undefined". */
    constructor(studentCode: string, dateOfBirth: Option<string>)
      ensures fresh(base) && base.flavor == Undici && base.State() == LegacySession(ApiBaseStudent, 0, "", None, "")
      ensures this.studentCode == studentCode && this.dateOfBirth == StringOf(dateOfBirth)
    {
      base := new LegacyClient(Undici, ApiBaseStudent);
      this.studentCode := studentCode;
      this.dateOfBirth := StringOf(dateOfBirth);
    }

    method MakeAuthedRequest<D>(call: Call, server: Request -> Reply<D>) returns (r: Result<Returned<D>, Error>, sent: seq<Request>)
      requires base.flavor == Undici
      ensures Outcome(r, sent) == LegacyAuthed(Undici, base.State(), call, false, server)
    {
      r, sent := base.MakeAuthedRequest(call, false, server);
    }

    method GetStudentInfo(server: Request -> Reply<PingData>) returns (r: Result<Option<User>, Error>, sent: seq<Request>)
      requires base.flavor == Undici
      ensures Outcome(r, sent) == StudentInfo(Undici, base.State(), DummyPingBody, server)
    {
      var data;
      data, sent := MakeAuthedRequest(LegacyPingCall(base.State(), DummyPingBody), server);
      r := if data.Failure? then Failure(data.error) else Success(UserOf(data.value));
    }

    method Login(reply: CookieArrayReply, decode: string -> Option<string>, server: Request -> Reply<PingData>)
      returns (r: Result<(), Error>, sent: seq<Request>)
      requires base.flavor == Undici
      modifies base
      ensures Step(base.State(), r, sent) == UndiciStudentLogin(old(base.State()), studentCode, dateOfBirth, DummyPingBody, reply, decode, server)
    {
      r, sent := LoginOn(base, studentCode, dateOfBirth, DummyPingBody, reply, decode, server);
    }

    method ListHomeworks(displayDate: Option<string>, fromDate: Option<string>, toDate: Option<string>,
                         server: Request -> Reply<seq<Homework>>)
      returns (r: Result<seq<Homework>, Error>, sent: seq<Request>)
      requires base.flavor == Undici
      ensures Outcome(r, sent) == LegacyHomeworks(Undici, base.State(), displayDate, fromDate, toDate, None, None, server)
    {
      r, sent := base.ListHomeworks(displayDate, fromDate, toDate, None, None, server);
    }

    method GetLessons<D>(date: Option<string>, server: Request -> Reply<D>) returns (r: Result<Returned<D>, Error>, sent: seq<Request>)
      requires base.flavor == Undici
      ensures Outcome(r, sent) == LegacyLessons(Undici, base.State(), date, server)
    {
      r, sent := base.GetLessons(date, server);
    }
  }
}
