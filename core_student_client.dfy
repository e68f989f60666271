/**
 * The student client (src/core/studentClient.ts, and the axios generation
 * in src/studentClient.ts as the `AxiosStudent` dialect): a form login that
 * stores the cookies, reads the session id out of the credentials cookie,
 * renews it with a ping, and then asks who the student is.
 */
module CoreStudentClient {
  import opened Wrappers
  import opened Text
  import opened Uri
  import opened Errors
  import opened Http
  import opened Cookies
  import opened Login
  import opened CoreBaseClient

  const CredentialsCookie := "student_session_credentials"

  /**
   * `login()`. The login post is answered by `reply`; `decode` is JSON.parse
   * followed by the `session_id` read; the pings that follow are answered by
   * `ping`, all at the clock reading `now`.
   */
  function StudentLogin(d: Dialect, s: Session, code: string, dob: string, reply: LoginReply,
                        decode: string -> Option<string>, now: int, ping: Request -> Reply<PingData>): CoreStep<()>
  {
    if code == "" then Step(s, Failure(Thrown(d.missing)), [])
    else
      var login := StudentLoginRequest(d, code, dob);
      if !Accepted(d, reply) then Step(s, Failure(Thrown(RejectedMessage(d, reply))), [login])
      else
        var cookies := reply.setCookie.value;
        var stored := s.(authCookies := Split(cookies, d.separator));
        match CookieSessionId(cookies, CredentialsCookie, d.keys, decode)
        case Failure(e) => Step(stored, Failure(e), [login])
        case Success(id) =>
          var renewed := NewSessionId(stored.(sessionId := id), now, ping);
          if renewed.result.Failure? then Step(renewed.state, Failure(renewed.result.error), [login] + renewed.sent)
          else
            var info := Authed(renewed.state, PingCall(renewed.state), None, now, ping, ping);
            match info.result
            case Failure(e) => Step(info.state, Failure(e), [login] + renewed.sent + info.sent)
            case Success(envelope) =>
              Step(info.state.(studentId := envelope.data.user.id), Success(()), [login] + renewed.sent + info.sent)
  }

  /** An empty code fails before anything is sent, and nothing changes. */
  lemma StudentLoginNeedsCode(d: Dialect, s: Session, dob: string, reply: LoginReply,
                              decode: string -> Option<string>, now: int, ping: Request -> Reply<PingData>)
    ensures StudentLogin(d, s, "", dob, reply, decode, now, ping) == Step(s, Failure(Thrown(d.missing)), [])
  {
  }

  /** A rejected login post sends nothing more and changes nothing. */
  lemma StudentLoginRejected(d: Dialect, s: Session, code: string, dob: string, reply: LoginReply,
                             decode: string -> Option<string>, now: int, ping: Request -> Reply<PingData>)
    requires code != "" && !Accepted(d, reply)
    ensures StudentLogin(d, s, code, dob, reply, decode, now, ping)
      == Step(s, Failure(Thrown(RejectedMessage(d, reply))), [StudentLoginRequest(d, code, dob)])
  {
  }

  /** The form fields go out in a fixed order, the code upper-cased. */
  lemma StudentFormOrder(d: Dialect, code: string, dob: string)
    ensures var body := StudentLoginRequest(d, code, dob).body;
      && |body| == 5
      && body[0] == ("_method", "POST") && body[1] == ("code", ToUpper(code)) && body[2] == ("dob", dob)
      && body[3] == ("remember_me", "1") && body[4] == ("recaptcha-token", d.token)
  {
  }

  /**
   * Whatever the replies, the login keeps the API base, sends the login post
   * first, and a success leaves a session id that was pinged at `now`.
   */
  lemma StudentLoginOutcome(d: Dialect, s: Session, code: string, dob: string, reply: LoginReply,
                            decode: string -> Option<string>, now: int, ping: Request -> Reply<PingData>)
    ensures var st := StudentLogin(d, s, code, dob, reply, decode, now, ping);
      && st.state.apiBase == s.apiBase
      && (st.sent != [] ==> st.sent[0] == StudentLoginRequest(d, code, dob))
      && (st.result.Success? ==> st.state.lastPing == now && |st.sent| == 3 && st.state.authCookies == Split(reply.setCookie.value, d.separator))
  {
    if code != "" && Accepted(d, reply) {
      var cookies := reply.setCookie.value;
      var stored := s.(authCookies := Split(cookies, d.separator));
      match CookieSessionId(cookies, CredentialsCookie, d.keys, decode)
      case Failure(e) =>
      case Success(id) =>
        NewSessionIdFacts(stored.(sessionId := id), now, ping);
        var renewed := NewSessionId(stored.(sessionId := id), now, ping);
        AuthedFacts(renewed.state, PingCall(renewed.state), None, now, ping, ping);
    }
  }

  /**
   * A server that accepts the login with the credentials cookie
   * `student_session_credentials=encodeURIComponent(json)` and answers every
   * ping with the student's session and user: the login succeeds with three
   * requests, keeps the renewed session id, and takes the student id from
   * the ping.
   */
  lemma StudentLoginRoundTrip(d: Dialect, s: Session, code: string, dob: string, status: string, json: string, attrs: string,
                              decode: string -> Option<string>, sessionId: string, renewedId: string, user: User,
                              now: int, ping: Request -> Reply<PingData>)
    requires code != "" && IsAscii(json) && decode(json) == Some(sessionId) && sessionId != "" && renewedId != ""
    requires ',' !in attrs && (attrs == [] || attrs[0] == ';')
    requires forall r :: ping(r) == Json(Envelope(1, PingData(user), renewedId, ""))
    ensures var cookie := CredentialsCookie + "=" + EncodeComponent(json) + attrs;
      var st := StudentLogin(d, s, code, dob, LoginReply(302, status, Some(cookie), true), decode, now, ping);
      && st.result == Success(())
      && st.state == s.(authCookies := Split(cookie, d.separator), sessionId := renewedId, lastPing := now, studentId := user.id)
      && |st.sent| == 3
  {
    var cookie := CredentialsCookie + "=" + EncodeComponent(json) + attrs;
    assert PlainCookieName(CredentialsCookie) by { CredentialsCookieIsPlain(); }
    CredentialsRoundTrip(CredentialsCookie, json, attrs, d.keys, decode, sessionId);
    var stored := s.(authCookies := Split(cookie, d.separator), sessionId := sessionId);
    NewSessionIdFacts(stored, now, ping);
    var renewed := NewSessionId(stored, now, ping);
    assert renewed.state == stored.(sessionId := renewedId, lastPing := now);
    AuthedFacts(renewed.state, PingCall(renewed.state), None, now, ping, ping);
  }

  /** `student_session_credentials` needs neither decoding nor trimming. */
  lemma CredentialsCookieIsPlain()
    ensures PlainCookieName(CredentialsCookie)
  {
    var name := CredentialsCookie;
    assert name[0] == 's';
    forall i | 0 <= i < |name| ensures name[i] != ',' && name[i] != ';' && name[i] != '=' && name[i] != '%' {
    }
  }

  /**
   * The axios generation's rejection does not report the status, and an
   * array `set-cookie` header is truthy even when it is empty: the login is
   * rejected exactly when the status is not 302 or the header is missing.
   */
  lemma AxiosStudentRejected(s: Session, code: string, dob: string, reply: LoginReply,
                             decode: string -> Option<string>, now: int, ping: Request -> Reply<PingData>)
    requires code != ""
    ensures var st := StudentLogin(AxiosStudent, s, code, dob, reply, decode, now, ping);
      reply.status != 302 || reply.setCookie.None? <==>
        st.result == Failure(Thrown("Unauthenticated: Classcharts returned an error")) && st.sent == [StudentLoginRequest(AxiosStudent, code, dob)]
  {
    if Accepted(AxiosStudent, reply) {
      AcceptedFailures(AxiosStudent, s, code, dob, reply, decode, now, ping);
      assert "Unauthenticated: Classcharts returned an error" != "No session ID";
    } else {
      StudentLoginRejected(AxiosStudent, s, code, dob, reply, decode, now, ping);
      RejectedWithoutStatus(AxiosStudent, reply);
    }
  }

  /** The axios generation stores the header split on `;` and sends a fixed placeholder token. */
  lemma AxiosStudentDialect(s: Session, code: string, dob: string, reply: LoginReply,
                            decode: string -> Option<string>, now: int, ping: Request -> Reply<PingData>)
    ensures var st := StudentLogin(AxiosStudent, s, code, dob, reply, decode, now, ping);
      && (st.result.Success? ==> st.state.authCookies == Split(reply.setCookie.value, ';'))
      && StudentLoginRequest(AxiosStudent, code, dob).body[4] == ("recaptcha-token", "no-token-avaliable")
  {
    StudentLoginOutcome(AxiosStudent, s, code, dob, reply, decode, now, ping);
  }

  /** Once the login post is accepted, no failure is a rejection: they come from the cookie, the JSON or the pings. */
  lemma AcceptedFailures(d: Dialect, s: Session, code: string, dob: string, reply: LoginReply,
                         decode: string -> Option<string>, now: int, ping: Request -> Reply<PingData>)
    requires code != "" && Accepted(d, reply)
    ensures var st := StudentLogin(d, s, code, dob, reply, decode, now, ping);
      st.result.Failure? ==>
        st.result.error in {UriError, JsonSyntaxError, Thrown("No session ID")} || st.sent != [StudentLoginRequest(d, code, dob)]
  {
    var cookies := reply.setCookie.value;
    var stored := s.(authCookies := Split(cookies, d.separator));
    match CookieSessionId(cookies, CredentialsCookie, d.keys, decode)
    case Failure(e) =>
    case Success(id) =>
      NewSessionIdFacts(stored.(sessionId := id), now, ping);
  }

  class StudentClient {
    const base: BaseClient
    const dialect: Dialect
    const studentCode: string
    const dateOfBirth: string

    /** `String(studentCode)` and `String(dateOfBirth)`: an omitted date of birth is "undefined". */
    constructor(dialect: Dialect, studentCode: string, dateOfBirth: Option<string>)
      ensures fresh(base) && base.State() == Session(ApiBaseStudent, 0, [], "", 0)
      ensures this.dialect == dialect && this.studentCode == studentCode && this.dateOfBirth == StringOf(dateOfBirth)
    {
      base := new BaseClient(ApiBaseStudent);
      this.dialect := dialect;
      this.studentCode := studentCode;
      this.dateOfBirth := StringOf(dateOfBirth);
    }

    method Login(reply: LoginReply, decode: string -> Option<string>, now: int, ping: Request -> Reply<PingData>)
      returns (r: Result<(), Error>, sent: seq<Request>)
      modifies base
      ensures Step(base.State(), r, sent) == StudentLogin(dialect, old(base.State()), studentCode, dateOfBirth, reply, decode, now, ping)
    {
      if studentCode == "" {
        return Failure(Thrown(dialect.missing)), [];
      }
      var login := StudentLoginRequest(dialect, studentCode, dateOfBirth);
      if !Accepted(dialect, reply) {
        return Failure(Thrown(RejectedMessage(dialect, reply))), [login];
      }
      var cookies := reply.setCookie.value;
      base.authCookies := Split(cookies, dialect.separator);
      var sessionCookies := ParseCookies(cookies, dialect.keys);
      if sessionCookies.None? {
        return Failure(UriError), [login];
      }
      var sessionId := SessionIdOf(sessionCookies.value, CredentialsCookie, decode);
      if sessionId.Failure? {
        return Failure(sessionId.error), [login];
      }
      base.sessionId := sessionId.value;
      var renewed, pingSent := base.GetNewSessionId(now, ping);
      sent := [login] + pingSent;
      if renewed.Failure? {
        return Failure(renewed.error), sent;
      }
      var user, infoSent := base.GetStudentInfo(now, ping);
      sent := sent + infoSent;
      if user.Failure? {
        return Failure(user.error), sent;
      }
      base.studentId := user.value.data.user.id;
      r := Success(());
    }
  }
}
