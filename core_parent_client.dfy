/**
 * The parent client (src/core/parentClient.ts, and the ky generation in
 * src/parentClient.ts as the `KyParent` dialect): a form login that reads
 * the session id from the credentials cookie, fetches the pupils attached to
 * the account and selects the first; `selectPupil` picks another by id.
 *
 * As written, three faults stand one behind the other, and each is modelled
 * with the ones before it repaired:
 * - the login post follows the redirect it is answered with, so the test
 *   for a 302 passes only on a 302 without a `Location`
 *   (`ParentSignInFollowing`);
 * - `getPupils` asks for `super.API_BASE + "/pupils"`, and `super.API_BASE`
 *   is `undefined`, so no request can be built from the URL
 *   (`ParentLoginAsWritten`);
 * - `this.pupils` would be the whole envelope `makeAuthedRequest` returns,
 *   not its `data`, so `this.pupils[0].id` reads a property of `undefined`
 *   (`FirstOfEnvelope`).
 * `ParentLogin` is the login as evidently intended, and it is the one
 * `ParentClient` implements.
 */
module CoreParentClient {
  import opened Wrappers
  import opened Text
  import opened Uri
  import opened Errors
  import opened Http
  import opened Cookies
  import opened Login
  import opened Roster
  import opened CoreBaseClient

  const CredentialsCookie := "parent_session_credentials"

  /** What the `pupils` field holds: nothing (`undefined`) before a login gets its pupils, then a list of pupils. */
  datatype PupilsField = Unset | Listed(pupils: seq<Pupil>)

  datatype ParentState = ParentState(session: Session, pupils: PupilsField)

  /** `getPupils` as evidently intended: `GET <API_BASE>/pupils`. */
  function PupilsCall(s: Session): Call {
    Call(s.apiBase + "/pupils", Get, [], [], map[])
  }

  /**
   * `getPupils` as written: `API_BASE` is an instance field, so
   * `super.API_BASE` reads the prototype and is `undefined`.
   */
  const WrittenPupilsCall := Call("undefined" + "/pupils", Get, [], [], map[])

  /** The written URL names no scheme, while the intended one does. */
  lemma WrittenPupilsUrlIsRelative(s: Session)
    requires s.apiBase == ApiBaseParent
    ensures Schemeless(WrittenPupilsCall.url)
    ensures !Schemeless(PupilsCall(s).url)
  {
    assert PupilsCall(s).url[5] == ':';
    forall i | 0 <= i < |WrittenPupilsCall.url| ensures WrittenPupilsCall.url[i] != ':' {
    }
  }

  /**
   * The login up to the pupils request, as evidently intended: the guard,
   * the form post, whose own reply is checked (as with `redirect: "manual"`),
   * and the session id read from the cookie. The cookies are not stored. The
   * result is the session to fetch the pupils with.
   */
  function ParentSignIn(d: Dialect, s: Session, email: string, password: string, reply: LoginReply,
                        decode: string -> Option<string>): Step<Session, Session>
  {
    if email == "" then Step(s, Failure(Thrown(d.missing)), [])
    else
      var login := ParentLoginRequest(d, email, password);
      if !Accepted(d, reply) then Step(s, Failure(Thrown(RejectedMessage(d, reply))), [login])
      else
        match CookieSessionId(reply.setCookie.value, CredentialsCookie, d.keys, decode)
        case Failure(e) => Step(s, Failure(e), [login])
        case Success(id) => Step(s, Success(s.(sessionId := id)), [login])
  }

  /**
   * The same as written: the post follows a redirect that has a `Location`,
   * and for `ky` a status that is not 2xx throws before the check.
   */
  function ParentSignInFollowing(d: Dialect, s: Session, email: string, password: string, reply: LoginReply,
                                 followed: LoginReply, decode: string -> Option<string>): Step<Session, Session>
  {
    if email == "" then Step(s, Failure(Thrown(d.missing)), [])
    else
      var login := ParentLoginRequest(d, email, password);
      match Followed(reply, followed)
      case Failure(e) => Step(s, Failure(e), [login])
      case Success(seen) =>
        if d.httpErrors && !(200 <= seen.status < 300) then Step(s, Failure(HttpError(seen.status)), [login])
        else ParentSignIn(d, s, email, password, seen, decode)
  }

  /**
   * As written, a server that accepts the login with a 302 pointing
   * elsewhere has it rejected after the post alone, with nothing changed:
   * the client checks the page at the end of the chain. Only a 302 without
   * a `Location` reaches the intended sign-in, and only under `fetch`; `ky`
   * throws its HTTPError on it.
   */
  lemma ParentSignInFollowingOutcome(d: Dialect, s: Session, email: string, password: string, reply: LoginReply,
                                     followed: LoginReply, decode: string -> Option<string>)
    requires email != ""
    ensures var w := ParentSignInFollowing(d, s, email, password, reply, followed, decode);
      var seen := if Follows(reply) then followed else reply;
      && w.state == s
      && w.sent == [ParentLoginRequest(d, email, password)]
      && (w.result == Failure(TypeError) <==> Follows(reply) && Follows(followed))
      && (w.result.Success? ==> !d.httpErrors && Accepted(d, seen) && !seen.location)
      && (Follows(reply) && !IsRedirect(followed.status) ==>
            w.result == Failure(if d.httpErrors && !(200 <= followed.status < 300) then HttpError(followed.status)
                                else Thrown(RejectedMessage(d, followed))))
      && (!Follows(reply) ==>
            w == if d.httpErrors && !(200 <= reply.status < 300)
                 then Step(s, Failure(HttpError(reply.status)), [ParentLoginRequest(d, email, password)])
                 else ParentSignIn(d, s, email, password, reply, decode))
  {
    var f := Followed(reply, followed);
    if f.Success? {
      FollowedAcceptsOnlyWithoutLocation(d, reply, followed);
    }
  }

  /**
   * The rest of `login()` as evidently intended, once the sign-in has given
   * the session `s`: the pupils are the envelope's `data`, and an empty list
   * has no pupils attached.
   */
  function ListPupils(st: ParentState, s: Session, now: int,
                      ping: Request -> Reply<PingData>, server: Request -> Reply<seq<Pupil>>): Step<ParentState, ()>
  {
    var fetched := Authed(s, PupilsCall(s), None, now, ping, server);
    match fetched.result
    case Failure(e) => Step(st.(session := fetched.state), Failure(e), fetched.sent)
    case Success(envelope) =>
      var listed := st.(session := fetched.state, pupils := Listed(envelope.data));
      match FirstPupil(Some(envelope.data))
      case Failure(e) => Step(listed, Failure(e), fetched.sent)
      case Success(first) => Step(listed.(session := listed.session.(studentId := first.id)), Success(()), fetched.sent)
  }

  /** `login()` as evidently intended. */
  function ParentLogin(d: Dialect, st: ParentState, email: string, password: string, reply: LoginReply,
                       decode: string -> Option<string>, now: int,
                       ping: Request -> Reply<PingData>, server: Request -> Reply<seq<Pupil>>): Step<ParentState, ()>
  {
    var signIn := ParentSignIn(d, st.session, email, password, reply, decode);
    match signIn.result
    case Failure(e) => Step(st, Failure(e), signIn.sent)
    case Success(s) => Continue(ListPupils(st, s, now, ping, server), signIn.sent)
  }

  /**
   * `login()` as written from the sign-in on, for a sign-in that gets
   * through: the session id is stored, then `getPupils` asks for
   * `undefined/pupils`, and `ky` throws a TypeError without sending it
   * (after a ping, if one is due). `this.pupils` is never assigned.
   */
  function ParentLoginAsWritten(d: Dialect, st: ParentState, email: string, password: string, reply: LoginReply,
                                decode: string -> Option<string>, now: int,
                                ping: Request -> Reply<PingData>): Step<ParentState, ()>
  {
    var signIn := ParentSignIn(d, st.session, email, password, reply, decode);
    match signIn.result
    case Failure(e) => Step(st, Failure(e), signIn.sent)
    case Success(s) =>
      var fetched := AuthedUnsendable(s, WrittenPupilsCall, None, now, ping);
      Step(st.(session := fetched.state), fetched.result, signIn.sent + fetched.sent)
  }

  /**
   * `this.pupils[0].id` as written, once the pupils arrive: `this.pupils` is
   * the whole envelope `makeAuthedRequest` returns, which is truthy and has
   * no element `0`, so reading `.id` throws a TypeError whatever it lists.
   */
  function FirstOfEnvelope(envelope: Envelope<seq<Pupil>>): (r: Result<Pupil, Error>)
    ensures r.Failure?
  {
    Failure(TypeError)
  }

  /** A reply that lists pupils: a TypeError as written, its first pupil as intended. */
  lemma EnvelopeIsNoRoster(envelope: Envelope<seq<Pupil>>)
    requires envelope.data != []
    ensures FirstOfEnvelope(envelope) == Failure(TypeError)
    ensures FirstPupil(Some(envelope.data)) == Success(envelope.data[0])
  {
  }

  /**
   * `selectPupil(pupilId)`: no id (`0`) is refused; before a login the list
   * is `undefined` and reading its length throws; otherwise the first pupil
   * with that id becomes the selected student.
   */
  function SelectedPupil(st: ParentState, pupilId: int): (ParentState, Result<(), Error>) {
    if pupilId == 0 then (st, Failure(Thrown("No pupil ID specified")))
    else
      match st.pupils
      case Unset => (st, Failure(TypeError))
      case Listed(pupils) =>
        match FindPupil(pupils, pupilId)
        case None => (st, Failure(Thrown("No pupil with specified ID returned")))
        case Some(i) => (st.(session := st.session.(studentId := pupils[i].id)), Success(()))
  }

  /** An empty email fails before anything is sent, and nothing changes. */
  lemma ParentLoginNeedsEmail(d: Dialect, st: ParentState, password: string, reply: LoginReply,
                              decode: string -> Option<string>, now: int,
                              ping: Request -> Reply<PingData>, server: Request -> Reply<seq<Pupil>>)
    ensures ParentLogin(d, st, "", password, reply, decode, now, ping, server) == Step(st, Failure(Thrown(d.missing)), [])
  {
  }

  /**
   * A successful login has sent the form post first, kept the API base and
   * the cookies, listed a non-empty roster and selected its first pupil.
   */
  lemma ParentLoginOutcome(d: Dialect, st: ParentState, email: string, password: string, reply: LoginReply,
                           decode: string -> Option<string>, now: int,
                           ping: Request -> Reply<PingData>, server: Request -> Reply<seq<Pupil>>)
    ensures var r := ParentLogin(d, st, email, password, reply, decode, now, ping, server);
      && r.state.session.apiBase == st.session.apiBase
      && r.state.session.authCookies == st.session.authCookies
      && (r.sent != [] ==> r.sent[0] == ParentLoginRequest(d, email, password))
      && (r.result.Success? ==>
            && r.state.pupils.Listed? && r.state.pupils.pupils != []
            && r.state.session.studentId == r.state.pupils.pupils[0].id
            && server(r.sent[|r.sent| - 1]).Json? && server(r.sent[|r.sent| - 1]).envelope.data == r.state.pupils.pupils)
  {
    var signIn := ParentSignIn(d, st.session, email, password, reply, decode);
    if signIn.result.Success? {
      var s := signIn.result.value;
      AuthedFacts(s, PupilsCall(s), None, now, ping, server);
    }
  }

  /**
   * The ky generation: its own wording of a missing email and of a
   * rejection, which still reports the status; the cookies are not stored
   * either.
   */
  lemma KyParentDialect(st: ParentState, email: string, password: string, reply: LoginReply,
                        decode: string -> Option<string>, now: int,
                        ping: Request -> Reply<PingData>, server: Request -> Reply<seq<Pupil>>)
    ensures var r := ParentLogin(KyParent, st, email, password, reply, decode, now, ping, server);
      && (email == "" ==> r == Step(st, Failure(Thrown("Email not inputted")), []))
      && (email != "" && !Accepted(KyParent, reply) ==>
            r == Step(st, Failure(Thrown("Unauthenticated: Classcharts returned an error: " + StatusLine(reply.status, reply.statusText))),
                      [ParentLoginRequest(KyParent, email, password)]))
      && r.state.session.authCookies == st.session.authCookies
      && ParentLoginRequest(KyParent, email, password).body[4] == ("recaptcha-token", "no-token-avaliable")
  {
    ParentLoginOutcome(KyParent, st, email, password, reply, decode, now, ping, server);
    KyRejection(reply);
  }

  lemma KyRejection(reply: LoginReply)
    ensures RejectedMessage(KyParent, reply) == "Unauthenticated: Classcharts returned an error: " + StatusLine(reply.status, reply.statusText)
  {
    var line := StatusLine(reply.status, reply.statusText);
    var prefix := "Unauthenticated: " + "Classcharts" + " returned an error: ";
    assert RejectedMessage(KyParent, reply) == prefix + line;
    KyRejectionPrefix();
  }

  /** The ky rejection's words, put together. */
  lemma KyRejectionPrefix()
    ensures "Unauthenticated: " + "Classcharts" + " returned an error: " == "Unauthenticated: Classcharts returned an error: "
  {
  }

  /**
   * As written no login succeeds. Against the intended login on any server:
   * the same session afterwards (the session id stored, a due ping done)
   * but no pupil selected and no pupils stored; where the intended login
   * gets as far as asking for the pupils, the written one throws a
   * TypeError with the same requests sent but that last one; anywhere else
   * the two agree.
   */
  lemma ParentLoginAsWrittenNeverSucceeds(d: Dialect, st: ParentState, email: string, password: string, reply: LoginReply,
                                          decode: string -> Option<string>, now: int,
                                          ping: Request -> Reply<PingData>, server: Request -> Reply<seq<Pupil>>)
    ensures var w := ParentLoginAsWritten(d, st, email, password, reply, decode, now, ping);
      var r := ParentLogin(d, st, email, password, reply, decode, now, ping, server);
      && w.result.Failure?
      && w.state.pupils == st.pupils
      && w.state.session == r.state.session.(studentId := st.session.studentId)
      && (w.result == Failure(TypeError) <==> |r.sent| == |w.sent| + 1 && r.sent[..|w.sent|] == w.sent)
      && (r.result.Success? ==> w.result == Failure(TypeError))
      && (w.result != Failure(TypeError) ==> w == r)
  {
    var signIn := ParentSignIn(d, st.session, email, password, reply, decode);
    if signIn.result.Success? {
      var s := signIn.result.value;
      var u := AuthedUnsendable(s, WrittenPupilsCall, None, now, ping);
      var l := ListPupils(st, s, now, ping, server);
      WrittenPupilsAgainstIntended(st, s, now, ping, server);
      if u.result == Failure(TypeError) {
        assert (signIn.sent + l.sent)[..|signIn.sent + u.sent|] == signIn.sent + u.sent;
      } else {
        assert signIn.sent + u.sent + [Outgoing(s, PupilsCall(s))] != signIn.sent + l.sent;
      }
    } else {
      assert signIn.result.error != TypeError;
    }
  }

  /** The written pupils request against the intended one, from the session the sign-in gave. */
  lemma WrittenPupilsAgainstIntended(st: ParentState, s: Session, now: int,
                                     ping: Request -> Reply<PingData>, server: Request -> Reply<seq<Pupil>>)
    ensures var u := AuthedUnsendable(s, WrittenPupilsCall, None, now, ping);
      var l := ListPupils(st, s, now, ping, server);
      && u.state == l.state.session.(studentId := s.studentId)
      && (u.result == Failure(TypeError) <==> l.sent == u.sent + [Outgoing(s, PupilsCall(s))])
      && (l.result.Success? ==> u.result == Failure(TypeError))
      && (u.result != Failure(TypeError) ==> l == Step(st.(session := u.state), u.result, u.sent))
  {
    WrittenPupilsUrlIsRelative(s.(apiBase := ApiBaseParent));
    AuthedUnsendableStopsShort(s, WrittenPupilsCall, PupilsCall(s), None, now, ping, server);
    var a := Authed(s, PupilsCall(s), None, now, ping, server);
    assert a.state.studentId == s.studentId by {
      AuthedFacts(s, PupilsCall(s), None, now, ping, server);
    }
  }

  /** After the written login, from a client that had no pupils, `selectPupil` with an id throws a TypeError. */
  lemma NoPupilAfterWrittenLogin(d: Dialect, st: ParentState, email: string, password: string, reply: LoginReply,
                                 decode: string -> Option<string>, now: int,
                                 ping: Request -> Reply<PingData>, pupilId: int)
    requires st.pupils == Unset && pupilId != 0
    ensures var w := ParentLoginAsWritten(d, st, email, password, reply, decode, now, ping);
      SelectedPupil(w.state, pupilId) == (w.state, Failure(TypeError))
  {
  }

  /**
   * On a listed roster, `selectPupil` succeeds exactly when some pupil has
   * the id, and then selects that id and changes nothing else.
   */
  lemma SelectPupilFinds(st: ParentState, pupilId: int)
    requires st.pupils.Listed? && pupilId != 0
    ensures var (st', r) := SelectedPupil(st, pupilId);
      && (r.Success? <==> exists j :: 0 <= j < |st.pupils.pupils| && st.pupils.pupils[j].id == pupilId)
      && (r.Success? ==> st' == st.(session := st.session.(studentId := pupilId)))
      && (r.Failure? ==> st' == st && r.error == Thrown("No pupil with specified ID returned"))
  {
    var pupils := st.pupils.pupils;
    if FindPupil(pupils, pupilId).None? {
      assert forall j :: 0 <= j < |pupils| ==> pupils[j].id != pupilId;
    }
  }

  /**
   * A server that accepts the login with the credentials cookie
   * `parent_session_credentials=encodeURIComponent(json)` and lists a
   * non-empty roster: two requests, the login post and the pupils, and the
   * first pupil is selected.
   */
  lemma ParentLoginRoundTrip(d: Dialect, st: ParentState, email: string, password: string, status: string,
                             json: string, attrs: string, decode: string -> Option<string>, sessionId: string,
                             roster: seq<Pupil>, meta: string, now: int,
                             ping: Request -> Reply<PingData>, server: Request -> Reply<seq<Pupil>>)
    requires email != "" && IsAscii(json) && decode(json) == Some(sessionId) && sessionId != "" && roster != []
    requires ',' !in attrs && (attrs == [] || attrs[0] == ';')
    requires st.session.lastPing == 0
    requires forall r :: server(r) == Json(Envelope(1, roster, meta, ""))
    ensures var cookie := CredentialsCookie + "=" + EncodeComponent(json) + attrs;
      var r := ParentLogin(d, st, email, password, LoginReply(302, status, Some(cookie), true), decode, now, ping, server);
      && r.result == Success(())
      && r.state == ParentState(st.session.(sessionId := sessionId, studentId := roster[0].id), Listed(roster))
      && |r.sent| == 2
  {
    var cookie := CredentialsCookie + "=" + EncodeComponent(json) + attrs;
    CredentialsCookieIsPlain();
    CredentialsRoundTrip(CredentialsCookie, json, attrs, d.keys, decode, sessionId);
    var s := st.session.(sessionId := sessionId);
    AuthedFacts(s, PupilsCall(s), None, now, ping, server);
  }

  /** `parent_session_credentials` needs neither decoding nor trimming. */
  lemma CredentialsCookieIsPlain()
    ensures PlainCookieName(CredentialsCookie)
  {
    var name := CredentialsCookie;
    assert name[0] == 'p';
    forall i | 0 <= i < |name| ensures name[i] != ',' && name[i] != ';' && name[i] != '=' && name[i] != '%' {
    }
  }

  class ParentClient {
    const base: BaseClient
    const dialect: Dialect
    const email: string
    const password: string
    var pupils: PupilsField

    function State(): ParentState
      reads this, base
    {
      ParentState(base.State(), pupils)
    }

    /** `String(email)` and `String(password)`. */
    constructor(dialect: Dialect, email: string, password: string)
      ensures fresh(base) && State() == ParentState(Session(ApiBaseParent, 0, [], "", 0), Unset)
      ensures this.dialect == dialect && this.email == email && this.password == password
    {
      base := new BaseClient(ApiBaseParent);
      this.dialect := dialect;
      this.email := email;
      this.password := password;
      pupils := Unset;
    }

    method GetPupils(now: int, ping: Request -> Reply<PingData>, server: Request -> Reply<seq<Pupil>>)
      returns (r: Result<Envelope<seq<Pupil>>, Error>, sent: seq<Request>)
      modifies base
      ensures Step(base.State(), r, sent) == Authed(old(base.State()), PupilsCall(old(base.State())), None, now, ping, server)
    {
      r, sent := base.MakeAuthedRequest(PupilsCall(base.State()), None, now, ping, server);
    }

    method Login(reply: LoginReply, decode: string -> Option<string>, now: int,
                 ping: Request -> Reply<PingData>, server: Request -> Reply<seq<Pupil>>)
      returns (r: Result<(), Error>, sent: seq<Request>)
      modifies this, base
      ensures Step(State(), r, sent) == ParentLogin(dialect, old(State()), email, password, reply, decode, now, ping, server)
    {
      if email == "" {
        return Failure(Thrown(dialect.missing)), [];
      }
      var login := ParentLoginRequest(dialect, email, password);
      if !Accepted(dialect, reply) {
        return Failure(Thrown(RejectedMessage(dialect, reply))), [login];
      }
      var sessionCookies := ParseCookies(reply.setCookie.value, dialect.keys);
      if sessionCookies.None? {
        return Failure(UriError), [login];
      }
      var sessionId := SessionIdOf(sessionCookies.value, CredentialsCookie, decode);
      if sessionId.Failure? {
        return Failure(sessionId.error), [login];
      }
      base.sessionId := sessionId.value;
      var fetched, fetchSent := GetPupils(now, ping, server);
      sent := [login] + fetchSent;
      if fetched.Failure? {
        return Failure(fetched.error), sent;
      }
      pupils := Listed(fetched.value.data);
      if pupils.pupils == [] {
        return Failure(Thrown("Account has no pupils attached")), sent;
      }
      base.studentId := pupils.pupils[0].id;
      r := Success(());
    }

    method SelectPupil(pupilId: int) returns (r: Result<(), Error>)
      modifies base
      ensures (State(), r) == SelectedPupil(old(State()), pupilId)
    {
      if pupilId == 0 {
        return Failure(Thrown("No pupil ID specified"));
      }
      if pupils.Unset? {
        return Failure(TypeError);
      }
      var list := pupils.pupils;
      for i := 0 to |list|
        invariant forall j :: 0 <= j < i ==> list[j].id != pupilId
      {
        if list[i].id == pupilId {
          base.studentId := list[i].id;
          FindPupilFirst(list, pupilId, i);
          return Success(());
        }
      }
      r := Failure(Thrown("No pupil with specified ID returned"));
    }
  }
}
