/**
 * The undici parent client, `ClasschartsParentClient` of src/parent.ts: a
 * form login that cuts the `set-cookie` array cookie by cookie and stores
 * it, reads the session id from the third cookie, fetches the pupils and
 * selects the first; `selectPupil` picks another by id and takes its name
 * too.
 *
 * Here the pupils are the reply's `data`, so the login works, except on an
 * empty roster: `!this.pupils` is false for an empty array and
 * `this.pupils[0].id` throws a TypeError. `UndiciParentLoginAsWritten`
 * models that; `UndiciParentLogin` reports the empty roster with the
 * message the guard was meant to give, and `UndiciParentClient` implements
 * it.
 */
module LegacyParentClient {
  import opened Wrappers
  import opened Text
  import opened Uri
  import opened Errors
  import opened Http
  import opened Cookies
  import opened Login
  import opened Roster
  import opened LegacyBaseClient

  /** The client's fields: the base client's, and `pupils`, `undefined` until a login sets it. */
  datatype UndiciParentState = UndiciParentState(session: LegacySession, pupils: Option<seq<Pupil>>)

  /** The pupils `getPupils` hands back: the data, or `undefined`. */
  function PupilsOf(r: Returned<seq<Pupil>>): Option<seq<Pupil>> {
    if r.DataOnly? then Some(r.data) else None
  }

  /**
   * The login up to `this.pupils = await this.getPupils()`: the guard, the
   * form post, the cookies cut and stored, the session id, and the pupils
   * stored. The result is the stored roster.
   */
  function UndiciParentFetch(st: UndiciParentState, email: string, password: string, reply: CookieArrayReply,
                             decode: string -> Option<string>, server: Request -> Reply<seq<Pupil>>)
    : Step<UndiciParentState, Option<seq<Pupil>>>
  {
    if email == "" then Step(st, Failure(Thrown(UndiciParent.missing)), [])
    else
      var login := ParentLoginRequest(UndiciParent, email, password);
      if !ArrayAccepted(reply) then Step(st, Failure(Thrown("Unauthenticated: Classcharts returned an error")), [login])
      else
        var cookies := TruncateAll(reply.setCookie.value);
        var stored := st.(session := st.session.(authCookies := Some(cookies)));
        match ThirdCookieSessionId(cookies, decode)
        case Failure(e) => Step(stored, Failure(e), [login])
        case Success(id) =>
          var signed := stored.(session := stored.session.(sessionId := id));
          var fetched := LegacyAuthed(Undici, signed.session, LegacyPupilsCall(signed.session), false, server);
          match fetched.result
          case Failure(e) => Step(signed, Failure(e), [login] + fetched.sent)
          case Success(r) => Step(signed.(pupils := PupilsOf(r)), Success(PupilsOf(r)), [login] + fetched.sent)
  }

  /** The last step of the login: the chosen pupil becomes the student, id and name. */
  function Choose(fetch: Step<UndiciParentState, Option<seq<Pupil>>>, first: Result<Pupil, Error>): Step<UndiciParentState, ()> {
    if fetch.result.Failure? then Step(fetch.state, Failure(fetch.result.error), fetch.sent)
    else
      match first
      case Failure(e) => Step(fetch.state, Failure(e), fetch.sent)
      case Success(p) =>
        var st := fetch.state;
        Step(st.(session := st.session.(studentId := p.id, studentName := p.name)), Success(()), fetch.sent)
  }

  /** `login()` as evidently intended: an empty roster has no pupils attached. */
  function UndiciParentLogin(st: UndiciParentState, email: string, password: string, reply: CookieArrayReply,
                             decode: string -> Option<string>, server: Request -> Reply<seq<Pupil>>): Step<UndiciParentState, ()>
  {
    var fetch := UndiciParentFetch(st, email, password, reply, decode, server);
    Choose(fetch, if fetch.result.Success? then FirstPupil(fetch.result.value) else Failure(TypeError))
  }

  /** `login()` as written: an empty roster reaches `this.pupils[0].id`. */
  function UndiciParentLoginAsWritten(st: UndiciParentState, email: string, password: string, reply: CookieArrayReply,
                                      decode: string -> Option<string>, server: Request -> Reply<seq<Pupil>>): Step<UndiciParentState, ()>
  {
    var fetch := UndiciParentFetch(st, email, password, reply, decode, server);
    Choose(fetch, if fetch.result.Success? then FirstPupilAsWritten(fetch.result.value) else Failure(TypeError))
  }

  /**
   * `selectPupil(pupilId)`: no id (`0`) is refused; before a login the list
   * is `undefined` and reading its length throws; otherwise the first pupil
   * with that id becomes the student, id and name.
   */
  function UndiciSelectedPupil(st: UndiciParentState, pupilId: int): (UndiciParentState, Result<(), Error>) {
    if pupilId == 0 then (st, Failure(Thrown("No pupil ID specified")))
    else if st.pupils.None? then (st, Failure(TypeError))
    else
      var pupils := st.pupils.value;
      match FindPupil(pupils, pupilId)
      case None => (st, Failure(Thrown("No pupil with specified ID returned")))
      case Some(i) => (st.(session := st.session.(studentId := pupils[i].id, studentName := pupils[i].name)), Success(()))
  }

  /** An empty email fails before anything is sent, and nothing changes. */
  lemma UndiciParentLoginNeedsEmail(st: UndiciParentState, password: string, reply: CookieArrayReply,
                                    decode: string -> Option<string>, server: Request -> Reply<seq<Pupil>>)
    ensures UndiciParentLogin(st, "", password, reply, decode, server) == Step(st, Failure(Thrown("Email not inputted")), [])
  {
  }

  /** A status other than 302, or no `set-cookie` array, fails after the login post alone and changes nothing. */
  lemma UndiciParentLoginRejected(st: UndiciParentState, email: string, password: string, reply: CookieArrayReply,
                                  decode: string -> Option<string>, server: Request -> Reply<seq<Pupil>>)
    requires email != "" && (reply.statusCode != 302 || reply.setCookie.None?)
    ensures UndiciParentLogin(st, email, password, reply, decode, server)
      == Step(st, Failure(Thrown("Unauthenticated: Classcharts returned an error")), [ParentLoginRequest(UndiciParent, email, password)])
  {
  }

  /** The fetch keeps the API base, sends the form post first, and on success stores the roster the second reply holds. */
  lemma UndiciParentFetchFacts(st: UndiciParentState, email: string, password: string, reply: CookieArrayReply,
                               decode: string -> Option<string>, server: Request -> Reply<seq<Pupil>>)
    ensures var f := UndiciParentFetch(st, email, password, reply, decode, server);
      && f.state.session.apiBase == st.session.apiBase
      && (f.sent != [] ==> f.sent[0] == ParentLoginRequest(UndiciParent, email, password))
      && (email != "" && ArrayAccepted(reply) ==> f.state.session.authCookies == Some(TruncateAll(reply.setCookie.value)))
      && (f.result.Success? ==>
            && |f.sent| == 2 && f.state.pupils == f.result.value
            && (f.result.value.Some? ==> server(f.sent[1]).Json? && server(f.sent[1]).envelope.data == f.result.value.value))
  {
  }

  /**
   * Whatever the replies, the login keeps the API base and sends the form
   * post first; once the post is accepted the cookies are stored cut at
   * `;`; a success has stored a non-empty roster, the data of the last
   * reply, and made its first pupil the student.
   */
  lemma UndiciParentLoginOutcome(st: UndiciParentState, email: string, password: string, reply: CookieArrayReply,
                                 decode: string -> Option<string>, server: Request -> Reply<seq<Pupil>>)
    ensures var r := UndiciParentLogin(st, email, password, reply, decode, server);
      && r.state.session.apiBase == st.session.apiBase
      && (r.sent != [] ==> r.sent[0] == ParentLoginRequest(UndiciParent, email, password))
      && (email != "" && ArrayAccepted(reply) ==> r.state.session.authCookies == Some(TruncateAll(reply.setCookie.value)))
      && (r.result.Success? ==>
            && |r.sent| == 2 && r.state.pupils.Some? && r.state.pupils.value != []
            && r.state.session.studentId == r.state.pupils.value[0].id
            && r.state.session.studentName == r.state.pupils.value[0].name
            && server(r.sent[1]).Json? && server(r.sent[1]).envelope.data == r.state.pupils.value)
  {
    UndiciParentFetchFacts(st, email, password, reply, decode, server);
  }

  /**
   * The login as written and as intended send the same requests and leave
   * the same fields; they differ only on an empty roster, which the written
   * one reports as a TypeError.
   */
  lemma UndiciEmptyRoster(st: UndiciParentState, email: string, password: string, reply: CookieArrayReply,
                          decode: string -> Option<string>, server: Request -> Reply<seq<Pupil>>)
    ensures var w := UndiciParentLoginAsWritten(st, email, password, reply, decode, server);
      var r := UndiciParentLogin(st, email, password, reply, decode, server);
      && w.state == r.state && w.sent == r.sent
      && (w.result != r.result <==> UndiciParentFetch(st, email, password, reply, decode, server).result == Success(Some([])))
      && (w.result != r.result ==> w.result == Failure(TypeError) && r.result == Failure(Thrown("Account has no pupils attached")))
  {
    var fetch := UndiciParentFetch(st, email, password, reply, decode, server);
    if fetch.result.Success? {
      if fetch.result.value != Some([]) {
        FirstPupilAgrees(fetch.result.value);
      }
    }
  }

  /** A reply that lists no pupils: the written login throws a TypeError where the intended one reports no pupils. */
  lemma UndiciEmptyRosterExample(st: UndiciParentState, email: string, password: string, reply: CookieArrayReply,
                                 decode: string -> Option<string>, server: Request -> Reply<seq<Pupil>>)
    requires UndiciParentFetch(st, email, password, reply, decode, server).result == Success(Some([]))
    ensures UndiciParentLoginAsWritten(st, email, password, reply, decode, server).result == Failure(TypeError)
    ensures UndiciParentLogin(st, email, password, reply, decode, server).result == Failure(Thrown("Account has no pupils attached"))
  {
    EmptyRosterThrowsTypeError();
  }

  /**
   * Once the pupils are listed, `selectPupil` succeeds exactly when some
   * pupil has the id, and then selects the id and name of the first pupil
   * with that id and changes nothing else.
   */
  lemma UndiciSelectPupilFinds(st: UndiciParentState, pupilId: int)
    requires st.pupils.Some? && pupilId != 0
    ensures var (st', r) := UndiciSelectedPupil(st, pupilId);
      var ps := st.pupils.value;
      && (r.Success? <==> exists j :: 0 <= j < |ps| && ps[j].id == pupilId)
      && (r.Success? ==> exists j ::
            && 0 <= j < |ps| && ps[j].id == pupilId
            && (forall k :: 0 <= k < j ==> ps[k].id != pupilId)
            && st' == st.(session := st.session.(studentId := ps[j].id, studentName := ps[j].name)))
      && (r.Failure? ==> st' == st && r.error == Thrown("No pupil with specified ID returned"))
  {
    var pupils := st.pupils.value;
    match FindPupil(pupils, pupilId)
    case None =>
    case Some(i) =>
      assert 0 <= i < |pupils| && pupils[i].id == pupilId;
      assert forall k :: 0 <= k < i ==> pupils[k].id != pupilId;
  }

  /**
   * A server that sets the credentials as the third cookie,
   * `name=encodeURIComponent(json); attributes`, and lists a non-empty
   * roster: two requests, the cut cookies stored, and the first pupil
   * selected.
   */
  lemma UndiciParentLoginRoundTrip(st: UndiciParentState, email: string, password: string,
                                   first: string, second: string, name: string, json: string, attrs: string,
                                   decode: string -> Option<string>, sessionId: string, roster: seq<Pupil>, meta: string,
                                   server: Request -> Reply<seq<Pupil>>)
    requires email != "" && PlainCookieName(name) && '{' !in name && roster != []
    requires IsAscii(json) && OnlyColonCommaReserved(json) && json != [] && json[0] == '{' && decode(json) == Some(sessionId)
    requires |attrs| > 0 && attrs[0] == ';'
    requires forall r :: server(r) == Json(Envelope(1, roster, meta, ""))
    ensures var header := [first, second, name + "=" + EncodeComponent(json) + attrs];
      var r := UndiciParentLogin(st, email, password, CookieArrayReply(302, Some(header)), decode, server);
      && r.result == Success(())
      && r.state == UndiciParentState(st.session.(authCookies := Some(TruncateAll(header)), sessionId := sessionId,
                                                  studentId := roster[0].id, studentName := roster[0].name), Some(roster))
      && |r.sent| == 2
  {
    ThirdCookieRoundTrip(first, second, name, json, attrs, decode, sessionId);
  }

  /** `ClasschartsParentClient` of src/parent.ts, on the undici base client. */
  class UndiciParentClient {
    const base: LegacyClient
    const email: string
    const password: string
    var pupils: Option<seq<Pupil>>

    function State(): UndiciParentState
      reads this, base
    {
      UndiciParentState(base.State(), pupils)
    }

    /** `String(email)` and `String(password)`. */
    constructor(email: string, password: string)
      ensures fresh(base) && base.flavor == Undici
      ensures State() == UndiciParentState(LegacySession(ApiBaseParent, 0, "", None, ""), None)
      ensures this.email == email && this.password == password
    {
      base := new LegacyClient(Undici, ApiBaseParent);
      this.email := email;
      this.password := password;
      pupils := None;
    }

    method GetPupils(server: Request -> Reply<seq<Pupil>>) returns (r: Result<Option<seq<Pupil>>, Error>, sent: seq<Request>)
      requires base.flavor == Undici
      ensures var o := LegacyAuthed(Undici, base.State(), LegacyPupilsCall(base.State()), false, server);
        sent == o.sent && r == if o.result.Failure? then Failure(o.result.error) else Success(PupilsOf(o.result.value))
    {
      var data;
      data, sent := base.GetPupil(server);
      r := if data.Failure? then Failure(data.error) else Success(PupilsOf(data.value));
    }

    method Login(reply: CookieArrayReply, decode: string -> Option<string>, server: Request -> Reply<seq<Pupil>>)
      returns (r: Result<(), Error>, sent: seq<Request>)
      requires base.flavor == Undici
      modifies this, base
      ensures Step(State(), r, sent) == UndiciParentLogin(old(State()), email, password, reply, decode, server)
    {
      if email == "" {
        return Failure(Thrown(UndiciParent.missing)), [];
      }
      var login := ParentLoginRequest(UndiciParent, email, password);
      if !ArrayAccepted(reply) {
        return Failure(Thrown("Unauthenticated: Classcharts returned an error")), [login];
      }
      var cookies := CutCookies(reply.setCookie.value);
      base.authCookies := Some(cookies);
      var sessionId := ThirdCookieSessionId(cookies, decode);
      if sessionId.Failure? {
        return Failure(sessionId.error), [login];
      }
      base.sessionId := sessionId.value;
      var fetched, fetchSent := GetPupils(server);
      sent := [login] + fetchSent;
      if fetched.Failure? {
        return Failure(fetched.error), sent;
      }
      pupils := fetched.value;
      if pupils.None? || pupils.value == [] {
        return Failure(Thrown("Account has no pupils attached")), sent;
      }
      base.studentId := pupils.value[0].id;
      base.studentName := pupils.value[0].name;
      r := Success(());
    }

    method SelectPupil(pupilId: int) returns (r: Result<(), Error>)
      modifies base
      ensures (State(), r) == UndiciSelectedPupil(old(State()), pupilId)
    {
      if pupilId == 0 {
        return Failure(Thrown("No pupil ID specified"));
      }
      if pupils.None? {
        return Failure(TypeError);
      }
      var list := pupils.value;
      for i := 0 to |list|
        invariant forall j :: 0 <= j < i ==> list[j].id != pupilId
      {
        if list[i].id == pupilId {
          base.studentId := list[i].id;
          base.studentName := list[i].name;
          FindPupilFirst(list, pupilId, i);
          return Success(());
        }
      }
      r := Failure(Thrown("No pupil with specified ID returned"));
    }
  }
}
