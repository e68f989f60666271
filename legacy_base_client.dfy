/**
 * The earlier generations of the base client: the axios `ClasschartsClient`
 * of src/baseClient.ts and the undici `ClasschartsClient` of src/client.ts
 * (whose `makeAuthedRequest` src/dummyClient.ts repeats). They keep a
 * student name beside the id, guard on the cookies rather than the session
 * id, never revalidate, and hand back the envelope's `data`. The requests
 * they send are the core client's, built from the same functions.
 */
module LegacyBaseClient {
  import opened Wrappers
  import opened Text
  import opened Errors
  import opened Http
  import opened HomeworkText
  import opened Cookies
  import opened CoreBaseClient

  /** Which generation: the axios one keeps the caller's headers and has `includeMeta`; the undici one does neither. */
  datatype Flavor = Axios | Undici

  /** The fields of a legacy client; `authCookies` is `undefined` until a login stores them. */
  datatype LegacySession = LegacySession(apiBase: string, studentId: int, studentName: string,
                                         authCookies: Option<seq<string>>, sessionId: string)

  /** The same session seen by the core request builders, which read only the API base and the student id. */
  function AsCore(s: LegacySession): Session {
    Session(s.apiBase, s.studentId, s.authCookies.GetOr([]), s.sessionId, 0)
  }

  /** What a legacy call did: its outcome and the requests it dispatched. Legacy requests change no field. */
  datatype Outcome<T> = Outcome(result: Result<T, Error>, sent: seq<Request>)

  /** What `makeAuthedRequest` hands back: the whole envelope (`includeMeta`), its `data`, a body that is not JSON, or `undefined`. */
  datatype Returned<D> = Whole(envelope: Envelope<D>) | DataOnly(data: D) | RawBody | Missing

  /**
   * The headers: `Cookie` is the stored cookies joined with `;` and the
   * lower-case `authorization` is "Basic " + the session id; the axios
   * client spreads the caller's headers after them, the undici one drops
   * them.
   */
  function LegacyHeaders(f: Flavor, cookies: seq<string>, sessionId: string, caller: map<string, string>): (h: map<string, string>)
    ensures f == Undici ==> h == map["Cookie" := Join(cookies, ';'), "authorization" := "Basic " + sessionId]
    ensures f == Axios ==> h.Keys == caller.Keys + {"Cookie", "authorization"} && forall k :: k in caller ==> h[k] == caller[k]
    ensures f == Axios && "Cookie" !in caller ==> h["Cookie"] == Join(cookies, ';')
    ensures f == Axios && "authorization" !in caller ==> h["authorization"] == "Basic " + sessionId
  {
    var own := map["Cookie" := Join(cookies, ';'), "authorization" := "Basic " + sessionId];
    if f == Axios then own + caller else own
  }

  /**
   * The check on a reply. The undici client fails on a body that is not
   * JSON; axios hands such a body back as text, which has no `success` and
   * no `data`. An envelope goes through the core client's check, and then
   * the whole envelope (`includeMeta`) or its `data` is returned.
   */
  function LegacyCheck<D>(f: Flavor, reply: Reply<D>, includeMeta: bool): (r: Result<Returned<D>, Error>)
    ensures reply.NotJson? && f == Undici ==> r == Failure(Thrown("Invalid JSON response recieved"))
    ensures reply.NotJson? && f == Axios ==> r.Success? && (r.value == RawBody <==> includeMeta)
    ensures reply.Json? ==> (r.Failure? <==> reply.envelope.success == 0)
    ensures reply.Json? && r.Failure? ==> r.error == Thrown(reply.envelope.error)
    ensures reply.Json? && r.Success? ==> r.value == if includeMeta then Whole(reply.envelope) else DataOnly(reply.envelope.data)
  {
    match reply
    case NotJson =>
      if f == Undici then Failure(Thrown("Invalid JSON response recieved"))
      else Success(if includeMeta then RawBody else Missing)
    case Json(_) =>
      match CheckEnvelope(reply)
      case Failure(e) => Failure(e)
      case Success(envelope) => Success(if includeMeta then Whole(envelope) else DataOnly(envelope.data))
  }

  /** The request `makeAuthedRequest` sends: the call, with the stored cookies and the session id in its headers. */
  function LegacyOutgoing(f: Flavor, s: LegacySession, call: Call): Request
    requires s.authCookies.Some?
  {
    Request(call.url, call.verb, call.query, LegacyHeaders(f, s.authCookies.value, s.sessionId, call.headers), call.body)
  }

  /**
   * `makeAuthedRequest`: without stored cookies nothing is sent (an empty
   * session id is not checked); otherwise the one request goes out and its
   * reply is checked.
   */
  function LegacyAuthed<D>(f: Flavor, s: LegacySession, call: Call, includeMeta: bool, server: Request -> Reply<D>)
    : (o: Outcome<Returned<D>>)
    ensures s.authCookies.None? <==> o == Outcome(Failure(Thrown("Not authenticated")), [])
    ensures s.authCookies.Some? ==> o.sent == [LegacyOutgoing(f, s, call)]
    ensures s.authCookies.Some? ==> o.result == LegacyCheck(f, server(o.sent[0]), includeMeta)
  {
    if s.authCookies.None? then Outcome(Failure(Thrown("Not authenticated")), [])
    else
      var request := LegacyOutgoing(f, s, call);
      Outcome(LegacyCheck(f, server(request), includeMeta), [request])
  }

  /** `POST <API_BASE>/ping` with the given body; the deprecated client sends `include_date=true`. */
  function LegacyPingCall(s: LegacySession, body: Pairs): Call {
    Call(s.apiBase + "/ping", Post, [], body, map[])
  }

  /** `data?.user`: `undefined` unless the data came back. */
  function UserOf(r: Returned<PingData>): Option<User> {
    if r.DataOnly? then Some(r.data.user) else None
  }

  /** `getPupil` and the undici parent's `getPupils`: `GET <API_BASE>/pupils`. */
  function LegacyPupilsCall(s: LegacySession): Call {
    Call(s.apiBase + "/pupils", Get, [], [], map[])
  }

  /** `getStudentInfo`. */
  function StudentInfo(f: Flavor, s: LegacySession, body: Pairs, server: Request -> Reply<PingData>): Outcome<Option<User>> {
    var o := LegacyAuthed(f, s, LegacyPingCall(s, body), false, server);
    match o.result
    case Failure(e) => Outcome(Failure(e), o.sent)
    case Success(r) => Outcome(Success(UserOf(r)), o.sent)
  }

  /**
   * The query of `listHomeworks`: `display_date`, then `from` and `to` from
   * `fromDate` and `toDate`; the axios client appends `from` and `to` from
   * the `from` and `to` options after them.
   */
  function LegacyHomeworksCall(f: Flavor, s: LegacySession, displayDate: Option<string>, fromDate: Option<string>,
                               toDate: Option<string>, from: Option<string>, to: Option<string>): Call {
    var options := [("display_date", displayDate), ("from", fromDate), ("to", toDate)]
                   + (if f == Axios then [("from", from), ("to", to)] else []);
    Call(s.apiBase + "/homeworks/" + IntToString(s.studentId), Get, Present(options), [], map[])
  }

  /** The undici query is the core client's with `fromDate` and `toDate` in the places of `from` and `to`. */
  lemma UndiciHomeworksQuery(s: LegacySession, displayDate: Option<string>, fromDate: Option<string>, toDate: Option<string>,
                             from: Option<string>, to: Option<string>)
    ensures LegacyHomeworksCall(Undici, s, displayDate, fromDate, toDate, from, to) == HomeworksCall(AsCore(s), displayDate, fromDate, toDate)
  {
    var options := [("display_date", displayDate), ("from", fromDate), ("to", toDate)];
    assert options + [] == options;
  }

  /** The axios query is that query followed by `from` and `to` again, each only when given. */
  lemma AxiosHomeworksQuery(s: LegacySession, displayDate: Option<string>, fromDate: Option<string>, toDate: Option<string>,
                            from: Option<string>, to: Option<string>)
    ensures LegacyHomeworksCall(Axios, s, displayDate, fromDate, toDate, from, to).query
      == HomeworksCall(AsCore(s), displayDate, fromDate, toDate).query + Present([("from", from), ("to", to)])
  {
    PresentConcat([("display_date", displayDate), ("from", fromDate), ("to", toDate)], [("from", from), ("to", to)]);
  }

  /** Given both `fromDate` and `from`, the axios query carries `from` twice, `fromDate` first. */
  lemma AxiosFromTwice(s: LegacySession, displayDate: Option<string>, fromDate: string, toDate: Option<string>,
                       from: string, to: Option<string>)
    requires fromDate != "" && from != ""
    ensures var q := LegacyHomeworksCall(Axios, s, displayDate, Some(fromDate), toDate, Some(from), to).query;
      exists i, j :: 0 <= i < j < |q| && q[i] == ("from", fromDate) && q[j] == ("from", from)
  {
    var x1, x2, x3, x4, x5 := ("display_date", displayDate), ("from", Some(fromDate)), ("to", toDate), ("from", Some(from)), ("to", to);
    var a := Present([x1]);
    PresentConcat([x1, x2, x3], [x4, x5]);
    PresentConcat([x1], [x2, x3]);
    assert [x1] + [x2, x3] == [x1, x2, x3];
    assert [x2, x3][1..] == [x3];
    assert [x4, x5][1..] == [x5];
    var front := Present([x1, x2, x3]);
    assert front == a + ([("from", fromDate)] + Present([x3]));
    var q := front + ([("from", from)] + Present([x5]));
    assert q == LegacyHomeworksCall(Axios, s, displayDate, Some(fromDate), toDate, Some(from), to).query;
    assert q[|a|] == ("from", fromDate);
    assert q[|front|] == ("from", from);
  }

  /**
   * `listHomeworks`: the data with each description sanitised and the
   * original kept in `description_raw`. Data that is `undefined` has no
   * length, which throws.
   */
  function LegacyHomeworks(f: Flavor, s: LegacySession, displayDate: Option<string>, fromDate: Option<string>,
                           toDate: Option<string>, from: Option<string>, to: Option<string>,
                           server: Request -> Reply<seq<Homework>>): (o: Outcome<seq<Homework>>)
    ensures var raw := LegacyAuthed(f, s, LegacyHomeworksCall(f, s, displayDate, fromDate, toDate, from, to), false, server);
      && o.sent == raw.sent
      && (o.result.Success? <==> raw.result.Success? && raw.result.value.DataOnly?)
      && (o.result.Success? ==> o.result.value == SanitiseAll(raw.result.value.data))
      && (raw.result.Failure? ==> o.result == Failure(raw.result.error))
      && (raw.result.Success? && !raw.result.value.DataOnly? ==> o.result == Failure(TypeError))
  {
    var raw := LegacyAuthed(f, s, LegacyHomeworksCall(f, s, displayDate, fromDate, toDate, from, to), false, server);
    match raw.result
    case Failure(e) => Outcome(Failure(e), raw.sent)
    case Success(r) => if r.DataOnly? then Outcome(Success(SanitiseAll(r.data)), raw.sent) else Outcome(Failure(TypeError), raw.sent)
  }

  /** `getLessons`: a missing or empty date throws before anything is sent. */
  function LegacyLessons<D>(f: Flavor, s: LegacySession, date: Option<string>, server: Request -> Reply<D>): (o: Outcome<Returned<D>>)
    ensures Falsy(date) ==> o == Outcome(Failure(Thrown("No date specified")), [])
    ensures !Falsy(date) ==> o == LegacyAuthed(f, s, LessonsCall(AsCore(s), date.value), false, server)
  {
    if Falsy(date) then Outcome(Failure(Thrown("No date specified")), [])
    else LegacyAuthed(f, s, LessonsCall(AsCore(s), date.value), false, server)
  }

  // ---------------------------------------------------------------------
  // getFullActivity (axios)

  /** The page a reply holds: its data, or none when it is `undefined`. */
  function PageOf(r: Returned<Page>): Page {
    if r.DataOnly? then r.data else None
  }

  function ActivityPage(s: LegacySession, from: Option<string>, to: Option<string>, server: Request -> Reply<Page>, prevLast: int)
    : Outcome<Returned<Page>>
  {
    LegacyAuthed(Axios, s, ActivityCall(AsCore(s), from, to, Cursor(prevLast)), false, server)
  }

  /** The activity page for each cursor, as the axios client fetches it. */
  function ActivityPages(s: LegacySession, from: Option<string>, to: Option<string>, server: Request -> Reply<Page>)
    : int -> Outcome<Returned<Page>>
  {
    c => ActivityPage(s, from, to, server, c)
  }

  /** The walk over a page fetch, from a cursor and the data so far, with at most `fuel` more pages. */
  function Walk(fetch: int -> Outcome<Returned<Page>>, prevLast: int, acc: seq<ActivityItem>, fuel: nat)
    : Outcome<seq<ActivityItem>>
    decreases fuel
  {
    if fuel == 0 then Outcome(Failure(PageLimitReached), [])
    else
      var page := fetch(prevLast);
      match page.result
      case Failure(e) => Outcome(Failure(e), page.sent)
      case Success(r) =>
        if EmptyPage(PageOf(r)) then Outcome(Success(acc), page.sent)
        else
          var items := PageOf(r).value;
          var rest := Walk(fetch, items[|items| - 1].id, acc + items, fuel - 1);
          Outcome(rest.result, page.sent + rest.sent)
  }

  /** The axios `getFullActivity` from a cursor and the data so far. */
  function LegacyWalk(s: LegacySession, from: Option<string>, to: Option<string>, server: Request -> Reply<Page>,
                      prevLast: int, acc: seq<ActivityItem>, fuel: nat): Outcome<seq<ActivityItem>>
  {
    Walk(ActivityPages(s, from, to, server), prevLast, acc, fuel)
  }

  /** The rest of a walk, after the requests already sent. */
  function After<T>(o: Outcome<T>, sentBefore: seq<Request>): Outcome<T> {
    Outcome(o.result, sentBefore + o.sent)
  }

  lemma AfterTwice<T>(o: Outcome<T>, later: seq<Request>, earlier: seq<Request>)
    ensures After(After(o, later), earlier) == After(o, earlier + later)
  {
    assert earlier + (later + o.sent) == (earlier + later) + o.sent;
  }

  /** One page of the walk: a failure or an empty page ends it, a full page moves the cursor to its last item. */
  lemma LegacyWalkPage(s: LegacySession, from: Option<string>, to: Option<string>, server: Request -> Reply<Page>,
                       prevLast: int, acc: seq<ActivityItem>, fuel: nat, page: Result<Returned<Page>, Error>, pageSent: seq<Request>)
    requires fuel > 0 && Outcome(page, pageSent) == ActivityPage(s, from, to, server, prevLast)
    ensures page.Failure? ==> LegacyWalk(s, from, to, server, prevLast, acc, fuel) == Outcome(Failure(page.error), pageSent)
    ensures page.Success? && EmptyPage(PageOf(page.value)) ==>
      LegacyWalk(s, from, to, server, prevLast, acc, fuel) == Outcome(Success(acc), pageSent)
    ensures page.Success? && !EmptyPage(PageOf(page.value)) ==>
      var items := PageOf(page.value).value;
      LegacyWalk(s, from, to, server, prevLast, acc, fuel)
        == After(LegacyWalk(s, from, to, server, items[|items| - 1].id, acc + items, fuel - 1), pageSent)
  {
  }

  /** The page a fetch reads for each cursor: its data, or the failure. */
  function Pages(fetch: int -> Outcome<Returned<Page>>): int -> Result<Page, Error> {
    c => match fetch(c).result
         case Failure(e) => Failure(e)
         case Success(r) => Success(PageOf(r))
  }

  /** Any walk is `Collect` over the pages its fetch reads. */
  lemma {:induction false} WalkCollects(fetch: int -> Outcome<Returned<Page>>, prevLast: int, acc: seq<ActivityItem>, fuel: nat)
    ensures Walk(fetch, prevLast, acc, fuel).result == Collect(Pages(fetch), prevLast, acc, fuel)
    decreases fuel
  {
    if fuel > 0 {
      var page := fetch(prevLast);
      if page.result.Success? && !EmptyPage(PageOf(page.result.value)) {
        var items := PageOf(page.result.value).value;
        WalkCollects(fetch, items[|items| - 1].id, acc + items, fuel - 1);
      }
    }
  }

  /**
   * The axios walk is the core client's `Collect` over its own pages: the
   * pages up to the first empty one, concatenated in order, each cursor the
   * previous page's last id.
   */
  lemma LegacyWalkCollects(s: LegacySession, from: Option<string>, to: Option<string>,
                           server: Request -> Reply<Page>, prevLast: int, acc: seq<ActivityItem>, fuel: nat)
    ensures LegacyWalk(s, from, to, server, prevLast, acc, fuel).result
      == Collect(Pages(ActivityPages(s, from, to, server)), prevLast, acc, fuel)
  {
    WalkCollects(ActivityPages(s, from, to, server), prevLast, acc, fuel);
  }

  /**
   * The undici logins' loop over the `set-cookie` array: each cookie cut in
   * place at its first `;`.
   */
  method CutCookies(header: seq<string>) returns (cookies: seq<string>)
    ensures cookies == TruncateAll(header)
  {
    var a := new string[|header|](i requires 0 <= i < |header| => header[i]);
    assert a[..] == header;
    TruncateCookies(a);
    cookies := a[..];
  }

  // ---------------------------------------------------------------------
  // The class

  /**
   * A legacy `ClasschartsClient`. `getFullActivity` and `includeMeta`
   * belong to the axios generation, `getPupil` to the undici one.
   */
  class LegacyClient {
    const flavor: Flavor
    const apiBase: string
    var studentId: int
    var studentName: string
    var authCookies: Option<seq<string>>
    var sessionId: string

    function State(): LegacySession
      reads this
    {
      LegacySession(apiBase, studentId, studentName, authCookies, sessionId)
    }

    constructor(flavor: Flavor, apiBase: string)
      ensures this.flavor == flavor && State() == LegacySession(apiBase, 0, "", None, "")
    {
      this.flavor := flavor;
      this.apiBase := apiBase;
      studentId := 0;
      studentName := "";
      authCookies := None;
      sessionId := "";
    }

    method MakeAuthedRequest<D>(call: Call, includeMeta: bool, server: Request -> Reply<D>)
      returns (r: Result<Returned<D>, Error>, sent: seq<Request>)
      requires flavor == Undici ==> !includeMeta
      ensures Outcome(r, sent) == LegacyAuthed(flavor, State(), call, includeMeta, server)
    {
      if authCookies.None? {
        return Failure(Thrown("Not authenticated")), [];
      }
      var request := LegacyOutgoing(flavor, State(), call);
      r := LegacyCheck(flavor, server(request), includeMeta);
      sent := [request];
    }

    method GetStudentInfo(server: Request -> Reply<PingData>) returns (r: Result<Option<User>, Error>, sent: seq<Request>)
      ensures Outcome(r, sent) == StudentInfo(flavor, State(), PingBody, server)
    {
      var data;
      data, sent := MakeAuthedRequest(LegacyPingCall(State(), PingBody), false, server);
      r := if data.Failure? then Failure(data.error) else Success(UserOf(data.value));
    }

    method GetActivity(from: Option<string>, to: Option<string>, lastId: Option<string>, server: Request -> Reply<Page>)
      returns (r: Result<Returned<Page>, Error>, sent: seq<Request>)
      ensures Outcome(r, sent) == LegacyAuthed(flavor, State(), ActivityCall(AsCore(State()), from, to, lastId), false, server)
    {
      r, sent := MakeAuthedRequest(ActivityCall(AsCore(State()), from, to, lastId), false, server);
    }

    /** `getPupil` of the undici client: the pupils of a parent account. */
    method GetPupil(server: Request -> Reply<seq<Pupil>>) returns (r: Result<Returned<seq<Pupil>>, Error>, sent: seq<Request>)
      requires flavor == Undici
      ensures Outcome(r, sent) == LegacyAuthed(Undici, State(), LegacyPupilsCall(State()), false, server)
    {
      r, sent := MakeAuthedRequest(LegacyPupilsCall(State()), false, server);
    }

    /**
     * One pass of the `while (gotData)` loop of the axios `getFullActivity`:
     * a page fetched and added to the data, or the end of the walk. `goal`
     * is the walk as a whole and `sent` what it has sent before this pass.
     */
    method WalkRound(from: Option<string>, to: Option<string>, server: Request -> Reply<Page>, prevLast: int,
                     data: seq<ActivityItem>, left: nat, sent: seq<Request>, ghost goal: Outcome<seq<ActivityItem>>)
      returns (more: bool, r: Result<seq<ActivityItem>, Error>, sent': seq<Request>, last: int, data': seq<ActivityItem>)
      requires flavor == Axios && left > 0
      requires After(LegacyWalk(State(), from, to, server, prevLast, data, left), sent) == goal
      ensures !more ==> Outcome(r, sent') == goal
      ensures more ==> After(LegacyWalk(State(), from, to, server, last, data', left - 1), sent') == goal
    {
      var page, pageSent := GetActivity(from, to, Cursor(prevLast), server);
      LegacyWalkPage(State(), from, to, server, prevLast, data, left, page, pageSent);
      sent' := sent + pageSent;
      if page.Failure? {
        return false, Failure(page.error), sent', prevLast, data;
      }
      var fragment := PageOf(page.value);
      if EmptyPage(fragment) {
        return false, Success(data), sent', prevLast, data;
      }
      more, r := true, Success(data);
      last := fragment.value[|fragment.value| - 1].id;
      data' := data + fragment.value;
      AfterTwice(LegacyWalk(State(), from, to, server, last, data', left - 1), pageSent, sent);
    }

    /**
     * The `while (gotData)` loop of the axios `getFullActivity`, from a
     * cursor and the data gathered so far, with `left` pages of budget.
     */
    method WalkLoop(from: Option<string>, to: Option<string>, server: Request -> Reply<Page>, prevLast: int,
                    data: seq<ActivityItem>, left: nat, sent: seq<Request>, ghost goal: Outcome<seq<ActivityItem>>)
      returns (r: Result<seq<ActivityItem>, Error>, sent': seq<Request>)
      requires flavor == Axios
      requires After(LegacyWalk(State(), from, to, server, prevLast, data, left), sent) == goal
      ensures Outcome(r, sent') == goal
    {
      var cursor, gathered, budget := prevLast, data, left;
      var gotData := true;
      r, sent' := Success(data), sent;
      while gotData
        invariant gotData ==> After(LegacyWalk(State(), from, to, server, cursor, gathered, budget), sent') == goal
        invariant !gotData ==> Outcome(r, sent') == goal
        decreases budget, gotData
      {
        if budget == 0 {
          return Failure(PageLimitReached), sent';
        }
        gotData, r, sent', cursor, gathered := WalkRound(from, to, server, cursor, gathered, budget, sent', goal);
        budget := budget - 1;
      }
    }

    /** The axios `getFullActivity`, with a page budget. */
    method GetFullActivity(from: Option<string>, to: Option<string>, server: Request -> Reply<Page>, fuel: nat)
      returns (r: Result<seq<ActivityItem>, Error>, sent: seq<Request>)
      requires flavor == Axios
      ensures Outcome(r, sent) == LegacyWalk(State(), from, to, server, 0, [], fuel)
    {
      ghost var goal := LegacyWalk(State(), from, to, server, 0, [], fuel);
      assert [] + goal.sent == goal.sent;
      r, sent := WalkLoop(from, to, server, 0, [], fuel, [], goal);
    }

    method ListHomeworks(displayDate: Option<string>, fromDate: Option<string>, toDate: Option<string>,
                         from: Option<string>, to: Option<string>, server: Request -> Reply<seq<Homework>>)
      returns (r: Result<seq<Homework>, Error>, sent: seq<Request>)
      ensures Outcome(r, sent) == LegacyHomeworks(flavor, State(), displayDate, fromDate, toDate, from, to, server)
    {
      var data;
      data, sent := MakeAuthedRequest(LegacyHomeworksCall(flavor, State(), displayDate, fromDate, toDate, from, to), false, server);
      if data.Failure? {
        return Failure(data.error), sent;
      }
      if !data.value.DataOnly? {
        return Failure(TypeError), sent;
      }
      var list := SanitiseList(data.value.data);
      r := Success(list);
    }

    method GetLessons<D>(date: Option<string>, server: Request -> Reply<D>) returns (r: Result<Returned<D>, Error>, sent: seq<Request>)
      ensures Outcome(r, sent) == LegacyLessons(flavor, State(), date, server)
    {
      if Falsy(date) {
        return Failure(Thrown("No date specified")), [];
      }
      r, sent := MakeAuthedRequest(LessonsCall(AsCore(State()), date.value), false, server);
    }
  }
}
