/**
 * The client shared by the current student and parent clients
 * (src/core/baseClient.ts): a session id that every request carries, and
 * that a ping renews when it is older than the ping interval.
 *
 * The pure functions `Authed` and `NewSessionId` say what `makeAuthedRequest`
 * and `getNewSessionId` do to a `Session`; the class `BaseClient` does it
 * step by step on its fields and is proved to agree with them. The network is
 * a function from request to reply (`ping` for pings, `server` for the
 * rest), and `now` is the clock reading of the call.
 */
module CoreBaseClient {
  import opened Wrappers
  import opened Text
  import opened Errors
  import opened Http
  import opened HomeworkText

  /** `PING_INTERVAL`: three minutes, in milliseconds. */
  const PingInterval := 180000

  datatype Session = Session(apiBase: string, studentId: int, authCookies: seq<string>, sessionId: string, lastPing: int)

  type CoreStep<T> = Step<Session, T>

  /** Whether a request revalidates first: asked to, pinged before, and within five seconds of the interval running out. */
  predicate ShouldRevalidate(revalidateToken: bool, lastPing: int, now: int) {
    revalidateToken && lastPing != 0 && now - lastPing + 5000 > PingInterval
  }

  /** The headers of an authenticated request: the caller's headers are spread last and win on a clash. */
  function AuthHeaders(s: Session, caller: map<string, string>): (h: map<string, string>)
    ensures h.Keys == caller.Keys + {"Cookie", "Authorization"}
    ensures forall k :: k in caller ==> h[k] == caller[k]
    ensures "Cookie" !in caller ==> h["Cookie"] == Join(s.authCookies, ';')
    ensures "Authorization" !in caller ==> h["Authorization"] == "Basic " + s.sessionId
  {
    map["Cookie" := Join(s.authCookies, ';'), "Authorization" := "Basic " + s.sessionId] + caller
  }

  function Outgoing(s: Session, call: Call): Request {
    Request(call.url, call.verb, call.query, AuthHeaders(s, call.headers), call.body)
  }

  /** The check on a reply: a body that is not JSON is a SyntaxError, `success == 0` throws `error`, anything else is the envelope itself. */
  function CheckEnvelope<D>(reply: Reply<D>): (r: Result<Envelope<D>, Error>)
    ensures reply.NotJson? ==> r == Failure(JsonSyntaxError)
    ensures reply.Json? ==> (r.Success? <==> reply.envelope.success != 0)
    ensures reply.Json? && reply.envelope.success == 0 ==> r == Failure(Thrown(reply.envelope.error))
    ensures r.Success? ==> reply == Json(r.value)
  {
    match reply
    case NotJson => Failure(JsonSyntaxError)
    case Json(envelope) => if envelope.success == 0 then Failure(Thrown(envelope.error)) else Success(envelope)
  }

  /** `POST <API_BASE>/ping` with `include_data=true`, as both `getNewSessionId` and `getStudentInfo` send it. */
  function PingCall(s: Session): Call {
    Call(s.apiBase + "/ping", Post, [], PingBody, map[])
  }

  /**
   * `makeAuthedRequest` when it does not revalidate: without a session id
   * nothing is sent; otherwise the request goes out alone and its reply is
   * checked.
   */
  function Unrevalidated<D>(s: Session, call: Call, server: Request -> Reply<D>): CoreStep<Envelope<D>> {
    if s.sessionId == "" then Step(s, Failure(Thrown("No session ID")), [])
    else Step(s, CheckEnvelope(server(Outgoing(s, call))), [Outgoing(s, call)])
  }

  /**
   * `getNewSessionId`: a ping through `makeAuthedRequest` with
   * `revalidateToken: false`; on success the session id becomes the ping's
   * `meta.session_id` and `lastPing` becomes now.
   */
  function NewSessionId(s: Session, now: int, ping: Request -> Reply<PingData>): CoreStep<()> {
    var p := Unrevalidated(s, PingCall(s), ping);
    match p.result
    case Failure(e) => Step(p.state, Failure(e), p.sent)
    case Success(envelope) => Step(p.state.(sessionId := envelope.sessionId, lastPing := now), Success(()), p.sent)
  }

  /**
   * `makeAuthedRequest`. Without a session id nothing is sent. Otherwise the
   * request is built from the state on entry; if the session is due for
   * revalidation a ping goes first, and the request follows it with the
   * headers it was built with.
   */
  function Authed<D>(s: Session, call: Call, revalidateToken: Option<bool>, now: int,
                     ping: Request -> Reply<PingData>, server: Request -> Reply<D>): CoreStep<Envelope<D>>
  {
    if s.sessionId != "" && ShouldRevalidate(revalidateToken.GetOr(true), s.lastPing, now) then
      var request := Outgoing(s, call);
      var p := NewSessionId(s, now, ping);
      if p.result.Failure? then Step(p.state, Failure(p.result.error), p.sent)
      else Step(p.state, CheckEnvelope(server(request)), p.sent + [request])
    else Unrevalidated(s, call, server)
  }

  /** A ping that renews the session: sent alone, and on success the only thing that changes the session id and `lastPing`. */
  lemma NewSessionIdFacts(s: Session, now: int, ping: Request -> Reply<PingData>)
    ensures var st := NewSessionId(s, now, ping);
      && (s.sessionId != "" ==> st.sent == [Outgoing(s, PingCall(s))])
      && (st.result.Success? <==> s.sessionId != "" && CheckEnvelope(ping(Outgoing(s, PingCall(s)))).Success?)
      && (st.result.Success? ==>
            st.state == s.(sessionId := ping(Outgoing(s, PingCall(s))).envelope.sessionId, lastPing := now))
      && (st.result.Failure? ==> st.state == s)
  {
  }

  /**
   * What `makeAuthedRequest` promises: nothing is sent without a session;
   * otherwise the request goes out with the headers of the state on entry,
   * after a ping when one is due; a failed ping stops it, a good one renews
   * the session id and stamps `lastPing` with now; and nothing else changes.
   */
  lemma AuthedFacts<D>(s: Session, call: Call, revalidateToken: Option<bool>, now: int,
                       ping: Request -> Reply<PingData>, server: Request -> Reply<D>)
    ensures var st := Authed(s, call, revalidateToken, now, ping, server);
      && (s.sessionId == "" ==> st == Step(s, Failure(Thrown("No session ID")), []))
      && (s.sessionId != "" && !ShouldRevalidate(revalidateToken.GetOr(true), s.lastPing, now) ==>
            st == Step(s, CheckEnvelope(server(Outgoing(s, call))), [Outgoing(s, call)]))
      && (s.sessionId != "" && ShouldRevalidate(revalidateToken.GetOr(true), s.lastPing, now) ==>
            var pinged := CheckEnvelope(ping(Outgoing(s, PingCall(s))));
            && (pinged.Failure? ==> st == Step(s, Failure(pinged.error), [Outgoing(s, PingCall(s))]))
            && (pinged.Success? ==>
                  st == Step(s.(sessionId := pinged.value.sessionId, lastPing := now),
                             CheckEnvelope(server(Outgoing(s, call))),
                             [Outgoing(s, PingCall(s)), Outgoing(s, call)])))
      && (st.result.Success? ==> st.sent != [] && server(st.sent[|st.sent| - 1]) == Json(st.result.value))
      && st.state.(sessionId := s.sessionId, lastPing := s.lastPing) == s
      && (st.state.lastPing == s.lastPing || st.state.lastPing == now)
  {
    NewSessionIdFacts(s, now, ping);
  }

  /** A URL without a `:` names no scheme; outside a web page there is nothing to resolve it against. */
  predicate Schemeless(url: string) {
    ':' !in url
  }

  /**
   * `makeAuthedRequest` on a URL that `ky(path, ...)` cannot build a request
   * from: the session check and a ping that is due happen as usual, then
   * `ky` throws a TypeError and the request itself never leaves.
   */
  function AuthedUnsendable(s: Session, call: Call, revalidateToken: Option<bool>, now: int,
                            ping: Request -> Reply<PingData>): (st: CoreStep<()>)
    requires Schemeless(call.url)
    ensures st.result.Failure?
  {
    if s.sessionId != "" && ShouldRevalidate(revalidateToken.GetOr(true), s.lastPing, now) then
      var p := NewSessionId(s, now, ping);
      if p.result.Failure? then Step(p.state, Failure(p.result.error), p.sent)
      else Step(p.state, Failure(TypeError), p.sent)
    else if s.sessionId == "" then Step(s, Failure(Thrown("No session ID")), [])
    else Step(s, Failure(TypeError), [])
  }

  /**
   * Against any request that can be sent, on any server: the same session
   * check, the same ping and the same state, and the TypeError stands
   * exactly where that request would have gone out.
   */
  lemma AuthedUnsendableStopsShort<D>(s: Session, call: Call, sendable: Call, revalidateToken: Option<bool>, now: int,
                                      ping: Request -> Reply<PingData>, server: Request -> Reply<D>)
    requires Schemeless(call.url)
    ensures var u := AuthedUnsendable(s, call, revalidateToken, now, ping);
      var a := Authed(s, sendable, revalidateToken, now, ping, server);
      && u.state == a.state
      && (u.result == Failure(TypeError) <==> a.sent == u.sent + [Outgoing(s, sendable)])
      && (u.result != Failure(TypeError) ==> u.sent == a.sent && a.result == Failure(u.result.error))
  {
    NewSessionIdFacts(s, now, ping);
  }

  // ---------------------------------------------------------------------
  // The endpoints

  function ActivityCall(s: Session, from: Option<string>, to: Option<string>, lastId: Option<string>): Call {
    Call(s.apiBase + "/activity/" + IntToString(s.studentId), Get,
         Present([("from", from), ("to", to), ("last_id", lastId)]), [], map[])
  }

  function BehaviourCall(s: Session, from: Option<string>, to: Option<string>): Call {
    Call(s.apiBase + "/behaviour/" + IntToString(s.studentId), Get, Present([("from", from), ("to", to)]), [], map[])
  }

  function HomeworksCall(s: Session, displayDate: Option<string>, from: Option<string>, to: Option<string>): Call {
    Call(s.apiBase + "/homeworks/" + IntToString(s.studentId), Get,
         Present([("display_date", displayDate), ("from", from), ("to", to)]), [], map[])
  }

  function LessonsCall(s: Session, date: string): Call {
    Call(s.apiBase + "/timetable/" + IntToString(s.studentId), Get, [("date", date)], [], map[])
  }

  function AttendanceCall(s: Session, from: Option<string>, to: Option<string>): Call {
    Call(s.apiBase + "/attendance/" + IntToString(s.studentId), Get, Present([("from", from), ("to", to)]), [], map[])
  }

  /** The `data` of an activity reply; `None` stands for a missing one. */
  type Page = Option<seq<ActivityItem>>

  /** `!fragment || !fragment.length`. */
  predicate EmptyPage(page: Page) {
    page.None? || page.value == []
  }

  /** `if (prevLast) params.last_id = String(prevLast)`: no cursor before the first page, nor after a last id of 0. */
  function Cursor(prevLast: int): Option<string> {
    if prevLast == 0 then None else Some(IntToString(prevLast))
  }

  /** The page fetch of `getFullActivity`: `getActivity` from a session, with a cursor. */
  function ActivityFetch(from: Option<string>, to: Option<string>, now: int, ping: Request -> Reply<PingData>,
                         server: Request -> Reply<Page>): (Session, int) -> CoreStep<Envelope<Page>>
  {
    (s, prevLast) => Authed(s, ActivityCall(s, from, to, Cursor(prevLast)), None, now, ping, server)
  }

  /**
   * A walk over a page fetch from a cursor and the data so far, with at
   * most `fuel` more pages: each full page is appended and moves the cursor
   * to its last id; a failure or an empty page ends it.
   */
  function WalkFrom(fetch: (Session, int) -> CoreStep<Envelope<Page>>, s: Session, prevLast: int, acc: seq<ActivityItem>, fuel: nat)
    : (st: CoreStep<seq<ActivityItem>>)
    ensures st.result.Success? ==> |st.result.value| >= |acc| && st.result.value[..|acc|] == acc
    decreases fuel
  {
    if fuel == 0 then Step(s, Failure(PageLimitReached), [])
    else
      var page := fetch(s, prevLast);
      match page.result
      case Failure(e) => Step(page.state, Failure(e), page.sent)
      case Success(envelope) =>
        var fragment := envelope.data;
        if EmptyPage(fragment) then Step(page.state, Success(acc), page.sent)
        else
          var items := fragment.value;
          var rest := WalkFrom(fetch, page.state, items[|items| - 1].id, acc + items, fuel - 1);
          assert rest.result.Success? ==> rest.result.value[..|acc|] == (acc + items)[..|acc|];
          Step(rest.state, rest.result, page.sent + rest.sent)
  }

  /** `getFullActivity` from a given cursor and accumulated data (the source has no page bound). */
  function FullActivityFrom(s: Session, from: Option<string>, to: Option<string>, prevLast: int, acc: seq<ActivityItem>,
                            now: int, ping: Request -> Reply<PingData>, server: Request -> Reply<Page>, fuel: nat)
    : (st: CoreStep<seq<ActivityItem>>)
    ensures st.result.Success? ==> |st.result.value| >= |acc| && st.result.value[..|acc|] == acc
  {
    WalkFrom(ActivityFetch(from, to, now, ping, server), s, prevLast, acc, fuel)
  }

  /** One page of the walk: a failure or an empty page ends it, a full page moves the cursor to its last item. */
  lemma FullActivityPage(s: Session, from: Option<string>, to: Option<string>, prevLast: int, acc: seq<ActivityItem>,
                         now: int, ping: Request -> Reply<PingData>, server: Request -> Reply<Page>, fuel: nat,
                         page: Result<Envelope<Page>, Error>, pageState: Session, pageSent: seq<Request>)
    requires fuel > 0
    requires Step(pageState, page, pageSent) == Authed(s, ActivityCall(s, from, to, Cursor(prevLast)), None, now, ping, server)
    ensures page.Failure? ==> FullActivityFrom(s, from, to, prevLast, acc, now, ping, server, fuel) == Step(pageState, Failure(page.error), pageSent)
    ensures page.Success? && EmptyPage(page.value.data) ==>
      FullActivityFrom(s, from, to, prevLast, acc, now, ping, server, fuel) == Step(pageState, Success(acc), pageSent)
    ensures page.Success? && !EmptyPage(page.value.data) ==>
      var items := page.value.data.value;
      FullActivityFrom(s, from, to, prevLast, acc, now, ping, server, fuel)
        == Continue(FullActivityFrom(pageState, from, to, items[|items| - 1].id, acc + items, now, ping, server, fuel - 1), pageSent)
  {
  }

  /** The rest of a walk, after the requests already sent. */
  function Continue<S, T>(st: Step<S, T>, sentBefore: seq<Request>): Step<S, T> {
    Step(st.state, st.result, sentBefore + st.sent)
  }

  lemma ContinueTwice<S, T>(st: Step<S, T>, later: seq<Request>, earlier: seq<Request>)
    ensures Continue(Continue(st, later), earlier) == Continue(st, earlier + later)
  {
    assert earlier + (later + st.sent) == (earlier + later) + st.sent;
  }

  function FullActivity(s: Session, from: Option<string>, to: Option<string>,
                        now: int, ping: Request -> Reply<PingData>, server: Request -> Reply<Page>, fuel: nat)
    : CoreStep<seq<ActivityItem>>
  {
    FullActivityFrom(s, from, to, 0, [], now, ping, server, fuel)
  }

  /**
   * The walk over a plain function from cursor to page: pages are appended
   * in order until a failure, an empty page, or the budget runs out.
   */
  function Collect(pageAt: int -> Result<Page, Error>, prevLast: int, acc: seq<ActivityItem>, fuel: nat)
    : Result<seq<ActivityItem>, Error>
    decreases fuel
  {
    if fuel == 0 then Failure(PageLimitReached)
    else
      match pageAt(prevLast)
      case Failure(e) => Failure(e)
      case Success(page) =>
        if EmptyPage(page) then Success(acc)
        else Collect(pageAt, page.value[|page.value| - 1].id, acc + page.value, fuel - 1)
  }

  /** The data of a page reply, or its failure. */
  function PageData(r: Result<Envelope<Page>, Error>): Result<Page, Error> {
    match r
    case Failure(e) => Failure(e)
    case Success(envelope) => Success(envelope.data)
  }

  /**
   * A fetch that leaves the session as it is walks `Collect` over the pages
   * it reads from that session.
   */
  lemma {:induction false} WalkFromCollects(fetch: (Session, int) -> CoreStep<Envelope<Page>>, s: Session,
                                            pageAt: int -> Result<Page, Error>, prevLast: int, acc: seq<ActivityItem>, fuel: nat)
    requires forall c :: fetch(s, c).state == s && pageAt(c) == PageData(fetch(s, c).result)
    ensures var st := WalkFrom(fetch, s, prevLast, acc, fuel);
      && st.state == s
      && st.result == Collect(pageAt, prevLast, acc, fuel)
    decreases fuel
  {
    if fuel > 0 {
      var page := fetch(s, prevLast);
      if page.result.Success? && !EmptyPage(page.result.value.data) {
        var items := page.result.value.data.value;
        WalkFromCollects(fetch, s, pageAt, items[|items| - 1].id, acc + items, fuel - 1);
      }
    }
  }

  /** The page the server answers for a cursor, as the walk reads it from a session that needs no ping. */
  function PageAt(s: Session, from: Option<string>, to: Option<string>, server: Request -> Reply<Page>, prevLast: int)
    : Result<Page, Error>
  {
    PageData(CheckEnvelope(server(Outgoing(s, ActivityCall(s, from, to, Cursor(prevLast))))))
  }

  /** Those pages, cursor by cursor. */
  function QuietPages(s: Session, from: Option<string>, to: Option<string>, server: Request -> Reply<Page>)
    : int -> Result<Page, Error>
  {
    c => PageAt(s, from, to, server, c)
  }

  /**
   * While no ping is due, `getFullActivity` leaves the session as it is and
   * returns exactly the concatenation of the pages up to the first empty one.
   */
  lemma FullActivityCollects(s: Session, from: Option<string>, to: Option<string>, prevLast: int,
                             acc: seq<ActivityItem>, now: int, ping: Request -> Reply<PingData>,
                             server: Request -> Reply<Page>, fuel: nat)
    requires s.sessionId != "" && !ShouldRevalidate(true, s.lastPing, now)
    ensures var st := FullActivityFrom(s, from, to, prevLast, acc, now, ping, server, fuel);
      && st.state == s
      && st.result == Collect(QuietPages(s, from, to, server), prevLast, acc, fuel)
  {
    var fetch := ActivityFetch(from, to, now, ping, server);
    forall c
      ensures fetch(s, c).state == s && QuietPages(s, from, to, server)(c) == PageData(fetch(s, c).result)
    {
      AuthedFacts(s, ActivityCall(s, from, to, Cursor(c)), None, now, ping, server);
    }
    WalkFromCollects(fetch, s, QuietPages(s, from, to, server), prevLast, acc, fuel);
  }

  /** When a ping is due and fails, `getFullActivity` fails with it, having sent only the ping. */
  lemma FullActivityPingFails(s: Session, from: Option<string>, to: Option<string>, prevLast: int,
                              acc: seq<ActivityItem>, now: int, ping: Request -> Reply<PingData>,
                              server: Request -> Reply<Page>, fuel: nat)
    requires s.sessionId != "" && ShouldRevalidate(true, s.lastPing, now) && fuel > 0
    requires CheckEnvelope(ping(Outgoing(s, PingCall(s)))).Failure?
    ensures FullActivityFrom(s, from, to, prevLast, acc, now, ping, server, fuel)
      == Step(s, Failure(CheckEnvelope(ping(Outgoing(s, PingCall(s)))).error), [Outgoing(s, PingCall(s))])
  {
    var call := ActivityCall(s, from, to, Cursor(prevLast));
    var first := Authed(s, call, None, now, ping, server);
    AuthedFacts(s, call, None, now, ping, server);
    FullActivityPage(s, from, to, prevLast, acc, now, ping, server, fuel, first.result, first.state, first.sent);
  }

  /**
   * When a ping is due and succeeds, `getFullActivity` pings once, before
   * the first page (every call reads the same clock, and the ping stamps
   * `lastPing` with it). The first page is still asked for with the session
   * id of the state on entry; the later pages go out with the renewed one,
   * and a ping that hands back no session id stops the walk at its second
   * page.
   */
  lemma FullActivityAfterPing(s: Session, from: Option<string>, to: Option<string>, prevLast: int,
                              acc: seq<ActivityItem>, now: int, ping: Request -> Reply<PingData>,
                              server: Request -> Reply<Page>, fuel: nat)
    requires s.sessionId != "" && ShouldRevalidate(true, s.lastPing, now) && fuel > 0
    requires CheckEnvelope(ping(Outgoing(s, PingCall(s)))).Success?
    ensures var st := FullActivityFrom(s, from, to, prevLast, acc, now, ping, server, fuel);
      var renewed := s.(sessionId := CheckEnvelope(ping(Outgoing(s, PingCall(s)))).value.sessionId, lastPing := now);
      && st.state == renewed
      && |st.sent| >= 2
      && st.sent[..2] == [Outgoing(s, PingCall(s)), Outgoing(s, ActivityCall(s, from, to, Cursor(prevLast)))]
      && st.result == match PageAt(s, from, to, server, prevLast)
           case Failure(e) => Failure(e)
           case Success(page) =>
             if EmptyPage(page) then Success(acc)
             else if renewed.sessionId == "" then
               (if fuel == 1 then Failure(PageLimitReached) else Failure(Thrown("No session ID")))
             else Collect(QuietPages(renewed, from, to, server), page.value[|page.value| - 1].id, acc + page.value, fuel - 1)
  {
    var renewed := s.(sessionId := CheckEnvelope(ping(Outgoing(s, PingCall(s)))).value.sessionId, lastPing := now);
    var pageAt: int -> Result<Page, Error> :=
      if renewed.sessionId != "" then QuietPages(renewed, from, to, server) else (c => Failure(Thrown("No session ID")));
    ActivityAfterPingWalk(s, from, to, prevLast, acc, now, ping, server, fuel, pageAt);
    var page := PageAt(s, from, to, server, prevLast);
    if page.Success? && !EmptyPage(page.value) && renewed.sessionId == "" {
      var items := page.value.value;
      assert Collect(pageAt, items[|items| - 1].id, acc + items, fuel - 1)
        == if fuel == 1 then Failure(PageLimitReached) else Failure(Thrown("No session ID"));
    }
  }

  /** The walk after a successful ping, over the pages the renewed session reads. */
  lemma ActivityAfterPingWalk(s: Session, from: Option<string>, to: Option<string>, prevLast: int,
                              acc: seq<ActivityItem>, now: int, ping: Request -> Reply<PingData>,
                              server: Request -> Reply<Page>, fuel: nat, pageAt: int -> Result<Page, Error>)
    requires s.sessionId != "" && ShouldRevalidate(true, s.lastPing, now) && fuel > 0
    requires CheckEnvelope(ping(Outgoing(s, PingCall(s)))).Success?
    requires var renewed := s.(sessionId := CheckEnvelope(ping(Outgoing(s, PingCall(s)))).value.sessionId, lastPing := now);
      pageAt == if renewed.sessionId != "" then QuietPages(renewed, from, to, server) else (c => Failure(Thrown("No session ID")))
    ensures var st := FullActivityFrom(s, from, to, prevLast, acc, now, ping, server, fuel);
      && st.state == s.(sessionId := CheckEnvelope(ping(Outgoing(s, PingCall(s)))).value.sessionId, lastPing := now)
      && |st.sent| >= 2
      && st.sent[..2] == [Outgoing(s, PingCall(s)), Outgoing(s, ActivityCall(s, from, to, Cursor(prevLast)))]
      && st.result == match PageAt(s, from, to, server, prevLast)
           case Failure(e) => Failure(e)
           case Success(page) =>
             if EmptyPage(page) then Success(acc)
             else Collect(pageAt, page.value[|page.value| - 1].id, acc + page.value, fuel - 1)
  {
    var renewed := s.(sessionId := CheckEnvelope(ping(Outgoing(s, PingCall(s)))).value.sessionId, lastPing := now);
    var fetch := ActivityFetch(from, to, now, ping, server);
    ActivityFetchPings(s, from, to, prevLast, now, ping, server);
    ActivityFetchQuiet(renewed, from, to, now, ping, server, pageAt);
    WalkFromAfterFirst(fetch, s, renewed, pageAt, prevLast, acc, fuel);
  }

  /** The first page fetch when a ping is due and succeeds: the ping, then the page with the old headers, from the renewed session. */
  lemma ActivityFetchPings(s: Session, from: Option<string>, to: Option<string>, prevLast: int, now: int,
                           ping: Request -> Reply<PingData>, server: Request -> Reply<Page>)
    requires s.sessionId != "" && ShouldRevalidate(true, s.lastPing, now)
    requires CheckEnvelope(ping(Outgoing(s, PingCall(s)))).Success?
    ensures var call := ActivityCall(s, from, to, Cursor(prevLast));
      ActivityFetch(from, to, now, ping, server)(s, prevLast)
        == Step(s.(sessionId := CheckEnvelope(ping(Outgoing(s, PingCall(s)))).value.sessionId, lastPing := now),
                CheckEnvelope(server(Outgoing(s, call))), [Outgoing(s, PingCall(s)), Outgoing(s, call)])
  {
    AuthedFacts(s, ActivityCall(s, from, to, Cursor(prevLast)), None, now, ping, server);
  }

  /** Just after a ping, page fetches leave the session alone: with a session id they read the quiet pages, without one they fail. */
  lemma ActivityFetchQuiet(s: Session, from: Option<string>, to: Option<string>, now: int,
                           ping: Request -> Reply<PingData>, server: Request -> Reply<Page>, pageAt: int -> Result<Page, Error>)
    requires s.lastPing == now
    requires pageAt == if s.sessionId != "" then QuietPages(s, from, to, server) else (c => Failure(Thrown("No session ID")))
    ensures forall c :: ActivityFetch(from, to, now, ping, server)(s, c).state == s
                     && pageAt(c) == PageData(ActivityFetch(from, to, now, ping, server)(s, c).result)
  {
    forall c
      ensures ActivityFetch(from, to, now, ping, server)(s, c).state == s
           && pageAt(c) == PageData(ActivityFetch(from, to, now, ping, server)(s, c).result)
    {
      AuthedFacts(s, ActivityCall(s, from, to, Cursor(c)), None, now, ping, server);
    }
  }

  /**
   * A walk whose first fetch moves to a session that later fetches leave
   * alone: after the first page, it collects the pages that session reads,
   * and the first fetch's requests lead.
   */
  lemma WalkFromAfterFirst(fetch: (Session, int) -> CoreStep<Envelope<Page>>, s: Session, renewed: Session,
                           pageAt: int -> Result<Page, Error>, prevLast: int, acc: seq<ActivityItem>, fuel: nat)
    requires fuel > 0 && fetch(s, prevLast).state == renewed
    requires forall c :: fetch(renewed, c).state == renewed && pageAt(c) == PageData(fetch(renewed, c).result)
    ensures var st := WalkFrom(fetch, s, prevLast, acc, fuel);
      var first := fetch(s, prevLast);
      && st.state == renewed
      && |st.sent| >= |first.sent| && st.sent[..|first.sent|] == first.sent
      && st.result == match PageData(first.result)
           case Failure(e) => Failure(e)
           case Success(page) =>
             if EmptyPage(page) then Success(acc)
             else Collect(pageAt, page.value[|page.value| - 1].id, acc + page.value, fuel - 1)
  {
    var first := fetch(s, prevLast);
    if first.result.Success? && !EmptyPage(first.result.value.data) {
      var items := first.result.value.data.value;
      WalkFromCollects(fetch, renewed, pageAt, items[|items| - 1].id, acc + items, fuel - 1);
      var rest := WalkFrom(fetch, renewed, items[|items| - 1].id, acc + items, fuel - 1);
      assert (first.sent + rest.sent)[..|first.sent|] == first.sent;
    }
  }

  /** `getHomeworks`: the envelope with its homework list sanitised. */
  function Homeworks(s: Session, displayDate: Option<string>, from: Option<string>, to: Option<string>,
                     now: int, ping: Request -> Reply<PingData>, server: Request -> Reply<seq<Homework>>)
    : (st: CoreStep<Envelope<seq<Homework>>>)
    ensures var raw := Authed(s, HomeworksCall(s, displayDate, from, to), None, now, ping, server);
      && st.state == raw.state && st.sent == raw.sent
      && st.result.Success? == raw.result.Success?
      && (raw.result.Failure? ==> st.result == Failure(raw.result.error))
      && (st.result.Success? ==> st.result.value == raw.result.value.(data := SanitiseAll(raw.result.value.data)))
  {
    var raw := Authed(s, HomeworksCall(s, displayDate, from, to), None, now, ping, server);
    match raw.result
    case Failure(e) => Step(raw.state, Failure(e), raw.sent)
    case Success(envelope) => Step(raw.state, Success(envelope.(data := SanitiseAll(envelope.data))), raw.sent)
  }

  /** `getLessons`: a missing or empty date throws before anything is sent. */
  function Lessons<D>(s: Session, date: Option<string>, now: int, ping: Request -> Reply<PingData>, server: Request -> Reply<D>)
    : (st: CoreStep<Envelope<D>>)
    ensures Falsy(date) ==> st == Step(s, Failure(Thrown("No date specified")), [])
    ensures !Falsy(date) ==> st == Authed(s, LessonsCall(s, date.value), None, now, ping, server)
  {
    if Falsy(date) then Step(s, Failure(Thrown("No date specified")), [])
    else Authed(s, LessonsCall(s, date.value), None, now, ping, server)
  }

  /** `(await makeAuthedRequest(...)).data`. */
  function DataOf<S, D>(st: Step<S, Envelope<D>>): Step<S, D> {
    match st.result
    case Failure(e) => Step(st.state, Failure(e), st.sent)
    case Success(envelope) => Step(st.state, Success(envelope.data), st.sent)
  }

  // ---------------------------------------------------------------------
  // The class

  class BaseClient {
    var studentId: int
    var authCookies: seq<string>
    var sessionId: string
    var lastPing: int
    const apiBase: string

    function State(): Session
      reads this
    {
      Session(apiBase, studentId, authCookies, sessionId, lastPing)
    }

    constructor(apiBase: string)
      ensures State() == Session(apiBase, 0, [], "", 0)
    {
      this.apiBase := apiBase;
      studentId := 0;
      authCookies := [];
      sessionId := "";
      lastPing := 0;
    }

    method GetNewSessionId(now: int, ping: Request -> Reply<PingData>) returns (r: Result<(), Error>, sent: seq<Request>)
      modifies this
      ensures Step(State(), r, sent) == NewSessionId(old(State()), now, ping)
      decreases 1
    {
      var pingData;
      pingData, sent := MakeAuthedRequest(PingCall(State()), Some(false), now, ping, ping);
      if pingData.Failure? {
        return Failure(pingData.error), sent;
      }
      sessionId := pingData.value.sessionId;
      lastPing := now;
      r := Success(());
    }

    method MakeAuthedRequest<D>(call: Call, revalidateToken: Option<bool>, now: int,
                                ping: Request -> Reply<PingData>, server: Request -> Reply<D>)
      returns (r: Result<Envelope<D>, Error>, sent: seq<Request>)
      modifies this
      ensures Step(State(), r, sent) == Authed(old(State()), call, revalidateToken, now, ping, server)
      decreases if revalidateToken == Some(false) then 0 else 2
    {
      if sessionId == "" {
        return Failure(Thrown("No session ID")), [];
      }
      var revalidate := revalidateToken.GetOr(true);
      var request := Outgoing(State(), call);
      sent := [];
      if ShouldRevalidate(revalidate, lastPing, now) {
        var renewed;
        renewed, sent := GetNewSessionId(now, ping);
        if renewed.Failure? {
          return Failure(renewed.error), sent;
        }
      }
      r := CheckEnvelope(server(request));
      sent := sent + [request];
    }

    method GetStudentInfo(now: int, ping: Request -> Reply<PingData>) returns (r: Result<Envelope<PingData>, Error>, sent: seq<Request>)
      modifies this
      ensures Step(State(), r, sent) == Authed(old(State()), PingCall(old(State())), None, now, ping, ping)
    {
      r, sent := MakeAuthedRequest(PingCall(State()), None, now, ping, ping);
    }

    method GetActivity(from: Option<string>, to: Option<string>, lastId: Option<string>,
                       now: int, ping: Request -> Reply<PingData>, server: Request -> Reply<Page>)
      returns (r: Result<Envelope<Page>, Error>, sent: seq<Request>)
      modifies this
      ensures Step(State(), r, sent) == Authed(old(State()), ActivityCall(old(State()), from, to, lastId), None, now, ping, server)
    {
      r, sent := MakeAuthedRequest(ActivityCall(State(), from, to, lastId), None, now, ping, server);
    }

    /**
     * One pass of the `while (gotData)` loop of `getFullActivity`: a page
     * fetched and added to the data, or the end of the walk. `goal` is the
     * walk as a whole and `sent` what it has sent before this pass.
     */
    method ActivityRound(from: Option<string>, to: Option<string>, prevLast: int, data: seq<ActivityItem>,
                         now: int, ping: Request -> Reply<PingData>, server: Request -> Reply<Page>, left: nat,
                         sent: seq<Request>, ghost goal: CoreStep<seq<ActivityItem>>)
      returns (more: bool, r: Result<seq<ActivityItem>, Error>, sent': seq<Request>, last: int, data': seq<ActivityItem>)
      requires left > 0
      requires Continue(FullActivityFrom(State(), from, to, prevLast, data, now, ping, server, left), sent) == goal
      modifies this
      ensures !more ==> Step(State(), r, sent') == goal
      ensures more ==> Continue(FullActivityFrom(State(), from, to, last, data', now, ping, server, left - 1), sent') == goal
    {
      ghost var before := State();
      var page, pageSent := GetActivity(from, to, Cursor(prevLast), now, ping, server);
      FullActivityPage(before, from, to, prevLast, data, now, ping, server, left, page, State(), pageSent);
      sent' := sent + pageSent;
      if page.Failure? {
        return false, Failure(page.error), sent', prevLast, data;
      }
      var fragment := page.value.data;
      if EmptyPage(fragment) {
        return false, Success(data), sent', prevLast, data;
      }
      more, r := true, Success(data);
      last := fragment.value[|fragment.value| - 1].id;
      data' := data + fragment.value;
      ContinueTwice(FullActivityFrom(State(), from, to, last, data', now, ping, server, left - 1), pageSent, sent);
    }

    /**
     * The `while (gotData)` loop of `getFullActivity`, from a cursor and the
     * data gathered so far, with `left` pages of budget; `goal` is the walk
     * as a whole and `sent` what it has sent before.
     */
    method ActivityLoop(from: Option<string>, to: Option<string>, prevLast: int, data: seq<ActivityItem>,
                        now: int, ping: Request -> Reply<PingData>, server: Request -> Reply<Page>, left: nat,
                        sent: seq<Request>, ghost goal: CoreStep<seq<ActivityItem>>)
      returns (r: Result<seq<ActivityItem>, Error>, sent': seq<Request>)
      requires Continue(FullActivityFrom(State(), from, to, prevLast, data, now, ping, server, left), sent) == goal
      modifies this
      ensures Step(State(), r, sent') == goal
    {
      var cursor, gathered, budget := prevLast, data, left;
      var gotData := true;
      r, sent' := Success(data), sent;
      while gotData
        invariant gotData ==> Continue(FullActivityFrom(State(), from, to, cursor, gathered, now, ping, server, budget), sent') == goal
        invariant !gotData ==> Step(State(), r, sent') == goal
        decreases budget, gotData
      {
        if budget == 0 {
          return Failure(PageLimitReached), sent';
        }
        gotData, r, sent', cursor, gathered := ActivityRound(from, to, cursor, gathered, now, ping, server, budget, sent', goal);
        budget := budget - 1;
      }
    }

    /** `getFullActivity`, with a page budget. */
    method GetFullActivity(from: Option<string>, to: Option<string>,
                           now: int, ping: Request -> Reply<PingData>, server: Request -> Reply<Page>, fuel: nat)
      returns (r: Result<seq<ActivityItem>, Error>, sent: seq<Request>)
      modifies this
      ensures Step(State(), r, sent) == FullActivity(old(State()), from, to, now, ping, server, fuel)
    {
      ghost var goal := FullActivity(State(), from, to, now, ping, server, fuel);
      assert [] + goal.sent == goal.sent;
      r, sent := ActivityLoop(from, to, 0, [], now, ping, server, fuel, [], goal);
    }

    method GetBehaviour<D>(from: Option<string>, to: Option<string>,
                           now: int, ping: Request -> Reply<PingData>, server: Request -> Reply<D>)
      returns (r: Result<Envelope<D>, Error>, sent: seq<Request>)
      modifies this
      ensures Step(State(), r, sent) == Authed(old(State()), BehaviourCall(old(State()), from, to), None, now, ping, server)
    {
      r, sent := MakeAuthedRequest(BehaviourCall(State(), from, to), None, now, ping, server);
    }

    method GetHomeworks(displayDate: Option<string>, from: Option<string>, to: Option<string>,
                        now: int, ping: Request -> Reply<PingData>, server: Request -> Reply<seq<Homework>>)
      returns (r: Result<Envelope<seq<Homework>>, Error>, sent: seq<Request>)
      modifies this
      ensures Step(State(), r, sent) == Homeworks(old(State()), displayDate, from, to, now, ping, server)
    {
      var data;
      data, sent := MakeAuthedRequest(HomeworksCall(State(), displayDate, from, to), None, now, ping, server);
      if data.Failure? {
        return data, sent;
      }
      var list := SanitiseList(data.value.data);
      r := Success(data.value.(data := list));
    }

    method GetLessons<D>(date: Option<string>, now: int, ping: Request -> Reply<PingData>, server: Request -> Reply<D>)
      returns (r: Result<Envelope<D>, Error>, sent: seq<Request>)
      modifies this
      ensures Step(State(), r, sent) == Lessons(old(State()), date, now, ping, server)
    {
      if Falsy(date) {
        return Failure(Thrown("No date specified")), [];
      }
      r, sent := MakeAuthedRequest(LessonsCall(State(), date.value), None, now, ping, server);
    }

    method GetAttendance<D>(from: Option<string>, to: Option<string>,
                            now: int, ping: Request -> Reply<PingData>, server: Request -> Reply<D>)
      returns (r: Result<D, Error>, sent: seq<Request>)
      modifies this
      ensures Step(State(), r, sent) == DataOf(Authed(old(State()), AttendanceCall(old(State()), from, to), None, now, ping, server))
    {
      var envelope;
      envelope, sent := MakeAuthedRequest(AttendanceCall(State(), from, to), None, now, ping, server);
      r := if envelope.Failure? then Failure(envelope.error) else Success(envelope.value.data);
    }
  }
}
