/**
 * What the clients send and what they get back. A request is a value: its
 * URL, method, query and form pairs (in the order `URLSearchParams` keeps
 * them) and its headers. Replies are inputs: the `{success, data, meta,
 * error}` envelope of the API, or a body that is not JSON, and the reply to
 * a login form.
 */
module Http {
  import opened Wrappers
  import opened Text
  import opened Errors

  const BaseUrl := "https://www.classcharts.com"
  const ApiBaseStudent := BaseUrl + "/apiv2student"
  const ApiBaseParent := BaseUrl + "/apiv2parent"

  /** Ordered key/value pairs: a form body or the parameters of a query string. */
  type Pairs = seq<(string, string)>

  datatype Method = Get | Post

  datatype Request = Request(url: string, verb: Method, query: Pairs, headers: map<string, string>, body: Pairs)

  /** What a caller hands to a `makeAuthedRequest`: the URL, the method, the query and form pairs, and its own headers. */
  datatype Call = Call(url: string, verb: Method, query: Pairs, body: Pairs, headers: map<string, string>)

  /** What a call did: the client's state after it, its outcome, and the requests it dispatched, in order. */
  datatype Step<S, T> = Step(state: S, result: Result<T, Error>, sent: seq<Request>)

  /** The API's envelope; `sessionId` is `meta.session_id`. */
  datatype Envelope<D> = Envelope(success: int, data: D, sessionId: string, error: string)

  /** A response body: a parsed envelope, or text that is not JSON. */
  datatype Reply<D> = Json(envelope: Envelope<D>) | NotJson

  datatype User = User(id: int, name: string)

  /** The `data` of a ping with `include_data`: the signed-in user. */
  datatype PingData = PingData(user: User)

  datatype Pupil = Pupil(id: int, name: string)

  datatype ActivityItem = ActivityItem(id: int, kind: string)

  datatype Homework = Homework(id: int, lesson: string, description: string, descriptionRaw: string)

  /**
   * The reply to a login form under fetch, ky or axios: status, status text,
   * the `set-cookie` header if any, and whether it carries a `Location` header.
   */
  datatype LoginReply = LoginReply(status: int, statusText: string, setCookie: Option<string>, location: bool)

  /** The reply to a login form under undici, whose `set-cookie` header is an array. */
  datatype CookieArrayReply = CookieArrayReply(statusCode: int, setCookie: Option<seq<string>>)

  /** `!value` for a header or option read as a string: absent or empty. */
  predicate Falsy(value: Option<string>) {
    value.None? || value.value == ""
  }

  /**
   * `options?.x && params.append("x", options?.x)` for each option in turn:
   * the pairs whose value is present and not empty, in their order.
   */
  function Present(options: seq<(string, Option<string>)>): Pairs {
    if options == [] then []
    else
      var (k, v) := options[0];
      (if !Falsy(v) then [(k, v.value)] else []) + Present(options[1..])
  }

  /** A pair is sent exactly when its option is given and not empty, and no more pairs than options are sent. */
  lemma {:induction false} PresentMembers(options: seq<(string, Option<string>)>)
    ensures |Present(options)| <= |options|
    ensures forall k, v :: (k, v) in Present(options) <==> (k, Some(v)) in options && v != ""
  {
    if options != [] {
      PresentMembers(options[1..]);
      assert forall o :: o in options <==> o == options[0] || o in options[1..];
    }
  }

  /** Building the query of a concatenation of options is the concatenation of the queries: the order is kept. */
  lemma {:induction false} PresentConcat(a: seq<(string, Option<string>)>, b: seq<(string, Option<string>)>)
    ensures Present(a + b) == Present(a) + Present(b)
  {
    if a != [] {
      assert (a + b)[0] == a[0];
      assert (a + b)[1..] == a[1..] + b;
      PresentConcat(a[1..], b);
    } else {
      assert a + b == b;
    }
  }

  /** When every option is given, every option is sent, in the given order. */
  lemma {:induction false} PresentAll(options: seq<(string, Option<string>)>)
    requires forall i :: 0 <= i < |options| ==> !Falsy(options[i].1)
    ensures var r := Present(options);
      |r| == |options| && forall i :: 0 <= i < |options| ==> options[i].1 == Some(r[i].1) && r[i].0 == options[i].0
  {
    if options != [] {
      PresentAll(options[1..]);
    }
  }

  /** The status line a failed login reports: `status + " " + statusText`. */
  function StatusLine(status: int, statusText: string): string {
    IntToString(status) + " " + statusText
  }

  /** The login form of a student: `_method`, the upper-cased code, `dob`, `remember_me`, `recaptcha-token`. */
  function StudentForm(code: string, dob: string, token: string): Pairs {
    [("_method", "POST"), ("code", ToUpper(code)), ("dob", dob), ("remember_me", "1"), ("recaptcha-token", token)]
  }

  /** The login form of a parent: `_method`, `email`, `logintype`, `password`, `recaptcha-token`. */
  function ParentForm(email: string, password: string, token: string): Pairs {
    [("_method", "POST"), ("email", email), ("logintype", "existing"), ("password", password), ("recaptcha-token", token)]
  }

  /** The header the form logins other than the core student's send. */
  const FormHeaders: map<string, string> := map["Content-Type" := "application/x-www-form-urlencoded"]

  /** `String(x)` of an optional string argument: an omitted one is "undefined". */
  function StringOf(x: Option<string>): string {
    if x.None? then "undefined" else x.value
  }

  /** The body of a ping: `include_data=true`. */
  const PingBody: Pairs := [("include_data", "true")]
}
