/**
 * What every login form shares, and where the generations of the clients
 * differ: the recaptcha token they send, the headers of the form post, how
 * they split the `set-cookie` header into stored cookies, which
 * `parseCookies` they use, and how they word their errors.
 */
module Login {
  import opened Wrappers
  import opened Text
  import opened Http
  import opened Cookies
  import opened Errors

  /** `"Unauthenticated: " + ... + " returned an error"`, with or without the status line after it. */
  datatype Rejection = WithStatus(brand: string) | WithoutStatus(brand: string)

  datatype Dialect = Dialect(
    missing: string,                 // the error of a missing code or email
    token: string,                   // the `recaptcha-token` field
    headers: map<string, string>,    // the headers of the form post
    separator: char,                 // what the stored cookies are split on
    keys: KeyStyle,                  // which `parseCookies`
    arrayHeader: bool,               // `set-cookie` is an array, truthy even when empty
    rejection: Rejection,
    httpErrors: bool)                // the post goes through `ky`, which throws on a status that is not 2xx

  /** src/core/studentClient.ts: no headers on the form post, cookies split on `,`. */
  const CoreStudent := Dialect("Student Code not inputted", "no-token-available", map[], ',', TrimmedKeys, false,
                               WithStatus("ClassCharts"), false)

  /** src/core/parentClient.ts. */
  const CoreParent := Dialect("Email not provided", "no-token-available", FormHeaders, ',', TrimmedKeys, false,
                              WithStatus("ClassCharts"), false)

  /** src/studentClient.ts (axios): cookies split on `;`, keys not trimmed, no status in the error. */
  const AxiosStudent := Dialect("Student Code not inputted", "no-token-avaliable", FormHeaders, ';', RawKeys, true,
                                WithoutStatus("Classcharts"), false)

  /** src/parentClient.ts (ky). */
  const KyParent := Dialect("Email not inputted", "no-token-avaliable", FormHeaders, ';', RawKeys, false,
                            WithStatus("Classcharts"), true)

  /**
   * src/student.ts, src/parent.ts and src/dummyClient.ts (undici): the same
   * token and headers as the axios generation. They cut their cookies at the
   * first `;` instead of splitting the header, so `separator` and `keys` are
   * not used.
   */
  const UndiciStudent := Dialect("Student Code not inputted", "no-token-avaliable", FormHeaders, ';', RawKeys, true,
                                 WithoutStatus("Classcharts"), false)

  const UndiciParent := Dialect("Email not inputted", "no-token-avaliable", FormHeaders, ';', RawKeys, true,
                                WithoutStatus("Classcharts"), false)

  /** The form post of a student login. */
  function StudentLoginRequest(d: Dialect, code: string, dob: string): Request {
    Request(BaseUrl + "/student/login", Post, [], d.headers, StudentForm(code, dob, d.token))
  }

  /** The form post of a parent login. */
  function ParentLoginRequest(d: Dialect, email: string, password: string): Request {
    Request(BaseUrl + "/parent/login", Post, [], d.headers, ParentForm(email, password, d.token))
  }

  /**
   * `status != 302 || !set-cookie` taken the other way round. An absent
   * header, or an empty one read as a string, is falsy; an array is truthy
   * even when it is empty.
   */
  predicate Accepted(d: Dialect, reply: LoginReply) {
    reply.status == 302 && (if d.arrayHeader then reply.setCookie.Some? else !Falsy(reply.setCookie))
  }

  /** `statusCode != 302 || !set-cookie` taken the other way round, for undici's array header. */
  predicate ArrayAccepted(reply: CookieArrayReply) {
    reply.statusCode == 302 && reply.setCookie.Some?
  }

  /** The statuses that `fetch` and `ky` follow unless told not to. */
  predicate IsRedirect(status: int) {
    status == 301 || status == 302 || status == 303 || status == 307 || status == 308
  }

  /**
   * A reply that `fetch` and `ky` follow: a redirect status with a
   * `Location` header. A redirect without one is handed back as it is.
   */
  predicate Follows(reply: LoginReply) {
    IsRedirect(reply.status) && reply.location
  }

  /**
   * The reply a client that follows redirects hands back for a post:
   * `reply` itself when it is not followed, otherwise `followed`, the last
   * reply of the chain it starts. The chain ends at a reply that is not
   * followed, or `fetch` gives up on it with a TypeError, so a `followed`
   * that would still be followed stands for a chain it gave up on.
   */
  function Followed(reply: LoginReply, followed: LoginReply): (r: Result<LoginReply, Error>)
    ensures r.Success? ==> !Follows(r.value)
    ensures r.Success? ==> r.value == (if Follows(reply) then followed else reply)
    ensures r.Failure? <==> Follows(reply) && Follows(followed)
  {
    if !Follows(reply) then Success(reply)
    else if Follows(followed) then Failure(TypeError)
    else Success(followed)
  }

  /**
   * A client that follows redirects sees a 302 only when it has no
   * `Location`: a login accepted with a 302 that points elsewhere is checked
   * against the end of the chain, and one accepted without a `Location` is
   * checked against its own reply.
   */
  lemma FollowedAcceptsOnlyWithoutLocation(d: Dialect, reply: LoginReply, followed: LoginReply)
    requires Followed(reply, followed).Success?
    ensures Accepted(d, Followed(reply, followed).value) ==> !Followed(reply, followed).value.location
    ensures Accepted(d, reply) && reply.location ==> Followed(reply, followed).value == followed
    ensures Accepted(d, reply) && !reply.location ==> Followed(reply, followed).value == reply
  {
  }

  /** The message of a rejected login. */
  function RejectedMessage(d: Dialect, reply: LoginReply): string {
    match d.rejection
    case WithStatus(brand) => "Unauthenticated: " + brand + " returned an error: " + StatusLine(reply.status, reply.statusText)
    case WithoutStatus(brand) => "Unauthenticated: " + brand + " returned an error"
  }

  /** A dialect that leaves the status out says only who refused. */
  lemma RejectedWithoutStatus(d: Dialect, reply: LoginReply)
    requires d.rejection == WithoutStatus("Classcharts")
    ensures RejectedMessage(d, reply) == "Unauthenticated: Classcharts returned an error"
  {
  }

  /** Only a redirect that sets a cookie gets through, whatever the dialect. */
  lemma AcceptedNeeds302(d: Dialect, reply: LoginReply)
    requires Accepted(d, reply)
    ensures reply.status == 302 && reply.setCookie.Some?
  {
  }

  /** The two readings of the header differ only on an empty one. */
  lemma ArrayHeaderOnlyDiffersWhenEmpty(d: Dialect, e: Dialect, reply: LoginReply)
    requires d.arrayHeader && !e.arrayHeader
    ensures Accepted(d, reply) != Accepted(e, reply) <==> reply.status == 302 && reply.setCookie == Some("")
  {
  }
}
