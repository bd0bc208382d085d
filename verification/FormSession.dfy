/** The UI form session of a client: CSRF token, cookies and session id, and how a
  * background script comes to have them. */
module FormSession {
  import opened Prelude
  import opened Text
  import C = Cookies

  /** Credentials of a native session; they live in the authenticator only. */
  datatype Native = Native(cookieHeader: string, csrf: string)

  datatype Client = Client(
    native: Option<Native>,
    jsessionid: Option<string>,
    formCookieHeader: Option<string>,
    nativeFormBootstrapped: bool,
    formSession: Option<string>)

  /** A response; `gck` is the token its body shows. */
  datatype Response = Response(
    success: bool, headers: seq<C.Header>, loggedIn: Option<bool>, gck: Option<string>)

  /** One response to the login form or to a redirect behind it. */
  datatype LoginReply = Lost | Redirect(headers: seq<C.Header>, followed: bool) | Final(headers: seq<C.Header>, success: bool)

  datatype Error =
    Refused | AuthFailed | RequestFailed | SaveFailed | BadStatus | NotLoggedIn | LoginFailed
    | NoCsrfInPage | NoSessionId | NoCsrfToken | NoCookies

  /** What the surroundings answer during one bootstrap. */
  datatype Env = Env(
    allowed: bool, authenticated: bool, basic: bool, saved: bool, csrfSaved: bool,
    first: Option<Response>, login: seq<LoginReply>, second: Option<Response>, clock: C.Clock)

  /** A state with the outcome of the call that led to it. */
  datatype Done = Done(client: Client, result: Result<(), Error>)

  // --- Reading cookies -----------------------------------------------------------------

  function CookieNamed(parts: seq<string>, name: string): Option<string> {
    if parts == [] then None
    else
      match SplitOnce(Trim(parts[0]), '=')
      case Some((n, value)) => if C.Same(Trim(n), name) then Some(Trim(value)) else CookieNamed(parts[1..], name)
      case None => CookieNamed(parts[1..], name)
  }

  function ReadCookie(cookieHeader: string, name: string): Option<string> {
    CookieNamed(Split(cookieHeader, ";"), name)
  }

  /** The first non-empty JSESSIONID among the Set-Cookie headers. */
  function SessionIdIn(headers: seq<C.Header>): Option<string> {
    if headers == [] then None
    else if headers[0].Opaque? then SessionIdIn(headers[1..])
    else
      match SplitOnce(Split(headers[0].text, ";")[0], '=')
      case None => SessionIdIn(headers[1..])
      case Some((name, value)) =>
        if C.Same(Trim(name), "JSESSIONID") && Trim(value) != "" then Some(Trim(value)) else SessionIdIn(headers[1..])
  }

  // --- The operations --------------------------------------------------------------------

  function CurrentCookies(c: Client): Option<string> {
    if c.native.Some? then Some(c.native.value.cookieHeader) else c.formCookieHeader
  }

  function CurrentToken(c: Client): Option<string> {
    if c.nativeFormBootstrapped && c.native.Some? then Some(c.native.value.csrf) else c.formSession
  }

  /** Every response rotates the cookies the client holds. */
  function Observe(c: Client, headers: seq<C.Header>, saved: bool, clock: C.Clock): Done {
    match c.native
    case Some(native) =>
      var merged := C.Merge(native.cookieHeader, headers, clock);
      var next := c.(native := Some(native.(cookieHeader := merged)));
      Done(next, if merged != native.cookieHeader && !saved then Err(SaveFailed) else Ok(()))
    case None =>
      var cookies :=
        if c.formCookieHeader.Some? then Some(C.Merge(c.formCookieHeader.value, headers, clock)) else None;
      var id := SessionIdIn(headers);
      Done(c.(formCookieHeader := cookies, jsessionid := if id.Some? then id else c.jsessionid), Ok(()))
  }

  function UpdateCsrf(c: Client, token: string, saved: bool): Done {
    match c.native
    case None => Done(c, Ok(()))
    case Some(native) =>
      if native.csrf == token then Done(c, Ok(()))
      else Done(c.(native := Some(native.(csrf := token))), if saved then Ok(()) else Err(SaveFailed))
  }

  /** Cookies collected along at most five responses; None when the login fails. */
  function LoginFrom(replies: seq<LoginReply>, left: nat, cookies: string, clock: C.Clock): Option<string> {
    if left == 0 then (if cookies == "" then None else Some(cookies))
    else if replies == [] then None
    else
      match replies[0]
      case Lost => None
      case Redirect(headers, followed) =>
        if followed then LoginFrom(replies[1..], left - 1, C.Merge(cookies, headers, clock), clock) else None
      case Final(headers, success) =>
        var merged := C.Merge(cookies, headers, clock);
        if !success || merged == "" then None else Some(merged)
  }

  function Login(replies: seq<LoginReply>, clock: C.Clock): Option<string> {
    LoginFrom(replies, 5, "", clock)
  }

  function EnsureWithCookie(c: Client, loginCookies: string, second: Option<Response>, clock: C.Clock): Done {
    if second.None? then Done(c, Err(RequestFailed))
    else if !second.value.success then Done(c, Err(BadStatus))
    else if second.value.loggedIn == Some(false) then Done(c, Err(NotLoggedIn))
    else if second.value.gck.None? then Done(c, Err(NoCsrfInPage))
    else
      var cookies := C.Merge(loginCookies, second.value.headers, clock);
      var id := ReadCookie(cookies, "JSESSIONID");
      if id.None? then Done(c, Err(NoSessionId))
      else Done(c.(jsessionid := id, formCookieHeader := Some(cookies), formSession := second.value.gck), Ok(()))
  }

  /** The session id a bootstrap page gives or the client already had. */
  function SessionId(c: Client): Option<string> {
    if c.native.Some? then ReadCookie(c.native.value.cookieHeader, "JSESSIONID") else c.jsessionid
  }

  function FreshCookies(headers: seq<C.Header>, id: string, clock: C.Clock): string {
    var cookies := C.Merge("", headers, clock);
    if cookies == "" then "JSESSIONID=" + id else cookies
  }

  /** What is kept of a page that shows a token. */
  function Establish(c: Client, page: Response, env: Env): Done
    requires page.gck.Some?
  {
    var id := SessionId(c);
    if id.None? then Done(c, Err(NoSessionId))
    else
      var prepared :=
        if c.native.Some? then c
        else c.(formCookieHeader := Some(FreshCookies(page.headers, id.value, env.clock)), jsessionid := id);
      var updated := UpdateCsrf(prepared, page.gck.value, env.csrfSaved);
      if updated.result.Err? then updated
      else if c.native.Some? then Done(updated.client.(nativeFormBootstrapped := true), Ok(()))
      else Done(updated.client.(formSession := page.gck), Ok(()))
  }

  /** A native authenticator sends no Basic credentials, so only others log in by form. */
  function Bootstrap(c: Client, env: Env): Done {
    if !env.allowed then Done(c, Err(Refused))
    else if CurrentToken(c).Some? then Done(c, Ok(()))
    else if !env.authenticated then Done(c, Err(AuthFailed))
    else if env.first.None? then Done(c, Err(RequestFailed))
    else
      var page := env.first.value;
      var seen := Observe(c, page.headers, env.saved, env.clock);
      if seen.result.Err? then seen
      else if !page.success then Done(seen.client, Err(BadStatus))
      else if page.loggedIn == Some(false) then
        if !env.basic || c.native.Some? then Done(seen.client, Err(NotLoggedIn))
        else
          match Login(env.login, env.clock)
          case None => Done(seen.client, Err(LoginFailed))
          case Some(cookies) => EnsureWithCookie(seen.client, cookies, env.second, env.clock)
      else if page.gck.None? then Done(seen.client, Err(NoCsrfInPage))
      else Establish(seen.client, page, env)
  }

  /** The credentials a script request carries. */
  datatype Sent = Sent(cookies: string, token: string)

  /** Readiness of a form script: the request, or why there is none. */
  function Prepare(c: Client, env: Env): (Client, Result<Sent, Error>) {
    var done := Bootstrap(c, env);
    if done.result.Err? then (done.client, Err(done.result.error))
    else if CurrentToken(done.client).None? then (done.client, Err(NoCsrfToken))
    else if CurrentCookies(done.client).None? then (done.client, Err(NoCookies))
    else (done.client, Ok(Sent(CurrentCookies(done.client).value, CurrentToken(done.client).value)))
  }

  // --- The client ---------------------------------------------------------------------------

  method FormLogin(replies: seq<LoginReply>, clock: C.Clock) returns (r: Option<string>)
    ensures r == Login(replies, clock)
  {
    hide C.Merge;
    var cookies := "";
    assert replies[0..] == replies;
    for i := 0 to 5
      invariant i <= |replies| && Login(replies, clock) == LoginFrom(replies[i..], 5 - i, cookies, clock)
    {
      if i == |replies| || replies[i].Lost? {
        return None;
      }
      cookies := C.MergeCookieHeader(cookies, replies[i].headers, clock);
      if replies[i].Redirect? {
        if !replies[i].followed {
          return None;
        }
        assert replies[i..][1..] == replies[i + 1..];
        continue;
      }
      if !replies[i].success || cookies == "" {
        return None;
      }
      return Some(cookies);
    }
    r := if cookies == "" then None else Some(cookies);
  }

  class SnowClient {
    var native: Option<Native>
    var jsessionid: Option<string>
    var formCookieHeader: Option<string>
    var nativeFormBootstrapped: bool
    var formSession: Option<string>

    ghost function View(): Client
      reads this
    {
      Client(native, jsessionid, formCookieHeader, nativeFormBootstrapped, formSession)
    }

    constructor (native: Option<Native>)
      ensures View() == Fresh(native)
    {
      this.native := native;
      jsessionid, formCookieHeader, nativeFormBootstrapped, formSession := None, None, false, None;
    }

    method ObserveResponse(headers: seq<C.Header>, saved: bool, clock: C.Clock) returns (r: Result<(), Error>)
      modifies this
      ensures Done(View(), r) == Observe(old(View()), headers, saved, clock)
    {
      hide C.Merge, SessionIdIn;
      if native.Some? {
        var merged := C.MergeCookieHeader(native.value.cookieHeader, headers, clock);
        var changed := merged != native.value.cookieHeader;
        native := Some(native.value.(cookieHeader := merged));
        return if changed && !saved then Err(SaveFailed) else Ok(());
      }
      if formCookieHeader.Some? {
        var merged := C.MergeCookieHeader(formCookieHeader.value, headers, clock);
        formCookieHeader := Some(merged);
      }
      var id := SessionIdIn(headers);
      if id.Some? {
        jsessionid := id;
      }
      r := Ok(());
    }

    method EnsureFormSessionWithCookie(loginCookies: string, second: Option<Response>, clock: C.Clock)
      returns (r: Result<(), Error>)
      modifies this
      ensures Done(View(), r) == EnsureWithCookie(old(View()), loginCookies, second, clock)
    {
      hide C.Merge, ReadCookie;
      if second.None? {
        return Err(RequestFailed);
      }
      if !second.value.success {
        return Err(BadStatus);
      }
      if second.value.loggedIn == Some(false) {
        return Err(NotLoggedIn);
      }
      if second.value.gck.None? {
        return Err(NoCsrfInPage);
      }
      var cookies := C.MergeCookieHeader(loginCookies, second.value.headers, clock);
      var id := ReadCookie(cookies, "JSESSIONID");
      if id.None? {
        return Err(NoSessionId);
      }
      jsessionid := id;
      formCookieHeader := Some(cookies);
      formSession := second.value.gck;
      r := Ok(());
    }

    method EstablishFrom(page: Response, env: Env) returns (r: Result<(), Error>)
      requires page.gck.Some?
      modifies this
      ensures Done(View(), r) == Establish(old(View()), page, env)
    {
      hide C.Merge, ReadCookie;
      var isNative := native.Some?;
      var id := if isNative then ReadCookie(native.value.cookieHeader, "JSESSIONID") else jsessionid;
      if id.None? {
        return Err(NoSessionId);
      }
      if !isNative {
        var cookies := C.MergeCookieHeader("", page.headers, env.clock);
        formCookieHeader := Some(if cookies == "" then "JSESSIONID=" + id.value else cookies);
        jsessionid := id;
      } else if native.value.csrf != page.gck.value {
        native := Some(native.value.(csrf := page.gck.value));
        if !env.csrfSaved {
          return Err(SaveFailed);
        }
      }
      if isNative {
        nativeFormBootstrapped := true;
      } else {
        formSession := page.gck;
      }
      r := Ok(());
    }

    method BootstrapFormSession(env: Env) returns (r: Result<(), Error>)
      modifies this
      ensures Done(View(), r) == Bootstrap(old(View()), env)
    {
      hide Observe, EnsureWithCookie, Establish, Login;
      ObserveKeepsKind(View(), env);
      if !env.allowed {
        return Err(Refused);
      }
      if formSession.Some? || (nativeFormBootstrapped && native.Some?) {
        return Ok(());
      }
      if !env.authenticated {
        return Err(AuthFailed);
      }
      if env.first.None? {
        return Err(RequestFailed);
      }
      var page := env.first.value;
      r := ObserveResponse(page.headers, env.saved, env.clock);
      if r.Err? {
        return;
      }
      if !page.success {
        return Err(BadStatus);
      }
      if page.loggedIn == Some(false) {
        if !env.basic || native.Some? {
          return Err(NotLoggedIn);
        }
        var cookies := FormLogin(env.login, env.clock);
        if cookies.None? {
          return Err(LoginFailed);
        }
        r := EnsureFormSessionWithCookie(cookies.value, env.second, env.clock);
        return;
      }
      if page.gck.None? {
        return Err(NoCsrfInPage);
      }
      r := EstablishFrom(page, env);
    }

    method PrepareScript(env: Env) returns (r: Result<Sent, Error>)
      modifies this
      ensures (View(), r) == Prepare(old(View()), env)
    {
      hide Bootstrap;
      var ready := BootstrapFormSession(env);
      if ready.Err? {
        return Err(ready.error);
      }
      var token := if nativeFormBootstrapped && native.Some? then Some(native.value.csrf) else formSession;
      if token.None? {
        return Err(NoCsrfToken);
      }
      var cookies := if native.Some? then Some(native.value.cookieHeader) else formCookieHeader;
      if cookies.None? {
        return Err(NoCookies);
      }
      r := Ok(Sent(cookies.value, token.value));
    }
  }

  // --- Reachable clients --------------------------------------------------------------------

  function Fresh(native: Option<Native>): Client {
    Client(native, None, None, false, None)
  }

  datatype Call =
    | Responded(headers: seq<C.Header>, saved: bool, clock: C.Clock)
    | Bootstrapped(env: Env)
    | Scripted(env: Env)
    | CsrfRefreshed(token: string, saved: bool)

  function After(c: Client, call: Call): Client {
    match call
    case Responded(headers, saved, clock) => Observe(c, headers, saved, clock).client
    case Bootstrapped(env) => Bootstrap(c, env).client
    case Scripted(env) => Prepare(c, env).0
    case CsrfRefreshed(token, saved) => UpdateCsrf(c, token, saved).client
  }

  function AfterAll(c: Client, calls: seq<Call>): Client {
    if calls == [] then c else After(AfterAll(c, calls[..|calls| - 1]), calls[|calls| - 1])
  }

  /** A form session has its cookies and its session id; a native client keeps none of
    * the three outside its authenticator. */
  predicate Coherent(c: Client) {
    if c.native.Some? then c.formSession.None? && c.formCookieHeader.None? && c.jsessionid.None?
    else !c.nativeFormBootstrapped && (c.formSession.Some? ==> c.formCookieHeader.Some? && c.jsessionid.Some?)
  }

  lemma ObserveKeepsKind(c: Client, env: Env)
    ensures env.first.Some? ==>
      (Observe(c, env.first.value.headers, env.saved, env.clock).client.native.Some? <==> c.native.Some?)
  {
    hide C.Merge, SessionIdIn;
  }

  lemma ObserveKeepsCoherent(c: Client, headers: seq<C.Header>, saved: bool, clock: C.Clock)
    requires Coherent(c)
    ensures var next := Observe(c, headers, saved, clock).client;
            Coherent(next) && (next.native.Some? <==> c.native.Some?)
  {
    hide C.Merge, SessionIdIn;
  }

  lemma EstablishKeepsCoherent(c: Client, page: Response, env: Env)
    requires Coherent(c) && page.gck.Some?
    ensures var d := Establish(c, page, env);
            && Coherent(d.client) && (d.client.native.Some? <==> c.native.Some?)
            && (d.result.Ok? ==> CurrentToken(d.client) == page.gck && CurrentCookies(d.client).Some?)
  {
    hide C.Merge, ReadCookie;
  }

  lemma EnsureKeepsCoherent(c: Client, cookies: string, second: Option<Response>, clock: C.Clock)
    requires Coherent(c) && c.native.None?
    ensures var d := EnsureWithCookie(c, cookies, second, clock);
            && Coherent(d.client) && d.client.native.None?
            && (d.result.Ok? ==>
              && second.Some? && CurrentToken(d.client) == second.value.gck && CurrentToken(d.client).Some?
              && CurrentCookies(d.client).Some? && ReadCookie(d.client.formCookieHeader.value, "JSESSIONID") == d.client.jsessionid)
  {
    hide C.Merge, ReadCookie;
  }

  /** A bootstrap keeps the client coherent, and success means token and cookies are there. */
  lemma BootstrapMakesReady(c: Client, env: Env)
    requires Coherent(c)
    ensures var d := Bootstrap(c, env);
            && Coherent(d.client) && (d.client.native.Some? <==> c.native.Some?)
            && (d.result.Ok? ==> CurrentToken(d.client).Some? && CurrentCookies(d.client).Some?)
  {
    hide Observe, EnsureWithCookie, Establish, Login;
    if env.first.Some? {
      var page := env.first.value;
      ObserveKeepsCoherent(c, page.headers, env.saved, env.clock);
      var seen := Observe(c, page.headers, env.saved, env.clock).client;
      if page.gck.Some? {
        EstablishKeepsCoherent(seen, page, env);
      }
      if c.native.None? && Login(env.login, env.clock).Some? {
        EnsureKeepsCoherent(seen, Login(env.login, env.clock).value, env.second, env.clock);
      }
    }
  }

  lemma {:induction false} ReachableIsCoherent(native: Option<Native>, calls: seq<Call>)
    ensures var c := AfterAll(Fresh(native), calls);
            Coherent(c) && (c.native.Some? <==> native.Some?)
  {
    hide Observe, Bootstrap;
    if calls == [] {
    } else {
      var n := |calls| - 1;
      ReachableIsCoherent(native, calls[..n]);
      var before := AfterAll(Fresh(native), calls[..n]);
      match calls[n]
      case Responded(headers, saved, clock) => ObserveKeepsCoherent(before, headers, saved, clock);
      case Bootstrapped(env) => BootstrapMakesReady(before, env);
      case Scripted(env) => BootstrapMakesReady(before, env);
      case CsrfRefreshed(_, _) =>
    }
  }

  /** In no run does a script reach the two bail-outs behind a successful bootstrap; what it
    * carries is what the client then holds. */
  lemma ScriptsAlwaysHaveCredentials(native: Option<Native>, calls: seq<Call>, env: Env)
    ensures var (after, r) := Prepare(AfterAll(Fresh(native), calls), env);
            && r != Err(NoCsrfToken) && r != Err(NoCookies)
            && (r.Ok? && native.Some? ==>
              after.native.Some? && r.value.cookies == after.native.value.cookieHeader && r.value.token == after.native.value.csrf)
            && (r.Ok? && native.None? ==>
              after.formCookieHeader == Some(r.value.cookies) && after.formSession == Some(r.value.token))
  {
    hide Bootstrap;
    ReachableIsCoherent(native, calls);
    BootstrapMakesReady(AfterAll(Fresh(native), calls), env);
    NoOtherBailOut(AfterAll(Fresh(native), calls), env);
  }

  /** The page answers a logged-in client and shows a token. */
  predicate ShowsSession(page: Option<Response>) {
    page.Some? && page.value.success && page.value.loggedIn != Some(false) && page.value.gck.Some?
  }

  /** The page asks to log in, which Basic credentials can do. */
  predicate AsksToLogIn(page: Option<Response>) {
    page.Some? && page.value.success && page.value.loggedIn == Some(false)
  }

  /** Without a native session, a bootstrap of a client that has no form session succeeds
    * exactly when it is allowed and authenticated and either the page shows a token and a
    * session id is known, or the page asks to log in, Basic credentials are there, the login
    * leads to cookies, the page behind it shows a token and its cookies name a session. The
    * token is that page's. */
  lemma BootstrapSucceedsExactly(c: Client, env: Env)
    requires Coherent(c) && c.native.None? && c.formSession.None?
    ensures var d := Bootstrap(c, env);
            var direct := ShowsSession(env.first) && (SessionIdIn(env.first.value.headers).Some? || c.jsessionid.Some?);
            var login := AsksToLogIn(env.first) && env.basic && Login(env.login, env.clock).Some? && ShowsSession(env.second)
                         && ReadCookie(C.Merge(Login(env.login, env.clock).value, env.second.value.headers, env.clock), "JSESSIONID").Some?;
            && (d.result.Ok? <==> env.allowed && env.authenticated && (direct || login))
            && (d.result.Ok? && direct ==> d.client.formSession == env.first.value.gck)
            && (d.result.Ok? && login ==>
                  && d.client.formSession == env.second.value.gck
                  && d.client.formCookieHeader == Some(C.Merge(Login(env.login, env.clock).value, env.second.value.headers, env.clock)))
  {
    hide C.Merge, SessionIdIn, ReadCookie, Login, FreshCookies;
  }

  /** With a native session it succeeds exactly when the page shows a token, the rotated
    * cookies name a session, and every change of the session could be saved. */
  lemma NativeBootstrapSucceedsExactly(c: Client, env: Env)
    requires Coherent(c) && c.native.Some? && !c.nativeFormBootstrapped
    ensures var d, native := Bootstrap(c, env), c.native.value;
            && (d.result.Ok? <==>
                  && env.allowed && env.authenticated && ShowsSession(env.first)
                  && var merged := C.Merge(native.cookieHeader, env.first.value.headers, env.clock);
                     && (merged == native.cookieHeader || env.saved)
                     && ReadCookie(merged, "JSESSIONID").Some?
                     && (env.first.value.gck == Some(native.csrf) || env.csrfSaved))
            && (d.result.Ok? ==>
                  d.client.native == Some(Native(C.Merge(native.cookieHeader, env.first.value.headers, env.clock), env.first.value.gck.value)))
  {
    hide C.Merge, ReadCookie, SessionIdIn, Login;
  }

  lemma NoOtherBailOut(c: Client, env: Env)
    ensures Bootstrap(c, env).result != Err(NoCsrfToken) && Bootstrap(c, env).result != Err(NoCookies)
  {
    hide C.Merge, ReadCookie, SessionIdIn, Login;
  }

  // --- Login redirects ---------------------------------------------------------------------------

  /** The Set-Cookie headers of the login responses that are read, in order. */
  function LoginHeaders(replies: seq<LoginReply>, left: nat): seq<C.Header> {
    if left == 0 || replies == [] || replies[0].Lost? then []
    else replies[0].headers + if replies[0].Redirect? then LoginHeaders(replies[1..], left - 1) else []
  }

  lemma {:induction false} LoginMergesFrom(replies: seq<LoginReply>, left: nat, seen: seq<C.Header>, clock: C.Clock)
    ensures var r := LoginFrom(replies, left, C.Merge("", seen, clock), clock);
            r.Some? ==> r.value == C.Merge("", seen + LoginHeaders(replies, left), clock)
    decreases left
  {
    hide C.Merge;
    assert seen + [] == seen;
    if left > 0 && replies != [] && !replies[0].Lost? {
      C.BatchesMergeAsOne("", seen, replies[0].headers, clock);
      var more := seen + replies[0].headers;
      if replies[0].Redirect? {
        LoginMergesFrom(replies[1..], left - 1, more, clock);
        assert more + LoginHeaders(replies[1..], left - 1) == seen + LoginHeaders(replies, left);
      } else {
        assert replies[0].headers + [] == replies[0].headers;
      }
    }
  }

  /** A login through redirects ends with the cookies of all its responses at once, as if
    * they had come in one. */
  lemma LoginMergesAllResponses(replies: seq<LoginReply>, clock: C.Clock)
    requires Login(replies, clock).Some?
    ensures Login(replies, clock).value == C.Merge("", LoginHeaders(replies, 5), clock)
    ensures Login(replies, clock).value != ""
  {
    C.EmptyParses();
    assert C.Merge("", [], clock) == "" by {
      assert C.Updates([], clock) == [];
    }
    LoginMergesFrom(replies, 5, [], clock);
    assert [] + LoginHeaders(replies, 5) == LoginHeaders(replies, 5);
    LoginIsNotEmpty(replies, 5, "", clock);
  }

  /** The first `k` responses are redirects that are followed, and they are all that may be
    * read or a successful page ends them. */
  predicate Follows(replies: seq<LoginReply>, left: nat, k: nat) {
    && k <= left && k <= |replies|
    && (forall i :: 0 <= i < k ==> replies[i].Redirect? && replies[i].followed)
    && (k == left || (k < |replies| && replies[k].Final? && replies[k].success))
  }

  ghost predicate Followed(replies: seq<LoginReply>, left: nat) {
    exists k: nat :: Follows(replies, left, k)
  }

  lemma {:induction false} LoginEndsFrom(replies: seq<LoginReply>, left: nat, seen: seq<C.Header>, clock: C.Clock)
    ensures LoginFrom(replies, left, C.Merge("", seen, clock), clock).Some? <==>
              Followed(replies, left) && C.Merge("", seen + LoginHeaders(replies, left), clock) != ""
    decreases left
  {
    hide C.Merge;
    assert seen + [] == seen;
    if left == 0 {
      assert Follows(replies, left, 0);
    } else if replies == [] || replies[0].Lost? {
    } else {
      C.BatchesMergeAsOne("", seen, replies[0].headers, clock);
      var more := seen + replies[0].headers;
      if replies[0].Redirect? {
        LoginEndsFrom(replies[1..], left - 1, more, clock);
        assert more + LoginHeaders(replies[1..], left - 1) == seen + LoginHeaders(replies, left);
        FollowsOn(replies, left);
      } else {
        assert replies[0].headers + [] == replies[0].headers;
        assert replies[0].success ==> Follows(replies, left, 0);
      }
    }
  }

  lemma FollowsOn(replies: seq<LoginReply>, left: nat)
    requires left > 0 && replies != [] && replies[0].Redirect?
    ensures Followed(replies, left) <==> replies[0].followed && Followed(replies[1..], left - 1)
  {
    if Followed(replies, left) {
      var k: nat :| Follows(replies, left, k);
      assert k > 0;
      assert forall i :: 0 <= i < k - 1 ==> replies[1..][i] == replies[i + 1];
      assert Follows(replies[1..], left - 1, k - 1);
    }
    if replies[0].followed && Followed(replies[1..], left - 1) {
      var k: nat :| Follows(replies[1..], left - 1, k);
      assert forall i :: 0 < i < k + 1 ==> replies[i] == replies[1..][i - 1];
      assert k < |replies| - 1 ==> replies[k + 1] == replies[1..][k];
      assert Follows(replies, left, k + 1);
    }
  }

  /** A login succeeds if and only if its redirects, at most five, can all be followed, a page
    * that ends them earlier is a success, and all the responses together leave a cookie. */
  lemma LoginSucceedsExactly(replies: seq<LoginReply>, clock: C.Clock)
    ensures Login(replies, clock).Some? <==>
              Followed(replies, 5) && C.Merge("", LoginHeaders(replies, 5), clock) != ""
  {
    MergedNothing(clock);
    hide C.Merge;
    LoginEndsFrom(replies, 5, [], clock);
    assert [] + LoginHeaders(replies, 5) == LoginHeaders(replies, 5);
  }

  lemma MergedNothing(clock: C.Clock)
    ensures C.Merge("", [], clock) == ""
  {
    C.EmptyParses();
    assert C.Updates([], clock) == [];
  }

  lemma {:induction false} LoginIsNotEmpty(replies: seq<LoginReply>, left: nat, cookies: string, clock: C.Clock)
    ensures LoginFrom(replies, left, cookies, clock) != Some("")
    decreases left
  {
    hide C.Merge;
    if left > 0 && replies != [] && replies[0].Redirect? {
      LoginIsNotEmpty(replies[1..], left - 1, C.Merge(cookies, replies[0].headers, clock), clock);
    }
  }

  // --- Session ids -----------------------------------------------------------------------------------

  /** A session id as it is read from a cookie. */
  predicate PlainId(id: string) {
    ';' !in id && Trimmed(id)
  }

  predicate IdIsPlain(c: Client) {
    c.jsessionid.Some? ==> PlainId(c.jsessionid.value)
  }

  lemma ValueIsPlain(part: string, whole: string)
    requires ';' !in whole && (forall c :: c in part ==> c in whole) && SplitOnce(part, '=').Some?
    ensures PlainId(Trim(SplitOnce(part, '=').value.1))
  {
    var value := SplitOnce(part, '=').value.1;
    assert forall c :: c in value ==> c in part;
    TrimTrims(value);
    hide Trim, Trimmed;
  }

  lemma {:induction false} SessionIdIsPlain(headers: seq<C.Header>)
    ensures SessionIdIn(headers).Some? ==> PlainId(SessionIdIn(headers).value)
  {
    hide PlainId, Trim, SplitOnce, Split, C.Same;
    if headers == [] {
    } else {
      SessionIdIsPlain(headers[1..]);
      if headers[0].Plain? {
        C.PiecesHaveNo(headers[0].text, ';');
        assert [';'] == ";";
        var first := Split(headers[0].text, ";")[0];
        assert first in Split(headers[0].text, ";");
        if SplitOnce(first, '=').Some? {
          ValueIsPlain(first, first);
        }
      }
    }
  }

  lemma {:induction false} NamedIsPlain(parts: seq<string>, name: string)
    requires forall p :: p in parts ==> ';' !in p
    ensures CookieNamed(parts, name).Some? ==> PlainId(CookieNamed(parts, name).value)
  {
    hide PlainId, Trim, SplitOnce, C.Same;
    if parts == [] {
    } else {
      assert parts[0] in parts;
      NamedIsPlain(parts[1..], name);
      TrimTrims(parts[0]);
      if SplitOnce(Trim(parts[0]), '=').Some? {
        ValueIsPlain(Trim(parts[0]), parts[0]);
      }
    }
  }

  lemma ReadIsPlain(cookieHeader: string, name: string)
    ensures ReadCookie(cookieHeader, name).Some? ==> PlainId(ReadCookie(cookieHeader, name).value)
  {
    hide PlainId, Split;
    C.PiecesHaveNo(cookieHeader, ';');
    assert [';'] == ";";
    NamedIsPlain(Split(cookieHeader, ";"), name);
  }

  lemma BootstrapKeepsIdPlain(c: Client, env: Env)
    requires IdIsPlain(c)
    ensures IdIsPlain(Bootstrap(c, env).client)
  {
    hide PlainId, SessionIdIn, ReadCookie, C.Merge, Login;
    if env.first.Some? {
      SessionIdIsPlain(env.first.value.headers);
      var seen := Observe(c, env.first.value.headers, env.saved, env.clock).client;
      if Login(env.login, env.clock).Some? && env.second.Some? {
        ReadIsPlain(C.Merge(Login(env.login, env.clock).value, env.second.value.headers, env.clock), "JSESSIONID");
      }
    }
  }

  /** In every run the session id held is one that a cookie can carry. */
  lemma {:induction false} ReachableIdIsPlain(native: Option<Native>, calls: seq<Call>)
    ensures IdIsPlain(AfterAll(Fresh(native), calls))
  {
    hide PlainId, SessionIdIn, Bootstrap, C.Merge;
    if calls == [] {
    } else {
      var n := |calls| - 1;
      ReachableIdIsPlain(native, calls[..n]);
      var before := AfterAll(Fresh(native), calls[..n]);
      match calls[n]
      case Responded(headers, _, _) => SessionIdIsPlain(headers);
      case Bootstrapped(env) => BootstrapKeepsIdPlain(before, env);
      case Scripted(env) => BootstrapKeepsIdPlain(before, env);
      case CsrfRefreshed(_, _) =>
    }
  }
}
