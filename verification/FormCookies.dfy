/** Whether the cookies a form session keeps name the session it reports. */
module FormCookies {
  import opened Prelude
  import opened Text
  import opened FormSession
  import C = Cookies

  // --- Reading a jar ---------------------------------------------------------------

  /** The value of the first cookie of that name, up to case and surrounding spaces. */
  function FirstNamed(cookies: seq<C.Cookie>, name: string): Option<string> {
    if cookies == [] then None
    else if C.Same(Trim(cookies[0].name), name) then Some(Trim(cookies[0].value))
    else FirstNamed(cookies[1..], name)
  }

  lemma {:induction false} NamedAmongParsed(parts: seq<string>, name: string)
    ensures CookieNamed(parts, name) == FirstNamed(C.ParseParts(parts), name)
  {
    hide Trim, SplitOnce, C.Same;
    if parts == [] {
    } else {
      NamedAmongParsed(parts[1..], name);
      var pair, rest := SplitOnce(Trim(parts[0]), '='), C.ParseParts(parts[1..]);
      if pair.Some? {
        assert ([C.Cookie(pair.value.0, pair.value.1)] + rest)[1..] == rest;
      } else {
        assert [] + rest == rest;
      }
    }
  }

  /** Reading a written jar finds what is in the jar. */
  lemma FormattedReads(cookies: seq<C.Cookie>, name: string)
    requires C.AllStorable(cookies)
    ensures ReadCookie(C.Format(cookies), name) == FirstNamed(cookies, name)
  {
    hide Split, C.Format, C.ParseParts, CookieNamed, FirstNamed;
    NamedAmongParsed(Split(C.Format(cookies), ";"), name);
    C.FormatParses(cookies);
  }

  lemma EmptyFormat(cookies: seq<C.Cookie>)
    ensures C.Format(cookies) == "" <==> cookies == []
  {
    if cookies == [] {
    } else {
      assert C.Shown(cookies)[0] != "";
    }
  }

  /** What is left of a page's cookies: the last update of each name, unless it deletes. */
  function Lasting(headers: seq<C.Header>, clock: C.Clock): seq<C.Cookie> {
    C.Survivors(C.Updates(headers, clock))
  }

  lemma PageJar(headers: seq<C.Header>, clock: C.Clock)
    ensures C.Merge("", headers, clock) == C.Format(Lasting(headers, clock)) && C.AllStorable(Lasting(headers, clock))
  {
    hide C.ParseCookies, C.Survivors, C.Updates, C.StoreAll, C.Format, C.Storable;
    C.EmptyParses();
    EmptyFormat([]);
    var us := C.Updates(headers, clock);
    C.LastWriteWins([], us);
    assert C.Untouched([], us) == [];
    assert [] + C.Survivors(us) == C.Survivors(us);
    C.MergedAreStorable([], headers, clock);
  }

  // --- One cookie ---------------------------------------------------------------------

  /** A lone cookie is read as its name and value. */
  lemma LoneCookie(name: string, value: string, text: string)
    requires text == name + "=" + value && C.Storable(C.Cookie(name, value))
    ensures Split(text, ";") == [text] && Trim(text) == text && SplitOnce(text, '=') == Some((name, value))
  {
    hide Split, Trim, SplitOnce, Trimmed, Contains, Find;
    assert ";" == [';'] && "=" == ['='];
    SplitOnceAt(name, '=', value);
    TrimTrims(text);
    CharContains(text, ';');
    SplitWhole(text, ";");
  }

  lemma LoneCookieReads(name: string, value: string, wanted: string, text: string)
    requires text == name + "=" + value && C.Storable(C.Cookie(name, value))
    ensures ReadCookie(text, wanted) == if C.Same(Trim(name), wanted) then Some(Trim(value)) else None
  {
    LoneCookie(name, value, text);
    hide Split, Trim, SplitOnce, C.Same;
    assert [text][1..] == [];
    assert CookieNamed([], wanted) == None;
  }

  lemma OwnCookieIsStorable(id: string)
    requires PlainId(id)
    ensures C.Storable(C.Cookie("JSESSIONID", id)) && Trim("JSESSIONID") == "JSESSIONID" && Trim(id) == id
  {
    TrimTrims("JSESSIONID");
    TrimTrims(id);
    hide Trim;
    var shown := C.Cookie("JSESSIONID", id).Show();
    assert shown[0] == 'J' && shown[|shown| - 1] == if id == "" then '=' else id[|id| - 1];
  }

  lemma SameItself(name: string)
    ensures C.Same(name, name)
  {
  }

  lemma OwnCookieReads(id: string)
    requires PlainId(id)
    ensures ReadCookie("JSESSIONID=" + id, "JSESSIONID") == Some(id)
  {
    hide ReadCookie, C.Storable, Trim;
    OwnCookieIsStorable(id);
    SameItself("JSESSIONID");
    assert "JSESSIONID=" == "JSESSIONID" + "=";
    LoneCookieReads("JSESSIONID", id, "JSESSIONID", "JSESSIONID=" + id);
  }

  lemma RouteCookie(clock: C.Clock)
    ensures C.Merge("", [C.Plain("route=a")], clock) == "route=a" && ReadCookie("route=a", "JSESSIONID") == None
  {
    hide ReadCookie, C.Merge, C.Updates, C.Storable, C.Same, Trim;
    RouteIsStorable();
    RouteIsNotSession();
    OneUpdate("route", "a", "route=a", clock);
    OneCookieMerged("route", "a", "route=a", clock);
    LoneCookieReads("route", "a", "JSESSIONID", "route=a");
  }

  lemma RouteIsNotSession()
    ensures !C.Same("route", "JSESSIONID")
  {
    assert Lower("route")[0] == 'r' && Lower("JSESSIONID")[0] == 'j';
  }

  lemma RouteIsStorable()
    ensures C.Storable(C.Cookie("route", "a")) && Trim("route") == "route" && "route=a" == "route" + "=" + "a"
  {
    TrimTrims("route");
    hide Trim;
    assert C.Cookie("route", "a").Show() == "route=a";
  }

  lemma OneUpdate(name: string, value: string, text: string, clock: C.Clock)
    requires text == name + "=" + value && value != "" && C.Storable(C.Cookie(name, value))
    ensures C.Updates([C.Plain(text)], clock) == [C.Update(name, value, false)]
  {
    LoneCookie(name, value, text);
    hide Split, Trim, SplitOnce, C.Storable;
    assert [text][1..] == [];
    assert C.LastMaxAge([]).None? && C.LastExpires([], clock).None?;
    assert [C.Plain(text)][..0] == [];
    assert C.Updates([], clock) == [];
  }

  lemma OneCookieMerged(name: string, value: string, text: string, clock: C.Clock)
    requires C.Updates([C.Plain(text)], clock) == [C.Update(name, value, false)] && text == name + "=" + value
    ensures C.Merge("", [C.Plain(text)], clock) == text
  {
    hide C.Updates, C.ParseCookies;
    C.EmptyParses();
    var cookie, u := C.Cookie(name, value), C.Update(name, value, false);
    assert C.Format([]) == "" && C.Without([], name) == [];
    assert [u][..0] == [] && C.StoreAll([], []) == [];
    assert C.StoreAll([], [u]) == C.Store([], u);
    assert C.Store([], u) == [] + [cookie] == [cookie];
    assert C.Shown([cookie]) == [text];
  }

  // --- The kept cookies --------------------------------------------------------------

  /** The session id after a response: the first it sets, or the one held before. */
  function Held(headers: seq<C.Header>, before: Option<string>): Option<string> {
    if SessionIdIn(headers).Some? then SessionIdIn(headers) else before
  }

  /** The page sets no cookie that lasts, or the session cookie that lasts carries the id. */
  predicate NamesSession(headers: seq<C.Header>, before: Option<string>, clock: C.Clock) {
    Lasting(headers, clock) == [] || FirstNamed(Lasting(headers, clock), "JSESSIONID") == Held(headers, before)
  }

  lemma FreshCookiesRead(headers: seq<C.Header>, id: string, clock: C.Clock)
    requires PlainId(id)
    ensures ReadCookie(FreshCookies(headers, id, clock), "JSESSIONID") == Some(id)
       <==> Lasting(headers, clock) == [] || FirstNamed(Lasting(headers, clock), "JSESSIONID") == Some(id)
  {
    hide ReadCookie, C.Merge, FirstNamed, Lasting, C.Format, PlainId, C.AllStorable;
    PageJar(headers, clock);
    EmptyFormat(Lasting(headers, clock));
    FormattedReads(Lasting(headers, clock), "JSESSIONID");
    OwnCookieReads(id);
  }

  /** A bootstrap page that shows a token to a client without a form session. */
  predicate ShowsToken(env: Env) {
    && env.allowed && env.authenticated && env.first.Some?
    && env.first.value.success && env.first.value.loggedIn != Some(false) && env.first.value.gck.Some?
  }

  lemma HeldIsPlain(headers: seq<C.Header>, c: Client)
    requires IdIsPlain(c) && Held(headers, c.jsessionid).Some?
    ensures PlainId(Held(headers, c.jsessionid).value)
  {
    hide PlainId, SessionIdIn;
    SessionIdIsPlain(headers);
  }

  lemma BootstrapKeepsCookies(c: Client, env: Env)
    requires Coherent(c) && IdIsPlain(c) && c.native.None? && c.formSession.None? && ShowsToken(env)
    requires Held(env.first.value.headers, c.jsessionid).Some?
    ensures var d, headers := Bootstrap(c, env), env.first.value.headers;
            && d.result.Ok? && d.client.formSession == env.first.value.gck
            && d.client.jsessionid == Held(headers, c.jsessionid)
            && d.client.formCookieHeader == Some(FreshCookies(headers, d.client.jsessionid.value, env.clock))
  {
    hide PlainId, SessionIdIn, FreshCookies, C.Merge;
  }

  /** In every run without a native session: when a bootstrap page shows a token, the
    * cookies kept name the session reported if and only if the page's Set-Cookie updates
    * leave no cookie, or leave as the session cookie the id that is held. */
  lemma KeptCookiesNameTheSession(calls: seq<Call>, env: Env)
    requires var c := AfterAll(Fresh(None), calls);
             c.formSession.None? && ShowsToken(env) && Held(env.first.value.headers, c.jsessionid).Some?
    ensures var c := AfterAll(Fresh(None), calls);
            var d := Bootstrap(c, env);
            && d.result.Ok? && d.client.formSession.Some? && d.client.formCookieHeader.Some? && d.client.jsessionid.Some?
            && (ReadCookie(d.client.formCookieHeader.value, "JSESSIONID") == d.client.jsessionid
                <==> NamesSession(env.first.value.headers, c.jsessionid, env.clock))
  {
    hide Bootstrap, ReadCookie, PlainId, SessionIdIn, FirstNamed, Lasting, FreshCookies;
    var c := AfterAll(Fresh(None), calls);
    ReachableIsCoherent(None, calls);
    ReachableIdIsPlain(None, calls);
    HeldIsPlain(env.first.value.headers, c);
    BootstrapKeepsCookies(c, env);
    FreshCookiesRead(env.first.value.headers, Held(env.first.value.headers, c.jsessionid).value, env.clock);
  }

  /** A response that sets the session id, then a page that sets another cookie. */
  function LackingRun(clock: C.Clock): seq<Call> {
    var page := Response(true, [C.Plain("route=a")], None, Some("token"));
    [Responded([C.Plain("JSESSIONID=x")], true, clock),
     Bootstrapped(Env(true, true, false, true, true, Some(page), [], None, clock))]
  }

  lemma SessionIdOfOne(name: string, value: string, text: string)
    requires text == name + "=" + value && C.Storable(C.Cookie(name, value))
    ensures SessionIdIn([C.Plain(text)]) == if C.Same(Trim(name), "JSESSIONID") && Trim(value) != "" then Some(Trim(value)) else None
  {
    LoneCookie(name, value, text);
    hide Split, Trim, SplitOnce, C.Same, C.Storable;
    assert [C.Plain(text)][1..] == [];
    assert SessionIdIn([]) == None;
  }

  lemma SetsSession()
    ensures SessionIdIn([C.Plain("JSESSIONID=x")]) == Some("x")
    ensures SessionIdIn([C.Plain("route=a")]) == None
  {
    hide C.Storable, Trim, C.Same, SessionIdIn;
    XIsPlain();
    OwnCookieIsStorable("x");
    SameItself("JSESSIONID");
    assert "JSESSIONID=x" == "JSESSIONID" + "=" + "x";
    SessionIdOfOne("JSESSIONID", "x", "JSESSIONID=x");
    RouteIsStorable();
    RouteIsNotSession();
    SessionIdOfOne("route", "a", "route=a");
  }

  lemma XIsPlain()
    ensures PlainId("x")
  {
  }

  /** The two steps of that run. */
  lemma LackingSteps(clock: C.Clock)
    ensures AfterAll(Fresh(None), LackingRun(clock)) ==
            var run := LackingRun(clock);
            After(After(Fresh(None), run[0]), run[1])
  {
    hide After;
    var run := LackingRun(clock);
    assert run[..1] == [run[0]] && [run[0]][..0] == [];
    assert AfterAll(Fresh(None), []) == Fresh(None);
    assert AfterAll(Fresh(None), [run[0]]) == After(Fresh(None), run[0]);
  }

  /** A run, at any clock, that ends with a form session whose cookies lack its session. */
  lemma KeptCookiesCanLackTheSession(clock: C.Clock)
    ensures var end := AfterAll(Fresh(None), LackingRun(clock));
            && end.formSession.Some? && end.jsessionid == Some("x")
            && end.formCookieHeader.Some? && ReadCookie(end.formCookieHeader.value, "JSESSIONID") == None
  {
    hide ReadCookie, C.Merge, SessionIdIn, AfterAll;
    LackingSteps(clock);
    SetsSession();
    RouteCookie(clock);
  }
}
