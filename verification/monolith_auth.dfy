/** Authentication of the monolithic variant (main.go) over net/http. It
    differs from the split version in three decisions: the initial session is
    the last PHPSESSID cookie of the index reply, the new cookie is rebuilt
    as "PHPSESSID=" + value from the first one, and the cookie is saved
    before the verdict is known. */
module MonolithAuth {
  import opened Base
  import opened GoStrings
  import opened Consts
  import opened Form
  import opened CookieStore
  import opened MonolithHttp
  import Scraper
  import Auth

  /** `getRandomIP` over net/http: the trimmed body whatever the status;
      the fallback only when there was no response or its body could not be
      read. */
  function GetRandomIp(lookup: HttpReply): (ip: string)
    ensures lookup.Unreached? || lookup.body.None? ==> ip == DefaultIp
    ensures lookup.Answered? && lookup.body.Some? ==> ip == TrimSpace(lookup.body.value)
  {
    match lookup
    case Unreached => DefaultIp
    case Answered(_, text, _) => if text.Some? then TrimSpace(text.value) else DefaultIp
  }

  /** On an error status the two variants disagree: the split version falls
      back to the default address, this one reports the trimmed error page,
      so they agree only when that page trims to the default address. */
  lemma ErrorPageBecomesAddress(status: int, text: string, cookies: seq<(string, string)>, sessId: string)
    requires status != 200
    ensures GetRandomIp(Answered(status, Some(text), cookies)) == Auth.GetRandomIp(Scraper.Reply(status, text, sessId))
            <==> TrimSpace(text) == DefaultIp
  {}

  // ---------------------------------------------------------------------
  // Cookie lookups
  // ---------------------------------------------------------------------

  /** No cookie of the list is named `name`. */
  predicate Absent(cookies: seq<(string, string)>, name: string) {
    forall k :: 0 <= k < |cookies| ==> cookies[k].0 != name
  }

  /** What the loop over the index reply's cookies leaves in
      `initialSession`: the value of the LAST cookie named `name`, or "" when
      there is none. */
  function LastValue(cookies: seq<(string, string)>, name: string): (v: string)
    ensures Absent(cookies, name) ==> v == ""
    ensures forall k :: 0 <= k < |cookies| && cookies[k].0 == name
                        && (forall j :: k < j < |cookies| ==> cookies[j].0 != name)
                        ==> v == cookies[k].1
  {
    var k := LastIndex(cookies, name);
    if k < 0 then "" else cookies[k].1
  }

  /** The position of the last cookie named `name`, or -1. */
  function LastIndex(cookies: seq<(string, string)>, name: string): (k: int)
    ensures -1 <= k < |cookies|
    ensures forall j :: k < j < |cookies| ==> cookies[j].0 != name
    ensures k >= 0 ==> cookies[k].0 == name
  {
    if |cookies| == 0 then -1
    else if cookies[|cookies| - 1].0 == name then |cookies| - 1
    else LastIndex(cookies[..|cookies| - 1], name)
  }

  /** Where the loop over the login reply's cookies stops: the position of
      the FIRST cookie named `name`, or the length when there is none. */
  function FirstIndex(cookies: seq<(string, string)>, name: string): (k: nat)
    ensures k <= |cookies|
    ensures forall j :: 0 <= j < k ==> cookies[j].0 != name
    ensures k < |cookies| ==> cookies[k].0 == name
  {
    if |cookies| == 0 then 0
    else if cookies[0].0 == name then 0
    else FirstIndex(cookies[1..], name) + 1
  }

  /** The value taken before the loop's `break`, if any cookie is named
      `name`. */
  function FirstValue(cookies: seq<(string, string)>, name: string): (v: Option<string>)
    ensures v.None? <==> Absent(cookies, name)
    ensures v.Some? ==> exists k :: 0 <= k < |cookies| && cookies[k] == (name, v.value)
                                    && (forall j :: 0 <= j < k ==> cookies[j].0 != name)
  {
    var k := FirstIndex(cookies, name);
    if k < |cookies| then
      assert cookies[k] == (name, cookies[k].1);
      Some(cookies[k].1)
    else None
  }

  // ---------------------------------------------------------------------
  // Login
  // ---------------------------------------------------------------------

  /** A sufficient test for the byte order: equal up to position n, and the
      character at n smaller. */
  lemma {:induction false} PrecedesAt(a: string, b: string, n: nat)
    requires n < |a| && n < |b| && a[..n] == b[..n] && a[n] < b[n]
    ensures Precedes(a, b)
  {
    if n > 0 {
      assert a[0] == a[..n][0] == b[..n][0] == b[0];
      assert a[1..][..n - 1] == a[..n][1..] == b[..n][1..] == b[1..][..n - 1];
      PrecedesAt(a[1..], b[1..], n - 1);
    }
  }

  /** The keys of the login form, ascending. */
  const LoginKeySeq: seq<string> := [FormHideIp, FormHideValidation, FormPassword, FormUsername, FormValidation]

  lemma LoginKeysSorted()
    ensures IsKeyOrder(LoginKeySeq, Auth.LoginKeys) && Ascending(LoginKeySeq)
  {
    LoginKeysAscending();
    LoginKeysDistinct();
  }

  lemma LoginKeysAscending()
    ensures Ascending(LoginKeySeq)
  {
    var ks := LoginKeySeq;
    forall k | 0 <= k < |ks| - 1
      ensures Precedes(ks[k], ks[k + 1])
    {
      if k == 0 {
        assert ks[k] == FormHideIp && ks[k + 1] == FormHideValidation;
        assert FormHideIp[..5] == FormHideValidation[..5];
        PrecedesAt(FormHideIp, FormHideValidation, 5);
      } else if k == 1 {
        assert ks[k] == FormHideValidation && ks[k + 1] == FormPassword;
        PrecedesAt(FormHideValidation, FormPassword, 0);
      } else if k == 2 {
        assert ks[k] == FormPassword && ks[k + 1] == FormUsername;
        PrecedesAt(FormPassword, FormUsername, 0);
      } else {
        assert ks[k] == FormUsername && ks[k + 1] == FormValidation;
        PrecedesAt(FormUsername, FormValidation, 0);
      }
    }
  }

  lemma LoginKeysDistinct()
    ensures Distinct(LoginKeySeq)
  {
    assert FormHideIp[5] != FormHideValidation[5];
  }

  /** The random, network and file inputs of one login: the index reply,
      the token draws, the address lookup, whether the POST could be built,
      its user-agent draw, its reply, and whether writing the cookie file
      succeeds. */
  datatype LoginIO = LoginIO(index: HttpReply, picks: seq<int>, lookup: HttpReply, built: bool,
                             ua: UaIndex, post: HttpReply, writeOk: bool)
  {
    ghost predicate Valid() {
      |picks| == 3 && forall k :: 0 <= k < 3 ==> 0 <= picks[k] < |Auth.Alphabet()|
    }
  }

  /** What a login did: its verdict, the cookie afterwards (the scraper's and
      the global one, which move together), the cookie file afterwards, the
      form it filled, and the credential POST if one was sent. */
  datatype LoginRun = LoginRun(success: bool, cookie: string, file: File,
                               form: Option<map<string, string>>, post: Option<Scraper.Request>)

  /** The credential POST: form content type without charset, the initial
      session as cookie, the index page as referer. */
  function LoginRequest(baseUrl: string, session: string, body: string, ua: UaIndex): Scraper.Request {
    Scraper.Request(Post, baseUrl + LoginEndpoint,
                    map[HeaderUserAgent := UserAgents[ua], HeaderContentType := ContentTypeForm,
                        HeaderCookie := CookiePhpSessId + "=" + session,
                        HeaderXRequestedWith := XmlHttpRequest,
                        HeaderReferer := baseUrl + IndexEndpoint],
                    body)
  }

  /** The credential POST goes to the login endpoint carrying the initial
      session as its cookie header. */
  lemma LoginRequestCookie(baseUrl: string, session: string, body: string, ua: UaIndex)
    ensures var req := LoginRequest(baseUrl, session, body, ua);
            && req.url == baseUrl + LoginEndpoint && req.body == body
            && HeaderCookie in req.headers && req.headers[HeaderCookie] == CookiePhpSessId + "=" + session
  {
    assert HeaderCookie != HeaderReferer && HeaderCookie != HeaderXRequestedWith;
  }

  /** The encoded login form. */
  function LoginBody(form: map<string, string>, escape: string -> string): string
    requires form.Keys == Auth.LoginKeys
  {
    LoginKeysSorted();
    Encode(form, LoginKeySeq, escape)
  }

  /** `Login(username, password)` starting from the cookie `c.cookie` and the
      cookie file `file`; `escape` stands for `url.QueryEscape`. */
  function Login(c: Scraper.Client, file: File, username: string, password: string, io: LoginIO,
                 escape: string -> string): (r: LoginRun)
    requires io.Valid()
    ensures io.index.Unreached? || LastValue(io.index.cookies, CookiePhpSessId) == ""
            ==> r == LoginRun(false, c.cookie, file, None, None)
    ensures r.post.Some? <==> io.index.Answered? && LastValue(io.index.cookies, CookiePhpSessId) != "" && io.built
    ensures r.post.Some? ==> r.post.value.url == c.baseUrl + LoginEndpoint
                             && HeaderCookie in r.post.value.headers
                             && r.post.value.headers[HeaderCookie]
                                == CookiePhpSessId + "=" + LastValue(io.index.cookies, CookiePhpSessId)
    ensures r.form.Some? ==> && r.form.value.Keys == Auth.LoginKeys
                             && r.form.value[FormValidation] == r.form.value[FormHideValidation]
                             && |r.form.value[FormValidation]| == 3
                             && (forall k :: 0 <= k < 3 ==> Auth.IsAlphanumeric(r.form.value[FormValidation][k]))
    ensures r.post.Some? ==> r.form.Some? && r.post.value.body == LoginBody(r.form.value, escape)
    // The verdict: the reply was read and carries the success marker.
    ensures r.success <==> r.post.Some? && io.post.Answered? && io.post.body.Some?
                           && Contains(io.post.body.value, Auth.SuccessMarker)
    // The cookie: rebuilt from the first PHPSESSID of the reply, if any.
    ensures r.post.Some? && io.post.Answered? && FirstValue(io.post.cookies, CookiePhpSessId).Some?
            ==> r.cookie == CookiePhpSessId + "=" + FirstValue(io.post.cookies, CookiePhpSessId).value
    ensures !(r.post.Some? && io.post.Answered? && FirstValue(io.post.cookies, CookiePhpSessId).Some?)
            ==> r.cookie == c.cookie
    // The file: saved once the reply arrived, before the verdict.
    ensures r.post.Some? && io.post.Answered? ==> r.file == SaveCookie(r.cookie, file, io.writeOk).0
    ensures !(r.post.Some? && io.post.Answered?) ==> r.file == file
  {
    match io.index
    case Unreached => LoginRun(false, c.cookie, file, None, None)
    case Answered(_, _, cookies) =>
      var session := LastValue(cookies, CookiePhpSessId);
      if session == "" then LoginRun(false, c.cookie, file, None, None)
      else
        var token := Auth.GenerateValidation(io.picks);
        var form := Auth.LoginForm(username, password, token, GetRandomIp(io.lookup));
        LoginFormAt(username, password, token, GetRandomIp(io.lookup));
        if !io.built then LoginRun(false, c.cookie, file, Some(form), None)
        else
          var req := LoginRequest(c.baseUrl, session, LoginBody(form, escape), io.ua);
          LoginRequestCookie(c.baseUrl, session, LoginBody(form, escape), io.ua);
          match io.post
          case Unreached => LoginRun(false, c.cookie, file, Some(form), Some(req))
          case Answered(_, text, setCookies) =>
            var cookie := match FirstValue(setCookies, CookiePhpSessId)
                          case None => c.cookie
                          case Some(v) => CookiePhpSessId + "=" + v;
            var saved := SaveCookie(cookie, file, io.writeOk).0;
            if text.None? then
              assert !Contains("", Auth.SuccessMarker);
              LoginRun(false, cookie, saved, Some(form), Some(req))
            else LoginRun(Contains(text.value, Auth.SuccessMarker), cookie, saved, Some(form), Some(req))
  }

  /** No key of the login form holds `&` or `=`, and no escaped value
      holds `&`. */
  lemma LoginFormEscapes(username: string, password: string, token: string, ip: string,
                         escape: string -> string)
    requires '&' !in escape(username) && '&' !in escape(password)
    requires '&' !in escape(token) && '&' !in escape(ip)
    ensures var form := Auth.LoginForm(username, password, token, ip);
            forall key :: key in form ==> '&' !in key && '=' !in key && '&' !in escape(form[key])
  {
    assert '&' !in FormUsername && '=' !in FormUsername;
    assert '&' !in FormPassword && '=' !in FormPassword;
    assert '&' !in FormValidation && '=' !in FormValidation;
    assert '&' !in FormHideValidation && '=' !in FormHideValidation;
    assert '&' !in FormHideIp && '=' !in FormHideIp;
  }

  /** The five values of the login form, field by field. */
  lemma LoginFormAt(username: string, password: string, token: string, ip: string)
    ensures var form := Auth.LoginForm(username, password, token, ip);
            && form[FormHideIp] == ip && form[FormHideValidation] == token
            && form[FormPassword] == password && form[FormUsername] == username
            && form[FormValidation] == token
  {
    assert FormHideValidation[5] != FormHideIp[5];
    assert FormValidation[0] != FormHideValidation[0] && FormValidation[0] != FormHideIp[0];
    assert FormPassword[0] != FormValidation[0] && FormPassword[0] != FormHideValidation[0]
           && FormPassword[0] != FormHideIp[0];
    assert FormUsername[0] != FormPassword[0] && FormUsername[0] != FormValidation[0]
           && FormUsername[0] != FormHideValidation[0] && FormUsername[0] != FormHideIp[0];
  }

  /** The escaped login form in ascending key order. */
  lemma LoginPairs(username: string, password: string, token: string, ip: string, escape: string -> string)
    ensures Pairs(Escaped(Auth.LoginForm(username, password, token, ip), escape), LoginKeySeq)
            == [(FormHideIp, escape(ip)), (FormHideValidation, escape(token)), (FormPassword, escape(password)),
                (FormUsername, escape(username)), (FormValidation, escape(token))]
  {
    LoginFormAt(username, password, token, ip);
    LoginKeysSorted();
    var ps := Pairs(Escaped(Auth.LoginForm(username, password, token, ip), escape), LoginKeySeq);
    assert |ps| == 5;
    assert ps[0] == (FormHideIp, escape(ip));
    assert ps[1] == (FormHideValidation, escape(token));
    assert ps[2] == (FormPassword, escape(password));
    assert ps[3] == (FormUsername, escape(username));
    assert ps[4] == (FormValidation, escape(token));
    FiveElements(ps, (FormHideIp, escape(ip)), (FormHideValidation, escape(token)), (FormPassword, escape(password)),
                 (FormUsername, escape(username)), (FormValidation, escape(token)));
  }

  /** A five-element sequence is the display of its elements. */
  lemma FiveElements<T>(s: seq<T>, a: T, b: T, c: T, d: T, e: T)
    requires |s| == 5 && s[0] == a && s[1] == b && s[2] == c && s[3] == d && s[4] == e
    ensures s == [a, b, c, d, e]
  {
  }

  /** The credential POST decodes, when no escaped value holds `&`, to the
      five fields in ascending key order, the token appearing twice. */
  lemma LoginBodyFields(username: string, password: string, token: string, ip: string,
                        escape: string -> string)
    requires '&' !in escape(username) && '&' !in escape(password)
    requires '&' !in escape(token) && '&' !in escape(ip)
    ensures ParseForm(LoginBody(Auth.LoginForm(username, password, token, ip), escape))
            == [(FormHideIp, escape(ip)), (FormHideValidation, escape(token)), (FormPassword, escape(password)),
                (FormUsername, escape(username)), (FormValidation, escape(token))]
  {
    var form := Auth.LoginForm(username, password, token, ip);
    LoginKeysSorted();
    LoginFormEscapes(username, password, token, ip, escape);
    EncodeRoundTrip(form, LoginKeySeq, escape);
    LoginPairs(username, password, token, ip, escape);
  }

  /** Unlike the split version, a rejected login still stores the cookie the
      portal handed out: the file then holds it for the next start-up. */
  lemma RejectedLoginStillSaves(c: Scraper.Client, file: File, username: string, password: string,
                                io: LoginIO, escape: string -> string, v: string)
    requires io.Valid()
    requires io.index.Answered? && LastValue(io.index.cookies, CookiePhpSessId) != "" && io.built
    requires io.post.Answered? && FirstValue(io.post.cookies, CookiePhpSessId) == Some(v) && io.writeOk
    requires io.post.body.None? || !Contains(io.post.body.value, Auth.SuccessMarker)
    ensures var r := Login(c, file, username, password, io, escape);
            && !r.success
            && r.file == Holds(CookiePhpSessId + "=" + v)
            && LoadCookie(r.file, "") == (CookiePhpSessId + "=" + v, Pass)
  {
    assert CookiePhpSessId + "=" + v != "" by {
      assert |CookiePhpSessId + "=" + v| > 0;
    }
  }

  // ---------------------------------------------------------------------
  // handleAuthentication
  // ---------------------------------------------------------------------

  /** What `handleAuthentication` did: its outcome, the cookie afterwards,
      the cookie file afterwards, and whether it logged in. */
  datatype AuthRun = AuthRun(result: Outcome, cookie: string, file: File, loggedIn: bool)

  /** `handleAuthentication`: load the stored cookie into the (initially
      `global`) cookie, probe the session, and log in again when needed; a
      failed load is only logged, and a successful login saves the cookie a
      second time (`writeOk` is that write's outcome). */
  function HandleAuthentication(baseUrl: string, username: string, password: string,
                                global: string, file: File, probe: Call, io: LoginIO,
                                writeOk: bool, escape: string -> string): (r: AuthRun)
    requires io.Valid()
    ensures var loaded := LoadCookie(file, global).0;
            !r.loggedIn <==> loaded != "" && IsSessionValid(Scraper.Client(baseUrl, loaded), probe)
    ensures !r.loggedIn ==> r.result == Pass && r.file == file && r.cookie == LoadCookie(file, global).0
    ensures var run := Login(Scraper.Client(baseUrl, LoadCookie(file, global).0), file, username, password, io, escape);
            && (r.loggedIn ==> r.cookie == run.cookie && (r.result.Pass? <==> run.success))
            && (r.loggedIn && r.result.Fail? ==> r.result == Fail(LoginRejected) && r.file == run.file)
            && (r.loggedIn && r.result.Pass? ==> r.file == SaveCookie(run.cookie, run.file, writeOk).0)
  {
    var loaded := LoadCookie(file, global).0;
    var client := Scraper.Client(baseUrl, loaded);
    if loaded != "" && IsSessionValid(client, probe) then
      AuthRun(Pass, loaded, file, false)
    else
      var run := Login(client, file, username, password, io, escape);
      if !run.success then AuthRun(Fail(LoginRejected), run.cookie, run.file, true)
      else AuthRun(Pass, run.cookie, SaveCookie(run.cookie, run.file, writeOk).0, true)
  }

  /** An accepted login whose cookie reached the file in either of the two
      writes leaves it where the next start-up loads it. */
  lemma LoginPersistence(baseUrl: string, username: string, password: string,
                         global: string, file: File, probe: Call, io: LoginIO,
                         writeOk: bool, escape: string -> string, later: string)
    requires io.Valid()
    requires io.writeOk || writeOk
    ensures var r := HandleAuthentication(baseUrl, username, password, global, file, probe, io, writeOk, escape);
            r.loggedIn && r.result.Pass? && r.cookie != "" ==> LoadCookie(r.file, later) == (r.cookie, Pass)
  {
    var r := HandleAuthentication(baseUrl, username, password, global, file, probe, io, writeOk, escape);
    if r.loggedIn && r.result.Pass? && r.cookie != "" {
      var run := Login(Scraper.Client(baseUrl, LoadCookie(file, global).0), file, username, password, io, escape);
      assert run.post.Some? && io.post.Answered?;
    }
  }
}
