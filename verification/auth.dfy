/** Authentication of the split version (auth.go): reuse the stored cookie
    while the portal still accepts it, otherwise run the two-step login and
    store the new cookie. Randomness and network replies are inputs. */
module Auth {
  import opened Base
  import opened GoStrings
  import opened Consts
  import opened Form
  import opened Scraper
  import opened CookieStore

  /** The character at position i of upper case, lower case, digits. */
  function LayoutChar(i: int): (c: char)
    requires 0 <= i < 62
  {
    if i < 26 then ('A' as int + i) as char
    else if i < 52 then ('a' as int + (i - 26)) as char
    else ('0' as int + (i - 52)) as char
  }

  /** The 62 characters `generateValidation` draws from: the source's literal
      "ABC...XYZabc...xyz012...789", upper case, lower case, then digits. */
  function Alphabet(): (s: string)
    ensures |s| == 62
    ensures forall i :: 0 <= i < 62 ==> s[i] == LayoutChar(i)
  {
    seq(62, LayoutChar)
  }

  predicate IsAlphanumeric(c: char) {
    ('A' <= c <= 'Z') || ('a' <= c <= 'z') || ('0' <= c <= '9')
  }

  /** Where an alphanumeric character sits in the alphabet. */
  function AlphabetIndex(c: char): (i: int)
    requires IsAlphanumeric(c)
    ensures 0 <= i < 62
  {
    if 'A' <= c <= 'Z' then c as int - 'A' as int
    else if 'a' <= c <= 'z' then 26 + (c as int - 'a' as int)
    else 52 + (c as int - '0' as int)
  }

  /** The alphabet lists each alphanumeric character exactly once. */
  lemma AlphabetIsExact(c: char, i: int)
    ensures IsAlphanumeric(c) ==> Alphabet()[AlphabetIndex(c)] == c
    ensures 0 <= i < |Alphabet()| ==> IsAlphanumeric(Alphabet()[i]) && AlphabetIndex(Alphabet()[i]) == i
  {
  }

  /** `generateValidation`: three draws `picks` from [0, 62). */
  function GenerateValidation(picks: seq<int>): (token: string)
    requires |picks| == 3 && forall k :: 0 <= k < 3 ==> 0 <= picks[k] < |Alphabet()|
    ensures |token| == 3
    ensures forall k :: 0 <= k < 3 ==> IsAlphanumeric(token[k])
    ensures forall k :: 0 <= k < 3 ==> AlphabetIndex(token[k]) == picks[k]
  {
    AlphabetIsExact('A', picks[0]);
    AlphabetIsExact('A', picks[1]);
    AlphabetIsExact('A', picks[2]);
    [Alphabet()[picks[0]], Alphabet()[picks[1]], Alphabet()[picks[2]]]
  }

  /** Every 3-character alphanumeric token is produced by exactly one
      triple of draws. */
  lemma TokenSpace(token: string, picks: seq<int>)
    requires |token| == 3 && forall k :: 0 <= k < 3 ==> IsAlphanumeric(token[k])
    requires |picks| == 3 && forall k :: 0 <= k < 3 ==> 0 <= picks[k] < |Alphabet()|
    ensures GenerateValidation(picks) == token <==> forall k :: 0 <= k < 3 ==> picks[k] == AlphabetIndex(token[k])
  {
    var t := GenerateValidation(picks);
    if forall k :: 0 <= k < 3 ==> picks[k] == AlphabetIndex(token[k]) {
      forall k | 0 <= k < 3 ensures t[k] == token[k] {
        AlphabetIsExact(token[k], 0);
      }
    }
  }

  /** `getRandomIP` over fasthttp: the trimmed reply body, or the fixed
      fallback when the lookup failed or did not answer 200. */
  function GetRandomIp(lookup: Exchange): (ip: string)
    ensures lookup.NoReply? || lookup.status != 200 ==> ip == DefaultIp
    ensures lookup.Reply? && lookup.status == 200 ==> ip == TrimSpace(lookup.body)
  {
    match lookup
    case NoReply => DefaultIp
    case Reply(status, body, _) => if status != 200 then DefaultIp else TrimSpace(body)
  }

  /** The reported address is the fallback or a slice of the reply with no
      white space left at either end. */
  lemma RandomIpShape(lookup: Exchange)
    ensures var ip := GetRandomIp(lookup);
            || ip == DefaultIp
            || (lookup.Reply? && (exists lo, hi :: 0 <= lo <= hi <= |lookup.body| && ip == lookup.body[lo..hi])
                && (|ip| > 0 ==> !IsSpace(ip[0]) && !IsSpace(ip[|ip| - 1])))
  {}

  /** The keys of the login form. */
  const LoginKeys: set<string> := {FormUsername, FormPassword, FormValidation, FormHideValidation, FormHideIp}

  function LoginForm(username: string, password: string, token: string, ip: string): (m: map<string, string>)
    ensures m.Keys == LoginKeys
  {
    map[FormUsername := username, FormPassword := password, FormValidation := token,
        FormHideValidation := token, FormHideIp := ip]
  }

  /** The random and network inputs of one login: the index reply, the token
      draws, the IP lookup reply, the form's map order, the user-agent draw and
      the login reply. */
  datatype LoginIO = LoginIO(index: Exchange, picks: seq<int>, lookup: Exchange,
                             order: seq<string>, ua: nat, post: Exchange)
  {
    ghost predicate Valid() {
      && |picks| == 3 && (forall k :: 0 <= k < 3 ==> 0 <= picks[k] < |Alphabet()|)
      && IsKeyOrder(order, LoginKeys)
      && ua < |UserAgents|
    }
  }

  /** What a login did: its verdict, the scraper's cookie afterwards, and the
      credential POST if one was sent. */
  datatype LoginRun = LoginRun(success: bool, cookie: string, post: Option<Request>)

  const SuccessMarker := "\"success\":true"

  /** The credential POST: the form carries the initial session id. */
  function LoginRequest(baseUrl: string, session: string, form: string, ua: nat): (req: Request)
    requires ua < |UserAgents|
  {
    Request(Post, baseUrl + LoginEndpoint,
            map[HeaderUserAgent := UserAgents[ua], HeaderContentType := ContentTypeForm,
                HeaderCookie := CookiePhpSessId + "=" + session,
                HeaderXRequestedWith := XmlHttpRequest],
            form)
  }

  /** `Login(username, password)`. */
  function Login(c: Client, username: string, password: string, io: LoginIO): (r: LoginRun)
    requires io.Valid()
    ensures io.index.NoReply? || io.index.phpSessId == "" ==> r == LoginRun(false, c.cookie, None)
    ensures r.post.Some? <==> io.index.Reply? && io.index.phpSessId != ""
    ensures r.success <==> r.post.Some? && io.post.Reply? && Contains(io.post.body, SuccessMarker)
    ensures r.post.Some? && io.post.Reply? && io.post.phpSessId != ""
            ==> r.cookie == BeforeFirst(io.post.phpSessId, ';')
    ensures !(r.post.Some? && io.post.Reply? && io.post.phpSessId != "") ==> r.cookie == c.cookie
  {
    match io.index
    case NoReply => LoginRun(false, c.cookie, None)
    case Reply(_, _, session) =>
      if session == "" then LoginRun(false, c.cookie, None)
      else
        var token := GenerateValidation(io.picks);
        var ip := GetRandomIp(io.lookup);
        var form := BuildForm(LoginForm(username, password, token, ip), io.order);
        var req := LoginRequest(c.baseUrl, session, form, io.ua);
        match io.post
        case NoReply => LoginRun(false, c.cookie, Some(req))
        case Reply(_, body, setCookie) =>
          var cookie := if |setCookie| > 0 then BeforeFirst(setCookie, ';') else c.cookie;
          LoginRun(Contains(body, SuccessMarker), cookie, Some(req))
  }

  /** The credential POST echoes one token in both `validation` and
      `hide_validation`: decoding the body (credentials and address free of
      `&`) yields the two fields with the same 3-character alphanumeric value. */
  lemma LoginEchoesToken(c: Client, username: string, password: string, io: LoginIO)
    requires io.Valid()
    requires '&' !in username && '&' !in password && '&' !in GetRandomIp(io.lookup)
    ensures var r := Login(c, username, password, io);
            r.post.Some? ==>
              exists token ::
                && |token| == 3 && (forall k :: 0 <= k < 3 ==> IsAlphanumeric(token[k]))
                && (FormValidation, token) in ParseForm(r.post.value.body)
                && (FormHideValidation, token) in ParseForm(r.post.value.body)
  {
    var r := Login(c, username, password, io);
    if r.post.Some? {
      var token := GenerateValidation(io.picks);
      var ip := GetRandomIp(io.lookup);
      var values := LoginForm(username, password, token, ip);
      assert r.post.value.body == BuildForm(values, io.order);
      LoginFormClean(username, password, token, ip);
      FormCarriesPair(values, io.order, FormValidation);
      FormCarriesPair(values, io.order, FormHideValidation);
    }
  }

  lemma LoginFormClean(username: string, password: string, token: string, ip: string)
    requires '&' !in username && '&' !in password && '&' !in ip
    requires |token| == 3 && forall k :: 0 <= k < 3 ==> IsAlphanumeric(token[k])
    ensures Clean(LoginForm(username, password, token, ip))
  {
    assert '&' !in token;
    assert '&' !in FormUsername && '=' !in FormUsername;
    assert '&' !in FormPassword && '=' !in FormPassword;
    assert '&' !in FormValidation && '=' !in FormValidation;
    assert '&' !in FormHideValidation && '=' !in FormHideValidation;
    assert '&' !in FormHideIp && '=' !in FormHideIp;
  }

  /** The verdict reads only the reply body: whether and how the reply set a
      new cookie has no bearing on it. */
  lemma VerdictIgnoresCookie(c: Client, username: string, password: string, io: LoginIO,
                             status: int, body: string, setCookie: string)
    requires io.Valid() && io.post.Reply? && io.post.body == body
    ensures Login(c, username, password, io).success
            == Login(c, username, password, io.(post := Reply(status, body, setCookie))).success
  {}

  /** What `handleAuthentication` did: its outcome, the cookie the scraper
      holds afterwards, the cookie file afterwards, and whether it logged in. */
  datatype AuthRun = AuthRun(result: Outcome, cookie: string, file: File, loggedIn: bool)

  /** `handleAuthentication`: load the stored cookie into the (initially
      `global`) cookie, probe the session, and log in again when needed.
      A failed load is only logged. */
  function HandleAuthentication(baseUrl: string, username: string, password: string,
                                global: string, file: File, probeUa: nat, probe: Exchange,
                                io: LoginIO, writeOk: bool): (r: AuthRun)
    requires probeUa < |UserAgents| && io.Valid()
    ensures var loaded := LoadCookie(file, global).0;
            !r.loggedIn <==> loaded != "" && IsSessionValid(Client(baseUrl, loaded), probeUa, probe).1
    ensures !r.loggedIn ==> r.result == Pass && r.file == file && r.cookie == LoadCookie(file, global).0
    ensures r.loggedIn ==> r.cookie == Login(Client(baseUrl, LoadCookie(file, global).0), username, password, io).cookie
    ensures r.loggedIn ==> (r.result.Pass? <==> Login(Client(baseUrl, LoadCookie(file, global).0), username, password, io).success)
    ensures r.result.Fail? ==> r.result == Fail(LoginRejected) && r.file == file
    ensures r.loggedIn && r.result.Pass? ==> r.file == SaveCookie(r.cookie, file, writeOk).0
  {
    var loaded := LoadCookie(file, global).0;
    var client := Client(baseUrl, loaded);
    if loaded != "" && IsSessionValid(client, probeUa, probe).1 then
      AuthRun(Pass, loaded, file, false)
    else
      var run := Login(client, username, password, io);
      if !run.success then AuthRun(Fail(LoginRejected), run.cookie, file, true)
      else AuthRun(Pass, run.cookie, SaveCookie(run.cookie, file, writeOk).0, true)
  }

  /** A rejected login leaves the session store untouched; an accepted one
      that obtained a cookie leaves it where the next start-up loads it. */
  lemma LoginPersistence(baseUrl: string, username: string, password: string,
                         global: string, file: File, probeUa: nat, probe: Exchange,
                         io: LoginIO, later: string)
    requires probeUa < |UserAgents| && io.Valid()
    ensures var r := HandleAuthentication(baseUrl, username, password, global, file, probeUa, probe, io, true);
            && (r.result.Fail? ==> r.file == file)
            && (r.loggedIn && r.result.Pass? && r.cookie != "" ==> LoadCookie(r.file, later) == (r.cookie, Pass))
  {}
}
