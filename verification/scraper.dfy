/** The HTTP client adapter of the split version (scraper.go): request
    construction over fasthttp, the status rule, the session probe, the three
    portal calls of a track, and the track prompt. The transport itself is an
    input: each call receives the exchange the network produced. */
module Scraper {
  import opened Base
  import opened GoStrings
  import opened Models
  import opened Consts
  import opened Form
  import Selection

  /** What `client.Do` produced: a transport failure, or a reply with its
      status, body and the value `PeekCookie("PHPSESSID")` returns ("" when
      the reply set no such cookie). */
  datatype Exchange = NoReply | Reply(status: int, body: string, phpSessId: string)

  /** A request as it leaves the client. */
  datatype Request = Request(verb: string, url: string, headers: map<string, string>, body: string)

  /** The scraper state a request reads: the portal root and the cookie. */
  datatype Client = Client(baseUrl: string, cookie: string)

  /** The headers every request carries; `ua` is the random pool index. */
  function FixedHeaders(c: Client, ua: nat): map<string, string>
    requires ua < |UserAgents|
  {
    map[HeaderUserAgent := UserAgents[ua],
        HeaderXRequestedWith := XmlHttpRequest,
        HeaderReferer := c.baseUrl + MediaEndpoint,
        HeaderOrigin := c.baseUrl,
        HeaderAccept := AcceptJson]
  }

  /** `h` holds exactly the five fixed headers with their values, plus
      Content-Type (the form type with charset) when `withBody`, and Cookie
      when the client has a session. */
  predicate StandardHeaders(h: map<string, string>, c: Client, withBody: bool, ua: nat)
    requires ua < |UserAgents|
  {
    && h.Keys == {HeaderUserAgent, HeaderXRequestedWith, HeaderReferer, HeaderOrigin, HeaderAccept}
                 + (if withBody then {HeaderContentType} else {})
                 + (if c.cookie != "" then {HeaderCookie} else {})
    && h[HeaderUserAgent] == UserAgents[ua]
    && h[HeaderXRequestedWith] == XmlHttpRequest
    && h[HeaderReferer] == c.baseUrl + MediaEndpoint
    && h[HeaderOrigin] == c.baseUrl
    && h[HeaderAccept] == AcceptJson
    && (withBody ==> h[HeaderContentType] == ContentTypeForm + CharsetUtf8)
    && (c.cookie != "" ==> h[HeaderCookie] == c.cookie)
  }

  /** The request `DoRequest(verb, endpoint, body)` sends. */
  function NewRequest(c: Client, verb: string, endpoint: string, body: string, ua: nat): (req: Request)
    requires ua < |UserAgents|
    ensures req.verb == verb && req.body == body
    ensures req.url == c.baseUrl + endpoint
    ensures HeaderUserAgent in req.headers && HeaderReferer in req.headers && HeaderOrigin in req.headers
    ensures req.headers[HeaderReferer] == c.baseUrl + MediaEndpoint
    ensures req.headers[HeaderOrigin] == c.baseUrl
    ensures req.headers[HeaderUserAgent] in UserAgents
    ensures HeaderContentType in req.headers <==> |body| > 0
    ensures HeaderContentType in req.headers ==> req.headers[HeaderContentType] == ContentTypeForm + CharsetUtf8
    ensures HeaderCookie in req.headers <==> c.cookie != ""
    ensures HeaderCookie in req.headers ==> req.headers[HeaderCookie] == c.cookie
  {
    var h0 := FixedHeaders(c, ua);
    var h1 := if |body| > 0 then h0[HeaderContentType := ContentTypeForm + CharsetUtf8] else h0;
    var h2 := if c.cookie != "" then h1[HeaderCookie := c.cookie] else h1;
    Request(verb, c.baseUrl + endpoint, h2, body)
  }

  /** The headers of every request: exactly the five fixed ones with the
      drawn user agent, Content-Type exactly for a non-empty body, and
      Cookie exactly when the scraper holds a session. */
  lemma RequestHeaders(c: Client, verb: string, endpoint: string, body: string, ua: nat)
    requires ua < |UserAgents|
    ensures StandardHeaders(NewRequest(c, verb, endpoint, body, ua).headers, c, |body| > 0, ua)
  {
  }

  /** The cookie decides only the Cookie header: two clients on the same
      portal send the same request apart from that one header. */
  lemma CookieOnlyTouchesCookieHeader(base: string, c1: string, c2: string,
                                      verb: string, endpoint: string, body: string, ua: nat)
    requires ua < |UserAgents|
    ensures var r1 := NewRequest(Client(base, c1), verb, endpoint, body, ua);
            var r2 := NewRequest(Client(base, c2), verb, endpoint, body, ua);
            && r1.url == r2.url && r1.body == r2.body && r1.verb == r2.verb
            && (forall h :: h != HeaderCookie ==> (h in r1.headers <==> h in r2.headers))
            && (forall h :: h != HeaderCookie && h in r1.headers ==> r1.headers[h] == r2.headers[h])
  {}

  /** The status rule of `DoRequest`: only a 200 reply yields its body. */
  function Classify(x: Exchange): (r: Result<string>)
    ensures r.Ok? <==> x.Reply? && x.status == 200
    ensures r.Ok? ==> r.value == x.body
    ensures x.NoReply? ==> r == Err(SendFailed)
    ensures x.Reply? && x.status != 200 ==> r == Err(BadStatus(x.status))
  {
    match x
    case NoReply => Err(SendFailed)
    case Reply(status, body, _) => if status != 200 then Err(BadStatus(status)) else Ok(body)
  }

  /** `IsSessionValid`: GET the media page; the session is valid when the
      request succeeds and the page shows neither "login" nor "Username".
      The result is the probe sent and the verdict. */
  function IsSessionValid(c: Client, ua: nat, x: Exchange): (r: (Request, bool))
    requires ua < |UserAgents|
    ensures r.0.verb == Get && r.0.url == c.baseUrl + MediaEndpoint && r.0.body == ""
    ensures StandardHeaders(r.0.headers, c, false, ua)
    ensures r.1 ==> x.Reply? && x.status == 200
  {
    var req := NewRequest(c, Get, MediaEndpoint, "", ua);
    match Classify(x)
    case Err(_) => (req, false)
    case Ok(body) => (req, !(Contains(body, "login") || Contains(body, "Username")))
  }

  /** The session is valid exactly when the probe got a 200 reply in which
      neither marker occurs at any position. */
  lemma SessionValidIff(c: Client, ua: nat, x: Exchange)
    requires ua < |UserAgents|
    ensures IsSessionValid(c, ua, x).1
            <==> x.Reply? && x.status == 200
                 && (forall i :: !OccursAt(x.body, "login", i))
                 && (forall i :: !OccursAt(x.body, "Username", i))
  {
    if x.Reply? {
      ContainsIffOccurs(x.body, "login");
      ContainsIffOccurs(x.body, "Username");
    }
  }

  /** The three-field form that selects the track and term on the server. */
  function ProdiForm(kodeProdi: string, kodePk: string, smthn: string): map<string, string> {
    map[FormPs := kodeProdi, FormPk := kodePk, FormSmthn := smthn]
  }

  lemma ProdiFormClean(kodeProdi: string, kodePk: string, smthn: string)
    ensures '&' !in kodeProdi && '&' !in kodePk && '&' !in smthn
            ==> Clean(ProdiForm(kodeProdi, kodePk, smthn))
  {
    assert '&' !in FormPs && '=' !in FormPs;
    assert '&' !in FormPk && '=' !in FormPk;
    assert '&' !in FormSmthn && '=' !in FormSmthn;
  }

  /** `SetProdi`: POST the context form; the reply body is discarded and only
      the transport and status outcome is returned. */
  function SetProdi(c: Client, kodeProdi: string, kodePk: string, smthn: string,
                    order: seq<string>, ua: nat, x: Exchange): (r: (Request, Outcome))
    requires ua < |UserAgents|
    requires IsKeyOrder(order, ProdiForm(kodeProdi, kodePk, smthn).Keys)
    ensures r.0.url == c.baseUrl + ProdiEndpoint && r.0.verb == Post
    ensures r.1.Pass? <==> x.Reply? && x.status == 200
    ensures r.1.Fail? ==> r.1.error == Classify(x).error
  {
    var req := NewRequest(c, Post, ProdiEndpoint, BuildForm(ProdiForm(kodeProdi, kodePk, smthn), order), ua);
    match Classify(x)
    case Err(e) => (req, Fail(e))
    case Ok(_) => (req, Pass)
  }

  /** When no value holds `&`, the context body decodes to the three fields
      in the map's visiting order. */
  lemma ProdiBodyDecodes(c: Client, kodeProdi: string, kodePk: string, smthn: string,
                         order: seq<string>, ua: nat, x: Exchange)
    requires ua < |UserAgents|
    requires IsKeyOrder(order, ProdiForm(kodeProdi, kodePk, smthn).Keys)
    requires '&' !in kodeProdi && '&' !in kodePk && '&' !in smthn
    ensures ParseForm(SetProdi(c, kodeProdi, kodePk, smthn, order, ua, x).0.body)
            == Pairs(ProdiForm(kodeProdi, kodePk, smthn), order)
  {
    ProdiFormClean(kodeProdi, kodePk, smthn);
    RoundTripWhenClean(ProdiForm(kodeProdi, kodePk, smthn), order);
  }

  /** `GetRekapMK`: POST the fixed pagination body and decode the listing.
      `decode` stands for `json.Unmarshal` (None on a parse error). */
  function GetRekapMK(c: Client, ua: nat, x: Exchange, decode: string -> Option<RekapMKResponse>)
    : (r: (Request, Result<RekapMKResponse>))
    requires ua < |UserAgents|
    ensures r.0.url == c.baseUrl + RekapEndpoint && r.0.body == RekapBody
    ensures Classify(x).Err? ==> r.1 == Err(Classify(x).error)
    ensures Classify(x).Ok? && decode(x.body).None? ==> r.1 == Err(Malformed)
    ensures r.1.Ok? <==> Classify(x).Ok? && decode(x.body).Some?
    ensures r.1.Ok? ==> r.1.value == decode(x.body).value
  {
    var req := NewRequest(c, Post, RekapEndpoint, RekapBody, ua);
    match Classify(x)
    case Err(e) => (req, Err(e))
    case Ok(body) =>
      match decode(body)
      case None => (req, Err(Malformed))
      case Some(resp) => (req, Ok(resp))
  }

  function NilaiForm(infomk: string): (m: map<string, string>)
    ensures m.Keys == {FormParam, FormCetak}
  {
    map[FormParam := infomk, FormCetak := CetakValue]
  }

  lemma NilaiFormClean(infomk: string)
    ensures '&' !in infomk ==> Clean(NilaiForm(infomk))
  {
    assert '&' !in FormParam && '=' !in FormParam;
    assert '&' !in FormCetak && '=' !in FormCetak && '&' !in CetakValue;
  }

  /** `GetListNilai`: POST `param=<infomk>` and `cetak=1`, decode the roster. */
  function GetListNilai(c: Client, infomk: string, order: seq<string>, ua: nat, x: Exchange,
                        decode: string -> Option<seq<Nilai>>): (r: (Request, Result<seq<Nilai>>))
    requires ua < |UserAgents|
    requires IsKeyOrder(order, NilaiForm(infomk).Keys)
    ensures r.0.url == c.baseUrl + ListEndpoint
    ensures r.1.Ok? <==> Classify(x).Ok? && decode(x.body).Some?
    ensures r.1.Ok? ==> r.1.value == decode(x.body).value
    ensures Classify(x).Err? ==> r.1 == Err(Classify(x).error)
  {
    var req := NewRequest(c, Post, ListEndpoint, BuildForm(NilaiForm(infomk), order), ua);
    match Classify(x)
    case Err(e) => (req, Err(e))
    case Ok(body) =>
      match decode(body)
      case None => (req, Err(Malformed))
      case Some(rows) => (req, Ok(rows))
  }

  /** When the section code holds no `&`, the roster body decodes to `param`
      and `cetak` in the map's visiting order. */
  lemma NilaiBodyDecodes(c: Client, infomk: string, order: seq<string>, ua: nat, x: Exchange,
                         decode: string -> Option<seq<Nilai>>)
    requires ua < |UserAgents|
    requires IsKeyOrder(order, NilaiForm(infomk).Keys)
    requires '&' !in infomk
    ensures ParseForm(GetListNilai(c, infomk, order, ua, x, decode).0.body) == Pairs(NilaiForm(infomk), order)
  {
    NilaiFormClean(infomk);
    RoundTripWhenClean(NilaiForm(infomk), order);
  }

  /** `loadJurusan`: read the catalogue file (`None` when the read failed),
      decode it, then let the user pick one track by number. */
  function LoadJurusan(file: Option<string>, decode: string -> Option<seq<Jurusan>>,
                       answer: Option<int>): (r: Result<Jurusan>)
    ensures file.None? ==> r == Err(FileUnreadable)
    ensures file.Some? && decode(file.value).None? ==> r == Err(Malformed)
    ensures r.Ok? <==> file.Some? && decode(file.value).Some?
                       && Selection.Choose(decode(file.value).value, answer).Ok?
    ensures r.Ok? ==> r.value in decode(file.value).value
  {
    match file
    case None => Err(FileUnreadable)
    case Some(data) =>
      match decode(data)
      case None => Err(Malformed)
      case Some(list) => Selection.Choose(list, answer)
  }
}
