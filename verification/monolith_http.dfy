/** The HTTP layer of the monolithic variant (main.go), built on net/http
    instead of fasthttp: request construction, the status and read rules,
    the session probe, the term prompt and the three portal calls of a track.
    Forms go through `url.Values.Encode`, which emits the keys in ascending
    order. The transport is an input: each call receives what the network
    produced. */
module MonolithHttp {
  import opened Base
  import opened GoStrings
  import opened Models
  import opened Consts
  import opened Form
  import Scraper
  import Selection

  /** A draw from the user-agent pool. */
  type UaIndex = i: nat | i < |UserAgents|

  /** What `client.Do` produced: no response at all, or a response with its
      status, its body (`None` when `io.ReadAll` failed) and the cookies it
      set, as (name, value) pairs in header order. */
  datatype HttpReply =
    | Unreached
    | Answered(status: int, body: Option<string>, cookies: seq<(string, string)>)

  /** The inputs of one `DoRequest`: whether `http.NewRequest` accepted the
      URL, the user-agent draw, and the reply. */
  datatype Call = Call(built: bool, ua: UaIndex, reply: HttpReply)

  /** What `DoRequest` did: the request it sent, if it got that far, and
      the body or the error it returned. */
  datatype Sent = Sent(request: Option<Scraper.Request>, result: Result<string>)

  /** The headers `DoRequest` sets. Content-Type follows the presence of a
      body reader, not its length. */
  function Headers(c: Scraper.Client, body: Option<string>, ua: UaIndex): (h: map<string, string>)
    ensures Scraper.StandardHeaders(h, c, body.Some?, ua)
  {
    var h0 := Scraper.FixedHeaders(c, ua);
    var h1 := if body.Some? then h0[HeaderContentType := ContentTypeForm + CharsetUtf8] else h0;
    if c.cookie != "" then h1[HeaderCookie := c.cookie] else h1
  }

  /** `DoRequest(verb, endpoint, body)`; `None` is the nil reader. */
  function DoRequest(c: Scraper.Client, verb: string, endpoint: string, body: Option<string>, call: Call): (r: Sent)
    ensures !call.built ==> r == Sent(None, Err(BuildFailed))
    ensures call.built ==> r.request.Some?
    ensures r.request.Some? ==>
              var req := r.request.value;
              && req.verb == verb && req.url == c.baseUrl + endpoint
              && req.body == (if body.Some? then body.value else "")
              && Scraper.StandardHeaders(req.headers, c, body.Some?, call.ua)
    ensures r.result.Ok? <==> call.built && call.reply.Answered? && call.reply.status == 200
                              && call.reply.body.Some?
    ensures r.result.Ok? ==> r.result.value == call.reply.body.value
    ensures call.built && call.reply.Unreached? ==> r.result == Err(SendFailed)
    ensures call.built && call.reply.Answered? && call.reply.status != 200
            ==> r.result == Err(BadStatus(call.reply.status))
    ensures call.built && call.reply.Answered? && call.reply.status == 200 && call.reply.body.None?
            ==> r.result == Err(ReadFailed)
  {
    if !call.built then Sent(None, Err(BuildFailed))
    else
      var req := Scraper.Request(verb, c.baseUrl + endpoint, Headers(c, body, call.ua),
                                 if body.Some? then body.value else "");
      match call.reply
      case Unreached => Sent(Some(req), Err(SendFailed))
      case Answered(status, text, _) =>
        if status != 200 then Sent(Some(req), Err(BadStatus(status)))
        else match text
          case None => Sent(Some(req), Err(ReadFailed))
          case Some(b) => Sent(Some(req), Ok(b))
  }

  /** The two clients build the same request, except that net/http sets
      Content-Type for any body reader, even an empty one, where fasthttp
      sets it only for a non-empty body. */
  lemma AgreesWithFastHttp(c: Scraper.Client, verb: string, endpoint: string, body: string, ua: UaIndex)
    ensures |body| > 0 ==> DoRequest(c, verb, endpoint, Some(body), Call(true, ua, Unreached)).request
                           == Some(Scraper.NewRequest(c, verb, endpoint, body, ua))
    ensures DoRequest(c, verb, endpoint, None, Call(true, ua, Unreached)).request
            == Some(Scraper.NewRequest(c, verb, endpoint, "", ua))
    ensures var empty := DoRequest(c, verb, endpoint, Some(""), Call(true, ua, Unreached)).request.value;
            && HeaderContentType in empty.headers
            && HeaderContentType !in Scraper.NewRequest(c, verb, endpoint, "", ua).headers
  {
    var h0 := Scraper.FixedHeaders(c, ua);
    assert HeaderContentType !in h0 by {
      assert h0.Keys == {HeaderUserAgent, HeaderXRequestedWith, HeaderReferer, HeaderOrigin, HeaderAccept};
    }
  }

  /** On a reply whose body was read, both clients apply the same status
      rule. */
  lemma SameStatusRule(c: Scraper.Client, verb: string, endpoint: string, body: Option<string>,
                       ua: UaIndex, status: int, text: string, cookies: seq<(string, string)>, sessId: string)
    ensures DoRequest(c, verb, endpoint, body, Call(true, ua, Answered(status, Some(text), cookies))).result
            == Scraper.Classify(Scraper.Reply(status, text, sessId))
  {}

  /** `IsSessionValid`: a GET of the media page with no body; valid when it
      succeeds and the page shows neither "login" nor "Username". */
  function IsSessionValid(c: Scraper.Client, call: Call): bool {
    match DoRequest(c, Get, MediaEndpoint, None, call).result
    case Err(_) => false
    case Ok(body) => !(Contains(body, "login") || Contains(body, "Username"))
  }

  /** The session is valid exactly when the probe was sent, answered 200,
      its body was read, and neither marker occurs in it. */
  lemma SessionValidIff(c: Scraper.Client, call: Call)
    ensures IsSessionValid(c, call)
            <==> && call.built && call.reply.Answered? && call.reply.status == 200
                 && call.reply.body.Some?
                 && (forall i :: !OccursAt(call.reply.body.value, "login", i))
                 && (forall i :: !OccursAt(call.reply.body.value, "Username", i))
  {
    if call.built && call.reply.Answered? && call.reply.body.Some? {
      ContainsIffOccurs(call.reply.body.value, "login");
      ContainsIffOccurs(call.reply.body.value, "Username");
    }
  }

  // ---------------------------------------------------------------------
  // Form encoding
  // ---------------------------------------------------------------------

  /** Byte-wise string order, as Go's `<` on strings and `sort.Strings`. */
  predicate Precedes(a: string, b: string) {
    if |a| == 0 then |b| > 0
    else if |b| == 0 then false
    else if a[0] != b[0] then a[0] < b[0]
    else Precedes(a[1..], b[1..])
  }

  /** Keys in strictly ascending order. */
  predicate Ascending(keys: seq<string>) {
    forall k :: 0 <= k < |keys| - 1 ==> Precedes(keys[k], keys[k + 1])
  }

  /** The values as `url.QueryEscape` (`escape`) leaves them; the keys of
      these forms are plain identifiers that escaping leaves unchanged. */
  function Escaped(values: map<string, string>, escape: string -> string): (m: map<string, string>)
    ensures m.Keys == values.Keys
    ensures forall key :: key in m ==> m[key] == escape(values[key])
  {
    map key | key in values :: escape(values[key])
  }

  /** `url.Values.Encode` of a form: `sorted` lists the keys in ascending
      order, which is the order Encode emits them in. */
  function Encode(values: map<string, string>, sorted: seq<string>, escape: string -> string): string
    requires IsKeyOrder(sorted, values.Keys) && Ascending(sorted)
  {
    BuildForm(Escaped(values, escape), sorted)
  }

  /** Decoding an encoded form gives the escaped pairs in ascending key
      order, provided no escaped value contains `&` and no key contains `&`
      or `=`. */
  lemma EncodeRoundTrip(values: map<string, string>, sorted: seq<string>, escape: string -> string)
    requires IsKeyOrder(sorted, values.Keys) && Ascending(sorted)
    requires forall key :: key in values ==> '&' !in key && '=' !in key && '&' !in escape(values[key])
    ensures ParseForm(Encode(values, sorted, escape)) == Pairs(Escaped(values, escape), sorted)
  {
    FormRoundTrip(Escaped(values, escape), sorted);
  }

  /** The keys of the context form, ascending. */
  const ProdiKeys: seq<string> := [FormPk, FormPs, FormSmthn]

  /** The keys of the roster form, ascending. */
  const NilaiKeys: seq<string> := [FormCetak, FormParam]

  lemma ProdiKeysSorted(kodeProdi: string, kodePk: string, smthn: string)
    ensures IsKeyOrder(ProdiKeys, Scraper.ProdiForm(kodeProdi, kodePk, smthn).Keys) && Ascending(ProdiKeys)
  {
    assert FormPk[1] != FormPs[1] && FormPk[0] != FormSmthn[0] && FormPs[1] != FormSmthn[1];
    assert Precedes(FormPk[1..], FormPs[1..]);
    assert Precedes(FormPk, FormPs);
  }

  lemma NilaiKeysSorted(infomk: string)
    ensures IsKeyOrder(NilaiKeys, Scraper.NilaiForm(infomk).Keys) && Ascending(NilaiKeys)
  {
    assert FormCetak[0] != FormParam[0];
  }

  // ---------------------------------------------------------------------
  // The portal calls
  // ---------------------------------------------------------------------

  /** `SelectSemester`: POST with no body, decode the term list, and let the
      user pick one by number; the result is the chosen term's code.
      `decode` stands for `json.Unmarshal` (`None` on a parse error). */
  function SelectSemester(c: Scraper.Client, call: Call, decode: string -> Option<seq<Semester>>,
                          answer: Option<int>): (r: Result<string>)
    ensures DoRequest(c, Post, SemesterEndpoint, None, call).result.Err?
            ==> r == Err(DoRequest(c, Post, SemesterEndpoint, None, call).result.error)
    ensures var fetched := DoRequest(c, Post, SemesterEndpoint, None, call).result;
            fetched.Ok? && decode(fetched.value).None? ==> r == Err(Malformed)
    ensures var fetched := DoRequest(c, Post, SemesterEndpoint, None, call).result;
            r.Ok? <==> fetched.Ok? && decode(fetched.value).Some?
                       && 0 < |decode(fetched.value).value|
                       && answer.Some? && 1 <= answer.value <= |decode(fetched.value).value|
    ensures var fetched := DoRequest(c, Post, SemesterEndpoint, None, call).result;
            r.Ok? ==> r.value == decode(fetched.value).value[answer.value - 1].smtthnakd
    ensures var fetched := DoRequest(c, Post, SemesterEndpoint, None, call).result;
            fetched.Ok? && decode(fetched.value) == Some([]) ==> r == Err(NoEntries)
  {
    match DoRequest(c, Post, SemesterEndpoint, None, call).result
    case Err(e) => Err(e)
    case Ok(body) =>
      match decode(body)
      case None => Err(Malformed)
      case Some(semesters) =>
        match Selection.Choose(semesters, answer)
        case Err(e) => Err(e)
        case Ok(s) => Ok(s.smtthnakd)
  }

  /** The context form, encoded. */
  function ProdiBody(kodeProdi: string, kodePk: string, smthn: string, escape: string -> string): string {
    ProdiKeysSorted(kodeProdi, kodePk, smthn);
    Encode(Scraper.ProdiForm(kodeProdi, kodePk, smthn), ProdiKeys, escape)
  }

  /** The context form as sent: always the three fields in the order pk,
      ps, smthn, whatever Go's map order, when no escaped value holds `&`. */
  lemma ProdiBodyFields(kodeProdi: string, kodePk: string, smthn: string, escape: string -> string)
    requires '&' !in escape(kodeProdi) && '&' !in escape(kodePk) && '&' !in escape(smthn)
    ensures ParseForm(ProdiBody(kodeProdi, kodePk, smthn, escape))
            == [(FormPk, escape(kodePk)), (FormPs, escape(kodeProdi)), (FormSmthn, escape(smthn))]
  {
    var values := Scraper.ProdiForm(kodeProdi, kodePk, smthn);
    ProdiKeysSorted(kodeProdi, kodePk, smthn);
    Scraper.ProdiFormClean("", "", "");
    EncodeRoundTrip(values, ProdiKeys, escape);
    ProdiPairs(kodeProdi, kodePk, smthn, escape);
  }

  /** The escaped context form in ascending key order. */
  lemma ProdiPairs(kodeProdi: string, kodePk: string, smthn: string, escape: string -> string)
    ensures Pairs(Escaped(Scraper.ProdiForm(kodeProdi, kodePk, smthn), escape), ProdiKeys)
            == [(FormPk, escape(kodePk)), (FormPs, escape(kodeProdi)), (FormSmthn, escape(smthn))]
  {
    var form := Scraper.ProdiForm(kodeProdi, kodePk, smthn);
    assert FormPk[1] != FormPs[1] && FormPk[0] != FormSmthn[0] && FormPs[1] != FormSmthn[1];
    assert form[FormPk] == kodePk && form[FormPs] == kodeProdi && form[FormSmthn] == smthn;
    ProdiKeysSorted(kodeProdi, kodePk, smthn);
    var ps := Pairs(Escaped(form, escape), ProdiKeys);
    assert |ps| == 3;
    assert ps[0] == (FormPk, escape(kodePk));
    assert ps[1] == (FormPs, escape(kodeProdi));
    assert ps[2] == (FormSmthn, escape(smthn));
  }

  /** `SetProdi`: POST the encoded context form; only the outcome is kept. */
  function SetProdi(c: Scraper.Client, kodeProdi: string, kodePk: string, smthn: string,
                    call: Call, escape: string -> string): (r: Outcome)
    ensures var sent := DoRequest(c, Post, ProdiEndpoint, Some(ProdiBody(kodeProdi, kodePk, smthn, escape)), call);
            && (r.Pass? <==> sent.result.Ok?)
            && (sent.result.Err? ==> r == Fail(sent.result.error))
  {
    match DoRequest(c, Post, ProdiEndpoint, Some(ProdiBody(kodeProdi, kodePk, smthn, escape)), call).result
    case Err(e) => Fail(e)
    case Ok(_) => Pass
  }

  /** `GetRekapMK`: POST the fixed pagination body and decode the listing. */
  function GetRekapMK(c: Scraper.Client, call: Call, decode: string -> Option<RekapMKResponse>)
    : (r: Result<RekapMKResponse>)
    ensures DoRequest(c, Post, RekapEndpoint, Some(RekapBody), call).result.Err?
            ==> r == Err(DoRequest(c, Post, RekapEndpoint, Some(RekapBody), call).result.error)
    ensures var fetched := DoRequest(c, Post, RekapEndpoint, Some(RekapBody), call).result;
            && (r.Ok? <==> fetched.Ok? && decode(fetched.value).Some?)
            && (r.Ok? ==> r.value == decode(fetched.value).value)
            && (fetched.Ok? && decode(fetched.value).None? ==> r == Err(Malformed))
  {
    match DoRequest(c, Post, RekapEndpoint, Some(RekapBody), call).result
    case Err(e) => Err(e)
    case Ok(body) =>
      match decode(body)
      case None => Err(Malformed)
      case Some(resp) => Ok(resp)
  }

  /** The roster form of a section, encoded. */
  function NilaiBody(infomk: string, escape: string -> string): string {
    NilaiKeysSorted(infomk);
    Encode(Scraper.NilaiForm(infomk), NilaiKeys, escape)
  }

  /** The roster form decodes to `cetak` then `param`, when the escaped
      section key holds no `&`. */
  lemma NilaiBodyFields(infomk: string, escape: string -> string)
    requires '&' !in escape(infomk) && '&' !in escape(CetakValue)
    ensures ParseForm(NilaiBody(infomk, escape)) == [(FormCetak, escape(CetakValue)), (FormParam, escape(infomk))]
  {
    NilaiKeysSorted(infomk);
    Scraper.NilaiFormClean("");
    EncodeRoundTrip(Scraper.NilaiForm(infomk), NilaiKeys, escape);
  }

  /** `GetListNilai(infomk)`: POST the roster form and decode the entries. */
  function GetListNilai(c: Scraper.Client, infomk: string, call: Call, escape: string -> string,
                        decode: string -> Option<seq<Nilai>>): (r: Result<seq<Nilai>>)
    ensures var fetched := DoRequest(c, Post, ListEndpoint, Some(NilaiBody(infomk, escape)), call).result;
            && (fetched.Err? ==> r == Err(fetched.error))
            && (r.Ok? <==> fetched.Ok? && decode(fetched.value).Some?)
            && (r.Ok? ==> r.value == decode(fetched.value).value)
  {
    match DoRequest(c, Post, ListEndpoint, Some(NilaiBody(infomk, escape)), call).result
    case Err(e) => Err(e)
    case Ok(body) =>
      match decode(body)
      case None => Err(Malformed)
      case Some(rows) => Ok(rows)
  }

  /** `loadJurusan` of this variant: read and decode the whole catalogue;
      there is no prompt, every track is processed. */
  function LoadJurusan(file: Option<string>, decode: string -> Option<seq<Jurusan>>): (r: Result<seq<Jurusan>>)
    ensures file.None? ==> r == Err(FileUnreadable)
    ensures file.Some? && decode(file.value).None? ==> r == Err(Malformed)
    ensures r.Ok? <==> file.Some? && decode(file.value).Some?
    ensures r.Ok? ==> r.value == decode(file.value).value
  {
    match file
    case None => Err(FileUnreadable)
    case Some(data) =>
      match decode(data)
      case None => Err(Malformed)
      case Some(list) => Ok(list)
  }

  /** The split version's `loadJurusan` is this one followed by the track
      prompt. */
  lemma CatalogueThenPrompt(file: Option<string>, decode: string -> Option<seq<Jurusan>>, answer: Option<int>)
    ensures Scraper.LoadJurusan(file, decode, answer)
            == match LoadJurusan(file, decode)
               case Err(e) => Err(e)
               case Ok(list) => Selection.Choose(list, answer)
  {}
}
