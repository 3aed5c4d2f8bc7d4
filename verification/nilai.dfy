/** The grade harvest of one track in the split version (nilai.go): select the
    track and term, list the sections, keep the printable ones, fetch every
    roster concurrently and store each as JSON and as a spreadsheet. The
    goroutines are modelled as a fold over the order in which they finish. */
module Nilai {
  import opened Base
  import opened Models
  import opened Consts
  import opened Form
  import opened Scraper
  import opened Progress

  // ---------------------------------------------------------------------
  // Partition of the section listing
  // ---------------------------------------------------------------------

  /** A section whose roster the portal lets us print. */
  predicate Printable(mk: MataKuliah) {
    mk.cetak == CetakValue
  }

  /** The printable sections, in listing order. */
  function Eligible(rows: seq<MataKuliah>): seq<MataKuliah> {
    Filter(rows, Printable)
  }

  /** How many sections are not printable. */
  function Skipped(rows: seq<MataKuliah>): nat {
    |Reject(rows, Printable)|
  }

  /** The filtering loop of `processJurusan`: append printable sections to
      `mkList`, count the others in `skip`. Every section lands on exactly
      one side, and the printable ones keep their listing order. */
  method Partition(rows: seq<MataKuliah>) returns (mkList: seq<MataKuliah>, skip: nat)
    ensures |mkList| + skip == |rows|
    ensures forall mk :: mk in mkList <==> mk in rows && mk.cetak == CetakValue
    ensures IsSubsequence(mkList, rows)
    ensures mkList == Eligible(rows) && skip == Skipped(rows)
  {
    mkList, skip := [], 0;
    var i := 0;
    while i < |rows|
      invariant 0 <= i <= |rows|
      invariant mkList == Filter(rows[..i], Printable) && skip == |Reject(rows[..i], Printable)|
    {
      FilterStep(rows, i, Printable);
      if Printable(rows[i]) {
        mkList := mkList + [rows[i]];
      } else {
        skip := skip + 1;
      }
      i := i + 1;
    }
    assert rows[..|rows|] == rows;
    EligibleLaws(rows);
  }

  /** The printable sections are exactly the listed sections whose print flag
      is set, in listing order, and with the skipped ones they cover the
      listing. */
  lemma EligibleLaws(rows: seq<MataKuliah>)
    ensures |Eligible(rows)| + Skipped(rows) == |rows|
    ensures forall mk :: mk in Eligible(rows) <==> mk in rows && mk.cetak == CetakValue
    ensures IsSubsequence(Eligible(rows), rows)
  {
    FilterLaws(rows, Printable);
  }

  // ---------------------------------------------------------------------
  // The spreadsheet of one roster
  // ---------------------------------------------------------------------

  /** The ten cells of one roster entry, in header order. */
  function Cells(n: Nilai): (row: seq<string>)
    ensures |row| == |NilaiHeaders|
  {
    [n.nim, n.nama, n.nilAngka, n.nilHuruf, n.hadir, n.projek, n.quiz, n.tugas, n.uts, n.uas]
  }

  /** Reading an entry back from a row of cells. */
  function ReadRow(row: seq<string>): Nilai
    requires |row| == |NilaiHeaders|
  {
    Nilai(row[0], row[1], row[2], row[3], row[4], row[5], row[6], row[7], row[8], row[9])
  }

  /** `writeExcel` as the table it fills: header row 1, entry i on row i + 2. */
  function WriteExcel(data: seq<Nilai>): (table: seq<seq<string>>)
    ensures |table| == |data| + 1 && table[0] == NilaiHeaders
    ensures forall i :: 0 <= i < |table| ==> |table[i]| == |NilaiHeaders|
  {
    [NilaiHeaders] + seq(|data|, i requires 0 <= i < |data| => Cells(data[i]))
  }

  /** The sheet holds the entries in order and nothing else: row i + 1
      reads back as entry i. */
  lemma SheetReadsBack(data: seq<Nilai>)
    ensures var table := WriteExcel(data);
            forall i :: 0 <= i < |data| ==> ReadRow(table[i + 1]) == data[i]
  {}

  // ---------------------------------------------------------------------
  // One section: `scrapeMK`
  // ---------------------------------------------------------------------

  /** A file the harvest leaves behind: its path as segments and its
      content. */
  datatype Written =
    | JsonFile(path: seq<string>, rows: seq<Nilai>)
    | SheetFile(path: seq<string>, table: seq<seq<string>>)

  /** The inputs of one section's goroutine: the map order of the form
      (two keys, so one flag), the user-agent draw, the reply, and whether
      each of the two writes succeeds. */
  datatype SectionIO = SectionIO(paramFirst: bool, ua: nat, reply: Exchange, jsonOk: bool, xlsxOk: bool)

  function NilaiOrder(paramFirst: bool): (order: seq<string>)
    ensures forall infomk :: IsKeyOrder(order, NilaiForm(infomk).Keys)
  {
    assert FormParam[0] != FormCetak[0];
    if paramFirst then [FormParam, FormCetak] else [FormCetak, FormParam]
  }

  /** The file stem of a section; `sanitize` is `sanitizeFilename`. */
  function Stem(mk: MataKuliah, sanitize: string -> string): string {
    sanitize(mk.namamk + " R" + mk.kelas + " " + mk.namadosen)
  }

  /** The roster fetch of a section. */
  function FetchRoster(c: Client, mk: MataKuliah, io: SectionIO,
                       decode: string -> Option<seq<Nilai>>): Result<seq<Nilai>>
    requires io.ua < |UserAgents|
  {
    GetListNilai(c, mk.infomk, NilaiOrder(io.paramFirst), io.ua, io.reply, decode).1
  }

  /** `scrapeMK`: fetch the roster; on success write it as JSON and as a
      sheet under one stem, each write on its own. */
  function ScrapeMK(c: Client, mk: MataKuliah, folderJson: seq<string>, folderExcel: seq<string>,
                    io: SectionIO, decode: string -> Option<seq<Nilai>>,
                    sanitize: string -> string): (w: seq<Written>)
    requires io.ua < |UserAgents|
    ensures FetchRoster(c, mk, io, decode).Err? ==> w == []
    ensures var fetched := FetchRoster(c, mk, io, decode);
            var stem := Stem(mk, sanitize);
            fetched.Ok? ==>
              && (io.jsonOk <==> JsonFile(folderJson + [stem + ".json"], fetched.value) in w)
              && (io.xlsxOk <==> SheetFile(folderExcel + [stem + ".xlsx"], WriteExcel(fetched.value)) in w)
              && (forall a :: a in w ==> a == JsonFile(folderJson + [stem + ".json"], fetched.value)
                                         || a == SheetFile(folderExcel + [stem + ".xlsx"], WriteExcel(fetched.value)))
  {
    match FetchRoster(c, mk, io, decode)
    case Err(_) => []
    case Ok(rows) =>
      var stem := Stem(mk, sanitize);
      (if io.jsonOk then [JsonFile(folderJson + [stem + ".json"], rows)] else [])
      + (if io.xlsxOk then [SheetFile(folderExcel + [stem + ".xlsx"], WriteExcel(rows))] else [])
  }

  /** The sheet written for a section. */
  function Sheets(w: seq<Written>): seq<Written> {
    if |w| == 0 then [] else (if w[0].SheetFile? then [w[0]] else []) + Sheets(w[1..])
  }

  /** A failed JSON write does not stop the sheet: the sheets written are the
      same whatever the JSON write did. */
  lemma WritesIndependent(c: Client, mk: MataKuliah, folderJson: seq<string>, folderExcel: seq<string>,
                          io: SectionIO, decode: string -> Option<seq<Nilai>>,
                          sanitize: string -> string, jsonOk: bool)
    requires io.ua < |UserAgents|
    ensures Sheets(ScrapeMK(c, mk, folderJson, folderExcel, io, decode, sanitize))
         == Sheets(ScrapeMK(c, mk, folderJson, folderExcel, io.(jsonOk := jsonOk), decode, sanitize))
  {
    var w1 := ScrapeMK(c, mk, folderJson, folderExcel, io, decode, sanitize);
    var w2 := ScrapeMK(c, mk, folderJson, folderExcel, io.(jsonOk := jsonOk), decode, sanitize);
    if FetchRoster(c, mk, io, decode).Ok? {
      if io.jsonOk {
        assert Sheets(w1) == Sheets(w1[1..]);
      }
      if jsonOk {
        assert Sheets(w2) == Sheets(w2[1..]);
      }
    }
  }

  // ---------------------------------------------------------------------
  // The concurrent fan-out as a fold over the completion order
  // ---------------------------------------------------------------------

  /** The order in which the goroutines finish. `schedule[i]` chooses which
      of those still running finishes i-th (a missing or out-of-range entry
      chooses the first). Every order is reachable this way. */
  function CompletionOrder(pending: seq<int>, schedule: seq<nat>): (order: seq<int>)
    ensures |order| == |pending| && multiset(order) == multiset(pending)
    decreases |pending|
  {
    if |pending| == 0 then []
    else
      var j := if |schedule| > 0 && schedule[0] < |pending| then schedule[0] else 0;
      assert pending == pending[..j] + [pending[j]] + pending[j + 1..];
      [pending[j]] + CompletionOrder(pending[..j] + pending[j + 1..], if |schedule| > 0 then schedule[1..] else [])
  }

  /** The first position of x in s. */
  function IndexOf(s: seq<int>, x: int): (j: nat)
    requires x in s
    ensures j < |s| && s[j] == x
  {
    if s[0] == x then 0 else 1 + IndexOf(s[1..], x)
  }

  /** The schedule that makes the pending tasks finish in `order`. */
  function ScheduleFor(pending: seq<int>, order: seq<int>): (schedule: seq<nat>)
    requires multiset(order) == multiset(pending)
    decreases |pending|
  {
    if |pending| == 0 || |order| == 0 then []
    else
      assert order[0] in multiset(pending);
      var j := IndexOf(pending, order[0]);
      MultisetAfterFirst(pending, order, j);
      [j] + ScheduleFor(pending[..j] + pending[j + 1..], order[1..])
  }

  lemma MultisetAfterFirst(pending: seq<int>, order: seq<int>, j: int)
    requires multiset(order) == multiset(pending)
    requires 0 <= j < |pending| && 0 < |order| && pending[j] == order[0]
    ensures multiset(order[1..]) == multiset(pending[..j] + pending[j + 1..])
  {
    RemoveAt(pending, j);
    RemoveAt(order, 0);
    assert order[..0] + order[1..] == order[1..];
    MultisetCancel(multiset(order[1..]), multiset(pending[..j] + pending[j + 1..]), order[0]);
  }

  /** Every rearrangement of the pending tasks is some schedule's order. */
  lemma {:induction false} EveryOrderIsReachable(pending: seq<int>, order: seq<int>)
    requires multiset(order) == multiset(pending)
    ensures CompletionOrder(pending, ScheduleFor(pending, order)) == order
    decreases |pending|
  {
    SameLength(order, pending);
    if |pending| > 0 {
      assert order[0] in multiset(pending);
      var j := IndexOf(pending, order[0]);
      var rest := pending[..j] + pending[j + 1..];
      MultisetAfterFirst(pending, order, j);
      var tail := ScheduleFor(rest, order[1..]);
      assert ScheduleFor(pending, order) == [j] + tail;
      EveryOrderIsReachable(rest, order[1..]);
      ReachStep(pending, order, j, tail);
    }
  }

  /** Rearrangements have the same length. */
  lemma SameLength(a: seq<int>, b: seq<int>)
    requires multiset(a) == multiset(b)
    ensures |a| == |b|
  {
    assert |multiset(a)| == |a| && |multiset(b)| == |b|;
  }

  /** Choosing the position of the order's head, then reaching the rest of
      the order, reaches the whole order. */
  lemma ReachStep(pending: seq<int>, order: seq<int>, j: int, tail: seq<nat>)
    requires 0 <= j < |pending| && 0 < |order| && pending[j] == order[0]
    requires CompletionOrder(pending[..j] + pending[j + 1..], tail) == order[1..]
    ensures CompletionOrder(pending, [j] + tail) == order
  {
    FirstChoice(pending, j, tail);
    assert order == [order[0]] + order[1..];
  }

  /** A schedule starting with j finishes pending[j] first. */
  lemma FirstChoice(pending: seq<int>, j: int, tail: seq<nat>)
    requires 0 <= j < |pending|
    ensures CompletionOrder(pending, [j] + tail)
         == [pending[j]] + CompletionOrder(pending[..j] + pending[j + 1..], tail)
  {
    assert ([j] + tail)[1..] == tail;
  }

  /** Removing position j removes one occurrence of its element. */
  lemma RemoveAt<T>(s: seq<T>, j: int)
    requires 0 <= j < |s|
    ensures multiset(s[..j] + s[j + 1..]) + multiset{s[j]} == multiset(s)
  {
    assert s == s[..j] + [s[j]] + s[j + 1..];
  }

  lemma MultisetCancel<T>(a: multiset<T>, b: multiset<T>, x: T)
    requires a + multiset{x} == b + multiset{x}
    ensures a == b
  {
    forall y ensures a[y] == b[y] {
      assert (a + multiset{x})[y] == (b + multiset{x})[y];
    }
  }

  /** Finishing in listing order is the empty schedule. */
  lemma {:induction false} ListingOrder(pending: seq<int>)
    ensures CompletionOrder(pending, []) == pending
    decreases |pending|
  {
    if |pending| > 0 {
      ListingOrder(pending[1..]);
      assert pending[..0] + pending[1..] == pending[1..];
    }
  }

  /** The files of the tasks taken in `order`, concatenated. */
  function Collect(tasks: seq<seq<Written>>, order: seq<int>): seq<Written>
    requires forall i :: 0 <= i < |order| ==> 0 <= order[i] < |tasks|
  {
    if |order| == 0 then []
    else Collect(tasks, order[..|order| - 1]) + tasks[order[|order| - 1]]
  }

  lemma {:induction false} CollectAppend(tasks: seq<seq<Written>>, u: seq<int>, v: seq<int>)
    requires forall i :: 0 <= i < |u| ==> 0 <= u[i] < |tasks|
    requires forall i :: 0 <= i < |v| ==> 0 <= v[i] < |tasks|
    ensures Collect(tasks, u + v) == Collect(tasks, u) + Collect(tasks, v)
    decreases |v|
  {
    if |v| == 0 {
      assert u + v == u;
    } else {
      assert (u + v)[..|u + v| - 1] == u + v[..|v| - 1];
      CollectAppend(tasks, u, v[..|v| - 1]);
    }
  }

  /** The files produced do not depend on the completion order, up to the
      order they appear in. */
  lemma {:induction false} CollectPermutation(tasks: seq<seq<Written>>, a: seq<int>, b: seq<int>)
    requires forall i :: 0 <= i < |a| ==> 0 <= a[i] < |tasks|
    requires forall i :: 0 <= i < |b| ==> 0 <= b[i] < |tasks|
    requires multiset(a) == multiset(b)
    ensures multiset(Collect(tasks, a)) == multiset(Collect(tasks, b))
    decreases |a|
  {
    if |a| == 0 {
      assert |b| == |multiset(b)| == 0;
    } else {
      var x := a[|a| - 1];
      var a' := a[..|a| - 1];
      assert a == a' + [x];
      assert multiset(a) == multiset(a') + multiset{x};
      assert x in multiset(b);
      var j :| 0 <= j < |b| && b[j] == x;
      var b' := b[..j] + b[j + 1..];
      RemoveAt(b, j);
      MultisetCancel(multiset(a'), multiset(b'), x);
      CollectPermutation(tasks, a', b');
      CollectRemove(tasks, b, j);
    }
  }

  /** Taking one task out of an order takes its files out of the collection. */
  lemma CollectRemove(tasks: seq<seq<Written>>, b: seq<int>, j: int)
    requires forall i :: 0 <= i < |b| ==> 0 <= b[i] < |tasks|
    requires 0 <= j < |b|
    ensures var b' := b[..j] + b[j + 1..];
            (forall i :: 0 <= i < |b'| ==> 0 <= b'[i] < |tasks|)
            && multiset(Collect(tasks, b)) == multiset(Collect(tasks, b')) + multiset(tasks[b[j]])
  {
    var u, v := b[..j], b[j + 1..];
    assert b == u + [b[j]] + v;
    CollectAppend(tasks, u, v);
    CollectAppend(tasks, u + [b[j]], v);
    CollectAppend(tasks, u, [b[j]]);
    assert Collect(tasks, [b[j]]) == tasks[b[j]] by {
      assert [b[j]][..0] == [];
    }
  }

  /** The state the goroutines share: the `done` counter under the mutex,
      the meter `updateProgress` keeps, and the files written so far. */
  datatype Pool = Pool(done: nat, meter: Meter, written: seq<Written>)

  /** The goroutines finishing in `order`: each adds its files, then bumps
      `done` and calls `updateProgress` while holding the lock. */
  function FanOut(track: string, tasks: seq<seq<Written>>, order: seq<int>): (p: Pool)
    requires 0 < |tasks| && |order| <= |tasks|
    requires forall i :: 0 <= i < |order| ==> 0 <= order[i] < |tasks|
    ensures p.done == |order|
    ensures p.meter == Run(track, Range(1, |order| + 1), |tasks|, Meter(0, []))
    ensures p.written == Collect(tasks, order)
  {
    if |order| == 0 then Pool(0, Meter(0, []), [])
    else
      var before := FanOut(track, tasks, order[..|order| - 1]);
      assert Range(1, |order| + 1)[..|order| - 1] == Range(1, |order|);
      var t := Update(track, before.done + 1, |tasks|, before.meter.last);
      Pool(before.done + 1,
           Meter(t.last, before.meter.frames + (if t.frame.Some? then [t.frame.value] else [])),
           before.written + tasks[order[|order| - 1]])
  }

  // ---------------------------------------------------------------------
  // One track: `processJurusan`
  // ---------------------------------------------------------------------

  /** The inputs of one track: the context POST (map order, user agent,
      reply), the listing POST (user agent, reply), each section's inputs by
      position among the printable ones, and the completion schedule. */
  datatype TrackIO = TrackIO(prodiOrder: seq<string>, prodiUa: nat, prodiReply: Exchange,
                             rekapUa: nat, rekapReply: Exchange,
                             sections: nat -> SectionIO, schedule: seq<nat>)

  /** The closing log line: sections counted done, listed, and skipped. */
  datatype Report = Report(done: nat, all: nat, skip: nat)

  /** What a track run did: the error returned, the folders created, the
      files written, the progress frames drawn, and the closing report. */
  datatype TrackRun = TrackRun(result: Outcome, folders: seq<seq<string>>, written: seq<Written>,
                               frames: seq<Frame>, report: Option<Report>)

  /** The files each printable section's goroutine writes. */
  function Tasks(c: Client, mkList: seq<MataKuliah>, folderJson: seq<string>, folderExcel: seq<string>,
                 io: TrackIO, decode: string -> Option<seq<Nilai>>,
                 sanitize: string -> string): (tasks: seq<seq<Written>>)
    requires forall k :: io.sections(k).ua < |UserAgents|
    ensures |tasks| == |mkList|
  {
    seq(|mkList|, k requires 0 <= k < |mkList| =>
      ScrapeMK(c, mkList[k], folderJson, folderExcel, io.sections(k), decode, sanitize))
  }

  function JsonDir(jur: Jurusan, semester: string): seq<string> {
    [JsonFolder, jur.namaJrs, semester]
  }

  function ExcelDir(jur: Jurusan, semester: string): seq<string> {
    [ExcelFolder, jur.namaJrs, semester]
  }

  function SetContext(c: Client, jur: Jurusan, semester: string, io: TrackIO): Outcome
    requires io.prodiUa < |UserAgents|
    requires IsKeyOrder(io.prodiOrder, ProdiForm(jur.kodeJrs, RegValue, semester).Keys)
  {
    SetProdi(c, jur.kodeJrs, RegValue, semester, io.prodiOrder, io.prodiUa, io.prodiReply).1
  }

  function Listing(c: Client, io: TrackIO, decode: string -> Option<RekapMKResponse>): Result<RekapMKResponse>
    requires io.rekapUa < |UserAgents|
  {
    GetRekapMK(c, io.rekapUa, io.rekapReply, decode).1
  }

  lemma FilesOfAnyOrder(tasks: seq<seq<Written>>, order: seq<int>)
    requires forall i :: 0 <= i < |order| ==> 0 <= order[i] < |tasks|
    requires multiset(order) == multiset(Range(0, |tasks|))
    ensures multiset(Collect(tasks, order)) == multiset(Collect(tasks, Range(0, |tasks|)))
  {
    var all := Range(0, |tasks|);
    assert forall i :: 0 <= i < |all| ==> 0 <= all[i] < |tasks|;
    CollectPermutation(tasks, order, all);
  }

  /** A rearrangement of 0 .. n-1 names each task by its index. */
  lemma OrderInRange(n: nat, order: seq<int>)
    requires multiset(order) == multiset(Range(0, n))
    ensures forall i :: 0 <= i < |order| ==> 0 <= order[i] < n
  {
    forall i | 0 <= i < |order| ensures 0 <= order[i] < n {
      assert order[i] in multiset(Range(0, n));
    }
  }

  /** The fan-out over the printable sections, whatever the schedule: every
      section is counted done, the meter sees done = 1 .. total in turn, and
      the files are those of finishing in listing order, rearranged. */
  function Harvest(track: string, tasks: seq<seq<Written>>, schedule: seq<nat>): (p: Pool)
    requires 0 < |tasks|
    ensures p.done == |tasks|
    ensures p.meter == Run(track, Range(1, |tasks| + 1), |tasks|, Meter(0, []))
    ensures multiset(p.written) == multiset(Collect(tasks, Range(0, |tasks|)))
    ensures schedule == [] ==> p.written == Collect(tasks, Range(0, |tasks|))
  {
    ScheduledPool(track, tasks, schedule, CompletionOrder(Range(0, |tasks|), schedule));
    FanOut(track, tasks, CompletionOrder(Range(0, |tasks|), schedule))
  }

  /** Any schedule names every task exactly once, so it collects the files
      of the listing order rearranged; the empty schedule is the listing
      order itself. */
  lemma ScheduleCovers(tasks: seq<seq<Written>>, schedule: seq<nat>)
    ensures var order := CompletionOrder(Range(0, |tasks|), schedule);
            && (forall i :: 0 <= i < |order| ==> 0 <= order[i] < |tasks|)
            && multiset(Collect(tasks, order)) == multiset(Collect(tasks, Range(0, |tasks|)))
            && (schedule == [] ==> order == Range(0, |tasks|))
  {
    var order := CompletionOrder(Range(0, |tasks|), schedule);
    OrderInRange(|tasks|, order);
    FilesOfAnyOrder(tasks, order);
    ListingOrder(Range(0, |tasks|));
  }

  /** The pool left by the goroutines finishing in the order `schedule`
      picks. */
  lemma ScheduledPool(track: string, tasks: seq<seq<Written>>, schedule: seq<nat>, order: seq<int>)
    requires 0 < |tasks| && order == CompletionOrder(Range(0, |tasks|), schedule)
    ensures forall i :: 0 <= i < |order| ==> 0 <= order[i] < |tasks|
    ensures FanOut(track, tasks, order).done == |tasks|
    ensures FanOut(track, tasks, order).meter == Run(track, Range(1, |tasks| + 1), |tasks|, Meter(0, []))
    ensures multiset(FanOut(track, tasks, order).written) == multiset(Collect(tasks, Range(0, |tasks|)))
    ensures schedule == [] ==> FanOut(track, tasks, order).written == Collect(tasks, Range(0, |tasks|))
  {
    ScheduleCovers(tasks, schedule);
  }

  /** `processJurusan(scraper, jur, semester)`. */
  function ProcessJurusan(c: Client, jur: Jurusan, semester: string, io: TrackIO,
                          decodeRekap: string -> Option<RekapMKResponse>,
                          decodeRows: string -> Option<seq<Nilai>>,
                          sanitize: string -> string): (r: TrackRun)
    requires io.prodiUa < |UserAgents| && io.rekapUa < |UserAgents|
    requires forall k :: io.sections(k).ua < |UserAgents|
    requires IsKeyOrder(io.prodiOrder, ProdiForm(jur.kodeJrs, RegValue, semester).Keys)
    // A failed context POST or listing aborts the track with that error.
    ensures SetContext(c, jur, semester, io).Fail?
            ==> r == TrackRun(SetContext(c, jur, semester, io), [], [], [], None)
    ensures SetContext(c, jur, semester, io).Pass? && Listing(c, io, decodeRekap).Err?
            ==> r == TrackRun(Fail(Listing(c, io, decodeRekap).error), [], [], [], None)
    // Once the listing is in, the track succeeds whatever its sections do;
    // with nothing printable it succeeds before any folder or fetch.
    ensures SetContext(c, jur, semester, io).Pass? && Listing(c, io, decodeRekap).Ok? ==> r.result == Pass
    ensures r.report.None? ==> r.folders == [] && r.written == [] && r.frames == []
    ensures r.report.Some? <==> SetContext(c, jur, semester, io).Pass? && Listing(c, io, decodeRekap).Ok?
                                && Eligible(Listing(c, io, decodeRekap).value.rows) != []
    // Otherwise every printable section is counted done, failed or not.
    ensures r.report.Some? ==>
              var rows := Listing(c, io, decodeRekap).value.rows;
              var tasks := Tasks(c, Eligible(rows), JsonDir(jur, semester), ExcelDir(jur, semester), io, decodeRows, sanitize);
              && r.result == Pass
              && r.report.value == Report(|Eligible(rows)|, |rows|, Skipped(rows))
              && r.folders == [JsonDir(jur, semester), ExcelDir(jur, semester)]
              && r.frames == Run(jur.namaJrs, Range(1, |tasks| + 1), |tasks|, Meter(0, [])).frames
              && multiset(r.written) == multiset(Collect(tasks, Range(0, |tasks|)))
              && (io.schedule == [] ==> r.written == Collect(tasks, Range(0, |tasks|)))
  {
    var ctx := SetContext(c, jur, semester, io);
    if ctx.Fail? then TrackRun(ctx, [], [], [], None)
    else
      match Listing(c, io, decodeRekap)
      case Err(e) => TrackRun(Fail(e), [], [], [], None)
      case Ok(resp) =>
        var mkList := Eligible(resp.rows);
        if |mkList| == 0 then TrackRun(Pass, [], [], [], None)
        else
          var tasks := Tasks(c, mkList, JsonDir(jur, semester), ExcelDir(jur, semester), io, decodeRows, sanitize);
          var pool := Harvest(jur.namaJrs, tasks, io.schedule);
          TrackRun(Pass, [JsonDir(jur, semester), ExcelDir(jur, semester)], pool.written, pool.meter.frames,
                   Some(Report(pool.done, |resp.rows|, Skipped(resp.rows))))
  }

  /** The completion order changes nothing but the order of the file
      writes: every schedule gives the same outcome, folders, frames and
      report as finishing in listing order, and the same writes. Which of
      two writes to one path lands last is not claimed. */
  lemma CompletionOrderIrrelevant(c: Client, jur: Jurusan, semester: string, io: TrackIO,
                                  decodeRekap: string -> Option<RekapMKResponse>,
                                  decodeRows: string -> Option<seq<Nilai>>,
                                  sanitize: string -> string)
    requires io.prodiUa < |UserAgents| && io.rekapUa < |UserAgents|
    requires forall k :: io.sections(k).ua < |UserAgents|
    requires IsKeyOrder(io.prodiOrder, ProdiForm(jur.kodeJrs, RegValue, semester).Keys)
    ensures var r := ProcessJurusan(c, jur, semester, io, decodeRekap, decodeRows, sanitize);
            var s := ProcessJurusan(c, jur, semester, io.(schedule := []), decodeRekap, decodeRows, sanitize);
            && r.result == s.result && r.folders == s.folders && r.frames == s.frames && r.report == s.report
            && multiset(r.written) == multiset(s.written)
  {
    var io0 := io.(schedule := []);
    if SetContext(c, jur, semester, io).Pass? && Listing(c, io, decodeRekap).Ok? {
      var mkList := Eligible(Listing(c, io, decodeRekap).value.rows);
      assert Tasks(c, mkList, JsonDir(jur, semester), ExcelDir(jur, semester), io, decodeRows, sanitize)
          == Tasks(c, mkList, JsonDir(jur, semester), ExcelDir(jur, semester), io0, decodeRows, sanitize);
    }
  }

  /** The closing report adds up: every listed section was either counted
      done (whether or not its fetch succeeded) or skipped as unprintable. */
  lemma ReportAddsUp(c: Client, jur: Jurusan, semester: string, io: TrackIO,
                     decodeRekap: string -> Option<RekapMKResponse>,
                     decodeRows: string -> Option<seq<Nilai>>,
                     sanitize: string -> string)
    requires io.prodiUa < |UserAgents| && io.rekapUa < |UserAgents|
    requires forall k :: io.sections(k).ua < |UserAgents|
    requires IsKeyOrder(io.prodiOrder, ProdiForm(jur.kodeJrs, RegValue, semester).Keys)
    ensures var r := ProcessJurusan(c, jur, semester, io, decodeRekap, decodeRows, sanitize);
            r.report.Some? ==> r.report.value.done + r.report.value.skip == r.report.value.all
  {
    var r := ProcessJurusan(c, jur, semester, io, decodeRekap, decodeRows, sanitize);
    if r.report.Some? {
      FilterCount(Listing(c, io, decodeRekap).value.rows, Printable);
    }
  }

  /** However the goroutines finish, the progress run of a track ends on the
      full bar at done == total, after at most 20 frames. */
  lemma ProgressEndsFull(c: Client, jur: Jurusan, semester: string, io: TrackIO,
                         decodeRekap: string -> Option<RekapMKResponse>,
                         decodeRows: string -> Option<seq<Nilai>>,
                         sanitize: string -> string)
    requires io.prodiUa < |UserAgents| && io.rekapUa < |UserAgents|
    requires forall k :: io.sections(k).ua < |UserAgents|
    requires IsKeyOrder(io.prodiOrder, ProdiForm(jur.kodeJrs, RegValue, semester).Keys)
    ensures var r := ProcessJurusan(c, jur, semester, io, decodeRekap, decodeRows, sanitize);
            r.report.Some? ==>
              && 1 <= |r.frames| <= 20
              && r.frames[|r.frames| - 1].percent == 100
              && r.frames[|r.frames| - 1].done == r.report.value.done
  {
    var r := ProcessJurusan(c, jur, semester, io, decodeRekap, decodeRows, sanitize);
    if r.report.Some? {
      SequentialRun(jur.namaJrs, r.report.value.done);
    }
  }
}
