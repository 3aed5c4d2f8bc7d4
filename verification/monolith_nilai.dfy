/** The grade harvest of the monolithic variant (main.go): one sequential
    loop over every track of the catalogue. Tracks without a code are passed
    over, a failed context or listing call moves on to the next track, the
    folders are created before the printable sections are picked, and only
    rosters that were fetched are counted done. */
module MonolithNilai {
  import opened Base
  import opened Models
  import opened Consts
  import opened Progress
  import opened MonolithHttp
  import Scraper
  import opened Split = Nilai

  // ---------------------------------------------------------------------
  // The file stem: strings.NewReplacer("/", "-", ":", "")
  // ---------------------------------------------------------------------

  /** What one character becomes: `/` a dash, `:` nothing, anything else
      itself. */
  function Image(c: char): (t: string)
    ensures '/' !in t && ':' !in t
  {
    if c == '/' then "-" else if c == ':' then "" else [c]
  }

  /** The replacer applied to a whole string. */
  function Replace(s: string): (r: string)
    ensures '/' !in r && ':' !in r
    ensures |r| <= |s|
  {
    if |s| == 0 then "" else Image(s[0]) + Replace(s[1..])
  }

  /** The replacer works character by character: it distributes over
      concatenation. */
  lemma {:induction false} ReplaceAppend(a: string, b: string)
    ensures Replace(a + b) == Replace(a) + Replace(b)
  {
    if |a| == 0 {
      assert a + b == b;
    } else {
      assert (a + b)[0] == a[0] && (a + b)[1..] == a[1..] + b;
      ReplaceAppend(a[1..], b);
      calc {
        Replace(a + b);
        Image(a[0]) + Replace(a[1..] + b);
        Image(a[0]) + (Replace(a[1..]) + Replace(b));
        (Image(a[0]) + Replace(a[1..])) + Replace(b);
        Replace(a) + Replace(b);
      }
    }
  }

  /** A string without `/` or `:` passes unchanged. */
  lemma {:induction false} ReplaceFixes(s: string)
    requires '/' !in s && ':' !in s
    ensures Replace(s) == s
  {
    if |s| > 0 {
      assert s[0] in s;
      assert forall c :: c in s[1..] ==> c in s;
      ReplaceFixes(s[1..]);
    }
  }

  /** Replacing twice is replacing once. */
  lemma ReplaceIdempotent(s: string)
    ensures Replace(Replace(s)) == Replace(s)
  {
    ReplaceFixes(Replace(s));
  }

  /** Without colons the length is kept and only slashes change. */
  lemma {:induction false} ReplaceWithoutColons(s: string)
    requires ':' !in s
    ensures |Replace(s)| == |s|
    ensures forall i :: 0 <= i < |s| ==> Replace(s)[i] == if s[i] == '/' then '-' else s[i]
  {
    if |s| > 0 {
      assert forall c :: c in s[1..] ==> c in s;
      ReplaceWithoutColons(s[1..]);
    }
  }

  /** A character that is neither `/` nor `:`. */
  predicate Plain(c: char) {
    c != '/' && c != ':'
  }

  /** Every other character survives, in its original order. */
  lemma {:induction false} ReplaceKeepsOthers(s: string)
    ensures IsSubsequence(Filter(s, Plain), Replace(s))
    decreases |s|
  {
    if |s| == 0 {
    } else {
      var init, c := s[..|s| - 1], s[|s| - 1];
      assert s == init + [c];
      ReplaceKeepsOthers(init);
      ReplaceAppend(init, [c]);
      assert Replace([c]) == Image(c) by {
        assert [c][1..] == [];
      }
      assert s[..|s| - 1] == init;
      if c == '/' {
        SubsequenceSnoc(Filter(init, Plain), Replace(init), '-');
        assert Filter(s, Plain) == Filter(init, Plain);
        assert Replace(s) == Replace(init) + ['-'];
      } else if c != ':' {
        SubsequenceSnoc(Filter(init, Plain), Replace(init), c);
        assert Filter(s, Plain) == Filter(init, Plain) + [c];
        assert Replace(s) == Replace(init) + [c];
      } else {
        assert Filter(s, Plain) == Filter(init, Plain);
        assert Replace(s) == Replace(init) + [];
        assert Replace(init) + [] == Replace(init);
      }
    }
  }

  /** The file stem of a section: name, class and lecturer separated by
      spaces, through the replacer. */
  function MonolithStem(mk: MataKuliah): string {
    Replace(mk.namamk + " " + mk.kelas + " " + mk.namadosen)
  }

  // ---------------------------------------------------------------------
  // One section
  // ---------------------------------------------------------------------

  /** The inputs of one section: the roster call and the outcomes of the
      two writes. */
  datatype SectionCalls = SectionCalls(call: Call, jsonOk: bool, xlsxOk: bool)

  /** One pass of the section loop: fetch the roster; on success attempt
      both writes under one stem. `None` when the fetch failed (the pass
      ends with `continue`); otherwise the files written. */
  function Section(c: Scraper.Client, mk: MataKuliah, jsonDir: seq<string>, excelDir: seq<string>,
                   sc: SectionCalls, escape: string -> string,
                   decode: string -> Option<seq<Nilai>>): (w: Option<seq<Written>>)
    ensures w.None? <==> GetListNilai(c, mk.infomk, sc.call, escape, decode).Err?
    ensures var fetched := GetListNilai(c, mk.infomk, sc.call, escape, decode);
            var stem := MonolithStem(mk);
            w.Some? ==>
              && (sc.jsonOk <==> JsonFile(jsonDir + [stem + ".json"], fetched.value) in w.value)
              && (sc.xlsxOk <==> SheetFile(excelDir + [stem + ".xlsx"], WriteExcel(fetched.value)) in w.value)
              && (forall a :: a in w.value ==> a == JsonFile(jsonDir + [stem + ".json"], fetched.value)
                                               || a == SheetFile(excelDir + [stem + ".xlsx"], WriteExcel(fetched.value)))
  {
    match GetListNilai(c, mk.infomk, sc.call, escape, decode)
    case Err(_) => None
    case Ok(rows) =>
      var stem := MonolithStem(mk);
      Some((if sc.jsonOk then [JsonFile(jsonDir + [stem + ".json"], rows)] else [])
           + (if sc.xlsxOk then [SheetFile(excelDir + [stem + ".xlsx"], WriteExcel(rows))] else []))
  }

  // ---------------------------------------------------------------------
  // The section loop
  // ---------------------------------------------------------------------

  predicate Fetched(o: Option<seq<Written>>) {
    o.Some?
  }

  /** The files of the fetched sections, in loop order. */
  function Files(outcomes: seq<Option<seq<Written>>>): seq<Written> {
    if |outcomes| == 0 then []
    else
      var last := outcomes[|outcomes| - 1];
      Files(outcomes[..|outcomes| - 1]) + (if last.Some? then last.value else [])
  }

  /** The loop state: `doneMK`, the meter, the files written. */
  datatype Sweep = Sweep(done: nat, meter: Meter, written: seq<Written>)

  /** The section loop over the passes' outcomes: a failed fetch changes
      nothing; a fetched one bumps `doneMK` and feeds it to the meter. */
  function SweepAll(track: string, outcomes: seq<Option<seq<Written>>>, total: nat): (s: Sweep)
    requires |outcomes| <= total
    ensures s.done == |Filter(outcomes, Fetched)|
    ensures s.written == Files(outcomes)
  {
    if |outcomes| == 0 then Sweep(0, Meter(0, []), [])
    else
      var before := SweepAll(track, outcomes[..|outcomes| - 1], total);
      match outcomes[|outcomes| - 1]
      case None => before
      case Some(files) =>
        var t := Update(track, before.done + 1, total, before.meter.last);
        Sweep(before.done + 1,
              Meter(t.last, before.meter.frames + (if t.frame.Some? then [t.frame.value] else [])),
              before.written + files)
  }

  /** One more `done` value appended to the run of the meter. */
  lemma RunStep(track: string, d: nat, total: nat)
    requires d < total
    ensures var before := Run(track, Range(1, d + 1), total, Meter(0, []));
            var t := Update(track, d + 1, total, before.last);
            Run(track, Range(1, d + 2), total, Meter(0, []))
            == Meter(t.last, before.frames + (if t.frame.Some? then [t.frame.value] else []))
  {
    var dones := Range(1, d + 2);
    assert dones[..|dones| - 1] == Range(1, d + 1);
    assert dones[|dones| - 1] == d + 1;
  }

  /** The meter sees exactly done = 1 .. doneMK against the total of
      printable sections: failed fetches are invisible to it. */
  lemma {:induction false} SweepMeter(track: string, outcomes: seq<Option<seq<Written>>>, total: nat)
    requires 0 < total && |outcomes| <= total
    ensures var s := SweepAll(track, outcomes, total);
            s.meter == Run(track, Range(1, s.done + 1), total, Meter(0, []))
  {
    if |outcomes| > 0 {
      var init := outcomes[..|outcomes| - 1];
      SweepMeter(track, init, total);
      var before := SweepAll(track, init, total);
      if outcomes[|outcomes| - 1].Some? {
        RunStep(track, before.done, total);
      }
    }
  }

  // ---------------------------------------------------------------------
  // One track and the whole catalogue
  // ---------------------------------------------------------------------

  /** The inputs of one track: the context call, the listing call, and each
      printable section's inputs by position. */
  datatype TrackCalls = TrackCalls(prodi: Call, rekap: Call, sections: nat -> SectionCalls)

  /** What one iteration of the track loop did. */
  datatype TrackOutcome =
    | NoCode                                                  // empty code: `continue`
    | Aborted(error: Error)                                   // context or listing failed: logged, `continue`
    | Harvested(folders: seq<seq<string>>, written: seq<Written>, frames: seq<Frame>, report: Report)

  function Outcomes(c: Scraper.Client, mkList: seq<MataKuliah>, jsonDir: seq<string>, excelDir: seq<string>,
                    calls: TrackCalls, escape: string -> string,
                    decode: string -> Option<seq<Nilai>>): (o: seq<Option<seq<Written>>>)
    ensures |o| == |mkList|
  {
    seq(|mkList|, k requires 0 <= k < |mkList| =>
      Section(c, mkList[k], jsonDir, excelDir, calls.sections(k), escape, decode))
  }

  /** The listing of a track, once its context was set. */
  function TrackListing(c: Scraper.Client, calls: TrackCalls,
                        decodeRekap: string -> Option<RekapMKResponse>): Result<RekapMKResponse> {
    GetRekapMK(c, calls.rekap, decodeRekap)
  }

  /** One iteration of `processJurusan`'s track loop. */
  function ProcessTrack(c: Scraper.Client, jur: Jurusan, semester: string, calls: TrackCalls,
                        escape: string -> string, decodeRekap: string -> Option<RekapMKResponse>,
                        decodeRows: string -> Option<seq<Nilai>>): (r: TrackOutcome)
    ensures r.NoCode? <==> jur.kodeJrs == ""
    ensures jur.kodeJrs != "" && SetProdi(c, jur.kodeJrs, RegValue, semester, calls.prodi, escape).Fail?
            ==> r == Aborted(SetProdi(c, jur.kodeJrs, RegValue, semester, calls.prodi, escape).error)
    ensures jur.kodeJrs != "" && SetProdi(c, jur.kodeJrs, RegValue, semester, calls.prodi, escape).Pass?
            && TrackListing(c, calls, decodeRekap).Err?
            ==> r == Aborted(TrackListing(c, calls, decodeRekap).error)
    ensures r.Harvested? <==>
              && jur.kodeJrs != ""
              && SetProdi(c, jur.kodeJrs, RegValue, semester, calls.prodi, escape).Pass?
              && TrackListing(c, calls, decodeRekap).Ok?
    ensures r.Harvested? ==>
              var rows := TrackListing(c, calls, decodeRekap).value.rows;
              var outs := Outcomes(c, Eligible(rows), JsonDir(jur, semester), ExcelDir(jur, semester),
                                   calls, escape, decodeRows);
              && r.folders == [JsonDir(jur, semester), ExcelDir(jur, semester)]
              && r.report.all == |rows|
              && r.report.done == |Filter(outs, Fetched)| <= |Eligible(rows)|
              && r.report.done + r.report.skip == r.report.all
              && r.written == Files(outs)
  {
    if jur.kodeJrs == "" then NoCode
    else
      match SetProdi(c, jur.kodeJrs, RegValue, semester, calls.prodi, escape)
      case Fail(e) => Aborted(e)
      case Pass =>
        match TrackListing(c, calls, decodeRekap)
        case Err(e) => Aborted(e)
        case Ok(resp) =>
          var mkList := Eligible(resp.rows);
          var outs := Outcomes(c, mkList, JsonDir(jur, semester), ExcelDir(jur, semester), calls, escape, decodeRows);
          var sweep := SweepAll(jur.namaJrs, outs, |mkList|);
          Harvested([JsonDir(jur, semester), ExcelDir(jur, semester)], sweep.written, sweep.meter.frames,
                    Report(sweep.done, |resp.rows|, |resp.rows| - sweep.done))
  }

  /** `processJurusan(scraper, jurusanList, semester)`: every track in
      catalogue order, each with its own inputs; it always returns nil. */
  function ProcessJurusan(c: Scraper.Client, jurusanList: seq<Jurusan>, semester: string,
                          calls: nat -> TrackCalls, escape: string -> string,
                          decodeRekap: string -> Option<RekapMKResponse>,
                          decodeRows: string -> Option<seq<Nilai>>): (r: (Outcome, seq<TrackOutcome>))
    ensures r.0 == Pass && |r.1| == |jurusanList|
    ensures forall k :: 0 <= k < |jurusanList| ==> (r.1[k].NoCode? <==> jurusanList[k].kodeJrs == "")
    // Track k's outcome is that of `ProcessTrack` on track k's own inputs:
    // one track's failure neither stops nor alters the others.
    ensures forall k :: 0 <= k < |jurusanList| ==>
              r.1[k] == ProcessTrack(c, jurusanList[k], semester, calls(k), escape, decodeRekap, decodeRows)
  {
    var runs := seq(|jurusanList|, k requires 0 <= k < |jurusanList| =>
                    ProcessTrack(c, jurusanList[k], semester, calls(k), escape, decodeRekap, decodeRows));
    assert forall k :: 0 <= k < |jurusanList|
             ==> runs[k] == ProcessTrack(c, jurusanList[k], semester, calls(k), escape, decodeRekap, decodeRows);
    (Pass, runs)
  }

  /** The closing report's skip count is the unprintable sections plus the
      printable ones whose roster could not be fetched. */
  lemma SkipCountsFailures(c: Scraper.Client, jur: Jurusan, semester: string, calls: TrackCalls,
                           escape: string -> string, decodeRekap: string -> Option<RekapMKResponse>,
                           decodeRows: string -> Option<seq<Nilai>>)
    ensures var r := ProcessTrack(c, jur, semester, calls, escape, decodeRekap, decodeRows);
            r.Harvested? ==>
              var rows := TrackListing(c, calls, decodeRekap).value.rows;
              var outs := Outcomes(c, Eligible(rows), JsonDir(jur, semester), ExcelDir(jur, semester),
                                   calls, escape, decodeRows);
              r.report.skip == Skipped(rows) + |Reject(outs, Fetched)|
  {
    var r := ProcessTrack(c, jur, semester, calls, escape, decodeRekap, decodeRows);
    if r.Harvested? {
      var rows := TrackListing(c, calls, decodeRekap).value.rows;
      var outs := Outcomes(c, Eligible(rows), JsonDir(jur, semester), ExcelDir(jur, semester),
                           calls, escape, decodeRows);
      FilterCount(rows, Printable);
      FilterCount(outs, Fetched);
    }
  }

  /** The meter of the section loop reaches 100% exactly when every pass
      fetched its roster. */
  lemma SweepBar(track: string, outcomes: seq<Option<seq<Written>>>)
    requires 0 < |outcomes|
    ensures var s := SweepAll(track, outcomes, |outcomes|);
            && (s.done == |outcomes| ==> 1 <= |s.meter.frames| <= 20
                                         && s.meter.frames[|s.meter.frames| - 1].percent == 100)
            && (s.done < |outcomes| ==> forall i :: 0 <= i < |s.meter.frames| ==> s.meter.frames[i].percent < 100)
  {
    var s := SweepAll(track, outcomes, |outcomes|);
    SweepMeter(track, outcomes, |outcomes|);
    if s.done == |outcomes| {
      SequentialRun(track, s.done);
    } else if s.done < |outcomes| {
      var dones := Range(1, s.done + 1);
      FramesBelowFull(track, dones, |outcomes|, Meter(0, []));
    }
  }

  /** The progress bar of a track reaches 100% exactly when every printable
      roster was fetched: then the last frame is the full bar; after any
      failed fetch no frame reaches 100%. */
  lemma BarCompletesIffAllFetched(c: Scraper.Client, jur: Jurusan, semester: string, calls: TrackCalls,
                                  escape: string -> string, decodeRekap: string -> Option<RekapMKResponse>,
                                  decodeRows: string -> Option<seq<Nilai>>)
    ensures var r := ProcessTrack(c, jur, semester, calls, escape, decodeRekap, decodeRows);
            r.Harvested? ==>
              var total := |Eligible(TrackListing(c, calls, decodeRekap).value.rows)|;
              && (0 < total && r.report.done == total
                  ==> 1 <= |r.frames| <= 20 && r.frames[|r.frames| - 1].percent == 100)
              && (r.report.done < total ==> forall i :: 0 <= i < |r.frames| ==> r.frames[i].percent < 100)
  {
    var r := ProcessTrack(c, jur, semester, calls, escape, decodeRekap, decodeRows);
    if r.Harvested? {
      var mkList := Eligible(TrackListing(c, calls, decodeRekap).value.rows);
      var outs := Outcomes(c, mkList, JsonDir(jur, semester), ExcelDir(jur, semester), calls, escape, decodeRows);
      HarvestedSweep(c, jur, semester, calls, escape, decodeRekap, decodeRows, mkList, outs);
      if 0 < |mkList| {
        SweepBar(jur.namaJrs, outs);
      }
    }
  }

  /** A harvested track drew the frames and counted the fetches of its
      section loop. */
  lemma HarvestedSweep(c: Scraper.Client, jur: Jurusan, semester: string, calls: TrackCalls,
                       escape: string -> string, decodeRekap: string -> Option<RekapMKResponse>,
                       decodeRows: string -> Option<seq<Nilai>>,
                       mkList: seq<MataKuliah>, outs: seq<Option<seq<Written>>>)
    requires ProcessTrack(c, jur, semester, calls, escape, decodeRekap, decodeRows).Harvested?
    requires mkList == Eligible(TrackListing(c, calls, decodeRekap).value.rows)
    requires outs == Outcomes(c, mkList, JsonDir(jur, semester), ExcelDir(jur, semester), calls, escape, decodeRows)
    ensures var r := ProcessTrack(c, jur, semester, calls, escape, decodeRekap, decodeRows);
            var s := SweepAll(jur.namaJrs, outs, |mkList|);
            r.frames == s.meter.frames && r.report.done == s.done
  {
  }

  /** Unlike the split version, a track with nothing printable still gets
      its two folders, and its report counts every section as skipped. */
  lemma FoldersBeforeFilter(c: Scraper.Client, jur: Jurusan, semester: string, calls: TrackCalls,
                            escape: string -> string, decodeRekap: string -> Option<RekapMKResponse>,
                            decodeRows: string -> Option<seq<Nilai>>)
    requires jur.kodeJrs != ""
    requires SetProdi(c, jur.kodeJrs, RegValue, semester, calls.prodi, escape).Pass?
    requires TrackListing(c, calls, decodeRekap).Ok?
    requires Eligible(TrackListing(c, calls, decodeRekap).value.rows) == []
    ensures var r := ProcessTrack(c, jur, semester, calls, escape, decodeRekap, decodeRows);
            var n := |TrackListing(c, calls, decodeRekap).value.rows|;
            r == Harvested([JsonDir(jur, semester), ExcelDir(jur, semester)], [], [], Report(0, n, n))
  {
    var rows := TrackListing(c, calls, decodeRekap).value.rows;
    var outs := Outcomes(c, Eligible(rows), JsonDir(jur, semester), ExcelDir(jur, semester), calls, escape, decodeRows);
    assert outs == [];
    assert SweepAll(jur.namaJrs, outs, 0) == Sweep(0, Meter(0, []), []);
  }
}
