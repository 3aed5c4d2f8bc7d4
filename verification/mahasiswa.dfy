/** The student export of the split version (mahasiswa.go): fetch the
    student listing of a track, optionally keep one intake year, and store the
    result as JSON and as a 48-column spreadsheet. */
module Mahasiswa {
  import opened Base
  import opened GoStrings
  import opened Models
  import opened Consts
  import opened Form
  import opened Scraper

  /** A student record, with the fields the export reads. The declaration of
      `Mahasiswa` is not part of this model; every field is taken to be a
      string. */
  datatype Student = Student(
    nim: string, nama: string, gender: string, tempatLahir: string, tanggalLahir: string,
    kodeAgama: string, noKtp: string, asNimMsMhs: string, kelurahan: string, idWilayah: string,
    idKps: string, namaIbu: string, idJalurMasuk: string, tanggalMasuk: string,
    idPembiayaan: string, biayaMasuk: string, idNpwpMhs: string, jalan: string, dusun: string,
    rt: string, rw: string, kodePos: string, idJnsTinggal: string, idAlatTransport: string,
    telepon: string, hp1: string, email: string, nikAyah: string, namaAyah: string,
    tanggalLahirAyah: string, idDidikAyah: string, idKerjaAyah: string, idPenghasilanAyah: string,
    nikIbu: string, tanggalLahirIbu: string, idDidikIbu: string, idKerjaIbu: string,
    idPenghasilanIbu: string)

  // ---------------------------------------------------------------------
  // The intake-year filter
  // ---------------------------------------------------------------------

  const AllYears := "Semua Tahun"

  /** The students whose enrolment date starts with `year`. */
  function FromYear(list: seq<Student>, year: string): seq<Student> {
    Filter(list, (m: Student) => HasPrefix(m.tanggalMasuk, year))
  }

  /** What `filterMahasiswaByYear` returns: the students (or the error) and
      the label that names the output files. */
  datatype Filtered = Filtered(students: Result<seq<Student>>, yearLabel: string)

  /** `filterMahasiswaByYear(list)`: `option` is the menu answer and `year`
      the year typed after option 2 (`None` when a read failed; a failed year
      read is taken to leave the label empty). */
  function FilterByYear(list: seq<Student>, option: Option<int>, year: Option<string>): (r: Filtered)
    ensures option.None? ==> r == Filtered(Err(InputFailed), AllYears)
    ensures option == Some(1) ==> r == Filtered(Ok(list), AllYears)
    ensures option.Some? && option.value != 1 && option.value != 2
            ==> r == Filtered(Err(InvalidOption(option.value)), AllYears)
    ensures option == Some(2) && year.None? ==> r == Filtered(Err(InputFailed), "")
    ensures option == Some(2) && year.Some? ==> r.yearLabel == year.value
    ensures option == Some(2) && year.Some? ==> (r.students.Err? <==> Atoi(year.value).None?)
    ensures option == Some(2) && year.Some? && Atoi(year.value).None?
            ==> r.students == Err(InvalidYear(year.value))
    ensures r.students.Ok? ==> IsSubsequence(r.students.value, list)
    ensures r.students.Ok? && option == Some(2)
            ==> forall m :: m in r.students.value <==> m in list && HasPrefix(m.tanggalMasuk, year.value)
  {
    match option
    case None => Filtered(Err(InputFailed), AllYears)
    case Some(n) =>
      if n == 1 then
        SubsequenceOfSelf(list);
        Filtered(Ok(list), AllYears)
      else if n == 2 then
        match year
        case None => Filtered(Err(InputFailed), "")
        case Some(y) =>
          if Atoi(y).None? then Filtered(Err(InvalidYear(y)), y)
          else
            FilterLaws(list, (m: Student) => HasPrefix(m.tanggalMasuk, y));
            Filtered(Ok(FromYear(list, y)), y)
      else Filtered(Err(InvalidOption(n)), AllYears)
  }

  lemma {:induction false} SubsequenceOfSelf<T>(s: seq<T>)
    ensures IsSubsequence(s, s)
  {
    if |s| > 0 {
      SubsequenceOfSelf(s[1..]);
    }
  }

  /** Option 2 is a partition: the kept and the dropped students together are
      the whole list, and a year no date starts with keeps nobody. */
  lemma YearFilterPartition(list: seq<Student>, year: string)
    requires Atoi(year).Some?
    ensures var kept := FilterByYear(list, Some(2), Some(year)).students.value;
            && |kept| + |Reject(list, (m: Student) => HasPrefix(m.tanggalMasuk, year))| == |list|
            && ((forall m :: m in list ==> !HasPrefix(m.tanggalMasuk, year)) ==> kept == [])
  {
    FilterLaws(list, (m: Student) => HasPrefix(m.tanggalMasuk, year));
  }

  // ---------------------------------------------------------------------
  // The student spreadsheet
  // ---------------------------------------------------------------------

  /** The 48 column names of the student sheet. */
  const MhsHeaders: seq<string> := [
    "nim", "nama_mahasiswa", "jenis_kelamin", "tempat_lahir", "tanggal_lahir",
    "id_agama", "nik", "nisn", "kewarganegaraan", "kelurahan", "id_wilayah",
    "penerima_kps", "nama_ibu_kandung", "id_jalur_daftar", "tanggal_daftar",
    "id_pembiayaan", "biaya_masuk", "npwp", "jalan", "dusun", "rt", "rw",
    "kode_pos", "id_jenis_tinggal", "id_alat_transportasi", "telepon",
    "handphone", "email", "nomor_kps", "nik_ayah", "nama_ayah",
    "tanggal_lahir_ayah", "id_pendidikan_ayah", "id_pekerjaan_ayah",
    "id_penghasilan_ayah", "nik_ibu", "tanggal_lahir_ibu", "id_pendidikan_ibu",
    "id_pekerjaan_ibu", "id_penghasilan_ibu", "nama_wali", "tanggal_lahir_wali",
    "id_pendidikan_wali", "id_pekerjaan_wali", "id_penghasilan_wali",
    "id_kebutuhan_khusus_mahasiswa", "id_kebutuhan_khusus_ayah", "id_kebutuhan_khusus_ibu"
  ]

  /** The data columns that get the text number format (format 49), so that
      identifiers and phone numbers keep their leading zeros. */
  const TextColumns: set<int> := {0, 6, 7, 25, 26, 29, 34}

  /** A cell value: a string, or one of the integer zeros. */
  datatype Value = Str(s: string) | Int(n: int)

  /** A cell: its value and whether it carries the text style. */
  datatype Cell = Cell(value: Value, text: bool)

  /** `parseDate`: "" stays ""; any other input goes through `parse`, which
      stands for the layout-based conversion (its result, or "" on error). */
  function ParseDate(date: string, parse: string -> string): (r: string)
    ensures date == "" ==> r == ""
    ensures date != "" ==> r == parse(date)
  {
    if date == "" then "" else parse(date)
  }

  /** A parent's birth date: converted only when present. */
  function OptionalDate(date: string, parse: string -> string): string {
    if date != "" then ParseDate(date, parse) else date
  }

  /** The value of column j for one student, in header order: the record's
      fields, the birth dates through `parseDate`, the constant nationality
      "ID", the phone number behind a "0", empty kps and wali columns, and
      zeros in the last six columns. */
  function ValueAt(m: Student, parse: string -> string, j: int): Value
    requires 0 <= j < |MhsHeaders|
  {
    match j
    case 0 => Str(m.nim)
    case 1 => Str(m.nama)
    case 2 => Str(m.gender)
    case 3 => Str(m.tempatLahir)
    case 4 => Str(ParseDate(m.tanggalLahir, parse))
    case 5 => Str(m.kodeAgama)
    case 6 => Str(m.noKtp)
    case 7 => Str(m.asNimMsMhs)
    case 8 => Str("ID")
    case 9 => Str(m.kelurahan)
    case 10 => Str(m.idWilayah)
    case 11 => Str(m.idKps)
    case 12 => Str(m.namaIbu)
    case 13 => Str(m.idJalurMasuk)
    case 14 => Str(m.tanggalMasuk)
    case 15 => Str(m.idPembiayaan)
    case 16 => Str(m.biayaMasuk)
    case 17 => Str(m.idNpwpMhs)
    case 18 => Str(m.jalan)
    case 19 => Str(m.dusun)
    case 20 => Str(m.rt)
    case 21 => Str(m.rw)
    case 22 => Str(m.kodePos)
    case 23 => Str(m.idJnsTinggal)
    case 24 => Str(m.idAlatTransport)
    case 25 => Str(m.telepon)
    case 26 => Str("0" + m.hp1)
    case 27 => Str(m.email)
    case 28 => Str("")
    case 29 => Str(m.nikAyah)
    case 30 => Str(m.namaAyah)
    case 31 => Str(OptionalDate(m.tanggalLahirAyah, parse))
    case 32 => Str(m.idDidikAyah)
    case 33 => Str(m.idKerjaAyah)
    case 34 => Str(m.idPenghasilanAyah)
    case 35 => Str(m.nikIbu)
    case 36 => Str(OptionalDate(m.tanggalLahirIbu, parse))
    case 37 => Str(m.idDidikIbu)
    case 38 => Str(m.idKerjaIbu)
    case 39 => Str(m.idPenghasilanIbu)
    case 40 => Str("")
    case 41 => Str("")
    case _ => Int(0)
  }

  /** `writeExcelMHS` as the table it fills: the header row names the 48
      columns without style; every data row holds its student's values, with
      the text style on exactly the columns of `TextColumns`. */
  function WriteExcelMhs(data: seq<Student>, parse: string -> string): (table: seq<seq<Cell>>)
    ensures |table| == |data| + 1
    ensures forall i :: 0 <= i < |table| ==> |table[i]| == |MhsHeaders|
    ensures forall j :: 0 <= j < |MhsHeaders| ==> table[0][j] == Cell(Str(MhsHeaders[j]), false)
    ensures forall i, j :: 1 <= i < |table| && 0 <= j < |MhsHeaders|
              ==> table[i][j] == Cell(ValueAt(data[i - 1], parse, j), j in TextColumns)
  {
    [seq(|MhsHeaders|, j requires 0 <= j < |MhsHeaders| => Cell(Str(MhsHeaders[j]), false))]
    + seq(|data|, i requires 0 <= i < |data| => Row(data[i], parse))
  }

  /** One data row: each value with the text style where the column calls
      for it. */
  function Row(m: Student, parse: string -> string): (row: seq<Cell>)
    ensures |row| == |MhsHeaders|
    ensures forall j :: 0 <= j < |MhsHeaders| ==> row[j] == Cell(ValueAt(m, parse, j), j in TextColumns)
  {
    seq(|MhsHeaders|, j requires 0 <= j < |MhsHeaders| => Cell(ValueAt(m, parse, j), j in TextColumns))
  }

  /** The fixed cells of the student sheet: in every data row column 8 is
      "ID", column 26 the phone number behind a "0", the kps and wali columns
      are empty, the last six are zero, an empty birth date stays empty, and
      the identifier and enrolment-date columns read back the record. */
  lemma SheetLayout(data: seq<Student>, parse: string -> string, i: int)
    requires 1 <= i <= |data|
    ensures var row := WriteExcelMhs(data, parse)[i];
            && row[8] == Cell(Str("ID"), false)
            && row[26] == Cell(Str("0" + data[i - 1].hp1), true)
            && row[28].value == Str("") && row[40].value == Str("") && row[41].value == Str("")
            && (forall j :: 42 <= j < 48 ==> row[j] == Cell(Int(0), false))
            && row[0] == Cell(Str(data[i - 1].nim), true)
            && row[14].value == Str(data[i - 1].tanggalMasuk)
            && (data[i - 1].tanggalLahir == "" ==> row[4].value == Str(""))
  {
    var row := WriteExcelMhs(data, parse)[i];
    assert row == Row(data[i - 1], parse);
  }

  // ---------------------------------------------------------------------
  // One track: `processMHS`
  // ---------------------------------------------------------------------

  /** A file the export leaves behind. */
  datatype Export =
    | StudentsJson(path: seq<string>, students: seq<Student>)
    | StudentsSheet(path: seq<string>, table: seq<seq<Cell>>)

  /** The inputs of one export: the context POST (map order, user agent,
      reply), the student listing (`GetRekapMHS`, not part of this model,
      as its result), the two menu answers, and the outcomes of the two
      folder creations and the two writes. */
  datatype MhsIO = MhsIO(prodiOrder: seq<string>, prodiUa: nat, prodiReply: Exchange,
                         listing: Result<seq<Student>>, option: Option<int>, year: Option<string>,
                         jsonDirOk: bool, excelDirOk: bool, jsonOk: bool, xlsxOk: bool)

  /** What an export did: the error returned, the folders created and the
      files written. */
  datatype MhsRun = MhsRun(result: Outcome, folders: seq<seq<string>>, files: seq<Export>)

  function StudentJsonDir(jur: Jurusan): seq<string> {
    [JsonFolder, jur.namaJrs, "Mahasiswa"]
  }

  function StudentExcelDir(jur: Jurusan): seq<string> {
    [ExcelFolder, jur.namaJrs, "Mahasiswa"]
  }

  /** The file name of an export: the sanitized "Mahasiswa", a space, the
      filter label, the extension. */
  function ExportName(tag: string, ext: string, sanitize: string -> string): string {
    sanitize("Mahasiswa") + " " + tag + ext
  }

  function MhsContext(c: Client, jur: Jurusan, semester: string, io: MhsIO): Outcome
    requires io.prodiUa < |UserAgents|
    requires IsKeyOrder(io.prodiOrder, ProdiForm(jur.kodeJrs, RegValue, semester).Keys)
  {
    SetProdi(c, jur.kodeJrs, RegValue, semester, io.prodiOrder, io.prodiUa, io.prodiReply).1
  }

  /** The students the filter keeps, when the listing and the filter both
      succeeded. */
  function Kept(io: MhsIO): Option<seq<Student>> {
    if io.listing.Err? then None
    else match FilterByYear(io.listing.value, io.option, io.year).students
      case Err(_) => None
      case Ok(kept) => Some(kept)
  }

  /** The context was set and the filter kept at least one student: the
      case in which the export writes anything at all. */
  predicate HasStudents(c: Client, jur: Jurusan, semester: string, io: MhsIO)
    requires io.prodiUa < |UserAgents|
    requires IsKeyOrder(io.prodiOrder, ProdiForm(jur.kodeJrs, RegValue, semester).Keys)
  {
    MhsContext(c, jur, semester, io).Pass? && Kept(io).Some? && Kept(io).value != []
  }

  /** The filter label (only meaningful when the listing succeeded). */
  function Label(io: MhsIO): string {
    if io.listing.Err? then "" else FilterByYear(io.listing.value, io.option, io.year).yearLabel
  }

  /** `processMHS(scraper, jur, semester)`; `parse` stands for `parseDate`'s
      conversion and `sanitize` for `sanitizeFilename`. */
  function ProcessMhs(c: Client, jur: Jurusan, semester: string, io: MhsIO,
                      parse: string -> string, sanitize: string -> string): (r: MhsRun)
    requires io.prodiUa < |UserAgents|
    requires IsKeyOrder(io.prodiOrder, ProdiForm(jur.kodeJrs, RegValue, semester).Keys)
    ensures var ctx := MhsContext(c, jur, semester, io);
            && (ctx.Fail? ==> r == MhsRun(ctx, [], []))
            && (ctx.Pass? && io.listing.Err? ==> r == MhsRun(Fail(io.listing.error), [], []))
    // An empty listing, or an empty filter result, ends the export quietly.
    ensures MhsContext(c, jur, semester, io).Pass? && io.listing == Ok([]) ==> r == MhsRun(Pass, [], [])
    ensures MhsContext(c, jur, semester, io).Pass? && io.listing.Ok? && io.listing.value != []
            && FilterByYear(io.listing.value, io.option, io.year).students == Ok([])
            ==> r == MhsRun(Pass, [], [])
    // A failed filter is returned as the export's error.
    ensures MhsContext(c, jur, semester, io).Pass? && io.listing.Ok? && io.listing.value != []
            && FilterByYear(io.listing.value, io.option, io.year).students.Err?
            ==> r == MhsRun(Fail(FilterByYear(io.listing.value, io.option, io.year).students.error), [], [])
    // Files are written only for a non-empty filter result, both under the
    // filter label, and the sheet only after the JSON.
    ensures r.folders != [] ==> Kept(io).Some? && Kept(io).value != []
    ensures r.files != [] ==> r.folders == [StudentJsonDir(jur), StudentExcelDir(jur)]
    ensures forall f :: f in r.files ==>
              && Kept(io).Some?
              && (f == StudentsJson(StudentJsonDir(jur) + [ExportName(Label(io), ".json", sanitize)], Kept(io).value)
                  || f == StudentsSheet(StudentExcelDir(jur) + [ExportName(Label(io), ".xlsx", sanitize)],
                                        WriteExcelMhs(Kept(io).value, parse)))
    ensures (exists f :: f in r.files && f.StudentsSheet?) ==> io.jsonOk
    ensures r.result.Pass? && r.files != [] ==> |r.files| == 2 && r.files[0].StudentsJson? && r.files[1].StudentsSheet?
    // With students to export, the export succeeds exactly when both
    // folders and both files could be written, and then leaves both files.
    ensures HasStudents(c, jur, semester, io) ==>
              && (r.result.Pass? <==> io.jsonDirOk && io.excelDirOk && io.jsonOk && io.xlsxOk)
              && (r.result.Fail? ==> r.result == Fail(WriteFailed))
              && (r.result.Pass? ==>
                    && r.folders == [StudentJsonDir(jur), StudentExcelDir(jur)]
                    && r.files == [StudentsJson(StudentJsonDir(jur) + [ExportName(Label(io), ".json", sanitize)], Kept(io).value),
                                   StudentsSheet(StudentExcelDir(jur) + [ExportName(Label(io), ".xlsx", sanitize)],
                                                 WriteExcelMhs(Kept(io).value, parse))])
    // Each failed step stops the export where it stands.
    ensures HasStudents(c, jur, semester, io) ==>
              && (!io.jsonDirOk ==> r.folders == [] && r.files == [])
              && (io.jsonDirOk && !io.excelDirOk ==> r.folders == [StudentJsonDir(jur)] && r.files == [])
              && (io.jsonDirOk && io.excelDirOk && !io.jsonOk ==> |r.folders| == 2 && r.files == [])
              && (io.jsonDirOk && io.excelDirOk && io.jsonOk && !io.xlsxOk ==> |r.files| == 1 && r.files[0].StudentsJson?)
  {
    var ctx := MhsContext(c, jur, semester, io);
    if ctx.Fail? then MhsRun(ctx, [], [])
    else
      match io.listing
      case Err(e) => MhsRun(Fail(e), [], [])
      case Ok(list) =>
        if |list| == 0 then MhsRun(Pass, [], [])
        else
          var filtered := FilterByYear(list, io.option, io.year);
          match filtered.students
          case Err(e) => MhsRun(Fail(e), [], [])
          case Ok(kept) =>
            if |kept| == 0 then MhsRun(Pass, [], [])
            else if !io.jsonDirOk then MhsRun(Fail(WriteFailed), [], [])
            else if !io.excelDirOk then MhsRun(Fail(WriteFailed), [StudentJsonDir(jur)], [])
            else
              var folders := [StudentJsonDir(jur), StudentExcelDir(jur)];
              var json := StudentsJson(StudentJsonDir(jur) + [ExportName(filtered.yearLabel, ".json", sanitize)], kept);
              if !io.jsonOk then MhsRun(Fail(WriteFailed), folders, [])
              else
                var sheet := StudentsSheet(StudentExcelDir(jur) + [ExportName(filtered.yearLabel, ".xlsx", sanitize)],
                                           WriteExcelMhs(kept, parse));
                if !io.xlsxOk then MhsRun(Fail(WriteFailed), folders, [json])
                else MhsRun(Pass, folders, [json, sheet])
  }
}
