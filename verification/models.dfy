/** The records the split version of the scraper exchanges with the portal
    (models.go), and the fixed names it uses (the constant block of main.go,
    which the split files share). */
module Models {

  /** A study programme (track) from the local catalogue. */
  datatype Jurusan = Jurusan(jrsId: string, kodeJrs: string, namaJrs: string)

  /** A selectable academic term: its label and its period code. */
  datatype Semester = Semester(keterangan: string, smtthnakd: string)

  /** A course section; `cetak == "1"` marks a printable (published) roster. */
  datatype MataKuliah = MataKuliah(
    jid: string, namamk: string, kelas: string, namadosen: string,
    cetak: string, infomk: string)

  /** One student's grade record within a section. */
  datatype Nilai = Nilai(
    nim: string, nama: string, nilAngka: string, nilHuruf: string,
    hadir: string, projek: string, quiz: string, tugas: string,
    uts: string, uas: string)

  /** The decoded section listing: the server's own count and the rows. */
  datatype RekapMKResponse = RekapMKResponse(total: int, rows: seq<MataKuliah>)
}

/** Fixed strings of the portal protocol and the output layout. */
module Consts {

  const JsonFolder := "nilai_json"
  const ExcelFolder := "nilai_excel"

  const MediaEndpoint := "/media.php"
  const IndexEndpoint := "/index.php"
  const LoginEndpoint := "/ceklogin.php?h="
  const SemesterEndpoint := "/_modul/aksi_umum.php?act=pilih_smtthnakd"
  const ProdiEndpoint := "/_modul/mod_prodi_smthn/aksi_prodi_smthn.php"
  const RekapEndpoint := "/_modul/mod_nilmk/aksi_nilmk.php?act=rekapNILMK"
  const ListEndpoint := "/_modul/mod_nilmk/aksi_nilmk.php?act=listNILMK"
  const IpEchoUrl := "https://api.ipify.org"

  const Get := "GET"
  const Post := "POST"

  const ContentTypeForm := "application/x-www-form-urlencoded"
  const CharsetUtf8 := "; charset=UTF-8"
  const XmlHttpRequest := "XMLHttpRequest"
  const AcceptJson := "application/json, text/javascript, */*; q=0.01"

  const HeaderUserAgent := "User-Agent"
  const HeaderContentType := "Content-Type"
  const HeaderCookie := "Cookie"
  const HeaderXRequestedWith := "X-Requested-With"
  const HeaderReferer := "Referer"
  const HeaderOrigin := "Origin"
  const HeaderAccept := "Accept"

  const FormUsername := "username"
  const FormPassword := "password"
  const FormValidation := "validation"
  const FormHideValidation := "hide_validation"
  const FormHideIp := "hide_ipnya"
  const FormParam := "param"
  const FormCetak := "cetak"
  const FormPs := "ps"
  const FormPk := "pk"
  const FormSmthn := "smthn"

  const CookiePhpSessId := "PHPSESSID"
  const DefaultIp := "182.8.179.9"
  const RegValue := "REG"
  const CetakValue := "1"
  const RekapBody := "page=1&rows=300&sort=hari&order=asc"

  /** The spreadsheet header of a grade roster, column by column. */
  const NilaiHeaders: seq<string> :=
    ["NIM", "Nama Peserta", "Angka", "Huruf", "Kehadiran",
     "Projek", "Quiz", "Tugas", "UTS", "UAS"]

  const ProgressBarLength := 40

  /** The user-agent pool; each request picks one entry at random. */
  const UserAgents: seq<string> := [
    "Mozilla/5.0 (X11; Ubuntu; Linux x86_64) AppleWebKit/537.36 (KHTML, like Gecko) Chrome/130.0.0.0 Safari/537.36",
    "Mozilla/5.0 (X11; Ubuntu; Linux x86_64) Gecko/20100101 Firefox/130.0",
    "Mozilla/5.0 (X11; Arch Linux x86_64) AppleWebKit/537.36 (KHTML, like Gecko) Chrome/129.0.6065.0 Safari/537.36",
    "Mozilla/5.0 (X11; Arch Linux x86_64; rv:129.0) Gecko/20100101 Firefox/129.0",
    "Mozilla/5.0 (X11; Fedora; Linux x86_64) AppleWebKit/537.36 (KHTML, like Gecko) Chrome/128.0.0.0 Safari/537.36",
    "Mozilla/5.0 (X11; Fedora; Linux x86_64; rv:128.0) Gecko/20100101 Firefox/128.0",
    "Mozilla/5.0 (Macintosh; Intel Mac OS X 13_5_1) AppleWebKit/605.1.15 (KHTML, like Gecko) Version/17.7 Safari/605.1.15",
    "Mozilla/5.0 (Macintosh; Intel Mac OS X 13_5_1) AppleWebKit/537.36 (KHTML, like Gecko) Chrome/130.0.0.0 Safari/537.36"
  ]
}
