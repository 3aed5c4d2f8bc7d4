/** The session store (`loadCookie` / `saveCookie`, identical in auth.go and
    main.go): one text file holding the cookie. A missing file means "no
    previous session"; an empty cookie is never written. */
module CookieStore {
  import opened Base

  /** The cookie file as the program finds it. */
  datatype File = Missing | Unreadable | Holds(text: string)

  /** `loadCookie` with the global cookie before the call: returns the global
      cookie after the call and the error reported. */
  function LoadCookie(file: File, cookie: string): (r: (string, Outcome))
    ensures file.Missing? ==> r == (cookie, Pass)
    ensures file.Unreadable? ==> r.0 == cookie && r.1 == Fail(FileUnreadable)
    ensures file.Holds? ==> r == (file.text, Pass)
  {
    match file
    case Missing => (cookie, Pass)
    case Unreadable => (cookie, Fail(FileUnreadable))
    case Holds(text) => (text, Pass)
  }

  /** `saveCookie`: `writeOk` is the outcome of `os.WriteFile`; a failed write
      is taken to leave the file as it was. */
  function SaveCookie(cookie: string, file: File, writeOk: bool): (r: (File, Outcome))
    ensures cookie == "" ==> r == (file, Pass)
    ensures cookie != "" && writeOk ==> r == (Holds(cookie), Pass)
    ensures cookie != "" && !writeOk ==> r == (file, Fail(WriteFailed))
  {
    if cookie == "" then (file, Pass)
    else if writeOk then (Holds(cookie), Pass)
    else (file, Fail(WriteFailed))
  }

  /** Round trip: a non-empty cookie that was saved is what the next load
      returns, whatever the file held and whatever the global held. */
  lemma SaveThenLoad(cookie: string, file: File, global: string)
    requires cookie != ""
    ensures LoadCookie(SaveCookie(cookie, file, true).0, global) == (cookie, Pass)
  {}

  /** Saving the empty cookie leaves a missing file missing, so the next load
      reports no session rather than an error. */
  lemma EmptyNeverWritten(global: string, writeOk: bool)
    ensures LoadCookie(SaveCookie("", Missing, writeOk).0, global) == (global, Pass)
  {}
}
