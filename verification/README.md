# go-scraper-nilai in Dafny

A model of the grade and student scraper for a SIAKAD academic portal. The
scraper logs in to the portal, or reuses a stored `PHPSESSID` cookie while the
session is still valid. It then picks a term and a study programme ("jurusan")
and sets that context on the server. Next it lists the course sections
("mata kuliah"). For every section whose `cetak` flag is `"1"` it fetches the
grade roster ("nilai"). Each roster is written as a JSON file and as a
ten-column spreadsheet. A throttled progress bar is drawn on the way. The
split version can also export the students of a programme ("mahasiswa"),
filtered by enrolment year, as JSON and as a 48-column spreadsheet.

The repository holds two variants of this core, and both are modelled:

- the split files (`scraper.go`, `auth.go`, `nilai.go`, `mahasiswa.go`) over
  fasthttp. Here every printable section is fetched in its own goroutine.
  These are the modules `Scraper`, `Auth`, `CookieStore`, `Nilai` and
  `Mahasiswa`, with `Form` for `buildForm`;
- the monolithic `main.go` over `net/http`. Here the section loop is
  sequential and the forms go through `url.Values.Encode`. These are the
  modules `MonolithHttp`, `MonolithAuth` and `MonolithNilai`.

Both variants share `Progress` (`updateProgress`), `Selection` (the numbered
menu prompt), `GoStrings` (the `strings`/`strconv` functions the code relies
on), `Base` (errors, results, filters) and `Models`/`Consts` (the records and
constants).

Everything the program takes from the outside world is a parameter of the
model:

- the network: each call receives the reply the transport produced, or none;
- the random user-agent draw, and the three draws of the validation token;
- the console answers;
- the cookie file's state, and the outcome of each write;
- Go's map iteration order, for `buildForm`;
- the completion order of the goroutines;
- `json.Unmarshal` (`decode`), `url.QueryEscape` (`escape`),
  `sanitizeFilename` (`sanitize`) and the date conversion of `parseDate`
  (`parse`).

## Model

| member | source | states |
|---|---|---|
| Scraper.NewRequest | scraper.go:28-50 | The request goes to base URL + endpoint with the caller's verb and body. It carries a user agent from the fixed pool, the media page as referer and the base URL as origin. It has the form content type (with charset) exactly when the body is non-empty, and a Cookie header exactly when the scraper's cookie is non-empty. The full header set is stated by Scraper.RequestHeaders. |
| Scraper.RequestHeaders | scraper.go:28-46 | Every request's headers are exactly User-Agent (the drawn pool entry), X-Requested-With (XMLHttpRequest), the media page as Referer, the base URL as Origin and the JSON Accept value. Content-Type (the form type with charset) is added exactly when the body is non-empty, and Cookie (the scraper's cookie) exactly when that cookie is non-empty. |
| Scraper.CookieOnlyTouchesCookieHeader | scraper.go:44-50 | Two clients that differ only in their cookie send the same URL, verb, body and headers, apart from the Cookie header. |
| Scraper.Classify | scraper.go:52-60 | Only a 200 reply yields its body. No reply is a send failure, and any other status is an error carrying that status. |
| Scraper.IsSessionValid | scraper.go:63-70 | The probe is a GET of the media page with no body, carrying exactly the five fixed headers (the drawn user agent among them) and the Cookie header when there is a session, but no Content-Type. A valid verdict needs a 200 reply. |
| Scraper.SessionValidIff | scraper.go:63-70 | The session is valid exactly when the media page came back with 200 and neither "login" nor "Username" occurs anywhere in it. |
| Scraper.SetProdi | scraper.go:72-80 | The context is POSTed to the prodi endpoint. The outcome passes iff the reply is a 200, and otherwise carries the transport or status error. |
| Scraper.ProdiBodyDecodes | scraper.go:72-80 | When no value holds `&`, the context body decodes to the three fields in the map's visiting order. |
| Scraper.GetRekapMK | scraper.go:82-93 | The fixed pagination body is POSTed to the rekap endpoint. The listing is returned iff the reply is a 200 and its body decodes. A transport or status error is passed on, and an undecodable body is a malformed error. |
| Scraper.GetListNilai | scraper.go:95-109 | The roster request is POSTed to the list endpoint. The roster is returned iff the reply is a 200 and decodes, and errors are passed on. |
| Scraper.NilaiBodyDecodes | scraper.go:95-109 | When the section code holds no `&`, the roster body decodes to `param` and `cetak=1` in the map's visiting order. |
| Scraper.NilaiForm | scraper.go:96-99 | The roster form has exactly the keys `param` and `cetak`. |
| Scraper.LoadJurusan | scraper.go:124-158 | An unreadable file and an undecodable catalogue are errors. Otherwise the result is the menu choice over the decoded list, so any track returned is a member of the catalogue. |
| Selection.Choose | scraper.go:135-157 | Choosing succeeds iff the list is non-empty, an answer was read and it lies in 1..n. The entry returned is the answer's (1-based) one. An empty list, an unread answer and an out-of-range answer give distinct errors. |
| Selection.ChooseIsBijective | scraper.go:153-157 | Answer i+1 selects entry i. On a list without repeats, two different valid answers select different entries. |
| Form.BuildFormIsJoin | scraper.go:112-121 | The loop that adds `&` only once the form is non-empty equals the segments joined by single `&`s, and an empty map gives the empty form. |
| Form.FormRoundTrip | scraper.go:112-121 | When no key holds `&` or `=` and no value holds `&`, splitting the body on `&` and each part at its first `=` gives back exactly the pairs, in visiting order. |
| Form.FormCarriesPair | scraper.go:112-121 | Every pair of a clean map can be read back from the encoded body, whatever the visiting order. |
| Form.SplitJoin | scraper.go:112-121 | Splitting `&`-free segments joined by `&` gives back the segments. |
| Auth.Alphabet | auth.go:88-96 | The token alphabet has 62 characters: upper case, then lower case, then digits, in that order. |
| Auth.AlphabetIsExact | auth.go:88-96 | Each alphanumeric character appears in the alphabet exactly once, at its own index. |
| Auth.GenerateValidation | auth.go:88-96 | The token has three characters. Each is alphanumeric and sits in the alphabet at the position drawn for it. |
| Auth.TokenSpace | auth.go:88-96 | A three-character alphanumeric token is produced by exactly one triple of draws. |
| Auth.GetRandomIp | auth.go:99-106 | No reply or a non-200 reply gives the fixed default address. A 200 reply gives its body with surrounding white space trimmed. |
| Auth.RandomIpShape | auth.go:99-106 | The address is the default or a slice of the reply body with no white space at either end. |
| Auth.LoginForm | auth.go:54-60 | The login form has exactly the five keys: username, password, validation, hide_validation and hide_ipnya. |
| Auth.Login | auth.go:33-86 | Without an index reply or an initial PHPSESSID, the login fails before any POST and the cookie is unchanged. The POST is sent exactly when both are present. Success means the POST got a reply whose body contains `"success":true`. A reply that sets PHPSESSID replaces the cookie, and otherwise the cookie is kept. |
| Auth.LoginEchoesToken | auth.go:51-60 | The POSTed form decodes with the same three-character alphanumeric token under both `validation` and `hide_validation`, next to the user name, password and address. |
| Auth.LoginFormClean | auth.go:54-60 | The form's keys hold no `&` or `=`. With `&`-free credentials and address, the form is clean, so it round-trips. |
| Auth.VerdictIgnoresCookie | auth.go:77-85 | The verdict depends only on the reply body, not on whether or how the reply set a cookie. |
| Auth.HandleAuthentication | auth.go:13-31 | Login is skipped exactly when the loaded cookie is non-empty and the session probe passes. A rejected login is an error that leaves the file alone. An accepted one saves the new cookie through `saveCookie`. |
| Auth.LoginPersistence | auth.go:13-31 | When the cookie file can be written, an accepted login with a non-empty cookie leaves that cookie where the next load returns it. A rejected login leaves the file as it was. |
| CookieStore.LoadCookie | auth.go:108-119 | A missing file keeps the global cookie without error. An unreadable file keeps it and reports the error. A readable file replaces it with the file's text. |
| CookieStore.SaveCookie | auth.go:121-128 | The empty cookie is never written. A non-empty one replaces the file's content when the write succeeds, and leaves the file as it was (with an error) when the write fails. |
| CookieStore.SaveThenLoad | auth.go:108-128 | A non-empty cookie that was saved is what the next load returns, whatever the global cookie was. |
| CookieStore.EmptyNeverWritten | auth.go:121-128 | Saving the empty cookie leaves a missing file missing, so the next load keeps the global cookie. |
| Nilai.Partition | nilai.go:25-34 | The filter loop keeps exactly the sections whose `cetak` is `"1"`, in listing order, as a subsequence of the listing. `skip` counts the rest, and kept plus skipped is the listing's length. |
| Nilai.WriteExcel | nilai.go:97-116 | The sheet has one header row with the ten column names and one ten-cell row per roster entry. |
| Nilai.SheetReadsBack | nilai.go:97-116 | Row i+1 of the sheet reads back as roster entry i, and the sheet holds nothing else. |
| Nilai.NilaiOrder | scraper.go:96-99 | Both visiting orders of the roster form visit each of its two keys exactly once. |
| Nilai.ScrapeMK | nilai.go:72-87 | A failed fetch writes nothing. Otherwise the JSON file holds the roster exactly when its write succeeded, the sheet holds the roster's table exactly when its write succeeded, both sit under the same sanitized stem, and nothing else is written. |
| Nilai.WritesIndependent | nilai.go:81-86 | A failed JSON write does not stop the sheet: the sheets written do not depend on the JSON outcome. |
| Nilai.CompletionOrder | nilai.go:53-66 | The order in which the goroutines finish is a rearrangement of the sections. |
| Nilai.EveryOrderIsReachable | nilai.go:53-66 | Every rearrangement of the sections is the completion order of some schedule. |
| Nilai.ListingOrder | nilai.go:53-66 | The empty schedule finishes the sections in listing order. |
| Nilai.CollectPermutation | nilai.go:53-66 | The files written by the goroutines are the same multiset for any two completion orders that rearrange each other. |
| Nilai.FanOut | nilai.go:53-66 | Under the mutex every finished goroutine bumps `done` by one. The meter sees done = 1, 2, … in turn, and the files are those of the tasks in completion order. |
| Nilai.Harvest | nilai.go:47-66 | Whatever the schedule, every section is counted done. The meter sees 1..total, and the files are a rearrangement of those of the listing order. |
| Nilai.ProcessJurusan | nilai.go:15-70 | A failed context POST or listing aborts the track with that error. With nothing printable the track ends successfully before any folder or fetch. Once the listing is in, the track's result is success whatever its sections do. Otherwise the two folders are created, every printable section is counted done even when its fetch failed, the report gives (printable, listed, unprintable), and the files are those of the sections. |
| Nilai.CompletionOrderIrrelevant | nilai.go:47-66 | Every goroutine schedule yields the same result, folders, progress frames and report as the listing order, and the same multiset of file writes. |
| Nilai.ReportAddsUp | nilai.go:26-41 | The closing report's done and skip counts add up to the number of sections listed. |
| Nilai.ProgressEndsFull | nilai.go:47-66 | However the goroutines finish, a track's progress run ends on the full bar at done == total, after between 1 and 20 redraws. |
| Mahasiswa.FilterByYear | mahasiswa.go:234-288 | Option 1 keeps every student under the label "Semua Tahun". Option 2 keeps, in order, exactly the students whose enrolment date starts with the typed year, under that year as label. A year that is not an integer, an unread answer and any other option are errors. The result is always a subsequence of the list. |
| Mahasiswa.YearFilterPartition | mahasiswa.go:266-283 | For a numeric year, the number of students kept plus the number dropped is the length of the list. When no enrolment date starts with the year, nothing is kept. |
| Mahasiswa.ParseDate | mahasiswa.go:209-231 | The empty date stays empty, and any other date goes through the conversion. |
| Mahasiswa.WriteExcelMhs | mahasiswa.go:99-207 | The sheet has a header row with the 48 column names, unstyled, and one 48-cell row per student. Cell (i, j) holds column j's value for student i, and it has the text style exactly when column j is one of the text columns. |
| Mahasiswa.Row | mahasiswa.go:145-204 | A data row has 48 cells, each with its column's value, styled as text exactly for the text columns. |
| Mahasiswa.SheetLayout | mahasiswa.go:145-203 | In every data row, column 8 is the fixed nationality "ID" (unstyled). Column 26 is the first phone number behind a "0", styled as text. Columns 28, 40 and 41 are empty, and the last six columns are the integer 0. Column 0 is the NIM as text, column 14 is the enrolment date, and an empty birth date stays empty. |
| Mahasiswa.ProcessMhs | mahasiswa.go:15-78 | A failed context POST, listing or filter is returned as the export's error. An empty listing or an empty filter result ends the export quietly. Files are written only for a non-empty filter result: the JSON before the sheet, both named after the filter label and both holding the kept students. With students to export, the export succeeds exactly when both folders and both files were written, and then leaves exactly the JSON and the sheet. Any failed folder or write returns a write error, and the export stops at that step. |
| GoStrings.ContainsIffOccurs | scraper.go:69 | `strings.Contains` finds the substring exactly when it occurs at some position. |
| GoStrings.TrimSpace | auth.go:105 | `strings.TrimSpace` returns a slice of its input with no white space at either end, having removed only white space. |
| GoStrings.TrimSpaceIdempotent | auth.go:105 | Trimming twice is trimming once. |
| GoStrings.AtoiDecimal | mahasiswa.go:266-269 | `strconv.Atoi` reads back every 64-bit natural's decimal spelling, with or without a minus sign, and rejects the empty string and a lone sign. |
| Progress.Percent | main.go:669-670 | The percentage lies in 0..100, is the floor of done·100/total, and is 100 exactly when done == total. |
| Progress.Bar | main.go:672-674 | The bar has 40 cells: `=` up to percent·40/100 (rounded down), then spaces. |
| Progress.Update | main.go:669-678 | A frame is drawn exactly when the percentage rose by at least 5 since the last frame, or the work is complete. The frame names the track, shows the bar of the current percentage and the counts. The last percentage then becomes the drawn one, and is otherwise unchanged. |
| Progress.RunBelowFull | main.go:669-678 | While the work is unfinished, each frame raises the last percentage by at least 5, so at most 19 frames are drawn below 100%. |
| Progress.SequentialRun | main.go:669-678 | Feeding done = 1..total from 0 draws between 1 and 20 frames, and the last one is the full bar at done == total. |
| Progress.FramesBelowFull | main.go:669-678 | While every done value is short of the total, no frame shows 100%. |
| MonolithHttp.Headers | main.go:134-146 | The header set is exactly User-Agent (the drawn pool entry), X-Requested-With, Referer, Origin and Accept with their fixed values, plus Content-Type exactly when a body reader is given (even an empty one) and Cookie exactly when the cookie is non-empty. |
| MonolithHttp.DoRequest | main.go:128-167 | A request that cannot be built is an error and nothing is sent. A built request goes to base URL + endpoint with the caller's verb and body, and carries exactly the headers of `Headers`, each with its value. The body is returned iff the request was built and answered with 200 and the body could be read. A send failure, a non-200 status and a failed read are the distinct errors. |
| MonolithHttp.AgreesWithFastHttp | main.go:128-146 | For a non-empty body, or for no body, the net/http request equals the fasthttp one. An empty body reader gets a content type that fasthttp's empty body does not. |
| MonolithHttp.SameStatusRule | main.go:148-166 | With a readable body, the status rule is the same as the split version's. |
| MonolithHttp.SessionValidIff | main.go:365-376 | The session is valid exactly when the GET was built, answered with 200 and read, and neither "login" nor "Username" occurs in the page. |
| MonolithHttp.Escaped | main.go:555-560 | Encoding escapes every value and keeps the key set. |
| MonolithHttp.EncodeRoundTrip | main.go:555-560 | `url.Values.Encode` over keys in ascending byte order decodes back to the escaped pairs in that order. |
| MonolithHttp.ProdiKeysSorted | main.go:555-558 | `pk`, `ps`, `smthn` is the context form's key set in ascending order. |
| MonolithHttp.NilaiKeysSorted | main.go:591-593 | `cetak`, `param` is the roster form's key set in ascending order. |
| MonolithHttp.SelectSemester | main.go:520-551 | The term list is POSTed with no body. Transport errors and an undecodable list are passed on, and an empty list is an error. Otherwise the code of the term chosen by its 1-based number is returned, and an invalid or unread answer is an error. |
| MonolithHttp.ProdiBodyFields | main.go:554-560 | The context body decodes to `pk`, `ps`, `smthn` with their escaped values, in that order. |
| MonolithHttp.SetProdi | main.go:554-566 | The context is POSTed with the sorted, escaped body. The outcome passes iff the request was built, answered with 200 and read. |
| MonolithHttp.GetRekapMK | main.go:575-587 | The fixed pagination body is POSTed. The listing is returned iff the reply was a readable 200 that decodes, and errors are passed on. |
| MonolithHttp.NilaiBodyFields | main.go:590-595 | The roster body decodes to `cetak=1` then `param`, escaped. |
| MonolithHttp.GetListNilai | main.go:590-605 | The roster is returned iff the POST got a readable 200 whose body decodes, and errors are passed on. |
| MonolithHttp.LoadJurusan | main.go:285-297 | An unreadable file and an undecodable catalogue are errors. Otherwise the whole decoded list is returned, with no prompt. |
| MonolithHttp.CatalogueThenPrompt | main.go:285-297 | The split version's `loadJurusan` is this one followed by the numbered prompt. |
| MonolithAuth.GetRandomIp | main.go:496-511 | A failed lookup or an unreadable body gives the default address. Any reply that was read, whatever its status, gives its trimmed body. |
| MonolithAuth.ErrorPageBecomesAddress | main.go:496-511 | For a non-200 reply the two variants agree exactly when the trimmed error page is the default address itself. |
| MonolithAuth.LastValue | main.go:414-419 | The initial session is the value of the last PHPSESSID cookie, or "" when there is none. |
| MonolithAuth.FirstValue | main.go:459-466 | The adopted session is the value of the first PHPSESSID cookie of the reply, and is absent exactly when no cookie has that name. |
| MonolithAuth.LoginKeysSorted | main.go:430-435 | hide_ipnya, hide_validation, password, username, validation is the login form's key set in ascending order. |
| MonolithAuth.Login | main.go:404-481 | Without an index reply or an initial session, the login fails before any POST, and the cookie and file are unchanged. The POST is sent exactly when both exist and the request is built. It carries `PHPSESSID=<initial>` and a form with one three-character alphanumeric token in both fields. Success means the reply was read and contains `"success":true`. The cookie becomes `PHPSESSID=<first value>` when the reply sets one. The file is saved once the reply arrives, before the verdict. |
| MonolithAuth.LoginBodyFields | main.go:429-437 | The login body decodes to the five escaped fields in ascending key order, with the token twice. |
| MonolithAuth.RejectedLoginStillSaves | main.go:458-480 | A rejected login whose reply set a session still stores `PHPSESSID=<value>` in the file, and the next load returns it. |
| MonolithAuth.HandleAuthentication | main.go:260-282 | Login is skipped exactly when the loaded cookie is non-empty and the probe passes. A rejected login is an error. An accepted one saves the cookie a second time. |
| MonolithAuth.LoginPersistence | main.go:260-282 | An accepted login with a non-empty cookie and at least one successful write leaves that cookie where the next start-up loads it. |
| MonolithNilai.Replace | main.go:344-347 | The replacer's output contains no `/` and no `:`, and is never longer than its input. |
| MonolithNilai.ReplaceAppend | main.go:344-347 | The replacer works character by character: it distributes over concatenation. |
| MonolithNilai.ReplaceFixes | main.go:344-347 | A string without `/` or `:` passes unchanged. |
| MonolithNilai.ReplaceIdempotent | main.go:344-347 | Replacing twice is replacing once. |
| MonolithNilai.ReplaceWithoutColons | main.go:344-347 | Without colons the length is kept and only slashes change, each into a dash. |
| MonolithNilai.ReplaceKeepsOthers | main.go:344-347 | Every character other than `/` and `:` survives, in its original order. |
| MonolithNilai.Section | main.go:336-353 | A failed fetch writes nothing. Otherwise the JSON file holds the roster exactly when its write succeeded, the sheet holds its table exactly when its write succeeded, and both share the replaced "name class lecturer" stem. |
| MonolithNilai.SweepAll | main.go:333-358 | `doneMK` counts the fetched sections only, and the files are those of the fetched sections in loop order. |
| MonolithNilai.SweepMeter | main.go:333-358 | The meter sees exactly done = 1..doneMK against the number of printable sections. Failed fetches are invisible to it. |
| MonolithNilai.ProcessTrack | main.go:301-360 | A track without a code is passed over. A failed context or listing aborts the track. A track with a code is harvested exactly when its context and listing succeed. Then both folders are created, `doneMK` counts the fetched printable sections, and `skip` = listed − done. |
| MonolithNilai.ProcessJurusan | main.go:300-362 | Every track of the catalogue runs in order, and the function always returns nil. Exactly the tracks without a code are passed over. Each track's outcome is that of `ProcessTrack` on its own inputs. |
| MonolithNilai.SkipCountsFailures | main.go:324-360 | The reported skip count is the unprintable sections plus the printable ones whose roster could not be fetched. |
| MonolithNilai.BarCompletesIffAllFetched | main.go:333-358 | The bar reaches 100% exactly when every printable roster was fetched: the last frame is then the full bar. After any failed fetch no frame shows 100%. |
| MonolithNilai.FoldersBeforeFilter | main.go:319-333 | A track with nothing printable still gets both folders, and its report counts every listed section as skipped. |

## Left out

- The HTTP transport: how fasthttp and net/http send requests, follow redirects and parse `Set-Cookie`. Each call's reply, or its absence, is an input.
- JSON encoding and decoding (`json.Unmarshal`, the indented `json.Encoder`). Decoding is an oracle, and a JSON file is recorded as the records written.
- The bytes of the spreadsheets (excelize). A sheet is recorded as its table of cells. `CoordinatesToCellName` cannot fail for these small coordinates. `NewStyle` and `SaveAs` failures are not distinguished from a failed write.
- Goroutines, the WaitGroup and the mutex. The fan-out in `nilai.go` is modelled by its completion order. Any order is allowed, and every order is reachable.
- Nilai.FanOut: each section is modelled as decoding its own reply. In `scraper.go`, `DoRequest` returns `res.Body()`, a slice into a pooled fasthttp response that its deferred `ReleaseResponse` hands back to the pool before `GetListNilai` unmarshals it. With the section goroutines of `nilai.go` running at once, another request can reuse that buffer first, so a section may decode bytes from another section's reply, or garbage. The model assumes the buffer stays intact. `GetRekapMK` and the session probe read a released buffer too, but no other request runs at that moment.
- Nilai.Harvest: files are recorded as a log of writes, not as the final content of the disk. Two sections whose sanitized "name R class lecturer" stem is the same write the same path. In `nilai.go` they do so concurrently, outside the mutex, so which content survives depends on the schedule. Nilai.CompletionOrderIrrelevant therefore promises the same multiset of writes, not the same files on disk. The same collision exists in `main.go`, where "/" becomes "-", so "A/B" and "A-B" share a stem and the later section wins.
- Randomness (`rand.Intn`, the time-seeded source) and the clock. The draws are inputs.
- `url.QueryEscape`: it is an oracle, `escape`. The model proves which pairs each form body decodes to in terms of the escaped values.
- `parseDate`'s layout conversion: it is an oracle, `parse`, except for the empty-string case, which is modelled.
- `sanitizeFilename` and `GetRekapMHS`: they are not part of this model. They are an oracle and a listing result respectively.
- `Mahasiswa`: the record is reduced to the fields the export reads.
- `fmt.Scan`: each answer is an input, where `None` means the read failed. For the year prompt of `filterMahasiswaByYear`, a failed read is modelled as an error with an empty label.
- Logging, `printHeader`, `fmt.Println` and the text printed beside the bar.
- `config.go` and `main()`'s orchestration: reading the configuration, the order of the top-level prompts, and exiting on error.
- `filepath.Join` cleaning: paths are sequences of segments. The effect of `os.MkdirAll` is recorded as the folders created. Its failure is modelled in `processMHS`, where it is checked, and ignored in both `processJurusan`s, as the code ignores it.
- `WorkerCount` in `nilai.go`: it is declared but never used. One goroutine is started per printable section.
- `scrapeMHS` in `mahasiswa.go`: it is dead code, never called.
- `setHeaders` in `main.go`: it is never called.
- The second `mk.Cetak != "1"` check in `main.go`'s section loop: it can never fire, because the list holds only printable sections.
- `io.ReadAll` returning partial data together with an error: in `Login` the partial body is taken to be empty, and elsewhere the read is simply failed.
- MonolithAuth.Login: the scraper's cookie and the global `cookie` variable always move together in `main.go`, so one value stands for both.
- Auth.Alphabet: the 62-character literal of `generateValidation` is written as a comprehension over the same characters in the same order.
- Nilai.ProcessJurusan: `done` in `nilai.go` counts every finished goroutine, including those whose fetch failed, so the report's done is the number of printable sections. The model follows the code rather than the description of `done` as "saved sections".
- CookieStore.SaveCookie: a failed write is modelled as leaving the old file in place. `os.WriteFile` truncates the file before writing, so a write that fails part-way can leave an empty or partial cookie file for the next `loadCookie`. The same holds for the JSON files of `writeJSON` and `writeJSONMHS`: `os.Create` truncates, and a failed encode leaves a partial file that the model records as not written.
- Integer overflow: `done * 100` and the other counters are far below 64-bit limits for any listing the portal returns, so integers are unbounded.
