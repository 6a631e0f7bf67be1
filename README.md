# WhatsApp bulk sender: session, dispatch and cleanup

This project models the core of `app.py`, a small Flask application that sends one
message to every contact of an uploaded CSV file through a WhatsApp Web browser
session driven by Selenium. The model covers five parts of that file:

- the **progress log**. `log_message` pushes `[<timestamp>] <message>` onto a
  process-wide FIFO queue, and the `/logs` endpoint (`get_logs`) drains it.
  Modelled as the class `LogChannel.MessageQueue`, whose methods update the
  queue in place. A ghost history of every message logged is what the rest of
  the model states its logs against.
- the **driver slot**. `init_driver` reuses the global browser session or builds
  one, and on a start failure reports the tail of `chromedriver.log` and
  re-raises. `close_driver` quits the session and empties the slot. Modelled as
  the class `Session.DriverSlot`, with spec functions (`InitResult`, `InitLog`,
  `SlotAfterInit`, `CloseError`, `SlotAfterClose`) that its methods are proved
  against.
- **contact preparation**. This covers detecting the phone column, normalising
  a cell into a `+`-prefixed number, and the chat address `…/send?phone=<phone[1:]>`
  (module `Contacts`). Python's `strip`, `rstrip`, `lower`, `repr` of a string
  list, and decimal formatting are in module `Text`.
- the **`bulk_send` pipeline** (module `Dispatch`). It loads the table, logs its
  size and header, detects the column, acquires the driver, waits for the
  client, sends to each contact with per-contact failure isolation, then logs
  `All done!` or `Bulk send error: …`. The `finally` cleanup is included.
  Each step is an imperative method proved against a function giving the exact
  log it appends, together with the driver slot, the chats opened and the
  folders left behind.
- **whole-run properties** (module `Runs`). These cover how a run ends, the
  order of its lines, the cleanup after every run, and an end-to-end scenario.

The outside world is replaced by parameters:

- the clock is a function from the index of a log call to a timestamp string;
- `Launch` says how a session construction attempt turns out;
- `ready` is the outcome of the wait for the compose box;
- `sends[i]` is the exception, if any, of the send to contact `i`;
- `CleanupPlan` holds the outcomes of `quit()` and of the two `rmtree` calls;
- the CSV file is given as an already parsed `Table`, or the error reading it raised.

Two behaviours of the code shape much of the model:

- **Cleanup.** The three cleanup steps (close the driver, remove `uploads`,
  remove `User_Data`) share one `try` (`app.py:198-212`). The first step that
  raises is logged as `Cleanup error: …` and the later steps do not run.
- **End-to-end run.** For the two-contact `Mobile` table, with both sends and
  the cleanup succeeding, a run logs these ten lines in order:
  - `Loaded 2 contacts` and `Columns: ['Mobile']`;
  - the ready line;
  - a `Sending to …` line and a `Sent` line for each contact;
  - `All done!`;
  - the two folder-cleanup lines.

  `Runs.MobileScenario` states that sequence.

## Model

| member | source | states |
|---|---|---|
| `LogChannel.MessageQueue.constructor` | app.py:26 | the queue starts empty with nothing logged |
| `LogChannel.MessageQueue.LogMessage` | app.py:34-37 | one line `[clock(n)] message` is appended at the back of the queue, stamped with the time of the n-th call; the history grows by exactly that message; the queue invariant is kept |
| `LogChannel.MessageQueue.GetLogs` | app.py:128-134 | returns every queued line in FIFO order and leaves the queue empty; the history is unchanged |
| `LogChannel.DrainTwice` | app.py:129-134 | a second drain right after a first returns `[]`; the first returns everything that was queued |
| `LogChannel.LineRoundTrip` | app.py:36-37 | a line as `Line` formats it, `[<timestamp>] <message>`, can be split back into its timestamp and message when the timestamp holds no `]` |
| `LogChannel.QueueAfterLogging` | app.py:34-37 | once the history has grown by some messages and the queue by as many lines, the queue is exactly the lines it held before followed by one stamped line per new message, in order; so the entry counts the logging methods state, together with their history, fix what `get_logs` will return |
| `LogChannel.DrainedLinesParse` | app.py:34-37 | each undrained line carries the message of the matching earlier `log_message` call and that call's timestamp, in logging order |
| `Text.TrimEnd` | app.py:78 | `rstrip()` never lengthens a line and leaves no trailing whitespace |
| `Text.TrimStart` | app.py:169 | the `lstrip()` half of `strip()` never lengthens a string and leaves no leading whitespace |
| `Text.TrimEndIsPrefix` | app.py:78 | `rstrip()` keeps a prefix of the line and removes only whitespace |
| `Text.TrimStartIsSuffix` | app.py:169 | `lstrip()` keeps a suffix and removes only whitespace |
| `Text.LowerMapsAscii` | app.py:149 | `lower()` (`Lower`) keeps the length, turns every ASCII upper-case letter into its lower-case letter, keeps every other character, and leaves no upper-case letter |
| `Text.Strip` | app.py:169 | `strip()` never lengthens a string and leaves no whitespace at either end |
| `Text.StripIdempotent` | app.py:149 | stripping twice is stripping once |
| `Text.Decimal` | app.py:143 | the contact count is written as decimal digits with no leading zero |
| `Text.DecimalRoundTrip` | app.py:143 | reading the digits back gives the count |
| `Text.Repr` | app.py:144 | `repr` of a column name is its escaped text between two equal quotes, double quotes exactly when the name holds a single quote and no double quote |
| `Text.ReprPlain` | app.py:144 | `repr` of a string with no quote, backslash or control character is the string in single quotes |
| `Text.ListReprSingle` | app.py:144 | `str` of a one-element list of such a string, as `ListRepr` writes it, is `['…']` |
| `Session.Tail` | app.py:77 | `lines[-200:]` has `min(200, n)` lines and is the end of the file in file order |
| `Session.TrimEachAt` | app.py:77-78 | diagnostic line `i` is line `i` of the tail, `rstrip()`ped |
| `Session.LogDiagnostics` | app.py:73-80 | logs the `rstrip()`ped tail of the driver log in file order, one queue line per logged line; logs nothing when the file is missing or unreadable |
| `Session.LogTrimmed` | app.py:77-78 | the loop over the tail logs every line `rstrip()`ped, in order, one queue line each |
| `Session.InitReuses` | app.py:43-45 | with a live session, `init_driver` returns it, builds nothing and logs nothing, however a launch would go |
| `Session.InitSuccess` | app.py:66-84 | an `init_driver` that returns logs nothing and leaves the returned session in the slot |
| `Session.StartFailure` | app.py:68-81 | a failed start logs `init_driver error: e` and then the last `min(200, n)` driver-log lines, `rstrip()`ped, in file order; it re-raises `e` and leaves the slot empty |
| `Session.InitTwice` | app.py:40-45 | once an `init_driver` has succeeded, a second call returns the same session, builds nothing and logs nothing |
| `Session.CloseIdempotent` | app.py:87-92 | closing an empty slot neither raises nor changes anything; a close that did not raise empties the slot, so a second close is a no-op |
| `Session.DriverSlot.constructor` | app.py:30 | the slot starts empty |
| `Session.DriverSlot.InitDriver` | app.py:40-84 | returns or raises as `InitResult` says; the slot, the count of sessions built and the log change as `SlotAfterInit` and `InitLog` say, with one queue line per logged message, and the log stays valid |
| `Session.DriverSlot.CloseDriver` | app.py:87-92 | raises only when `quit()` on a live session raises, and then keeps the session; otherwise the slot is empty afterwards |
| `Contacts.PhoneColumn` | app.py:147-152 | the detected column is the first whose stripped, lower-cased name is `phone`, `number`, `mobile`, `contact` or `phno`; there is none exactly when no column matches |
| `Contacts.FindPhoneColumn` | app.py:147-152 | the loop with `break` finds the column `PhoneColumn` specifies |
| `Contacts.NormalisePhone` | app.py:169-173 | a normalised number always starts with `+` |
| `Contacts.NormaliseKeepsOrPrefixes` | app.py:169-173 | the stripped cell is kept exactly when it already starts with `+`; otherwise the number is `+` followed by the stripped cell |
| `Contacts.NormaliseIdempotent` | app.py:169-173 | normalising a normalised number changes nothing |
| `Contacts.ChatNumber` | app.py:178 | the number in the chat address `ChatUrl` builds is the normalised number without its `+`, i.e. the stripped cell with at most one leading `+` removed |
| `Dispatch.PhoneCells` | app.py:168-169 | one phone cell per row, in row order, taken from the detected column |
| `Dispatch.Phones` | app.py:168-173 | one normalised number per phone cell |
| `Dispatch.PhonesAt` | app.py:168-173 | the `i`-th number sent to is the normalisation of row `i`'s cell |
| `Dispatch.ContactLines` | app.py:175-191 | each contact contributes exactly two log lines |
| `Dispatch.ContactsLogLength` | app.py:168-191 | the contact loop logs two lines per contact |
| `Dispatch.ContactsLogAt` | app.py:168-191 | in the loop's log `ContactsLog`, contact `i`'s lines are at positions `2i` and `2i+1`: `Sending to <phone> ...`, then `Sent` or `Failed for <phone>: <error>` from that contact's own outcome |
| `Dispatch.ChatUrls` | app.py:168-178 | the loop requests one chat address per contact |
| `Dispatch.ChatUrlsAt` | app.py:168-178 | the `i`-th chat opened is the chat address of the `i`-th number |
| `Dispatch.SendTo` | app.py:175-191 | one contact logs its `Sending to` line and then `Sent` or its own failure (a failure is caught and does not escape), adding two queue lines; it opens that number's chat |
| `Dispatch.SendAll` | app.py:168-191 | the loop visits the contacts in row order; each contact's lines depend only on its own outcome, so a failure does not stop the loop; the queue grows by two lines per contact; it opens one chat per contact in order |
| `Dispatch.Cleanup` | app.py:196-212 | closes the driver, then removes `uploads`, then `User_Data`; the first exception is logged as `Cleanup error` and ends the cleanup; the queue grows by one line per logged message; the slot and the folders left are as `CleanupLog`, `SlotAfterClose` and `LeftoversAfter` say |
| `Dispatch.Deliver` | app.py:157-193 | acquires the driver and waits for the client; on either failing it returns that exception and logs no contact lines; otherwise it logs the ready line, every contact and `All done!`; one queue line per logged message |
| `Dispatch.DeliverOrReport` | app.py:157-195 | as `Deliver`, with an escaping exception logged as `Bulk send error: e` |
| `Dispatch.RunTable` | app.py:142-195 | logs the row count and the header, then either `No phone column found!` (no driver touched, nothing sent) or the delivery of the detected column |
| `Dispatch.RunMain` | app.py:140-195 | the `try`/`except` part of a run; a CSV that cannot be read logs only `Bulk send error: e` |
| `Dispatch.BulkSend` | app.py:138-212 | a whole run: the main part, then the cleanup with whatever session the main part left in the slot; the log, the slot, the sessions built, the chats opened and the folders left are all given, and the queue is what it held before followed by the run's lines, each stamped with the time it was logged |
| `Runs.StopReason` | app.py:140-195 | a run always logs something, and its last line says how it ended: `All done!` on completion, `Bulk send error: e` for the exception that stopped it, or `No phone column found!` |
| `Runs.FinalLine` | app.py:193-195 | the last line of the main part is `All done!` if and only if the run completes |
| `Runs.NoPhoneColumn` | app.py:147-154 | with no phone column, the run logs exactly the size, the header and `No phone column found!`; it never reaches `init_driver`, leaves the slot alone and opens no chat |
| `Runs.CompletedRun` | app.py:142-193 | a completed run logs the size, the header, the ready line, the contacts' lines in row order and `All done!`, and opens every contact's chat in row order |
| `Runs.ContactInRun` | app.py:168-191 | in a completed run of `n` rows the log has `4 + 2n` lines; line `3+2i` is `Sending to` row `i`'s number, and line `4+2i` is that contact's `Sent` or failure line |
| `Runs.ChatInRun` | app.py:168-178 | in a completed run the `i`-th chat opened is row `i`'s normalised number |
| `Runs.FatalRun` | app.py:157-195 | when `init_driver` or the readiness wait fails, the run logs the size, the header, the driver's own messages and `Bulk send error: e`, with no per-contact line and no chat opened |
| `Runs.SmoothCleanup` | app.py:196-210 | a cleanup where nothing raises empties the slot, removes both folders and logs one line per folder that existed, `uploads` first |
| `Runs.FirstCleanupErrorStops` | app.py:196-212 | the cleanup logs at most two lines, and only the last can be an error; a failing `quit()` is the only line and leaves the session and both folders; a failing `uploads` removal stops before `User_Data` |
| `Runs.CleanupAfterEveryRun` | app.py:138-212 | however far the main part got, a cleanup that raises nothing leaves an empty slot and no folder, and its lines follow the main part's lines |
| `Runs.TwoContactRun` | app.py:138-212 | a fresh two-row run where everything succeeds logs size, header, ready, `Sending`/`Sent` for each contact in order, `All done!` and the two cleanup lines |
| `Runs.MobileContacts` | app.py:147-173 | in the `Mobile` table, column `Mobile` is detected and its cells normalise to `+9198765` and `+919988776655` |
| `Runs.MobileScenario` | app.py:138-212 | the end-to-end `Mobile` run logs exactly its ten lines in order |
| `Runs.MobileOpened` | app.py:168-178 | the `Mobile` run opens the chats of `+9198765` and `+919988776655`, in that order |
| `Runs.MobileLines` | app.py:143 | the scenario's size line is `Loaded 2 contacts` and its first send line is `Sending to +9198765 ...` |
| `Runs.MobileHeader` | app.py:144 | the scenario's header line is `Columns: ['Mobile']` |
| `Runs.MobileChats` | app.py:178 | the scenario's chat addresses end in `9198765` and `919988776655` |

## Left out

- The Flask routes (`index`, the upload form, `flash`, redirects and templates) are HTTP glue. The uploaded file is taken as already saved.
- Threads and the `driver_lock` are not modelled. Each run is one sequential call. The lock only serialises `init_driver` and `close_driver`, and it is modelled as their atomicity.
- Selenium and WebDriver are not modelled. They are replaced by the oracles `Launch`, `ready`, `sends` and `CleanupPlan.quitError`. Which chat addresses are opened is modelled; what the page then does is not.
- `bulk_send`'s `message` argument is not modelled. It only reaches `send_keys` (app.py:187) and appears in no logged line. Its `csv_path` argument is replaced by the already read table.
- The Chrome options, the `HEADLESS` and `CHROME_BIN` environment variables and the binary lookup are left out. They only configure the browser and do not change any outcome the model observes.
- The `time.sleep` delays and the 60-second wait timeouts are left out. A timed-out wait is modelled only as the exception it raises.
- `pandas.read_csv` is not modelled. A readable CSV is a rectangular table of string cells, taken as `str()` of each value. Parse errors, type inference and `NaN` rendering are not modelled, and a read error is the `Failure` case.
- Column names are always strings in this model. A non-string header, whose `.strip()` would raise, is not modelled.
- The timestamp format `%Y-%m-%d %H:%M:%S` is not modelled. The clock is a parameter; only the fact that a timestamp holds no `]` is used.
- `Text.Lower` maps ASCII letters only. Python's full Unicode case mapping is not modelled. It matters only for header names that contain non-ASCII letters.
- `Text.Repr` escapes ASCII control characters only. Python's rules for non-ASCII and non-printable characters in `repr` are not modelled.
- `Dispatch.Cleanup`: an `rmtree` that raises counts as leaving the folder in place. A partly removed folder is not distinguished.
- `Runs.CleanupAfterEveryRun`: this states that every run leaves no folder only for a cleanup that raises nothing. The code promises no more, because the cleanup steps share one `try`.
