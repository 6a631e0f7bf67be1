/** `bulk_send`: one run of the pipeline. It reads the contact table, finds
    the phone column, acquires the driver, waits for the messaging client,
    sends to every contact in order with failures absorbed per contact, and
    always ends with the cleanup of its `finally` block. Every outside
    effect is an oracle argument; what the run produces is the sequence of
    messages it logs, the chat pages it opens, the driver slot it leaves and
    the folders it leaves behind. */
module Dispatch {
  import opened Wrappers
  import opened Text
  import opened Contacts
  import opened Session
  import LogChannel

  /** The contact table as `pd.read_csv` yields it: the header names and,
      per row, its cells as `str()` renders them. */
  datatype Table = Table(columns: seq<string>, rows: seq<seq<string>>)

  /** Every row has one cell per column, as in a data frame. */
  predicate Rectangular(t: Table)
  {
    forall i :: 0 <= i < |t.rows| ==> |t.rows[i]| == |t.columns|
  }

  /** What a run needs of its oracles: a well-formed table, and one send
      outcome per row. */
  predicate Admissible(csv: Result<Table, string>, sends: seq<Option<string>>)
  {
    csv.Success? ==> Rectangular(csv.value) && |sends| == |csv.value.rows|
  }

  /** The cells of column `col`, in row order. */
  function PhoneCells(t: Table, col: nat): (cells: seq<string>)
    requires Rectangular(t) && col < |t.columns|
    ensures |cells| == |t.rows|
    ensures forall i :: 0 <= i < |t.rows| ==> cells[i] == t.rows[i][col]
  {
    seq(|t.rows|, i requires 0 <= i < |t.rows| => t.rows[i][col])
  }

  // The messages a run logs.

  function LoadedLine(n: nat): string { "Loaded " + Decimal(n) + " contacts" }
  function ColumnsLine(columns: seq<string>): string { "Columns: " + ListRepr(columns) }
  const NoColumnLine: string := "No phone column found!"
  const ReadyLine: string := "WhatsApp ready \U{2013} starting to send..."
  function SendingLine(phone: string): string { "Sending to " + phone + " ..." }
  const SentLine: string := "Sent"
  function FailedLine(phone: string, error: string): string { "Failed for " + phone + ": " + error }
  const AllDone: string := "All done!"
  function BulkErrorLine(error: string): string { "Bulk send error: " + error }
  function CleanupErrorLine(error: string): string { "Cleanup error: " + error }
  const UploadsCleaned: string := "Cleaned up uploads folder"
  const UserDataCleaned: string := "Cleaned up User_Data folder"

  /** The phone numbers of the contacts, in row order. */
  function Phones(cells: seq<string>): (phones: seq<string>)
    ensures |phones| == |cells|
  {
    if cells == [] then [] else Phones(cells[..|cells| - 1]) + [NormalisePhone(cells[|cells| - 1])]
  }

  /** Contact `i`'s number is its normalised cell. */
  lemma {:induction false} PhonesAt(cells: seq<string>, i: nat)
    requires i < |cells|
    ensures Phones(cells)[i] == NormalisePhone(cells[i])
  {
    if i < |cells| - 1 {
      PhonesAt(cells[..|cells| - 1], i);
    }
  }

  /** The two lines one contact produces: which number is being sent to,
      then `Sent` or the failure with its error (`outcome` is the exception
      the send raised, if any). */
  function ContactLines(phone: string, outcome: Option<string>): (lines: seq<string>)
    ensures |lines| == 2
  {
    [SendingLine(phone), if outcome.None? then SentLine else FailedLine(phone, outcome.value)]
  }

  /** The lines of the per-contact loop, contact after contact. */
  function ContactsLog(phones: seq<string>, sends: seq<Option<string>>): seq<string>
    requires |phones| == |sends|
  {
    if phones == [] then [] else
      ContactsLog(phones[..|phones| - 1], sends[..|sends| - 1])
        + ContactLines(phones[|phones| - 1], sends[|sends| - 1])
  }

  lemma {:induction false} ContactsLogLength(phones: seq<string>, sends: seq<Option<string>>)
    requires |phones| == |sends|
    ensures |ContactsLog(phones, sends)| == 2 * |phones|
  {
    if phones != [] {
      ContactsLogLength(phones[..|phones| - 1], sends[..|sends| - 1]);
    }
  }

  /** Contacts are handled strictly in input order, two lines each, and the
      lines of contact `i` depend on its own number and outcome only: a
      failing contact changes nothing for the ones after it. */
  lemma {:induction false} ContactsLogAt(phones: seq<string>, sends: seq<Option<string>>, i: nat)
    requires |phones| == |sends| && i < |phones|
    ensures |ContactsLog(phones, sends)| == 2 * |phones|
    ensures ContactsLog(phones, sends)[2 * i] == SendingLine(phones[i])
    ensures ContactsLog(phones, sends)[2 * i + 1] ==
      if sends[i].None? then SentLine else FailedLine(phones[i], sends[i].value)
  {
    var n := |phones|;
    ContactsLogLength(phones[..n - 1], sends[..n - 1]);
    if i < n - 1 {
      ContactsLogAt(phones[..n - 1], sends[..n - 1], i);
    }
  }

  /** The loop's lines after one more contact. */
  lemma ContactsLogSnoc(phones: seq<string>, sends: seq<Option<string>>, i: nat)
    requires |phones| == |sends| && i < |phones|
    ensures ContactsLog(phones[..i + 1], sends[..i + 1])
      == ContactsLog(phones[..i], sends[..i]) + ContactLines(phones[i], sends[i])
  {
    assert phones[..i + 1][..i] == phones[..i] && sends[..i + 1][..i] == sends[..i];
  }

  /** The chat pages opened, one per number, in order. */
  function ChatUrls(phones: seq<string>): (urls: seq<string>)
    ensures |urls| == |phones|
  {
    if phones == [] then [] else ChatUrls(phones[..|phones| - 1]) + [ChatUrl(phones[|phones| - 1])]
  }

  /** Contact `i`'s chat page is the `i`-th one opened. */
  lemma {:induction false} ChatUrlsAt(phones: seq<string>, i: nat)
    requires i < |phones|
    ensures ChatUrls(phones)[i] == ChatUrl(phones[i])
  {
    if i < |phones| - 1 {
      ChatUrlsAt(phones[..|phones| - 1], i);
    }
  }

  /** The chat pages after one more contact. */
  lemma ChatUrlsSnoc(phones: seq<string>, i: nat)
    requires i < |phones|
    ensures ChatUrls(phones[..i + 1]) == ChatUrls(phones[..i]) + [ChatUrl(phones[i])]
  {
    assert phones[..i + 1][..i] == phones[..i];
  }

  /** The `try` body of one loop iteration and its handler: log which number
      is being sent to, open its chat page and send; log `Sent`, or catch
      the exception and log the failure. Returns the page it opened. */
  method SendTo(log: LogChannel.MessageQueue, phone: string, outcome: Option<string>) returns (url: string)
    requires log.Valid()
    modifies log
    ensures log.Valid()
    ensures log.messages == old(log.messages) + ContactLines(phone, outcome)
    ensures |log.entries| == |old(log.entries)| + |ContactLines(phone, outcome)|
    ensures url == ChatUrl(phone)
  {
    log.LogMessage(SendingLine(phone));
    url := ChatUrl(phone);
    if outcome.None? {
      log.LogMessage(SentLine);
    } else {
      log.LogMessage(FailedLine(phone, outcome.value));
    }
  }

  /** The per-contact loop over the rows, in order: normalise the cell,
      then send; an exception from one contact never leaves the loop. */
  method SendAll(log: LogChannel.MessageQueue, cells: seq<string>, sends: seq<Option<string>>)
    returns (visited: seq<string>)
    requires |cells| == |sends|
    requires log.Valid()
    modifies log
    ensures log.Valid()
    ensures log.messages == old(log.messages) + ContactsLog(Phones(cells), sends)
    ensures |log.entries| == |old(log.entries)| + |ContactsLog(Phones(cells), sends)|
    ensures visited == ChatUrls(Phones(cells))
  {
    visited := [];
    ghost var phones := Phones(cells);
    for i := 0 to |cells|
      invariant log.Valid()
      invariant log.messages == old(log.messages) + ContactsLog(phones[..i], sends[..i])
      invariant visited == ChatUrls(phones[..i])
      invariant |log.entries| == |old(log.entries)| + 2 * i
    {
      PhonesAt(cells, i);
      var phone := NormalisePhone(cells[i]);
      var url := SendTo(log, phone, sends[i]);
      visited := visited + [url];
      ContactsLogSnoc(phones, sends, i);
      ChatUrlsSnoc(phones, i);
      LogChannel.Regroup(old(log.messages), ContactsLog(phones[..i], sends[..i]), ContactLines(phone, sends[i]));
    }
    assert phones[..|cells|] == phones && sends[..|sends|] == sends;
    ContactsLogLength(phones, sends);
  }

  /** Whether a transient folder exists when the cleanup reaches it, and if
      so, the exception `shutil.rmtree` raises on it, if any. */
  datatype Folder = Absent | Present(removeError: Option<string>)

  /** The outcomes of the three cleanup steps. */
  datatype CleanupPlan = CleanupPlan(quitError: Option<string>, uploads: Folder, userData: Folder)

  /** Which folders may still exist after the cleanup: those it never
      reached, and those whose removal raised. */
  datatype Leftovers = Leftovers(uploads: bool, userData: bool)

  /** One folder-removal step followed by the steps in `rest`; an exception
      ends the whole cleanup with one `Cleanup error` line. */
  function FolderStep(f: Folder, done: string, rest: seq<string>): seq<string>
  {
    match f
    case Absent => rest
    case Present(None) => [done] + rest
    case Present(Some(e)) => [CleanupErrorLine(e)]
  }

  /** The messages of the `finally` block, with `current` in the driver slot
      when it starts. */
  function CleanupLog(current: Option<Handle>, plan: CleanupPlan): seq<string>
  {
    match CloseError(current, plan.quitError)
    case Some(e) => [CleanupErrorLine(e)]
    case None => FolderStep(plan.uploads, UploadsCleaned, FolderStep(plan.userData, UserDataCleaned, []))
  }

  /** The folders the `finally` block leaves behind. */
  function LeftoversAfter(current: Option<Handle>, plan: CleanupPlan): Leftovers
  {
    if CloseError(current, plan.quitError).Some? then
      Leftovers(plan.uploads.Present?, plan.userData.Present?)
    else if plan.uploads == Present(None) || plan.uploads.Absent? then
      Leftovers(false, plan.userData.Present? && plan.userData.removeError.Some?)
    else
      Leftovers(true, plan.userData.Present?)
  }

  /** The `finally` block of `bulk_send`: close the driver, then remove
      `uploads`, then remove `User_Data`, inside one `try` whose handler logs
      the first exception and ends the cleanup. */
  method Cleanup(log: LogChannel.MessageQueue, slot: DriverSlot, plan: CleanupPlan) returns (left: Leftovers)
    requires log.Valid()
    modifies log, slot
    ensures log.Valid()
    ensures log.messages == old(log.messages) + CleanupLog(old(slot.driver), plan)
    ensures |log.entries| == |old(log.entries)| + |CleanupLog(old(slot.driver), plan)|
    ensures slot.driver == SlotAfterClose(old(slot.driver), plan.quitError)
    ensures slot.sessions == old(slot.sessions)
    ensures left == LeftoversAfter(old(slot.driver), plan)
  {
    var raised := slot.CloseDriver(plan.quitError);
    if raised.Some? {
      log.LogMessage(CleanupErrorLine(raised.value));
      return Leftovers(plan.uploads.Present?, plan.userData.Present?);
    }
    if plan.uploads.Present? {
      if plan.uploads.removeError.Some? {
        log.LogMessage(CleanupErrorLine(plan.uploads.removeError.value));
        return Leftovers(true, plan.userData.Present?);
      }
      log.LogMessage(UploadsCleaned);
    }
    left := Leftovers(false, false);
    if plan.userData.Present? {
      if plan.userData.removeError.Some? {
        log.LogMessage(CleanupErrorLine(plan.userData.removeError.value));
        return Leftovers(false, true);
      }
      log.LogMessage(UserDataCleaned);
    }
  }

  /** The exception that ends the `try` block once a phone column has been
      found: `init_driver` raising, or the wait for the client's compose box
      timing out (`ready`). */
  function Fatal(current: Option<Handle>, launch: Launch, ready: Option<string>): Option<string>
  {
    match InitResult(current, launch)
    case Failure(e) => Some(e)
    case Success(_) => ready
  }

  /** What the `try` block logs from `init_driver` on: the driver's own
      messages, then, when nothing fatal happens, the ready line, the
      contacts' lines and `All done!`. */
  function DeliverLog(current: Option<Handle>, launch: Launch, ready: Option<string>,
                      cells: seq<string>, sends: seq<Option<string>>): seq<string>
    requires |cells| == |sends|
  {
    InitLog(current, launch)
      + if Fatal(current, launch, ready).Some? then []
        else [ReadyLine] + ContactsLog(Phones(cells), sends) + [AllDone]
  }

  /** The `try` block of `bulk_send` from `init_driver` on, for the phone
      cells `cells`: acquire the driver, wait for the client, run the loop,
      log `All done!`. Returns the chat pages opened and the exception that
      escaped, if any. */
  method Deliver(log: LogChannel.MessageQueue, slot: DriverSlot, launch: Launch, ready: Option<string>,
                 cells: seq<string>, sends: seq<Option<string>>)
    returns (visited: seq<string>, fatal: Option<string>)
    requires |cells| == |sends|
    requires log.Valid()
    modifies log, slot
    ensures log.Valid()
    ensures log.messages == old(log.messages) + DeliverLog(old(slot.driver), launch, ready, cells, sends)
    ensures |log.entries| == |old(log.entries)| + |DeliverLog(old(slot.driver), launch, ready, cells, sends)|
    ensures fatal == Fatal(old(slot.driver), launch, ready)
    ensures visited == if fatal.Some? then [] else ChatUrls(Phones(cells))
    ensures slot.driver == SlotAfterInit(old(slot.driver), launch)
    ensures slot.sessions == old(slot.sessions) + (if Constructs(old(slot.driver), launch) then 1 else 0)
  {
    visited := [];
    var r := slot.InitDriver(log, launch);
    ghost var init := InitLog(old(slot.driver), launch);
    assert init + [] == init;
    if r.Failure? {
      return [], Some(r.error);
    }
    if ready.Some? {
      return [], ready;
    }
    fatal := None;
    ghost var started := log.messages;
    log.LogMessage(ReadyLine);
    visited := SendAll(log, cells, sends);
    ghost var contacts := ContactsLog(Phones(cells), sends);
    log.LogMessage(AllDone);
    LogChannel.Regroup(started, [ReadyLine], contacts);
    LogChannel.Regroup(started, [ReadyLine] + contacts, [AllDone]);
    LogChannel.Regroup(old(log.messages), init, [ReadyLine] + contacts + [AllDone]);
  }

  /** Whether the run calls `init_driver` at all. */
  predicate ReachesInit(csv: Result<Table, string>)
  {
    csv.Success? && PhoneColumn(csv.value.columns).Some?
  }

  /** The driver slot when the cleanup starts. */
  function SlotAtCleanup(current: Option<Handle>, csv: Result<Table, string>, launch: Launch): Option<Handle>
  {
    if ReachesInit(csv) then SlotAfterInit(current, launch) else current
  }

  /** The messages logged once the phone cells are known: the delivery,
      then, if an exception escaped it, `Bulk send error` with that
      exception. */
  function ColumnLog(current: Option<Handle>, launch: Launch, ready: Option<string>,
                     cells: seq<string>, sends: seq<Option<string>>): seq<string>
    requires |cells| == |sends|
  {
    DeliverLog(current, launch, ready, cells, sends)
      + match Fatal(current, launch, ready)
        case Some(e) => [BulkErrorLine(e)]
        case None => []
  }

  /** The messages logged once the table is read. */
  function TableLog(current: Option<Handle>, t: Table, launch: Launch,
                    ready: Option<string>, sends: seq<Option<string>>): seq<string>
    requires Rectangular(t) && |sends| == |t.rows|
  {
    [LoadedLine(|t.rows|), ColumnsLine(t.columns)] +
      match PhoneColumn(t.columns)
      case None => [NoColumnLine]
      case Some(col) => ColumnLog(current, launch, ready, PhoneCells(t, col), sends)
  }

  /** The messages of the `try` and `except` parts of a run. */
  function MainLog(current: Option<Handle>, csv: Result<Table, string>, launch: Launch,
                   ready: Option<string>, sends: seq<Option<string>>): seq<string>
    requires Admissible(csv, sends)
  {
    match csv
    case Failure(e) => [BulkErrorLine(e)]
    case Success(t) => TableLog(current, t, launch, ready, sends)
  }

  /** Every message a run logs, in order: the main part, then the cleanup. */
  function RunLog(current: Option<Handle>, csv: Result<Table, string>, launch: Launch,
                  ready: Option<string>, sends: seq<Option<string>>, plan: CleanupPlan): seq<string>
    requires Admissible(csv, sends)
  {
    MainLog(current, csv, launch, ready, sends) + CleanupLog(SlotAtCleanup(current, csv, launch), plan)
  }

  /** The chat pages a run opens. */
  function Opened(current: Option<Handle>, csv: Result<Table, string>, launch: Launch,
                  ready: Option<string>): seq<string>
    requires csv.Success? ==> Rectangular(csv.value)
  {
    match csv
    case Failure(_) => []
    case Success(t) =>
      match PhoneColumn(t.columns)
      case None => []
      case Some(col) =>
        if Fatal(current, launch, ready).Some? then [] else ChatUrls(Phones(PhoneCells(t, col)))
  }

  /** Delivery to the phone cells, with the `except` clause of `bulk_send`
      logging the exception that escaped it. */
  method DeliverOrReport(log: LogChannel.MessageQueue, slot: DriverSlot, launch: Launch, ready: Option<string>,
                         cells: seq<string>, sends: seq<Option<string>>)
    returns (visited: seq<string>)
    requires |cells| == |sends|
    requires log.Valid()
    modifies log, slot
    ensures log.Valid()
    ensures log.messages == old(log.messages) + ColumnLog(old(slot.driver), launch, ready, cells, sends)
    ensures |log.entries| == |old(log.entries)| + |ColumnLog(old(slot.driver), launch, ready, cells, sends)|
    ensures visited == if Fatal(old(slot.driver), launch, ready).Some? then [] else ChatUrls(Phones(cells))
    ensures slot.driver == SlotAfterInit(old(slot.driver), launch)
    ensures slot.sessions == old(slot.sessions) + (if Constructs(old(slot.driver), launch) then 1 else 0)
  {
    var fatal;
    visited, fatal := Deliver(log, slot, launch, ready, cells, sends);
    if fatal.Some? {
      log.LogMessage(BulkErrorLine(fatal.value));
    }
  }

  /** A run over a table that was read: report its size and header, find
      the phone column, and deliver unless there is none. */
  method RunTable(log: LogChannel.MessageQueue, slot: DriverSlot, t: Table,
                  launch: Launch, ready: Option<string>, sends: seq<Option<string>>)
    returns (visited: seq<string>)
    requires Rectangular(t) && |sends| == |t.rows|
    requires log.Valid()
    modifies log, slot
    ensures log.Valid()
    ensures log.messages == old(log.messages) + TableLog(old(slot.driver), t, launch, ready, sends)
    ensures |log.entries| == |old(log.entries)| + |TableLog(old(slot.driver), t, launch, ready, sends)|
    ensures slot.driver == SlotAtCleanup(old(slot.driver), Success(t), launch)
    ensures slot.sessions == old(slot.sessions) +
      (if ReachesInit(Success(t)) && Constructs(old(slot.driver), launch) then 1 else 0)
    ensures visited == Opened(old(slot.driver), Success(t), launch, ready)
  {
    var head := [LoadedLine(|t.rows|), ColumnsLine(t.columns)];
    log.LogMessage(head[0]);
    log.LogMessage(head[1]);
    assert log.messages == old(log.messages) + head;
    var col := FindPhoneColumn(t.columns);
    if col.None? {
      log.LogMessage(NoColumnLine);
      LogChannel.Regroup(old(log.messages), head, [NoColumnLine]);
      return [];
    }
    var cells := PhoneCells(t, col.value);
    visited := DeliverOrReport(log, slot, launch, ready, cells, sends);
    LogChannel.Regroup(old(log.messages), head, ColumnLog(old(slot.driver), launch, ready, cells, sends));
  }

  /** The `try` and `except` parts of `bulk_send`: a table that cannot be
      read is reported as `Bulk send error`; otherwise the run goes on. */
  method RunMain(log: LogChannel.MessageQueue, slot: DriverSlot, csv: Result<Table, string>,
                 launch: Launch, ready: Option<string>, sends: seq<Option<string>>)
    returns (visited: seq<string>)
    requires Admissible(csv, sends)
    requires log.Valid()
    modifies log, slot
    ensures log.Valid()
    ensures log.messages == old(log.messages) + MainLog(old(slot.driver), csv, launch, ready, sends)
    ensures |log.entries| == |old(log.entries)| + |MainLog(old(slot.driver), csv, launch, ready, sends)|
    ensures slot.driver == SlotAtCleanup(old(slot.driver), csv, launch)
    ensures slot.sessions == old(slot.sessions) +
      (if ReachesInit(csv) && Constructs(old(slot.driver), launch) then 1 else 0)
    ensures visited == Opened(old(slot.driver), csv, launch, ready)
  {
    if csv.Failure? {
      log.LogMessage(BulkErrorLine(csv.error));
      return [];
    }
    visited := RunTable(log, slot, csv.value, launch, ready, sends);
  }

  /** `bulk_send(csv_path, message)`: the main part, then the `finally`
      cleanup, whatever happened before. */
  method BulkSend(log: LogChannel.MessageQueue, slot: DriverSlot, csv: Result<Table, string>,
                  launch: Launch, ready: Option<string>, sends: seq<Option<string>>, plan: CleanupPlan)
    returns (visited: seq<string>, left: Leftovers)
    requires Admissible(csv, sends)
    requires log.Valid()
    modifies log, slot
    ensures log.Valid()
    ensures log.messages == old(log.messages) + RunLog(old(slot.driver), csv, launch, ready, sends, plan)
    ensures |log.entries| == |old(log.entries)| + |RunLog(old(slot.driver), csv, launch, ready, sends, plan)|
    ensures slot.driver == SlotAfterClose(SlotAtCleanup(old(slot.driver), csv, launch), plan.quitError)
    ensures slot.sessions == old(slot.sessions) +
      (if ReachesInit(csv) && Constructs(old(slot.driver), launch) then 1 else 0)
    ensures visited == Opened(old(slot.driver), csv, launch, ready)
    ensures left == LeftoversAfter(SlotAtCleanup(old(slot.driver), csv, launch), plan)
    ensures LogChannel.QueuedAfter(log.entries, old(log.entries), log.clock, old(log.ticks),
                                   RunLog(old(slot.driver), csv, launch, ready, sends, plan))
  {
    ghost var before, history := log.entries, log.messages;
    assert LogChannel.Stamped(log.clock, before, history);
    visited := RunMain(log, slot, csv, launch, ready, sends);
    ghost var main, at := MainLog(old(slot.driver), csv, launch, ready, sends), slot.driver;
    left := Cleanup(log, slot, plan);
    ghost var run := RunLog(old(slot.driver), csv, launch, ready, sends, plan);
    assert run == main + CleanupLog(at, plan);
    LogChannel.Regroup(history, main, CleanupLog(at, plan));
    LogChannel.QueueAfterLogging(log, before, history, run);
  }
}
