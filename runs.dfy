/** Properties of whole runs of `bulk_send`, stated on the functions its
    methods are proved against: how a run ends, what it logs in which order,
    and what the `finally` block leaves behind. */
module Runs {
  import opened Wrappers
  import opened Text
  import opened Contacts
  import opened Session
  import opened Dispatch
  import LogChannel

  /** A run that reaches the end of its `try` block. */
  predicate Completes(current: Option<Handle>, csv: Result<Table, string>, launch: Launch, ready: Option<string>)
  {
    ReachesInit(csv) && Fatal(current, launch, ready).None?
  }

  /** The main part of a run always logs something, and its last line says
      how the run ended: `All done!` when it completes, otherwise the
      exception as `Bulk send error`, or the missing column. */
  lemma StopReason(current: Option<Handle>, csv: Result<Table, string>, launch: Launch,
                   ready: Option<string>, sends: seq<Option<string>>)
    requires Admissible(csv, sends)
    ensures var log := MainLog(current, csv, launch, ready, sends);
      && |log| > 0
      && (csv.Failure? ==> log == [BulkErrorLine(csv.error)])
      && (csv.Success? && !ReachesInit(csv) ==> log[|log| - 1] == NoColumnLine)
      && (ReachesInit(csv) && Fatal(current, launch, ready).Some? ==>
            log[|log| - 1] == BulkErrorLine(Fatal(current, launch, ready).value))
      && (Completes(current, csv, launch, ready) ==> log[|log| - 1] == AllDone)
  {
    match csv
    case Failure(e) =>
    case Success(t) =>
      match PhoneColumn(t.columns)
      case None =>
        NoPhoneColumn(current, t, launch, ready, sends);
      case Some(col) =>
        if Fatal(current, launch, ready).Some? {
          FatalRun(current, t, col, launch, ready, sends);
          EndsWith([LoadedLine(|t.rows|), ColumnsLine(t.columns)] + InitLog(current, launch),
                   BulkErrorLine(Fatal(current, launch, ready).value));
        } else {
          CompletedRun(current, t, col, launch, ready, sends);
          EndsWith([LoadedLine(|t.rows|), ColumnsLine(t.columns), ReadyLine]
                     + ContactsLog(Phones(PhoneCells(t, col)), sends), AllDone);
        }
  }

  /** `All done!` is the last line of the main part exactly when the run
      completes: the lines that end the other runs all differ from it. */
  lemma FinalLine(current: Option<Handle>, csv: Result<Table, string>, launch: Launch,
                  ready: Option<string>, sends: seq<Option<string>>)
    requires Admissible(csv, sends)
    ensures var log := MainLog(current, csv, launch, ready, sends);
      |log| > 0 && (log[|log| - 1] == AllDone <==> Completes(current, csv, launch, ready))
  {
    StopReason(current, csv, launch, ready, sends);
    assert NoColumnLine[0] != AllDone[0];
    if ReachesInit(csv) && Fatal(current, launch, ready).Some? {
      assert BulkErrorLine(Fatal(current, launch, ready).value)[0] != AllDone[0];
    }
    if csv.Failure? {
      assert BulkErrorLine(csv.error)[0] != AllDone[0];
    }
  }

  /** The last line of `a + [x]` is `x`. */
  lemma EndsWith(a: seq<string>, x: string)
    ensures |a + [x]| > 0 && (a + [x])[|a + [x]| - 1] == x
  {
  }

  /** With no phone column the run logs the table's size and header and
      `No phone column found!`, never touches the driver and opens no chat. */
  lemma NoPhoneColumn(current: Option<Handle>, t: Table, launch: Launch,
                      ready: Option<string>, sends: seq<Option<string>>)
    requires Rectangular(t) && |sends| == |t.rows|
    requires forall j :: 0 <= j < |t.columns| ==> !IsPhoneHeader(t.columns[j])
    ensures MainLog(current, Success(t), launch, ready, sends)
      == [LoadedLine(|t.rows|), ColumnsLine(t.columns), NoColumnLine]
    ensures !ReachesInit(Success(t))
    ensures SlotAtCleanup(current, Success(t), launch) == current
    ensures Opened(current, Success(t), launch, ready) == []
  {
  }

  /** A run that completes logs the table's size and header, the ready
      line, the contacts' lines and `All done!`, and opens one chat per row,
      in row order. */
  lemma CompletedRun(current: Option<Handle>, t: Table, col: nat, launch: Launch,
                     ready: Option<string>, sends: seq<Option<string>>)
    requires Rectangular(t) && |sends| == |t.rows|
    requires PhoneColumn(t.columns) == Some(col)
    requires Fatal(current, launch, ready).None?
    ensures MainLog(current, Success(t), launch, ready, sends)
      == [LoadedLine(|t.rows|), ColumnsLine(t.columns), ReadyLine]
         + ContactsLog(Phones(PhoneCells(t, col)), sends) + [AllDone]
    ensures Opened(current, Success(t), launch, ready) == ChatUrls(Phones(PhoneCells(t, col)))
  {
    var cells := PhoneCells(t, col);
    assert MainLog(current, Success(t), launch, ready, sends) == TableLog(current, t, launch, ready, sends);
    assert TableLog(current, t, launch, ready, sends)
      == [LoadedLine(|t.rows|), ColumnsLine(t.columns)] + ColumnLog(current, launch, ready, cells, sends);
    CompletedColumn(current, launch, ready, cells, sends);
    Shift(LoadedLine(|t.rows|), ColumnsLine(t.columns), ReadyLine, ContactsLog(Phones(cells), sends), [AllDone]);
  }

  /** Once the column is found, a run that completes logs the ready line,
      the contacts' lines and `All done!`, and nothing else. */
  lemma CompletedColumn(current: Option<Handle>, launch: Launch, ready: Option<string>,
                        cells: seq<string>, sends: seq<Option<string>>)
    requires |cells| == |sends|
    requires Fatal(current, launch, ready).None?
    ensures ColumnLog(current, launch, ready, cells, sends)
      == [ReadyLine] + ContactsLog(Phones(cells), sends) + [AllDone]
  {
    InitSuccess(current, launch);
    var tail := [ReadyLine] + ContactsLog(Phones(cells), sends) + [AllDone];
    assert DeliverLog(current, launch, ready, cells, sends) == [] + tail;
  }

  /** Two lines in front of a block that starts with a third. */
  lemma Shift(x: string, y: string, z: string, b: seq<string>, c: seq<string>)
    ensures [x, y] + ([z] + b + c) == [x, y, z] + b + c
  {
  }

  /** In a run that completes, row `i` produces lines `3 + 2i` and `4 + 2i`:
      which number is sent to, then `Sent` or its own failure. They depend on
      that row's cell and outcome only, so a failed contact does not stop or
      change the ones after it. */
  lemma ContactInRun(current: Option<Handle>, t: Table, col: nat, launch: Launch,
                     ready: Option<string>, sends: seq<Option<string>>, i: nat)
    requires Rectangular(t) && |sends| == |t.rows|
    requires PhoneColumn(t.columns) == Some(col)
    requires Fatal(current, launch, ready).None?
    requires i < |t.rows|
    ensures var log := MainLog(current, Success(t), launch, ready, sends);
      var phone := NormalisePhone(t.rows[i][col]);
      && |log| == 4 + 2 * |t.rows|
      && log[3 + 2 * i] == SendingLine(phone)
      && log[4 + 2 * i] == (if sends[i].None? then SentLine else FailedLine(phone, sends[i].value))
  {
    var cells := PhoneCells(t, col);
    CompletedRun(current, t, col, launch, ready, sends);
    PhonesAt(cells, i);
    LinesOfContact([LoadedLine(|t.rows|), ColumnsLine(t.columns), ReadyLine], Phones(cells), sends, i);
  }

  /** Contact `i`'s two lines in a log made of three lines, the loop's lines
      and one more. */
  lemma LinesOfContact(head: seq<string>, phones: seq<string>, sends: seq<Option<string>>, i: nat)
    requires |head| == 3 && |phones| == |sends| && i < |phones|
    ensures var log := head + ContactsLog(phones, sends) + [AllDone];
      && |log| == 4 + 2 * |phones|
      && log[3 + 2 * i] == SendingLine(phones[i])
      && log[4 + 2 * i] == (if sends[i].None? then SentLine else FailedLine(phones[i], sends[i].value))
  {
    var contacts := ContactsLog(phones, sends);
    ContactsLogAt(phones, sends, i);
    Between(head, contacts, [AllDone], 2 * i);
    Between(head, contacts, [AllDone], 2 * i + 1);
  }

  /** Where an element of the middle part of `a + b + c` sits. */
  lemma Between(a: seq<string>, b: seq<string>, c: seq<string>, k: nat)
    requires k < |b|
    ensures |a + b + c| == |a| + |b| + |c|
    ensures (a + b + c)[|a| + k] == b[k]
  {
  }

  /** In a run that completes, row `i`'s chat page is the `i`-th one opened. */
  lemma ChatInRun(current: Option<Handle>, t: Table, col: nat, launch: Launch,
                  ready: Option<string>, i: nat)
    requires Rectangular(t)
    requires PhoneColumn(t.columns) == Some(col)
    requires Fatal(current, launch, ready).None?
    requires i < |t.rows|
    ensures |Opened(current, Success(t), launch, ready)| == |t.rows|
    ensures Opened(current, Success(t), launch, ready)[i] == ChatUrl(NormalisePhone(t.rows[i][col]))
  {
    var cells := PhoneCells(t, col);
    PhonesAt(cells, i);
    ChatUrlsAt(Phones(cells), i);
  }

  /** A run whose `try` block raises after the column is found logs the
      table's size and header, whatever `init_driver` logged, and the
      exception as `Bulk send error`; no chat is opened. */
  lemma FatalRun(current: Option<Handle>, t: Table, col: nat, launch: Launch,
                 ready: Option<string>, sends: seq<Option<string>>)
    requires Rectangular(t) && |sends| == |t.rows|
    requires PhoneColumn(t.columns) == Some(col)
    requires Fatal(current, launch, ready).Some?
    ensures MainLog(current, Success(t), launch, ready, sends)
      == [LoadedLine(|t.rows|), ColumnsLine(t.columns)] + InitLog(current, launch)
         + [BulkErrorLine(Fatal(current, launch, ready).value)]
    ensures Opened(current, Success(t), launch, ready) == []
  {
    var init := InitLog(current, launch);
    assert init + [] == init;
  }

  /** Cleanup that raises nothing. */
  predicate Smooth(plan: CleanupPlan)
  {
    plan.quitError.None?
      && (plan.uploads.Present? ==> plan.uploads.removeError.None?)
      && (plan.userData.Present? ==> plan.userData.removeError.None?)
  }

  /** When no cleanup step raises, the driver slot ends empty, both folders
      are gone, and one line is logged per folder that existed, `uploads`
      first. */
  lemma SmoothCleanup(current: Option<Handle>, plan: CleanupPlan)
    requires Smooth(plan)
    ensures CleanupLog(current, plan)
      == (if plan.uploads.Present? then [UploadsCleaned] else [])
         + (if plan.userData.Present? then [UserDataCleaned] else [])
    ensures SlotAfterClose(current, plan.quitError) == None
    ensures LeftoversAfter(current, plan) == Leftovers(false, false)
  {
  }

  /** The cleanup shares one `try`: the first step that raises is logged as
      the one and only `Cleanup error` line, which ends the cleanup; the
      steps after it never run, so their folders are left as they were. */
  lemma FirstCleanupErrorStops(current: Option<Handle>, plan: CleanupPlan)
    ensures var log := CleanupLog(current, plan);
      && |log| <= 2
      && forall k :: 0 <= k < |log| - 1 ==> log[k] == UploadsCleaned
    ensures CloseError(current, plan.quitError).Some? ==>
      && CleanupLog(current, plan) == [CleanupErrorLine(CloseError(current, plan.quitError).value)]
      && SlotAfterClose(current, plan.quitError) == current
      && LeftoversAfter(current, plan) == Leftovers(plan.uploads.Present?, plan.userData.Present?)
    ensures CloseError(current, plan.quitError).None? && plan.uploads.Present? && plan.uploads.removeError.Some? ==>
      && CleanupLog(current, plan) == [CleanupErrorLine(plan.uploads.removeError.value)]
      && LeftoversAfter(current, plan) == Leftovers(true, plan.userData.Present?)
  {
  }

  /** The cleanup runs after every run, however far it got: with a cleanup
      that raises nothing, every run ends with an empty driver slot and no
      transient folder left, and its log ends with the cleanup's lines. */
  lemma CleanupAfterEveryRun(current: Option<Handle>, csv: Result<Table, string>, launch: Launch,
                             ready: Option<string>, sends: seq<Option<string>>, plan: CleanupPlan)
    requires Admissible(csv, sends)
    requires Smooth(plan)
    ensures var at := SlotAtCleanup(current, csv, launch);
      && SlotAfterClose(at, plan.quitError) == None
      && LeftoversAfter(at, plan) == Leftovers(false, false)
      && RunLog(current, csv, launch, ready, sends, plan)
         == MainLog(current, csv, launch, ready, sends)
            + (if plan.uploads.Present? then [UploadsCleaned] else [])
            + (if plan.userData.Present? then [UserDataCleaned] else [])
  {
    SmoothCleanup(SlotAtCleanup(current, csv, launch), plan);
  }

  /** The contact table of the end-to-end scenario: one `Mobile` column, one
      number without and one with its `+`. */
  const MobileTable: Table := Table(["Mobile"], [["9198765"], ["+919988776655"]])

  /** End to end: both numbers are normalised and sent to in row order, the
      run completes, and the cleanup removes both folders. The run logs the
      size, the header, the ready line, a `Sending to` and a `Sent` line per
      contact, `All done!` and the cleanup's two lines. `MobileLines` and `MobileHeader` spell out lines that depend on
      the table, and `MobileOpened` and `MobileChats` the chats. */
  lemma MobileScenario(h: Handle)
    ensures Admissible(Success(MobileTable), [None, None])
    ensures RunLog(None, Success(MobileTable), Started(h, None), None, [None, None],
                   CleanupPlan(None, Present(None), Present(None)))
      == [LoadedLine(2), ColumnsLine(["Mobile"]), ReadyLine,
          SendingLine("+9198765"), SentLine, SendingLine("+919988776655"), SentLine, AllDone,
          UploadsCleaned, UserDataCleaned]
  {
    assert MobileTable.columns == ["Mobile"] && |MobileTable.rows| == 2;
    assert Rectangular(MobileTable);
    MobileContacts();
    TwoContactRun(MobileTable, 0, h, "+9198765", "+919988776655");
  }

  /** A fresh run over two rows whose numbers are `p` and `q`, with both
      sends and the cleanup succeeding. */
  lemma TwoContactRun(t: Table, col: nat, h: Handle, p: string, q: string)
    requires Rectangular(t) && |t.rows| == 2
    requires PhoneColumn(t.columns) == Some(col)
    requires Phones(PhoneCells(t, col)) == [p, q]
    ensures RunLog(None, Success(t), Started(h, None), None, [None, None],
                   CleanupPlan(None, Present(None), Present(None)))
      == [LoadedLine(2), ColumnsLine(t.columns), ReadyLine,
          SendingLine(p), SentLine, SendingLine(q), SentLine, AllDone,
          UploadsCleaned, UserDataCleaned]
  {
    var outcomes: seq<Option<string>> := [None, None];
    ContactsLogOfTwo(p, q, None, None);
    CompletedRun(None, t, col, Started(h, None), None, outcomes);
    SmoothCleanup(Some(h), CleanupPlan(None, Present(None), Present(None)));
    Assemble(LoadedLine(2), ColumnsLine(t.columns), ReadyLine, SendingLine(p), SendingLine(q),
             SentLine, AllDone, UploadsCleaned, UserDataCleaned);
  }

  /** The scenario opens the two chats in row order. */
  lemma MobileOpened(h: Handle)
    ensures Opened(None, Success(MobileTable), Started(h, None), None)
      == [ChatUrl("+9198765"), ChatUrl("+919988776655")]
  {
    MobileContacts();
    ChatUrlsOfTwo("+9198765", "+919988776655");
  }

  /** In the scenario's table the phone column is `Mobile`, and its cells
      give the numbers `+9198765` and `+919988776655`. */
  lemma MobileContacts()
    ensures PhoneColumn(MobileTable.columns) == Some(0)
    ensures Phones(PhoneCells(MobileTable, 0)) == ["+9198765", "+919988776655"]
  {
    StripKeepsTrimmed("Mobile");
    assert Lower("Mobile") == "mobile";
    var cells := PhoneCells(MobileTable, 0);
    assert cells == ["9198765", "+919988776655"];
    StripKeepsTrimmed("9198765");
    StripKeepsTrimmed("+919988776655");
    assert NormalisePhone("9198765") == "+9198765";
    assert NormalisePhone("+919988776655") == "+919988776655";
    PhonesOfTwo(cells[0], cells[1]);
    assert cells == [cells[0], cells[1]];
  }

  lemma Assemble(l: string, c: string, r: string, a: string, b: string,
                 sent: string, done: string, u: string, d: string)
    ensures [l, c, r] + ([a, sent] + [b, sent]) + [done] + ([u] + [d])
      == [l, c, r, a, sent, b, sent, done, u, d]
  {
  }

  /** The scenario's size line and first `Sending to` line as text. */
  lemma MobileLines()
    ensures LoadedLine(2) == "Loaded 2 contacts"
    ensures SendingLine("+9198765") == "Sending to +9198765 ..."
  {
    assert Decimal(2) == "2";
  }

  /** The scenario's chat addresses carry the numbers without their `+`. */
  lemma MobileChats()
    ensures ChatUrl("+9198765") == ChatPrefix + "9198765"
    ensures ChatUrl("+919988776655") == ChatPrefix + "919988776655"
  {
  }

  /** The header line names the one column, quoted as `repr()` does. */
  lemma MobileHeader()
    ensures ColumnsLine(["Mobile"]) == "Columns: ['Mobile']"
  {
    var name := "Mobile";
    assert forall i :: 0 <= i < |name| ==> Plain(name[i]);
    ListReprSingle(name);
  }

  lemma PhonesOfTwo(a: string, b: string)
    ensures Phones([a, b]) == [NormalisePhone(a), NormalisePhone(b)]
  {
    assert [a, b][..1] == [a];
    assert [a][..0] == [];
  }

  lemma ContactsLogOfTwo(p: string, q: string, x: Option<string>, y: Option<string>)
    ensures ContactsLog([p, q], [x, y]) == ContactLines(p, x) + ContactLines(q, y)
  {
    assert [p, q][..1] == [p] && [x, y][..1] == [x];
    assert [p][..0] == [] && [x][..0] == [];
    assert ContactsLog([p], [x]) == ContactsLog([], []) + ContactLines(p, x);
  }

  lemma ChatUrlsOfTwo(p: string, q: string)
    ensures ChatUrls([p, q]) == [ChatUrl(p), ChatUrl(q)]
  {
    assert [p, q][..1] == [p];
    assert [p][..0] == [];
  }
}
