/// The streaming half of the upload service: listing the sheet names
/// declared in the workbook part, and reading the first worksheet part
/// with a `SheetHandler`.  Opening the package and tokenizing its XML
/// parts are outside the model: each part arrives as its event sequence.
module UploadService {
  import opened Options
  import opened Sax
  import SheetHandling

  /** An element-open event whose qualified name is exactly `sheet`. */
  predicate IsSheetOpen(e: Event)
  {
    e.Start? && e.name == "sheet"
  }

  /** The `name` attribute of an element-open event (`None` for Java `null`). */
  function NameOf(e: Event): Option<string>
    requires e.Start?
  {
    GetValue(e.attrs, "name")
  }

  /** The positions of the `sheet` open events. */
  function SheetOpenPositions(events: seq<Event>): set<int>
  {
    set i | 0 <= i < |events| && IsSheetOpen(events[i])
  }

  /** The names the anonymous handler collects: one per `sheet` open, in event order. */
  function SheetNames(events: seq<Event>): (names: seq<Option<string>>)
    ensures |names| <= |events|
  {
    if events == [] then []
    else
      var init, e := SheetNames(events[..|events| - 1]), events[|events| - 1];
      if IsSheetOpen(e) then init + [NameOf(e)] else init
  }

  /**
   * `getSheetNames`: the workbook part is parsed with a handler whose
   * `startElement` adds the `name` attribute of every `sheet` element to a
   * list; character data and element closes do nothing.
   */
  method GetSheetNames(workbook: seq<Event>) returns (names: seq<Option<string>>)
    ensures names == SheetNames(workbook)
  {
    names := [];
    for i := 0 to |workbook|
      invariant names == SheetNames(workbook[..i])
    {
      assert workbook[..i + 1][..i] == workbook[..i];
      var e := workbook[i];
      if e.Start? && e.name == "sheet" {
        names := names + [GetValue(e.attrs, "name")];
      }
    }
    assert workbook[..|workbook|] == workbook;
  }

  /** Extraction distributes over concatenation of event sequences. */
  lemma {:induction false} SheetNamesAppend(a: seq<Event>, b: seq<Event>)
    ensures SheetNames(a + b) == SheetNames(a) + SheetNames(b)
  {
    if b == [] {
      assert a + b == a;
    } else {
      var ab := a + b;
      assert ab[..|ab| - 1] == a + b[..|b| - 1] && ab[|ab| - 1] == b[|b| - 1];
      SheetNamesAppend(a, b[..|b| - 1]);
    }
  }

  /** Inserting an event that is not a `sheet` open changes nothing. */
  lemma OtherEventsIgnored(a: seq<Event>, e: Event, b: seq<Event>)
    requires !IsSheetOpen(e)
    ensures SheetNames(a + [e] + b) == SheetNames(a + b)
  {
    assert [e][..0] == [];
    SheetNamesAppend(a, [e]);
    SheetNamesAppend(a + [e], b);
    SheetNamesAppend(a, b);
  }

  /**
   * Order: the name of the `sheet` open at position `i` comes right after
   * the names of all earlier events.
   */
  lemma SheetNameAtPosition(events: seq<Event>, i: nat)
    requires i < |events| && IsSheetOpen(events[i])
    ensures |SheetNames(events[..i])| < |SheetNames(events)|
    ensures SheetNames(events)[|SheetNames(events[..i])|] == NameOf(events[i])
  {
    assert events == events[..i] + [events[i]] + events[i + 1..];
    assert [events[i]][..0] == [];
    SheetNamesAppend(events[..i], [events[i]]);
    SheetNamesAppend(events[..i] + [events[i]], events[i + 1..]);
  }

  /** One name per `sheet` open, duplicates included. */
  lemma {:induction false} SheetNamesCount(events: seq<Event>)
    ensures |SheetNames(events)| == |SheetOpenPositions(events)|
  {
    if events != [] {
      var n := |events| - 1;
      var init := events[..n];
      SheetNamesCount(init);
      var all, before := SheetOpenPositions(events), SheetOpenPositions(init);
      if IsSheetOpen(events[n]) {
        assert all == before + {n};
        assert n !in before;
      } else {
        assert all == before;
      }
    }
  }

  /** The list is empty exactly when no `sheet` element is opened. */
  lemma NoSheetsNoNames(events: seq<Event>)
    ensures SheetNames(events) == [] <==> forall i | 0 <= i < |events| :: !IsSheetOpen(events[i])
  {
    SheetNamesCount(events);
    if exists i | 0 <= i < |events| :: IsSheetOpen(events[i]) {
      var i :| 0 <= i < |events| && IsSheetOpen(events[i]);
      assert i in SheetOpenPositions(events);
    } else {
      assert SheetOpenPositions(events) == {};
    }
  }

  /** Two sheets declared with the same name are both listed. */
  lemma DuplicatesKept(a: Attributes)
    ensures SheetNames([Start("sheet", a), Start("sheet", a)]) == [GetValue(a, "name"), GetValue(a, "name")]
  {
  }

  /** A workbook declaring "User List" then "Statistics Summary" lists them in that order. */
  lemma WorkbookScenario()
    ensures SheetNames([
      Start("workbook", map[]), Start("sheets", map[]),
      Start("sheet", map["name" := "User List", "sheetId" := "1"]), End("sheet"),
      Start("sheet", map["name" := "Statistics Summary", "sheetId" := "2"]), End("sheet"),
      End("sheets"), End("workbook")]) == [Some("User List"), Some("Statistics Summary")]
  {
    var first: seq<Event> := [Start("workbook", map[]), Start("sheets", map[])];
    var second: seq<Event> := [Start("sheet", map["name" := "User List", "sheetId" := "1"]), End("sheet")];
    var third: seq<Event> := [Start("sheet", map["name" := "Statistics Summary", "sheetId" := "2"]), End("sheet")];
    var last: seq<Event> := [End("sheets"), End("workbook")];
    assert first[..1] == [first[0]] && first[..1][..0] == [];
    assert second[..1] == [second[0]] && second[..1][..0] == [];
    assert third[..1] == [third[0]] && third[..1][..0] == [];
    assert last[..1] == [last[0]] && last[..1][..0] == [];
    SheetNamesAppend(first, second);
    SheetNamesAppend(first + second, third);
    SheetNamesAppend(first + second + third, last);
    assert first + second + third + last == [
      Start("workbook", map[]), Start("sheets", map[]),
      Start("sheet", map["name" := "User List", "sheetId" := "1"]), End("sheet"),
      Start("sheet", map["name" := "Statistics Summary", "sheetId" := "2"]), End("sheet"),
      End("sheets"), End("workbook")];
  }

  /** Why `uploadSAXXlsx` stopped early. */
  datatype UploadError =
    | NoSheetPart                              // `getSheetsData().next()` on a package without sheets
    | CellError(cause: SheetHandling.Failure)  // an exception thrown by the sheet handler

  /** What `uploadSAXXlsx` reports on the console. */
  datatype Report = Report(
    sheetCount: nat,
    sheetNames: seq<Option<string>>,
    cells: seq<SheetHandling.Out>,
    error: Option<UploadError>)

  /**
   * `uploadSAXXlsx`: lists the sheet names with their count, then reads
   * the first worksheet part, in workbook order, with a fresh handler over
   * the shared string table.
   */
  method UploadSaxXlsx(workbook: seq<Event>, sheets: seq<seq<Event>>, sst: seq<string>) returns (r: Report)
    ensures r.sheetNames == SheetNames(workbook)
    ensures r.sheetCount == |r.sheetNames|
    ensures sheets == [] ==> r.cells == [] && r.error == Some(NoSheetPart)
    ensures sheets != [] ==>
      && r.cells == SheetHandling.Run(sst, sheets[0]).out
      && r.error == match SheetHandling.Run(sst, sheets[0]).failure
         case None => None
         case Some(f) => Some(CellError(f))
  {
    var names := GetSheetNames(workbook);
    if sheets == [] {
      return Report(|names|, names, [], Some(NoSheetPart));
    }
    var out, failure := SheetHandling.ParseSheet(sst, sheets[0]);
    var error := match failure
      case None => None
      case Some(f) => Some(CellError(f));
    r := Report(|names|, names, out, error);
  }
}
