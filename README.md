# Streaming SpreadsheetML reader

A Dafny model of the event-based (SAX) reading path of the spreadsheet
upload service: the `SheetHandler` content handler that turns one worksheet
part of an Office Open XML package into cell values and row breaks, the
sheet-name listing of `getSheetNames`, and the `uploadSAXXlsx` sequence
that ties them together.  The cell element `c` is described in section
18.3.1.4 of ECMA-376 Part 1 and the shared string table in section 18.4.

The XML tokenizer is abstracted away: a part is the sequence of callbacks it
delivers, `Start(qName, attributes)`, `Chars(text)` and `End(qName)`
(`sax.dfy`).  The shared string table is a `seq<string>`.  The handler's
console output is a sequence of `Value(text)` items (`print(text + "\t")`)
and `RowBreak` items (`println()`).

- `java_int.dfy`: `Integer.parseInt` in radix 10. The input is an optional
  sign, then one or more digits, and the value must fit in an `int`. Any
  other input is a `NumberFormatException`. The module also proves a round
  trip with the decimal rendering.
- `sheet_handler.dfy`: `Step` is one callback applied to the handler's
  fields `lastContents` and `isString`. `RunFrom`/`Run` fold `Step` over
  an event sequence and stop at the first exception. The class
  `SheetHandler` has the source's fields and its three callbacks as methods.
  `ParseSheet` is the parse loop that drives a fresh handler, proved equal
  to `Run`. Lemmas cover whole-stream properties.
- `upload_service.dfy`: `SheetNames` is the specification of the sheet-name
  filter. `GetSheetNames` is the loop that appends to the list.
  `UploadSaxXlsx` is the coordinator.

Element names are compared exactly, as the source does with `equals` on
the qualified name, so a prefixed `x:c`, `x:v` or `x:row` is not
recognised.  Cell positions are never reconstructed from the `r`
attribute: values come out in document order, and a sparse row simply has
fewer values.

## Model

| member | source | states |
|---|---|---|
| `JavaInt.ParseInt` | src/main/java/com/example/apachepoilearning/domain/upload/service/SheetHandler.java:75 | a parsed index is a Java `int`, and only text made of an optional sign followed by at least one digit is accepted |
| `JavaInt.ParseIntDecimal` | src/main/java/com/example/apachepoilearning/domain/upload/service/SheetHandler.java:75 | every `int` written in decimal parses back to itself; the decimal text of a value outside the `int` range is rejected |
| `JavaInt.ParseIntLeadingZero` | src/main/java/com/example/apachepoilearning/domain/upload/service/SheetHandler.java:75 | a leading zero does not change the parsed index ("01" denotes 1) |
| `SheetHandling.Step` | src/main/java/com/example/apachepoilearning/domain/upload/service/SheetHandler.java:34-88 | a callback prints at most one item, and the only callback that can fail is `</v>` in a shared-string cell |
| `SheetHandling.RunFrom` | src/main/java/com/example/apachepoilearning/domain/upload/service/SheetHandler.java:34-88 | a run prints no more items than it has events |
| `SheetHandling.SheetHandler.constructor` | src/main/java/com/example/apachepoilearning/domain/upload/service/SheetHandler.java:11-23 | a new handler holds the given table, an empty accumulator, the flag false, and has printed nothing |
| `SheetHandling.SheetHandler.StartElement` | src/main/java/com/example/apachepoilearning/domain/upload/service/SheetHandler.java:34-45 | after any element open the accumulator is empty; opening `c` sets the flag exactly when `t` is "s" (false when absent); other opens keep the flag; nothing is printed |
| `SheetHandling.SheetHandler.Characters` | src/main/java/com/example/apachepoilearning/domain/upload/service/SheetHandler.java:55-59 | character data is appended to the accumulator; flag and output unchanged |
| `SheetHandling.SheetHandler.EndElement` | src/main/java/com/example/apachepoilearning/domain/upload/service/SheetHandler.java:69-88 | `</v>` prints the accumulated text verbatim, or in a shared-string cell `sst[idx]` for the parsed index (which also replaces the accumulator); it fails with a format error on non-integer text and a range error for `idx < 0` or `idx >= \|sst\|`, printing nothing and changing nothing; `</row>` prints one row break; any other close changes nothing |
| `SheetHandling.ParseSheet` | src/main/java/com/example/apachepoilearning/domain/upload/service/UploadService.java:122-127 | parsing a sheet with a fresh handler prints exactly `Run`'s output and ends with `Run`'s exception |
| `SheetHandling.RunFromAppend` | src/main/java/com/example/apachepoilearning/domain/upload/service/SheetHandler.java:34-88 | running two event sequences one after the other is running the first, then continuing from its state unless it failed |
| `SheetHandling.RunOutputGrows` | src/main/java/com/example/apachepoilearning/domain/upload/service/SheetHandler.java:80-86 | output is append-only: what any prefix of the events prints is a prefix of what the whole stream prints |
| `SheetHandling.RunStopsAtFailure` | src/main/java/com/example/apachepoilearning/domain/upload/service/SheetHandler.java:75-77 | once an event has thrown, later events print nothing and change nothing, and earlier output is kept |
| `SheetHandling.StepAccounting` | src/main/java/com/example/apachepoilearning/domain/upload/service/SheetHandler.java:69-88 | a successful callback prints one item exactly for `</v>` and `</row>`, and a row break exactly for `</row>` |
| `SheetHandling.OutputAccounting` | src/main/java/com/example/apachepoilearning/domain/upload/service/SheetHandler.java:69-88 | over a stream without failure the row breaks equal the number of `</row>` events, and the number of items equals the `</v>` events plus the `</row>` events |
| `SheetHandling.FragmentsConcatenate` | src/main/java/com/example/apachepoilearning/domain/upload/service/SheetHandler.java:55-59 | character data split into any number of fragments accumulates to their concatenation and prints nothing |
| `SheetHandling.CellRun` | src/main/java/com/example/apachepoilearning/domain/upload/service/SheetHandler.java:34-88 | opening `c` and `v` and then delivering the fragments leaves the concatenated text and the cell's string flag, before the closes |
| `SheetHandling.LiteralCell` | src/main/java/com/example/apachepoilearning/domain/upload/service/SheetHandler.java:71-80 | a cell whose type is not "s" prints the concatenated text of its value verbatim, once, without failure |
| `SheetHandling.SharedStringCell` | src/main/java/com/example/apachepoilearning/domain/upload/service/SheetHandler.java:71-80 | a shared-string cell prints `sst[idx]` for the index its text denotes; a non-integer text is a format error and an index outside the table a range error, both printing nothing |
| `SheetHandling.PrintedAppend` | src/main/java/com/example/apachepoilearning/domain/upload/service/SheetHandler.java:80-86 | the console text of concatenated output is the concatenation of the console texts |
| `SheetHandling.HelloScenario` | src/main/java/com/example/apachepoilearning/domain/upload/service/SheetHandler.java:55-59 | fragments "He" and "llo" of a literal value print "Hello" |
| `SheetHandling.CategoryScenario` | src/main/java/com/example/apachepoilearning/domain/upload/service/SheetHandler.java:73-80 | with the table ["Category A", "Category B"], index "1" prints "Category B" and index "5" fails with a range error, printing nothing |
| `UploadService.SheetNames` | src/main/java/com/example/apachepoilearning/domain/upload/service/UploadService.java:154-160 | the name list never has more entries than the workbook has events |
| `UploadService.GetSheetNames` | src/main/java/com/example/apachepoilearning/domain/upload/service/UploadService.java:138-166 | the returned list is the `name` attribute of every `sheet` open, in event order |
| `UploadService.SheetNamesAppend` | src/main/java/com/example/apachepoilearning/domain/upload/service/UploadService.java:154-160 | the list for concatenated event sequences is the concatenation of their lists |
| `UploadService.OtherEventsIgnored` | src/main/java/com/example/apachepoilearning/domain/upload/service/UploadService.java:147-161 | character data, element closes and opens of elements other than `sheet` add nothing |
| `UploadService.SheetNameAtPosition` | src/main/java/com/example/apachepoilearning/domain/upload/service/UploadService.java:156-158 | the name of the `sheet` open at position i is in the list just after the names of all earlier events |
| `UploadService.SheetNamesCount` | src/main/java/com/example/apachepoilearning/domain/upload/service/UploadService.java:158 | the list has one entry per `sheet` open: duplicates are kept |
| `UploadService.NoSheetsNoNames` | src/main/java/com/example/apachepoilearning/domain/upload/service/UploadService.java:140-165 | the list is empty exactly when no `sheet` element is opened; this is not an error |
| `UploadService.DuplicatesKept` | src/main/java/com/example/apachepoilearning/domain/upload/service/UploadService.java:158 | two sheets declared with the same name are both listed |
| `UploadService.WorkbookScenario` | src/main/java/com/example/apachepoilearning/domain/upload/service/UploadService.java:154-160 | a workbook declaring "User List" then "Statistics Summary" lists exactly those, in that order |
| `UploadService.UploadSaxXlsx` | src/main/java/com/example/apachepoilearning/domain/upload/service/UploadService.java:89-128 | the reported sheet count is the length of the name list; the first worksheet part is read with a fresh handler, and a package without worksheet parts stops with `NoSuchElementException` before any cell |

## Left out

- Opening the package, locating parts, building the shared string table and tokenizing XML. These are foreign library calls. Each part is the event sequence the tokenizer delivers, and the table is a `seq<string>`. A tokenizer error for malformed or truncated XML is therefore not a model failure. `RunOutputGrows` and `RunStopsAtFailure` still state what such a stop preserves: everything printed for the events before it.
- `JavaInt.ParseInt`: accepts only the ASCII digits '0' to '9'. Java's `Character.digit` also accepts the decimal digits of other scripts. The model reports those as a format error.
- Console line breaks: `println()` writes the platform line separator. The model writes "\n".
- A shared-string entry with rich-text runs is taken as its already-flattened text. `getString` is library code.
- Sheet parts after the first, and sheet selection other than the first part: `uploadSAXXlsx` reads only the first.
- The workbook-object reading path (`uploadXlsx`), the download and writing path, and the HTTP controllers: library-call sequencing and web routing.
- Releasing the package and its streams: the source never closes them, so there is nothing to model.
- The `uri` and `localName` callback arguments: the source reads only the qualified name.
