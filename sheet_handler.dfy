/// The streaming worksheet reader: a SAX content handler that turns the
/// events of one worksheet part into cell values and row breaks, resolving
/// shared-string cells (`t="s"`, section 18.3.1.4 of ECMA-376 Part 1)
/// through the shared string table (section 18.4).
///
/// `Step` and `RunFrom` are the specification; the class `SheetHandler`
/// keeps the source's two mutable fields and its three callbacks, and
/// `ParseSheet` drives a fresh handler over an event sequence.
module SheetHandling {
  import opened Options
  import opened Sax
  import JavaInt

  /** What the handler writes to the console, in order. */
  datatype Out =
    | Value(text: string)  // `print(lastContents + "\t")`
    | RowBreak             // `println()`

  /** The exceptions that end a worksheet parse. */
  datatype Failure =
    | NumberFormat(input: string)  // `Integer.parseInt` rejected the text
    | IndexOutOfBounds(index: int) // `getItemAt` was given a missing index

  /** The handler's mutable fields. */
  datatype HandlerState = HandlerState(lastContents: string, isString: bool)

  /** The fields of a newly constructed handler. */
  const Initial := HandlerState("", false)

  /** The outcome of one callback: the new fields and what was printed, or the exception. */
  datatype StepResult =
    | Continue(state: HandlerState, emitted: seq<Out>)
    | Fail(failure: Failure)

  /** A cell element's `t` attribute is exactly "s" (a shared-string cell). */
  predicate IsSharedStringType(attrs: Attributes)
  {
    GetValue(attrs, "t") == Some("s")
  }

  /**
   * One callback applied to the handler's fields.  Element names are
   * compared exactly, so a prefixed name such as `x:c` is not a cell.
   */
  function Step(sst: seq<string>, s: HandlerState, e: Event): (r: StepResult)
    ensures r.Continue? ==> |r.emitted| <= 1
    ensures r.Fail? ==> e == End("v") && s.isString
  {
    match e
    case Start(name, attrs) =>
      Continue(HandlerState("", if name == "c" then IsSharedStringType(attrs) else s.isString), [])
    case Chars(text) =>
      Continue(s.(lastContents := s.lastContents + text), [])
    case End(name) =>
      if name == "v" then
        if s.isString then
          match JavaInt.ParseInt(s.lastContents)
          case None => Fail(NumberFormat(s.lastContents))
          case Some(idx) =>
            if 0 <= idx < |sst| then Continue(s.(lastContents := sst[idx]), [Value(sst[idx])])
            else Fail(IndexOutOfBounds(idx))
        else Continue(s, [Value(s.lastContents)])
      else if name == "row" then Continue(s, [RowBreak])
      else Continue(s, [])
  }

  /** The fields after a run, everything printed, and the exception that stopped it, if any. */
  datatype RunResult = RunResult(state: HandlerState, out: seq<Out>, failure: Option<Failure>)

  /** Applies one more event to a run, unless the run has already failed. */
  function After(sst: seq<string>, p: RunResult, e: Event): (r: RunResult)
    ensures |r.out| <= |p.out| + 1
  {
    if p.failure.Some? then p
    else
      match Step(sst, p.state, e)
      case Fail(f) => RunResult(p.state, p.out, Some(f))
      case Continue(s', emitted) => RunResult(s', p.out + emitted, None)
  }

  /**
   * Feeds `events` in order to a handler whose fields start as `s`.  The
   * first exception ends the run; what was printed before it stays printed.
   */
  function RunFrom(sst: seq<string>, s: HandlerState, events: seq<Event>): (r: RunResult)
    ensures |r.out| <= |events|
    decreases |events|
  {
    if events == [] then RunResult(s, [], None)
    else After(sst, RunFrom(sst, s, events[..|events| - 1]), events[|events| - 1])
  }

  /** A whole worksheet parse with a freshly constructed handler. */
  function Run(sst: seq<string>, events: seq<Event>): RunResult
  {
    RunFrom(sst, Initial, events)
  }

  /** Continues a run `p` with further events, unless it has already failed. */
  function Resume(sst: seq<string>, p: RunResult, events: seq<Event>): RunResult
  {
    if p.failure.Some? then p
    else
      var q := RunFrom(sst, p.state, events);
      RunResult(q.state, p.out + q.out, q.failure)
  }

  /** The console text of one printed item. */
  function Render(o: Out): string
  {
    match o
    case Value(text) => text + "\t"
    case RowBreak => "\n"
  }

  /** The console text of the printed items. */
  function Printed(out: seq<Out>): string
  {
    if out == [] then "" else Printed(out[..|out| - 1]) + Render(out[|out| - 1])
  }

  /** The character-data events for a list of text fragments. */
  function CharEvents(fragments: seq<string>): (events: seq<Event>)
    ensures |events| == |fragments|
  {
    if fragments == [] then [] else CharEvents(fragments[..|fragments| - 1]) + [Chars(fragments[|fragments| - 1])]
  }

  /** The concatenation of text fragments, in order. */
  function Concat(fragments: seq<string>): string
  {
    if fragments == [] then "" else Concat(fragments[..|fragments| - 1]) + fragments[|fragments| - 1]
  }

  class SheetHandler {
    /** The shared string table, read-only. */
    const sst: seq<string>
    /** The text accumulated since the last element open. */
    var lastContents: string
    /** Whether the current cell is a shared-string cell. */
    var isString: bool
    /** Everything this handler has printed, in order. */
    var out: seq<Out>

    function State(): HandlerState
      reads this
    {
      HandlerState(lastContents, isString)
    }

    constructor (sst: seq<string>)
      ensures this.sst == sst && State() == Initial && out == []
    {
      this.sst := sst;
      lastContents := "";
      isString := false;
      out := [];
    }

    /**
     * Element open: a `c` element sets the shared-string flag from its `t`
     * attribute (false when absent); every element clears the accumulator.
     */
    method StartElement(name: string, attributes: Attributes)
      modifies this
      ensures lastContents == ""
      ensures isString == if name == "c" then GetValue(attributes, "t") == Some("s") else old(isString)
      ensures out == old(out)
    {
      if name == "c" {
        var t := GetValue(attributes, "t");
        isString := t == Some("s");
      }
      lastContents := "";
    }

    /** Character data: the fragment is appended to the accumulator. */
    method Characters(text: string)
      modifies this
      ensures lastContents == old(lastContents) + text
      ensures isString == old(isString) && out == old(out)
    {
      lastContents := lastContents + text;
    }

    /**
     * Element close.  `</v>` prints the cell value: the accumulated text
     * verbatim, or for a shared-string cell the table entry whose index the
     * text denotes, which also replaces the accumulator.  `</row>` prints a
     * line break.  Any other close changes nothing.  A failure leaves the
     * fields and the printed output as they were.
     */
    method EndElement(name: string) returns (failure: Option<Failure>)
      modifies this
      ensures isString == old(isString)
      ensures name != "v" && name != "row" ==>
        failure == None && lastContents == old(lastContents) && out == old(out)
      ensures name == "row" ==>
        failure == None && lastContents == old(lastContents) && out == old(out) + [RowBreak]
      ensures name == "v" && !old(isString) ==>
        failure == None && lastContents == old(lastContents) && out == old(out) + [Value(old(lastContents))]
      ensures name == "v" && old(isString) ==>
        match JavaInt.ParseInt(old(lastContents))
        case None =>
          failure == Some(NumberFormat(old(lastContents))) && lastContents == old(lastContents) && out == old(out)
        case Some(idx) =>
          if 0 <= idx < |sst| then
            failure == None && lastContents == sst[idx] && out == old(out) + [Value(sst[idx])]
          else
            failure == Some(IndexOutOfBounds(idx)) && lastContents == old(lastContents) && out == old(out)
    {
      failure := None;
      if name == "v" {
        if isString {
          var idx := JavaInt.ParseInt(lastContents);
          if idx.None? {
            return Some(NumberFormat(lastContents));
          }
          if !(0 <= idx.value < |sst|) {
            return Some(IndexOutOfBounds(idx.value));
          }
          lastContents := sst[idx.value];
        }
        out := out + [Value(lastContents)];
      }
      if name == "row" {
        out := out + [RowBreak];
      }
    }
  }

  /**
   * `parser.parse` with a fresh handler: the callbacks are applied in event
   * order until the first exception, which ends the parse.
   */
  method ParseSheet(sst: seq<string>, events: seq<Event>) returns (out: seq<Out>, failure: Option<Failure>)
    ensures out == Run(sst, events).out
    ensures failure == Run(sst, events).failure
  {
    var handler := new SheetHandler(sst);
    var i := 0;
    failure := None;
    while i < |events| && failure.None?
      invariant 0 <= i <= |events|
      invariant handler.sst == sst
      invariant Run(sst, events[..i]) == RunResult(handler.State(), handler.out, failure)
      invariant failure.Some? ==> Run(sst, events) == Run(sst, events[..i])
      decreases |events| - i
    {
      assert events[..i + 1][..i] == events[..i];
      match events[i] {
        case Start(name, attrs) =>
          handler.StartElement(name, attrs);
        case Chars(text) =>
          handler.Characters(text);
        case End(name) =>
          failure := handler.EndElement(name);
      }
      i := i + 1;
      if failure.Some? {
        RunStopsAtFailure(sst, Initial, events, i);
      }
    }
    if failure.None? {
      assert events[..i] == events;
    }
    out := handler.out;
  }

  /** Output printed before a run resumes stays in front of what the step prints. */
  lemma AfterShift(sst: seq<string>, prior: seq<Out>, q: RunResult, e: Event)
    ensures After(sst, RunResult(q.state, prior + q.out, q.failure), e)
         == RunResult(After(sst, q, e).state, prior + After(sst, q, e).out, After(sst, q, e).failure)
  {
  }

  /** Running a concatenation is running the first part, then resuming with the second. */
  lemma {:induction false} RunFromAppend(sst: seq<string>, s: HandlerState, a: seq<Event>, b: seq<Event>)
    ensures RunFrom(sst, s, a + b) == Resume(sst, RunFrom(sst, s, a), b)
  {
    if b == [] {
      assert a + b == a;
    } else {
      var ab := a + b;
      var init, e := b[..|b| - 1], b[|b| - 1];
      assert ab[..|ab| - 1] == a + init && ab[|ab| - 1] == e;
      RunFromAppend(sst, s, a, init);
      var pa := RunFrom(sst, s, a);
      if pa.failure.None? {
        AfterShift(sst, pa.out, RunFrom(sst, pa.state, init), e);
      }
    }
  }

  /**
   * Output is append-only: what a prefix of the events printed is a prefix
   * of what the whole sequence prints.
   */
  lemma RunOutputGrows(sst: seq<string>, s: HandlerState, events: seq<Event>, j: nat)
    requires j <= |events|
    ensures RunFrom(sst, s, events[..j]).out <= RunFrom(sst, s, events).out
  {
    assert events == events[..j] + events[j..];
    RunFromAppend(sst, s, events[..j], events[j..]);
  }

  /** Once an event has failed, later events neither print nor change anything. */
  lemma RunStopsAtFailure(sst: seq<string>, s: HandlerState, events: seq<Event>, j: nat)
    requires j <= |events|
    requires RunFrom(sst, s, events[..j]).failure.Some?
    ensures RunFrom(sst, s, events) == RunFrom(sst, s, events[..j])
  {
    assert events == events[..j] + events[j..];
    RunFromAppend(sst, s, events[..j], events[j..]);
  }

  /** What one successful callback prints, counted by kind. */
  lemma StepAccounting(sst: seq<string>, s: HandlerState, e: Event)
    requires Step(sst, s, e).Continue?
    ensures multiset(Step(sst, s, e).emitted)[RowBreak] == if e == End("row") then 1 else 0
    ensures |Step(sst, s, e).emitted| == if e == End("v") || e == End("row") then 1 else 0
  {
  }

  /**
   * In a run without failure every printed item comes from one close
   * event: the row breaks are exactly the `</row>` events and the other
   * items exactly the `</v>` events.
   */
  lemma {:induction false} OutputAccounting(sst: seq<string>, s: HandlerState, events: seq<Event>)
    requires RunFrom(sst, s, events).failure.None?
    ensures multiset(RunFrom(sst, s, events).out)[RowBreak] == multiset(events)[End("row")]
    ensures |RunFrom(sst, s, events).out| == multiset(events)[End("v")] + multiset(events)[End("row")]
  {
    if events != [] {
      var init, e := events[..|events| - 1], events[|events| - 1];
      assert events == init + [e];
      var p := RunFrom(sst, s, init);
      assert p.failure.None?;
      OutputAccounting(sst, s, init);
      StepAccounting(sst, p.state, e);
      var emitted := Step(sst, p.state, e).emitted;
      assert RunFrom(sst, s, events).out == p.out + emitted;
      assert multiset(p.out + emitted) == multiset(p.out) + multiset(emitted);
      assert multiset(events) == multiset(init) + multiset{e};
    }
  }

  /** Character data split into fragments accumulates to their concatenation. */
  lemma {:induction false} FragmentsConcatenate(sst: seq<string>, s: HandlerState, fragments: seq<string>)
    ensures RunFrom(sst, s, CharEvents(fragments))
         == RunResult(s.(lastContents := s.lastContents + Concat(fragments)), [], None)
  {
    if fragments != [] {
      var init := fragments[..|fragments| - 1];
      var events := CharEvents(fragments);
      assert events[..|events| - 1] == CharEvents(init);
      FragmentsConcatenate(sst, s, init);
    }
  }

  /** The events of one cell whose value arrives as the given fragments. */
  function CellEvents(cellAttrs: Attributes, valueAttrs: Attributes, fragments: seq<string>): seq<Event>
  {
    [Start("c", cellAttrs), Start("v", valueAttrs)] + CharEvents(fragments) + [End("v"), End("c")]
  }

  /** Runs a cell's events: opening `c` and `v`, the fragments, then the two closes. */
  lemma CellRun(sst: seq<string>, s: HandlerState, cellAttrs: Attributes, valueAttrs: Attributes, fragments: seq<string>)
    ensures RunFrom(sst, s, CellEvents(cellAttrs, valueAttrs, fragments))
         == Resume(sst, RunResult(HandlerState(Concat(fragments), IsSharedStringType(cellAttrs)), [], None), [End("v"), End("c")])
  {
    var opens: seq<Event> := [Start("c", cellAttrs), Start("v", valueAttrs)];
    var cellOpen := HandlerState("", IsSharedStringType(cellAttrs));
    assert opens[..1] == [Start("c", cellAttrs)] && opens[..1][..0] == [];
    assert RunFrom(sst, s, opens[..1]) == RunResult(cellOpen, [], None);
    assert RunFrom(sst, s, opens) == RunResult(cellOpen, [], None);
    var chars := CharEvents(fragments);
    FragmentsConcatenate(sst, cellOpen, fragments);
    assert "" + Concat(fragments) == Concat(fragments);
    RunFromAppend(sst, s, opens, chars);
    assert RunFrom(sst, s, opens + chars)
        == RunResult(HandlerState(Concat(fragments), IsSharedStringType(cellAttrs)), [], None);
    RunFromAppend(sst, s, opens + chars, [End("v"), End("c")]);
    assert CellEvents(cellAttrs, valueAttrs, fragments) == opens + chars + [End("v"), End("c")];
  }

  /**
   * A cell that is not a shared-string cell prints the concatenated text
   * of its value verbatim.
   */
  lemma LiteralCell(sst: seq<string>, s: HandlerState, cellAttrs: Attributes, valueAttrs: Attributes, fragments: seq<string>)
    requires !IsSharedStringType(cellAttrs)
    ensures RunFrom(sst, s, CellEvents(cellAttrs, valueAttrs, fragments)).out == [Value(Concat(fragments))]
    ensures RunFrom(sst, s, CellEvents(cellAttrs, valueAttrs, fragments)).failure == None
  {
    CellRun(sst, s, cellAttrs, valueAttrs, fragments);
    var mid := HandlerState(Concat(fragments), false);
    var closes := [End("v"), End("c")];
    assert closes[..1] == [End("v")] && closes[..1][..0] == [];
    assert RunFrom(sst, mid, closes).out == [Value(Concat(fragments))];
  }

  /**
   * A shared-string cell prints `sst[idx]` for the index its text denotes;
   * it fails, printing nothing, when the text is not an integer or the
   * index lies outside the table.
   */
  lemma SharedStringCell(sst: seq<string>, s: HandlerState, cellAttrs: Attributes, valueAttrs: Attributes, fragments: seq<string>)
    requires IsSharedStringType(cellAttrs)
    ensures var r := RunFrom(sst, s, CellEvents(cellAttrs, valueAttrs, fragments));
      match JavaInt.ParseInt(Concat(fragments))
      case None => r.out == [] && r.failure == Some(NumberFormat(Concat(fragments)))
      case Some(idx) =>
        if 0 <= idx < |sst| then r.out == [Value(sst[idx])] && r.failure == None
        else r.out == [] && r.failure == Some(IndexOutOfBounds(idx))
  {
    CellRun(sst, s, cellAttrs, valueAttrs, fragments);
    var mid := HandlerState(Concat(fragments), true);
    var closes := [End("v"), End("c")];
    assert closes[..1] == [End("v")] && closes[..1][..0] == [];
    var valueClose := [End("v")];
    assert valueClose[..0] == [] && RunFrom(sst, mid, []) == RunResult(mid, [], None);
    var afterValue := RunFrom(sst, mid, valueClose);
    assert afterValue == After(sst, RunFrom(sst, mid, []), End("v"));
    assert RunFrom(sst, mid, closes) == After(sst, afterValue, End("c"));
  }

  /** The console text of the output only ever grows. */
  lemma {:induction false} PrintedAppend(a: seq<Out>, b: seq<Out>)
    ensures Printed(a + b) == Printed(a) + Printed(b)
  {
    if b != [] {
      var ab := a + b;
      assert ab[..|ab| - 1] == a + b[..|b| - 1] && ab[|ab| - 1] == b[|b| - 1];
      PrintedAppend(a, b[..|b| - 1]);
    } else {
      assert a + b == a;
    }
  }

  /** Fragments "He" and "llo" of one literal value print "Hello". */
  lemma HelloScenario(sst: seq<string>)
    ensures Run(sst, CellEvents(map[], map[], ["He", "llo"])).out == [Value("Hello")]
  {
    LiteralCell(sst, Initial, map[], map[], ["He", "llo"]);
    var fragments := ["He", "llo"];
    assert fragments[..1] == ["He"] && fragments[..1][..0] == [];
    assert Concat(fragments) == "Hello";
  }

  /** Table ["Category A", "Category B"]: index "1" resolves, index "5" is out of range. */
  lemma CategoryScenario()
    ensures Run(["Category A", "Category B"], CellEvents(map["t" := "s"], map[], ["1"])).out == [Value("Category B")]
    ensures Run(["Category A", "Category B"], CellEvents(map["t" := "s"], map[], ["5"])).out == []
    ensures Run(["Category A", "Category B"], CellEvents(map["t" := "s"], map[], ["5"])).failure
         == Some(IndexOutOfBounds(5))
  {
    var sst := ["Category A", "Category B"];
    JavaInt.ParseIntDecimal(1);
    JavaInt.ParseIntDecimal(5);
    assert Concat(["1"]) == "1" && Concat(["5"]) == "5";
    SharedStringCell(sst, Initial, map["t" := "s"], map[], ["1"]);
    SharedStringCell(sst, Initial, map["t" := "s"], map[], ["5"]);
  }
}
