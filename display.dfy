/**
 * The controller's shared session state and its event router.
 *
 * `State` holds the backstack and the two most recent data snapshots; the
 * router `OpenQ1Display` owns a `State`, changes pages on request, maps
 * connection statuses to page changes and hands every inbound event to the
 * page on top of the backstack. The display link is reduced to the log of
 * commands sent to it, and each page handler to a recorded delivery.
 */
module Display {
  import opened Navigation

  /** A key/value snapshot from the printer backend, replaced wholesale on update. */
  type Snapshot = map<string, string>

  /** A touch/UI event reported by the display: its type and its payload. */
  datatype DisplayEvent = DisplayEvent(kind: string, data: string)

  /** What a page handler is called with. */
  datatype Event =
    | FromDisplay(display: DisplayEvent)
    | PrinterStatusUpdate(printerData: Snapshot)
    | FileListUpdate(fileList: Snapshot)

  /**
   * One call of a page handler: the position in the backstack and the name of
   * the page that was on top when the event was dispatched, and the event.
   */
  datatype Delivery = Delivery(position: nat, page: PageName, event: Event)

  class State {
    var printerData: Snapshot
    var fileList: Snapshot
    var backstack: Stack

    /** Empty snapshots and the given backstack (the controller starts from []). */
    constructor (initial: Stack)
      ensures printerData == map[] && fileList == map[] && backstack == initial
    {
      printerData := map[];
      fileList := map[];
      backstack := initial;
    }

    /** The page on top of the backstack; an empty backstack raises IndexError. */
    function CurrentPage(): (r: Outcome<PageName>)
      reads this
      ensures r.IndexError? <==> backstack == []
      ensures r.Ok? ==> r.value == backstack[|backstack| - 1]
    {
      if backstack == [] then IndexError else Ok(backstack[|backstack| - 1])
    }
  }

  class OpenQ1Display {
    const state: State
    /** The commands sent to the display, oldest first. */
    var commands: seq<string>
    /** The page-handler invocations dispatched so far, oldest first. */
    var deliveries: seq<Delivery>

    constructor (initial: Stack)
      ensures fresh(state)
      ensures state.backstack == initial && state.printerData == map[] && state.fileList == map[]
      ensures commands == [] && deliveries == []
    {
      state := new State(initial);
      commands := [];
      deliveries := [];
    }

    /**
     * The effect of one `changePage(target)` that finished with `ok`: on
     * success the stack is the navigation rule's result and exactly one
     * command naming the target was appended; on failure nothing changed.
     */
    twostate predicate ChangedPage(target: PageName, ok: bool)
      reads this, state
    {
      var r := Navigate(old(state.backstack), target);
      && ok == r.Ok?
      && (ok ==> state.backstack == r.value && commands == old(commands) + [PageCommand(target)])
      && (!ok ==> state.backstack == old(state.backstack) && commands == old(commands))
    }

    /**
     * The effect of handing `event` to the current page with outcome `ok`:
     * exactly one delivery to the page on top, or none when the backstack
     * is empty.
     */
    twostate predicate Dispatched(event: Event, ok: bool)
      reads this, state
    {
      var s := state.backstack;
      && ok == (s != [])
      && (ok ==> deliveries == old(deliveries) + [Delivery(|s| - 1, s[|s| - 1], event)])
      && (!ok ==> deliveries == old(deliveries))
    }

    /** Pop back to `target` when it is the second-from-top page, otherwise push it; then switch the display. */
    method ChangePage(target: PageName) returns (ok: bool)
      modifies state`backstack, this`commands
      ensures ChangedPage(target, ok)
      ensures ok ==> state.CurrentPage() == Ok(target)
      ensures state.printerData == old(state.printerData) && state.fileList == old(state.fileList)
      ensures deliveries == old(deliveries)
    {
      var n := |state.backstack|;
      if n < 2 {
        // backstack[-2] raises IndexError before anything is changed
        return false;
      }
      if state.backstack[n - 2] == target {
        state.backstack := state.backstack[..n - 1];
      } else {
        state.backstack := state.backstack + [target];
      }
      commands := commands + [PageCommand(target)];
      ok := true;
    }

    /** React to a connection status through the fixed status table; `ok` is the outcome of the page change it schedules. */
    method OnConnectionEvent(status: PrinterStatus) returns (ok: bool)
      modifies state`backstack, this`commands
      ensures status == NotReady ==> ChangedPage("boot", ok)
      ensures status == Ready ==> ChangedPage("main", ok)
      ensures status.IsInert() ==>
                ok && state.backstack == old(state.backstack) && commands == old(commands)
      ensures state.printerData == old(state.printerData) && state.fileList == old(state.fileList)
      ensures deliveries == old(deliveries)
    {
      match ConnectionTarget(status)
      case Some(target) =>
        ok := ChangePage(target);
      case None =>
        ok := true;
    }

    /** Forward a display event, unmodified, to the page on top. */
    method OnDisplayEvent(event: DisplayEvent) returns (ok: bool)
      modifies this`deliveries
      ensures Dispatched(FromDisplay(event), ok)
      ensures unchanged(state) && commands == old(commands)
    {
      ok := Deliver(FromDisplay(event));
    }

    /** Replace the printer-status snapshot, then forward it to the page on top. */
    method OnPrinterStatusUpdate(data: Snapshot) returns (ok: bool)
      modifies state`printerData, this`deliveries
      ensures state.printerData == data
      ensures state.fileList == old(state.fileList) && state.backstack == old(state.backstack)
      ensures Dispatched(PrinterStatusUpdate(data), ok)
      ensures commands == old(commands)
    {
      state.printerData := data;
      ok := Deliver(PrinterStatusUpdate(data));
    }

    /** Replace the file-list snapshot, then forward it to the page on top. */
    method OnFileListUpdate(data: Snapshot) returns (ok: bool)
      modifies state`fileList, this`deliveries
      ensures state.fileList == data
      ensures state.printerData == old(state.printerData) && state.backstack == old(state.backstack)
      ensures Dispatched(FileListUpdate(data), ok)
      ensures commands == old(commands)
    {
      state.fileList := data;
      ok := Deliver(FileListUpdate(data));
    }

    /** Record one handler call on the page on top; an empty backstack raises IndexError. */
    method Deliver(event: Event) returns (ok: bool)
      modifies this`deliveries
      ensures Dispatched(event, ok)
    {
      match state.CurrentPage()
      case IndexError =>
        ok := false;
      case Ok(page) =>
        deliveries := deliveries + [Delivery(|state.backstack| - 1, page, event)];
        ok := true;
    }
  }

  /**
   * A client run on the stack [boot, main]: NOT_READY goes back to boot and
   * later events reach boot, while READY fails on the one-entry stack.
   */
  method StatusRun() {
    var app := new OpenQ1Display(["boot", "main"]);
    var ok := app.OnConnectionEvent(NotReady);
    assert ["boot", "main"][..1] == ["boot"];
    assert ok && app.state.backstack == ["boot"] && app.commands == [PageCommand("boot")];
    ok := app.OnDisplayEvent(DisplayEvent("touch", "b0"));
    assert ok && app.deliveries == [Delivery(0, "boot", FromDisplay(DisplayEvent("touch", "b0")))];
    ok := app.OnConnectionEvent(Ready);
    assert !ok && app.state.backstack == ["boot"] && app.commands == [PageCommand("boot")];
    ok := app.OnConnectionEvent(KlipperErr);
    assert app.state.backstack == ["boot"];
  }

  /** A run from the controller's real starting point, an empty backstack: neither an update nor READY reaches a page or moves the display. */
  method EmptyStartRun() {
    var app := new OpenQ1Display([]);
    var ok := app.OnPrinterStatusUpdate(map["state" := "ready"]);
    assert !ok && app.state.printerData == map["state" := "ready"] && app.deliveries == [];
    ok := app.OnConnectionEvent(Ready);
    assert !ok && app.state.backstack == [] && app.commands == [];
  }
}
