# OpenQ1Display page router, modelled in Dafny

OpenQ1Display drives a serial touchscreen for a 3D printer. Its core is a
small state machine in `src/display.py`. A session `State` holds a
backstack of pages, whose top is the page on screen, and the latest
printer-status and file-list snapshots. The router `OpenQ1Display` does four
things:

- it changes pages on request with a one-level "back" rule;
- it turns backend connection statuses into page changes through a fixed table;
- it replaces the snapshots when data arrives;
- it hands every display event and every data update to the page on top.

The model has two modules:

- `navigation.dfy` (module `Navigation`) holds the navigation rule on plain
  stacks of page names. `Navigate` is one `changePage`. `ConnectionTarget`
  is the status table. `Replay` runs a sequence of page changes and
  `StatusTargets` a sequence of connection statuses. Lemmas about them sit
  beside them.
- `display.dfy` (module `Display`) holds the classes `State` and
  `OpenQ1Display`, with the fields the source updates in place.
  `ChangePage` mutates the backstack step by step, as `pop()`/`append()` do,
  and is proved to agree with `Navigate`. The handlers reassign the snapshot
  fields and record one delivery per dispatched event.

Modelling conventions:

- A page is its name.
- The display link is the log `commands` of the strings sent to it.
- A page handler call is an entry in `deliveries`. An entry holds the
  position and name of the page on top at dispatch time, and the event.
- Python's `backstack[-1]` and `backstack[-2]` raise `IndexError` on a
  list that is too short. That is the explicit outcome `IndexError` (or
  `ok == false`), and the state is left as the source leaves it.

## Behaviour of the code on short and repeated stacks

- `changePage` reads `backstack[-2]` with no length guard
  (src/display.py:103). On a stack of fewer than two entries every page
  change raises `IndexError` before anything changes, and no command is
  sent. `Replay` proves that on such a stack no sequence of requests ever
  moves.
- `State` starts with an empty backstack (src/display.py:40), and `init`
  never pushes a page (src/display.py:110-112). The constructors take the
  initial stack as a parameter; the source's own start is `[]`. From `[]`,
  `Replay` proves that no sequence of page changes moves the stack, and
  `Dispatched` gives no delivery on an empty stack. `EmptyStartRun` shows a
  run from `[]` in which neither an update nor READY reaches a page.
- READY on `[boot]` raises `IndexError`, so the display cannot move from a
  lone boot page. `NotReadyThenReadyFromMain` shows a run that gets stuck
  this way.
- Two adjacent entries with the same name can arise. A target equal to the
  page on top, and different from the page below it, is pushed again
  (`TopTargetPushesDuplicate`).
- With an empty backstack, `onPrinterStatusUpdate` and `onFileListUpdate`
  still replace the snapshot first. Only the lookup of the current page
  fails (src/display.py:95-96, 99-100).

## Model

| member | source | states |
|---|---|---|
| Navigation.Navigate | src/display.py:102-106 | fails with IndexError exactly when the stack has fewer than two entries; on success the target is on top; if the second-from-top name is the target, exactly the top entry is removed and the rest is a prefix of the old stack; otherwise exactly one entry is added on top of the old stack |
| Navigation.PageCommandInjective | src/display.py:108 | the command `"page " + target` determines its target, so the command log names the pages navigated to |
| Navigation.ConnectionTarget | src/display.py:79-92 | NOT_READY requests "boot", READY requests "main", and exactly STOPPED, MOONRAKER_ERR and KLIPPER_ERR request nothing |
| Navigation.StatusTargets | src/display.py:79-92 | a run of statuses requests at most one page per status, only "boot" or "main", and none at all when every status is inert; a single status requests exactly its table entry, if any |
| Navigation.StatusTargetsConcat | src/display.py:79-92 | the requests of two consecutive runs of statuses are those of the first run followed by those of the second, so with the single-status case every non-inert status requests its page, in order |
| Navigation.Replay | src/display.py:102-108 | over any sequence of page changes: the requests that succeed are a prefix of the run and the i-th command is `"page "` plus the i-th target; a request is dropped only once the stack has fewer than two entries; a run that sends nothing leaves the stack as it was; the last command names the page finally on top; the stack grows by at most one entry per request, a non-empty stack never becomes empty, and a stack of fewer than two entries never moves and sends nothing |
| Navigation.CommandLogNamesRequests | src/display.py:102-108 | the i-th command of a run determines the i-th request: a command `"page " + p` at position i means p was the i-th target |
| Navigation.ForwardThenBackRestores | src/display.py:103-106 | going forward to a page and then to the page that was on top restores the stack exactly and sends both commands |
| Navigation.BackToTop | src/display.py:103-104 | after a page is pushed, a request for the page just below it pops it again: the stack is exactly the one before the push, with one "page" command for the page returned to |
| Navigation.PopAfterPush | src/display.py:103-104 | on a non-empty stack, pushing a page and then requesting the page below it pops exactly the pushed entry |
| Navigation.TopTargetPushesDuplicate | src/display.py:103-106 | a target equal to the current top (and not to the page below it) is pushed again, producing two adjacent entries with the same name |
| Navigation.DeeperTargetPushes | src/display.py:103-106 | a target that appears deeper than one level below the top is pushed as a new entry: only one level back is examined |
| Navigation.InertStatusesChangeNothing | src/display.py:87-92 | a run of STOPPED, MOONRAKER_ERR and KLIPPER_ERR statuses leaves any stack unchanged and sends no command |
| Navigation.NotReadyThenReadyFromMain | src/display.py:79-86 | from [boot, main], NOT_READY pops back to [boot] with one "page boot" command, and the following READY fails on the one-entry stack |
| Display.State.CurrentPage | src/display.py:42-43 | IndexError exactly when the backstack is empty; otherwise the last element of the backstack |
| Display.State.constructor | src/display.py:33-40 | both snapshots start empty and the backstack is the given initial stack (the source's is empty) |
| Display.OpenQ1Display.constructor | src/display.py:53-54 | the router owns a fresh `State` whose snapshots are empty and whose backstack is the given initial stack; no command has been sent and nothing delivered |
| Display.OpenQ1Display.Deliver | src/display.py:76-77 | the `currentPage()` lookup and dispatch shared by the three forwarding handlers (also src/display.py:96 and 100): exactly one delivery of the event to the position and name of the page on top, or, on an empty backstack, the IndexError outcome and no delivery |
| Display.OpenQ1Display.ChangePage | src/display.py:102-108 | succeeds exactly when the stack has at least two entries; then the new backstack is `Navigate`'s result, the target is the current page, and exactly one command `"page " + target` is appended; on failure nothing changes; snapshots and deliveries never change |
| Display.OpenQ1Display.OnConnectionEvent | src/display.py:79-92 | NOT_READY has exactly the effect of changing to "boot", READY that of changing to "main"; the other three statuses leave backstack and command log unchanged; snapshots and deliveries never change |
| Display.OpenQ1Display.OnDisplayEvent | src/display.py:74-77 | the event, unmodified, is recorded once as delivered to the position and name of the page on top at dispatch time; with an empty backstack nothing is delivered; the state and the command log are unchanged |
| Display.OpenQ1Display.OnPrinterStatusUpdate | src/display.py:94-96 | the printer-status snapshot becomes exactly the new data (even on an empty backstack); the file list and backstack are unchanged; the data is delivered once to the page on top |
| Display.OpenQ1Display.OnFileListUpdate | src/display.py:98-100 | the file-list snapshot becomes exactly the new data (even on an empty backstack); the printer status and backstack are unchanged; the data is delivered once to the page on top |

## Left out

- Task scheduling (`asyncio.create_task`, `ensure_future`, `run_forever`) is not modelled. Each handler runs synchronously, and the page change it schedules runs to completion at once. A scheduled handler that runs after a later navigation still addresses the page recorded in its delivery. Interleavings of pending tasks are not modelled.
- The display driver (`TJC`, `connect`, `command`) is a foreign library. Only the command string it is sent is modelled. A transport failure of `command` after the stack has changed is not modelled.
- The printer backend client (`Printer`) and `init` are network I/O. They appear only as the status and data events they deliver.
- Configuration loading, logging and `setproctitle` are I/O and environment concerns. They do not affect the state.
- The page registry (`registerPages`, `self.pages[page](...)`) is not modelled. As written the registry is empty. The model assumes every target has a page class, and that the constructed page carries the target as its name. A missing entry, which would make the lookup fail, is not modelled.
- The behaviour of concrete pages is not modelled. A page is its name, and its handlers are opaque, so their effect is only the recorded delivery.
- Snapshot values are arbitrary Python objects. Here they are strings, in `map<string, string>`.
- The display event's `EventType` and payload are modelled as strings.
