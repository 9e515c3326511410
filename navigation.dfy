/**
 * The page-navigation rule of the display controller, on values.
 *
 * A page is represented by its name; the backstack is a sequence of names
 * whose last element is the page on screen. Python's negative indices
 * (`backstack[-1]`, `backstack[-2]`) raise `IndexError` when the list is too
 * short, and that failure is an explicit outcome here.
 */
module Navigation {

  datatype Option<T> = None | Some(value: T)

  /** What an operation that indexes the backstack from its end yields. */
  datatype Outcome<T> = Ok(value: T) | IndexError

  type PageName = string
  type Stack = seq<PageName>

  /** Backend connectivity states reported by the printer link. */
  datatype PrinterStatus = NotReady | Ready | Stopped | MoonrakerErr | KlipperErr
  {
    /** The statuses the router reacts to by doing nothing. */
    predicate IsInert() {
      Stopped? || MoonrakerErr? || KlipperErr?
    }
  }

  /** The page on screen: the last element of a non-empty stack. */
  function Top(s: Stack): PageName
    requires |s| > 0
  {
    s[|s| - 1]
  }

  /** The screen-switch command sent to the display for `target`. */
  function PageCommand(target: PageName): string {
    "page " + target
  }

  /**
   * Distinct targets give distinct commands, so the command log names the
   * targets; `CommandLogNamesRequests` reads the requests back from it.
   */
  lemma PageCommandInjective(a: PageName, b: PageName)
    requires PageCommand(a) == PageCommand(b)
    ensures a == b
  {
    assert a == PageCommand(a)[5..];
    assert b == PageCommand(b)[5..];
  }

  /**
   * `changePage(target)` on the stack alone: the second-from-top entry is read
   * with no length guard, so a stack of fewer than two entries fails; a
   * target equal to the second-from-top name pops the top ("back"), any other
   * target is pushed ("forward").
   */
  function Navigate(stack: Stack, target: PageName): (r: Outcome<Stack>)
    // fewer than two entries is exactly the IndexError case
    ensures r.IndexError? <==> |stack| < 2
    // whichever branch is taken, the target ends up on screen
    ensures r.Ok? ==> |r.value| > 0 && Top(r.value) == target
    // back: exactly the top entry is removed, everything below it is kept
    ensures r.Ok? && stack[|stack| - 2] == target ==>
              |r.value| + 1 == |stack| && r.value <= stack
    // forward: exactly one entry is added on top of the old stack
    ensures r.Ok? && stack[|stack| - 2] != target ==>
              |r.value| == |stack| + 1 && stack <= r.value
  {
    if |stack| < 2 then IndexError
    else if stack[|stack| - 2] == target then Ok(stack[..|stack| - 1])
    else Ok(stack + [target])
  }

  /**
   * The fixed status table of the connection handler: NOT_READY goes to
   * "boot", READY goes to "main", every other status triggers nothing.
   */
  function ConnectionTarget(status: PrinterStatus): (r: Option<PageName>)
    ensures r.None? <==> status.IsInert()
    ensures r.Some? ==> r.value == (if status.Ready? then "main" else "boot")
  {
    match status
    case NotReady => Some("boot")
    case Ready => Some("main")
    case Stopped => None
    case MoonrakerErr => None
    case KlipperErr => None
  }

  /** The navigation requests that a sequence of connection statuses issues, in order. */
  function StatusTargets(statuses: seq<PrinterStatus>): (ts: seq<PageName>)
    ensures |ts| <= |statuses|
    ensures forall i :: 0 <= i < |ts| ==> ts[i] == "boot" || ts[i] == "main"
    ensures (forall i :: 0 <= i < |statuses| ==> statuses[i].IsInert()) ==> ts == []
    // a single status requests its table entry, if it has one
    ensures |statuses| == 1 ==>
              ts == (if statuses[0].IsInert() then [] else [ConnectionTarget(statuses[0]).value])
  {
    if statuses == [] then []
    else
      var rest := StatusTargets(statuses[1..]);
      match ConnectionTarget(statuses[0])
      case None => rest
      case Some(t) => [t] + rest
  }

  /** The requests of two runs of statuses are those of the first followed by those of the second. */
  lemma {:induction false} StatusTargetsConcat(a: seq<PrinterStatus>, b: seq<PrinterStatus>)
    ensures StatusTargets(a + b) == StatusTargets(a) + StatusTargets(b)
    decreases |a|
  {
    if a != [] {
      assert (a + b)[0] == a[0];
      assert (a + b)[1..] == a[1..] + b;
      StatusTargetsConcat(a[1..], b);
    } else {
      assert a + b == b;
    }
  }

  /** The stack and the display commands after a run of page changes. */
  datatype Trace = Trace(stack: Stack, commands: seq<string>)

  /**
   * A sequence of `changePage` calls, each run to completion before the next.
   * A call that fails with IndexError changes nothing and sends no command:
   * the event loop logs the failed task and carries on.
   */
  function Replay(stack: Stack, targets: seq<PageName>): (t: Trace)
    decreases |targets|
    // at most one command per request
    ensures |t.commands| <= |targets|
    // each request grows the stack by at most one entry
    ensures |t.stack| <= |stack| + |targets|
    // a non-empty stack never becomes empty
    ensures |stack| > 0 ==> |t.stack| > 0
    // on a stack of fewer than two entries every request fails: nothing ever moves
    ensures |stack| < 2 ==> t == Trace(stack, [])
    // the requests that succeed are a prefix of the run, one command each, in order
    ensures |t.commands| <= |targets|
    ensures forall i :: 0 <= i < |t.commands| ==> t.commands[i] == PageCommand(targets[i])
    // a request is dropped only once the stack has fallen below two entries
    ensures |t.commands| < |targets| ==> |t.stack| < 2
    // a run that sends nothing leaves the stack as it was
    ensures t.commands == [] ==> t.stack == stack
    // the display ends on the page on top of the stack
    ensures t.commands != [] ==> |t.stack| > 0 && t.commands[|t.commands| - 1] == PageCommand(Top(t.stack))
  {
    if targets == [] then Trace(stack, [])
    else
      match Navigate(stack, targets[0])
      case IndexError => Replay(stack, targets[1..])
      case Ok(next) =>
        var rest := Replay(next, targets[1..]);
        var t := Trace(rest.stack, [PageCommand(targets[0])] + rest.commands);
        assert forall i :: 0 < i < |t.commands| ==> t.commands[i] == rest.commands[i - 1];
        t
  }

  /** The i-th command of a run names the i-th request. */
  lemma CommandLogNamesRequests(stack: Stack, targets: seq<PageName>, i: nat, p: PageName)
    requires i < |Replay(stack, targets).commands| && Replay(stack, targets).commands[i] == PageCommand(p)
    ensures p == targets[i]
  {
    PageCommandInjective(p, targets[i]);
  }

  /**
   * Going forward to `x` and then to the page that was on top before is the
   * one-level "back" and restores the stack exactly.
   */
  lemma ForwardThenBackRestores(stack: Stack, x: PageName)
    requires |stack| >= 2 && stack[|stack| - 2] != x
    ensures Replay(stack, [x, Top(stack)]) == Trace(stack, [PageCommand(x), PageCommand(Top(stack))])
  {
    var top := Top(stack);
    BackToTop(stack, x);
    assert Replay(stack, [x, top]) == Trace(stack, [PageCommand(x)] + [PageCommand(top)]) by {
      ReplayMoved(stack, [x, top], stack + [x]);
      assert [x, top][1..] == [top];
    }
  }

  /** After pushing `x`, a request for the page below it pops `x` again. */
  lemma BackToTop(stack: Stack, x: PageName)
    requires |stack| >= 1
    ensures Replay(stack + [x], [Top(stack)]) == Trace(stack, [PageCommand(Top(stack))])
  {
    PopAfterPush(stack, x);
    ReplayMoved(stack + [x], [Top(stack)], stack);
    assert [Top(stack)][1..] == [];
  }

  /** Pushing `x` and then requesting the page below it is the back step. */
  lemma PopAfterPush(stack: Stack, x: PageName)
    requires |stack| >= 1
    ensures Navigate(stack + [x], Top(stack)) == Ok(stack)
  {
    var pushed := stack + [x];
    assert pushed[|pushed| - 2] == Top(stack);
    assert pushed[..|pushed| - 1] == stack;
  }

  /** One unfolding of `Replay` when the first request succeeds. */
  lemma ReplayMoved(stack: Stack, targets: seq<PageName>, next: Stack)
    requires targets != [] && Navigate(stack, targets[0]) == Ok(next)
    ensures Replay(stack, targets)
         == Trace(Replay(next, targets[1..]).stack, [PageCommand(targets[0])] + Replay(next, targets[1..]).commands)
  {
  }

  /**
   * Only one level back is examined: a target equal to the page already on
   * top (and different from the one below it) is pushed again, so two
   * adjacent entries with the same name can arise.
   */
  lemma TopTargetPushesDuplicate(stack: Stack)
    requires |stack| >= 2 && stack[|stack| - 2] != Top(stack)
    ensures Navigate(stack, Top(stack)) == Ok(stack + [Top(stack)])
    ensures var s := Navigate(stack, Top(stack)).value; s[|s| - 1] == s[|s| - 2]
  {
  }

  /** A target found deeper than one level below the top is pushed as a new entry. */
  lemma DeeperTargetPushes(stack: Stack, i: nat)
    requires i + 2 < |stack| && stack[|stack| - 2] != stack[i]
    ensures Navigate(stack, stack[i]) == Ok(stack + [stack[i]])
  {
  }

  /**
   * Connection statuses that are all inert leave any stack as it is and send
   * nothing to the display.
   */
  lemma InertStatusesChangeNothing(stack: Stack, statuses: seq<PrinterStatus>)
    requires forall i :: 0 <= i < |statuses| ==> statuses[i].IsInert()
    ensures Replay(stack, StatusTargets(statuses)) == Trace(stack, [])
  {
  }

  /**
   * From a stack of [boot, main], NOT_READY goes back to [boot]; a following
   * READY then fails on the one-entry stack, so the display stays on "boot".
   */
  lemma NotReadyThenReadyFromMain()
    ensures Replay(["boot", "main"], StatusTargets([NotReady, Ready]))
         == Trace(["boot"], [PageCommand("boot")])
  {
    assert StatusTargets([NotReady, Ready]) == ["boot", "main"] by {
      assert [NotReady, Ready][1..] == [Ready];
      assert [Ready][1..] == [];
    }
    assert ["boot", "main"][..1] == ["boot"];
    assert ["boot", "main"][1..] == ["main"];
  }
}
