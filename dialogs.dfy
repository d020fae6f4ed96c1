/**
 * The modal dialog registry: a stack of dialogs drawn over the UI, most
 * recent on top, that tells the window's event loop whenever a dialog is
 * pushed or popped so it can show itself and suspend passthrough.
 *
 * A dialog's callbacks are foreign code; each is identified here by a
 * token, and running one appends its token to a log.
 */
module Dialogs {
  import opened Wrappers

  /** A dialog: title, message, optional button labels, an optional custom body and the button callbacks. */
  datatype Dialog = Dialog(
    title: string,
    message: string,
    positiveLabel: Option<string>,
    negativeLabel: Option<string>,
    customBody: bool,
    onPositive: Option<nat>,
    onNegative: Option<nat>)

  const OkLabel: string := "OK"
  const CancelLabel: string := "Cancel"
  const YesLabel: string := "Yes"
  const NoLabel: string := "No"

  /** `Dialog::new`: a dialog with no labels and no callbacks. */
  function NewDialog(title: string, message: string): (d: Dialog)
    ensures d.title == title && d.message == message
    ensures d.positiveLabel.None? && d.negativeLabel.None?
    ensures !d.customBody && d.onPositive.None? && d.onNegative.None?
  {
    Dialog(title, message, None, None, false, None, None)
  }

  /** `Dialog::new_ok`: a single "OK" button running `onPositive`. */
  function NewOk(title: string, message: string, onPositive: nat): (d: Dialog)
    ensures d.title == title && d.message == message
    ensures d.positiveLabel == Some(OkLabel) && d.negativeLabel.None?
    ensures d.onPositive == Some(onPositive) && d.onNegative.None? && !d.customBody
  {
    NewDialog(title, message).(positiveLabel := Some(OkLabel), onPositive := Some(onPositive))
  }

  /** `Dialog::new_ok_cancel`: "OK" and "Cancel" buttons with their callbacks. */
  function NewOkCancel(title: string, message: string, onPositive: nat, onNegative: nat): (d: Dialog)
    ensures d.title == title && d.message == message
    ensures d.positiveLabel == Some(OkLabel) && d.negativeLabel == Some(CancelLabel)
    ensures d.onPositive == Some(onPositive) && d.onNegative == Some(onNegative) && !d.customBody
  {
    NewDialog(title, message).(positiveLabel := Some(OkLabel), negativeLabel := Some(CancelLabel),
                               onPositive := Some(onPositive), onNegative := Some(onNegative))
  }

  /** `Dialog::new_yes_no`: "Yes" and "No" buttons with their callbacks. */
  function NewYesNo(title: string, message: string, onPositive: nat, onNegative: nat): (d: Dialog)
    ensures d.title == title && d.message == message
    ensures d.positiveLabel == Some(YesLabel) && d.negativeLabel == Some(NoLabel)
    ensures d.onPositive == Some(onPositive) && d.onNegative == Some(onNegative) && !d.customBody
  {
    NewDialog(title, message).(positiveLabel := Some(YesLabel), negativeLabel := Some(NoLabel),
                               onPositive := Some(onPositive), onNegative := Some(onNegative))
  }

  /** A button as drawn: its label and the callback a click runs. */
  datatype Button = Button(caption: string, callback: Option<nat>)

  /**
   * The buttons `draw` lays out: the positive one always, labelled "OK"
   * unless a label is given, then the negative one only when it has a label.
   */
  function Buttons(d: Dialog): (r: seq<Button>)
    ensures 1 <= |r| <= 2
    ensures r[0].caption == d.positiveLabel.GetOr(OkLabel) && r[0].callback == d.onPositive
    ensures |r| == 2 <==> d.negativeLabel.Some?
    ensures |r| == 2 ==> r[1] == Button(d.negativeLabel.value, d.onNegative)
  {
    var positive := Button(d.positiveLabel.GetOr(OkLabel), d.onPositive);
    match d.negativeLabel
    case None => [positive]
    case Some(l) => [positive, Button(l, d.onNegative)]
  }

  /** Every constructor with a positive button gets the label it names; `new`'s dialog shows "OK". */
  lemma ConstructorLabels(t: string, m: string, p: nat, n: nat)
    ensures Buttons(NewDialog(t, m)) == [Button(OkLabel, None)]
    ensures Buttons(NewOk(t, m, p)) == [Button(OkLabel, Some(p))]
    ensures Buttons(NewOkCancel(t, m, p, n)) == [Button(OkLabel, Some(p)), Button(CancelLabel, Some(n))]
    ensures Buttons(NewYesNo(t, m, p, n)) == [Button(YesLabel, Some(p)), Button(NoLabel, Some(n))]
  {
  }

  /** What the registry tells the window's event loop. */
  datatype Signal = Pushed | Popped

  /** The signal a push or pop sends: one when the loop's proxy is installed, none otherwise. */
  function Signalled(proxy: bool, s: Signal): (r: seq<Signal>)
    ensures proxy <==> r == [s]
    ensures !proxy <==> r == []
  {
    if proxy then [s] else []
  }

  /** The stack after a push. */
  function PushSpec(stack: seq<Dialog>, d: Dialog): (r: seq<Dialog>)
    ensures |r| == |stack| + 1 && r[|stack|] == d
    ensures r[..|stack|] == stack
  {
    stack + [d]
  }

  /** A pop: the most recently pushed dialog and the stack without it, or nothing from an empty stack. */
  function PopSpec(stack: seq<Dialog>): (r: (Option<Dialog>, seq<Dialog>))
    ensures r.0.None? <==> stack == []
    ensures r.0.None? ==> r.1 == []
    ensures r.0.Some? ==> stack == r.1 + [r.0.value]
  {
    if stack == [] then (None, [])
    else (Some(stack[|stack| - 1]), stack[..|stack| - 1])
  }

  /** Popping undoes pushing: the last dialog pushed is the first popped, and the stack below is untouched. */
  lemma {:induction false} PopAfterPush(stack: seq<Dialog>, d: Dialog)
    ensures PopSpec(PushSpec(stack, d)) == (Some(d), stack)
  {
    var s := PushSpec(stack, d);
    assert s[..|s| - 1] == stack;
  }

  /** Pushing what was popped restores the stack. */
  lemma PushAfterPop(stack: seq<Dialog>)
    requires stack != []
    ensures PushSpec(PopSpec(stack).1, PopSpec(stack).0.value) == stack
  {
  }

  /** The dialogs of pushes followed by as many pops come off in reverse order. */
  function PopAll(stack: seq<Dialog>, n: nat): (r: seq<Dialog>)
    requires n <= |stack|
    ensures |r| == n
    decreases n
  {
    if n == 0 then []
    else [PopSpec(stack).0.value] + PopAll(PopSpec(stack).1, n - 1)
  }

  /** Popping everything yields the dialogs newest first. */
  lemma {:induction false} PopAllReverses(stack: seq<Dialog>, i: nat)
    requires i < |stack|
    ensures PopAll(stack, |stack|)[i] == stack[|stack| - 1 - i]
    decreases |stack|
  {
    var p := PopSpec(stack);
    if i > 0 {
      PopAllReverses(p.1, i - 1);
      assert PopAll(stack, |stack|)[i] == PopAll(p.1, |p.1|)[i - 1];
    }
  }

  /** `Registry`: the dialog stack and whether the window's event-loop proxy is installed. */
  class Registry {
    /** The dialogs, oldest first. */
    var dialogs: seq<Dialog>
    /** Whether `winit_waker` holds a proxy; the window runner installs it once its loop exists. */
    var proxy: bool
    /** Every event sent to the window's event loop, oldest first. */
    var signals: seq<Signal>

    /** `Registry::new`: an empty stack. */
    constructor (proxyInstalled: bool)
      ensures dialogs == [] && proxy == proxyInstalled && signals == []
    {
      dialogs := [];
      proxy := proxyInstalled;
      signals := [];
    }

    /** The window runner fills the shared waker slot. */
    method InstallProxy()
      modifies this`proxy
      ensures proxy
    {
      proxy := true;
    }

    /** `is_empty`. */
    method IsEmpty() returns (r: bool)
      ensures r <==> dialogs == []
    {
      r := |dialogs| == 0;
    }

    /** `snapshot_dialogs`: every dialog, oldest first, leaving the stack as it is. */
    method Snapshot() returns (r: seq<Dialog>)
      ensures r == dialogs && |r| == |dialogs|
    {
      r := dialogs;
    }

    /** `push_dialog`: the dialog goes on top and the loop is told. */
    method Push(d: Dialog)
      modifies this`dialogs, this`signals
      ensures dialogs == PushSpec(old(dialogs), d)
      ensures signals == old(signals) + Signalled(proxy, Pushed)
    {
      dialogs := dialogs + [d];
      if proxy {
        signals := signals + [Pushed];
      }
    }

    /** `pop_dialog`: the top dialog comes off, if any; the loop is told either way. */
    method Pop() returns (r: Option<Dialog>)
      modifies this`dialogs, this`signals
      ensures (r, dialogs) == PopSpec(old(dialogs))
      ensures signals == old(signals) + Signalled(proxy, Popped)
    {
      if |dialogs| == 0 {
        r := None;
      } else {
        r := Some(dialogs[|dialogs| - 1]);
        dialogs := dialogs[..|dialogs| - 1];
      }
      if proxy {
        signals := signals + [Popped];
      }
    }
  }

  /** Why a module-level call failed. */
  datatype DialogError = NotInitialized | NoDialogToPop

  /** The module-level `push_dialog`: fails when the global registry has not been set. */
  method PushDialog(registry: Option<Registry>, d: Dialog) returns (r: Result<(), DialogError>)
    modifies if registry.Some? then {registry.value} else {}
    ensures registry.None? <==> r == Err(NotInitialized)
    ensures registry.Some? ==> registry.value.dialogs == PushSpec(old(registry.value.dialogs), d)
    ensures registry.Some? ==> registry.value.signals == old(registry.value.signals) + Signalled(registry.value.proxy, Pushed)
    ensures registry.Some? ==> registry.value.proxy == old(registry.value.proxy)
  {
    if registry.None? {
      return Err(NotInitialized);
    }
    registry.value.Push(d);
    r := Ok(());
  }

  /** The module-level `pop_dialog`: fails when the registry has not been set or holds no dialog. */
  method PopDialog(registry: Option<Registry>) returns (r: Result<Dialog, DialogError>)
    modifies if registry.Some? then {registry.value} else {}
    ensures registry.None? ==> r == Err(NotInitialized)
    ensures registry.Some? ==> (r.Ok? <==> old(registry.value.dialogs) != [])
    ensures registry.Some? && r.Err? ==> r.error == NoDialogToPop
    ensures registry.Some? && r.Ok? ==> old(registry.value.dialogs) == registry.value.dialogs + [r.value]
    ensures registry.Some? ==> registry.value.dialogs == PopSpec(old(registry.value.dialogs)).1
    ensures registry.Some? ==> registry.value.signals == old(registry.value.signals) + Signalled(registry.value.proxy, Popped)
    ensures registry.Some? ==> registry.value.proxy == old(registry.value.proxy)
  {
    if registry.None? {
      return Err(NotInitialized);
    }
    var top := registry.value.Pop();
    match top
    case None => r := Err(NoDialogToPop);
    case Some(d) => r := Ok(d);
  }

  /**
   * A click on a drawn button: its callback runs (its token is logged),
   * then one dialog is popped; a failed pop is only logged.
   */
  method Click(registry: Option<Registry>, b: Button) returns (ran: seq<nat>, popped: Result<Dialog, DialogError>)
    modifies if registry.Some? then {registry.value} else {}
    ensures ran == if b.callback.Some? then [b.callback.value] else []
    ensures registry.None? ==> popped == Err(NotInitialized)
    ensures registry.Some? ==> registry.value.dialogs == PopSpec(old(registry.value.dialogs)).1
    ensures registry.Some? ==> (popped.Ok? <==> old(registry.value.dialogs) != [])
    ensures registry.Some? && popped.Ok? ==> popped.value == old(registry.value.dialogs)[|old(registry.value.dialogs)| - 1]
  {
    ran := if b.callback.Some? then [b.callback.value] else [];
    popped := PopDialog(registry);
  }
}
