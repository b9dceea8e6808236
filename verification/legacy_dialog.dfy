/**
  The earlier `RiotsDialog` of dialog.js. It differs from the later element
  in a few ways:
  - it assumes a dialog node is always slotted;
  - it has no invoker setter, no arrow and no auto-update;
  - its Escape listener is a new closure created on every non-modal open;
  - it always positions with offset(16), flip and shift;
  - light dismiss reacts to any click whose target is a `DIALOG` element.

  Each new closure is given a fresh number, so the model can track which
  closures are registered as document 'keyup' listeners.
 */
module LegacyDialog {
  import opened Lifecycle
  import opened Positioning

  /** The literal offset `setLocalPosition` passes, whatever `popoverMargin` says. */
  const LegacyOffset: int := 16

  /** The arguments of one `computePosition` call: placement and middleware (no strategy, no arrow). */
  datatype LegacyRequest = LegacyRequest(placement: string, middleware: seq<Middleware>)

  /** `placement`, `isModal`, `closesOnOutsideClick`, and the `popoverMargin` the constructor sets. */
  datatype Props = Props(placement: string, isModal: bool, closesOnOutsideClick: bool, popoverMargin: int)

  /**
    The other registrations: the attribute observer, the invoker's click
    listener, window 'resize', the Escape closures registered for document
    'keyup', the closure `__escKeyHandler` currently names, and the number the
    next closure gets.
   */
  datatype Listeners = Listeners(
    observing: bool,
    invokerClick: bool,
    resize: bool,
    keyup: set<nat>,
    escHandler: Option<nat>,
    nextHandler: nat)
  {
    /** The closures `document.removeEventListener('keyup', this.__escKeyHandler)` can remove. */
    function Current(): (c: set<nat>)
      ensures |c| <= 1
      ensures forall id :: id in c <==> escHandler == Some(id)
    {
      if escHandler.Some? then {escHandler.value} else {}
    }
  }

  /** Dispatched events, continuations waiting for animations, `computePosition` calls. */
  datatype Trace = Trace(events: seq<LifecycleEvent>, pending: seq<Resume>, requests: seq<LegacyRequest>)

  /** `firstUpdated` either returns or throws a TypeError on a missing invoker node. */
  datatype Completion = Returned(state: Host) | ThrewTypeError(state: Host)

  datatype Host = Host(
    props: Props,
    hasInvoker: bool,
    status: Status,
    native: NativeDialog,
    outside: OutsideClick,
    listeners: Listeners,
    trace: Trace)
  {
    predicate Opened() {
      status.openedAttr
    }

    /**
      The invariant: the native dialog is open only while `opened` is set;
      at most one Escape closure is registered, it is the one
      `__escKeyHandler` names, and it is registered only while `opened` is
      set; the outside-click listeners match the installed flag.
     */
    ghost predicate Valid() {
      && (native.open ==> Opened())
      && (status.isClosing ==> FinishClose in trace.pending)
      && outside.dialogListeners == outside.closeOnOutsideClickIsSet
      && outside.invokerListeners == (hasInvoker && outside.closeOnOutsideClickIsSet)
      && outside.documentListener == outside.closeOnOutsideClickIsSet
      && listeners.keyup <= listeners.Current()
      && (listeners.keyup != {} ==> Opened())
      && (listeners.escHandler.Some? ==> listeners.escHandler.value < listeners.nextHandler)
      && (listeners.resize ==> Opened())
      && (listeners.invokerClick ==> hasInvoker)
      && Balanced(trace.events, trace.pending)
      && PrefixOrdered(trace.events)
    }

    /** `setLocalPosition`: always one call, with offset(16), flip, shift. */
    function SetLocalPosition(): (r: Host)
      ensures r.trace.requests == trace.requests + [LegacyRequest(props.placement, [Offset(LegacyOffset), Flip, Shift])]
      ensures r.(trace := trace) == this
      ensures r.trace.events == trace.events && r.trace.pending == trace.pending
    {
      this.(trace := trace.(requests := trace.requests + [LegacyRequest(props.placement, [Offset(16), Flip, Shift])]))
    }

    /**
      `__addOrRemoveOutsideClickHandlers(phase)`: both "inside" flags are reset;
      the capture listeners on the dialog, on the invoker when there is one,
      and on the document are added or removed together.
     */
    function AddOrRemoveOutsideClickHandlers(phase: Phase): (r: Host)
      ensures !r.outside.wasMouseDownInside && !r.outside.wasMouseUpInside
      ensures r.outside.closeOnOutsideClickIsSet == (phase == Add)
      ensures r.outside.dialogListeners == (phase == Add) && r.outside.documentListener == (phase == Add)
      ensures r.outside.invokerListeners == if hasInvoker then phase == Add else outside.invokerListeners
      ensures r.(outside := outside) == this
    {
      var add := phase == Add;
      this.(outside := OutsideClick(
        closeOnOutsideClickIsSet := add,
        wasMouseDownInside := false,
        wasMouseUpInside := false,
        dialogListeners := add,
        invokerListeners := if hasInvoker then add else outside.invokerListeners,
        documentListener := add))
    }

    /** `setupCloseOnOutsideClick`: installs the handlers unless they are already installed. */
    function SetupCloseOnOutsideClick(): (r: Host)
      ensures r.outside.closeOnOutsideClickIsSet
      ensures outside.closeOnOutsideClickIsSet ==> r == this
      ensures !outside.closeOnOutsideClickIsSet ==> !r.outside.wasMouseDownInside && !r.outside.wasMouseUpInside
      ensures r.(outside := outside) == this
    {
      if outside.closeOnOutsideClickIsSet then this else AddOrRemoveOutsideClickHandlers(Add)
    }

    /** `__onInsideMouseDown`. */
    function InsideMouseDown(): (r: Host)
      ensures r.outside.wasMouseDownInside
      ensures r.(outside := r.outside.(wasMouseDownInside := outside.wasMouseDownInside)) == this
    {
      this.(outside := outside.(wasMouseDownInside := true))
    }

    /** `__onInsideMouseUp`. */
    function InsideMouseUp(): (r: Host)
      ensures r.outside.wasMouseUpInside
      ensures r.(outside := r.outside.(wasMouseUpInside := outside.wasMouseUpInside)) == this
    {
      this.(outside := outside.(wasMouseUpInside := true))
    }

    /**
      The `setTimeout` callback of `__onDocumentMouseUp`: with neither "inside"
      flag set it closes the dialog and removes the handlers; in every case
      both flags end false.
     */
    function DocumentMouseUp(): (r: Host)
      ensures !r.outside.wasMouseDownInside && !r.outside.wasMouseUpInside
      ensures r.Opened() == (Opened() && (outside.wasMouseDownInside || outside.wasMouseUpInside))
      ensures !outside.wasMouseDownInside && !outside.wasMouseUpInside ==>
        && !r.outside.closeOnOutsideClickIsSet && !r.outside.documentListener
        && r.(outside := Close().outside) == Close()
      ensures outside.wasMouseDownInside || outside.wasMouseUpInside ==>
        r == this.(outside := outside.(wasMouseDownInside := false, wasMouseUpInside := false))
    {
      var s := if !outside.wasMouseDownInside && !outside.wasMouseUpInside
               then Close().AddOrRemoveOutsideClickHandlers(Remove)
               else this;
      s.(outside := s.outside.(wasMouseDownInside := false, wasMouseUpInside := false))
    }

    /** `setupCloseOnEsc`: a new closure becomes `__escKeyHandler` and is registered for 'keyup'. */
    function SetupCloseOnEsc(): (r: Host)
      ensures r.listeners.escHandler == Some(listeners.nextHandler)
      ensures r.listeners.keyup == listeners.keyup + {listeners.nextHandler}
      ensures r.listeners.nextHandler > listeners.nextHandler
      ensures listeners.nextHandler !in listeners.keyup ==> |r.listeners.keyup| == |listeners.keyup| + 1
      ensures r.(listeners := listeners) == this
    {
      var id := listeners.nextHandler;
      this.(listeners := listeners.(keyup := listeners.keyup + {id}, escHandler := Some(id), nextHandler := id + 1))
    }

    /** A registered Escape closure receiving a keyup: Escape closes, any other key does nothing. */
    function EscKeyUp(key: string): (r: Host)
      ensures key != "Escape" ==> r == this
      ensures key == "Escape" ==> !r.Opened() && r.outside == outside
    {
      if key == "Escape" then Close() else this
    }

    /**
      The observer callback for one mutation of the dialog's attributes: it
      calls `close()` only for an `open` mutation that left the dialog
      without `open` while no close is in progress.
     */
    function DialogAttributeMutation(attributeName: string): (r: Host)
      ensures r != this ==> attributeName == "open" && !native.open && !status.isClosing && Opened()
      ensures attributeName == "open" && !native.open && !status.isClosing ==> !r.Opened()
    {
      if attributeName == "open" && !native.open && !status.isClosing then Close() else this
    }

    /**
      `lightDismiss`: a click whose target is a `DIALOG` element closes the
      native dialog with return value "dismiss" when `closesOnOutsideClick`
      is set.
     */
    function LightDismiss(targetNodeName: string): (r: Host)
      ensures r.native.open != native.open <==>
        targetNodeName == "DIALOG" && props.closesOnOutsideClick && native.open
      ensures r.native.open != native.open ==> r.native.returnValue == "dismiss"
      ensures r.(native := native) == this
    {
      if targetNodeName == "DIALOG" && props.closesOnOutsideClick then this.(native := native.Close(Some("dismiss")))
      else this
    }

    /** The native dialog's `close(result)`, as `NativeDialog.Close` describes it. */
    function NativeClose(result: Option<string>): (r: Host)
      ensures !r.native.open && r.(native := native) == this
    {
      this.(native := native.Close(result))
    }

    /** The non-modal part of `__open`: a fresh Escape closure and, when configured, the outside-click handlers. */
    function NonModalGuards(): (r: Host)
      ensures r.listeners == SetupCloseOnEsc().listeners
      ensures r.outside.closeOnOutsideClickIsSet == (outside.closeOnOutsideClickIsSet || props.closesOnOutsideClick)
      ensures !props.closesOnOutsideClick ==> r.outside == outside
      ensures r.(listeners := listeners, outside := outside) == this
    {
      var withEsc := SetupCloseOnEsc();
      if props.closesOnOutsideClick then withEsc.SetupCloseOnOutsideClick() else withEsc
    }

    /** The end of `__open` before its await: the resize listener, "dialog-opening", and the queued rest. */
    function StartOpening(): (r: Host)
      ensures r.listeners == listeners.(resize := true)
      ensures r.trace == trace.(events := trace.events + [DialogOpening], pending := trace.pending + [DispatchOpened])
      ensures r.(listeners := listeners, trace := trace) == this
    {
      this.(listeners := listeners.(resize := true),
            trace := trace.(events := trace.events + [DialogOpening], pending := trace.pending + [DispatchOpened]))
    }

    /**
      `__open` up to its await: the native dialog is shown; a non-modal dialog
      gets a fresh Escape closure and, when configured, the outside-click
      handlers; the position is requested, the resize listener added and
      "dialog-opening" dispatched.
     */
    function OpenTransition(): (r: Host)
      ensures r.native.open && r.listeners.resize
      ensures props.isModal ==> r.listeners.keyup == listeners.keyup && r.outside == outside
      ensures !props.isModal ==> r.listeners.keyup == listeners.keyup + {listeners.nextHandler}
      ensures r.outside.closeOnOutsideClickIsSet ==
        (outside.closeOnOutsideClickIsSet || (!props.isModal && props.closesOnOutsideClick))
      ensures r.trace.events == trace.events + [DialogOpening]
      ensures r.trace.pending == trace.pending + [DispatchOpened]
      ensures r.trace.requests == trace.requests + [LegacyRequest(props.placement, [Offset(LegacyOffset), Flip, Shift])]
      ensures r.props == props && r.hasInvoker == hasInvoker && r.status == status
      ensures r.native.returnValue == native.returnValue
    {
      var shown := this.(native := native.(open := true));
      var guarded := if props.isModal then shown else shown.NonModalGuards();
      guarded.SetLocalPosition().StartOpening()
    }

    /**
      `__close` up to its await: the native dialog is closed, the resize
      listener and the closure `__escKeyHandler` names are removed, and
      "dialog-closing" is dispatched. The outside-click handlers stay.
     */
    function CloseTransition(): (r: Host)
      ensures !r.native.open && !r.listeners.resize
      ensures r.listeners.keyup == listeners.keyup - listeners.Current()
      ensures r.trace.events == trace.events + [DialogClosing]
      ensures r.trace.pending == trace.pending + [FinishClose]
      ensures r.props == props && r.hasInvoker == hasInvoker && r.status == status && r.outside == outside
      ensures r.trace.requests == trace.requests && r.native.returnValue == native.returnValue
    {
      this.(native := native.Close(None),
            listeners := listeners.(resize := false, keyup := listeners.keyup - listeners.Current()),
            trace := trace.(events := trace.events + [DialogClosing], pending := trace.pending + [FinishClose]))
    }

    /** `open()`: nothing when already opened; else sets `opened`, whose setter runs `__open`. */
    function Open(): (r: Host)
      ensures Opened() ==> r == this
      ensures !Opened() ==>
        && r.Opened() && r.native.open && r.status.isClosing == status.isClosing
        && r.trace.events == trace.events + [DialogOpening]
        && r.trace.pending == trace.pending + [DispatchOpened]
        && (props.isModal ==> r.listeners.keyup == listeners.keyup && r.outside == outside)
    {
      if Opened() then this else this.(status := status.(openedAttr := true)).OpenTransition()
    }

    /**
      `close()`: nothing when not opened; else `isClosing` is set before
      `opened` is cleared, whose setter runs `__close`.
     */
    function Close(): (r: Host)
      ensures !Opened() ==> r == this
      ensures Opened() ==>
        && !r.Opened() && r.status.isClosing && !r.native.open && !r.listeners.resize
        && r.listeners.keyup == listeners.keyup - listeners.Current()
        && r.trace.events == trace.events + [DialogClosing]
        && r.trace.pending == trace.pending + [FinishClose]
      ensures r.props == props && r.hasInvoker == hasInvoker && r.outside == outside
      ensures r.trace.requests == trace.requests
    {
      if !Opened() then this else this.(status := Status(openedAttr := false, isClosing := true)).CloseTransition()
    }

    /**
      The event loop resuming the continuation at index `k`: "dialog-opened",
      or "dialog-closed" followed by clearing `isClosing`.
     */
    function AnimationsSettled(k: nat): (r: Host)
      requires k < |trace.pending|
      ensures r.trace.pending == RemoveAt(trace.pending, k)
      ensures trace.pending[k] == DispatchOpened ==>
        r.trace.events == trace.events + [DialogOpened] && r.status == status
      ensures trace.pending[k] == FinishClose ==>
        r.trace.events == trace.events + [DialogClosed] && r.status == status.(isClosing := false)
      ensures r.(status := status, trace := trace) == this && r.trace.requests == trace.requests
    {
      var rest := RemoveAt(trace.pending, k);
      match trace.pending[k]
      case DispatchOpened =>
        this.(trace := trace.(events := trace.events + [DialogOpened], pending := rest))
      case FinishClose =>
        this.(status := status.(isClosing := false),
              trace := trace.(events := trace.events + [DialogClosed], pending := rest))
    }

    /**
      Lit's `updated` hook: a placement change while opened requests a new
      position; a `closesOnOutsideClick` change while opened calls
      `setupCloseOnOutsideClick`.
     */
    function Updated(placementChanged: bool, closesChanged: bool): (r: Host)
      ensures !Opened() ==> r == this
      ensures Opened() && closesChanged ==> r.outside.closeOnOutsideClickIsSet
      ensures !(Opened() && closesChanged) ==> r.outside == outside
      ensures |r.trace.requests| == |trace.requests| + (if Opened() && placementChanged then 1 else 0)
      ensures Opened() && placementChanged ==> r.trace.requests == SetLocalPosition().trace.requests
      ensures !(Opened() && placementChanged) ==> r.trace.requests == trace.requests
      ensures r.status == status && r.native == native && r.props == props && r.listeners == listeners
      ensures r.trace.events == trace.events && r.trace.pending == trace.pending
    {
      var s := if placementChanged && Opened() then SetLocalPosition() else this;
      if closesChanged && s.Opened() then s.SetupCloseOnOutsideClick() else s
    }

    /**
      `firstUpdated`: the invoker gets the click listener (a missing invoker
      throws before anything else happens), then the dialog node is observed.
     */
    function FirstUpdated(): (r: Completion)
      ensures r.ThrewTypeError? <==> !hasInvoker
      ensures r.ThrewTypeError? ==> r.state == this
      ensures r.Returned? ==> r.state == this.(listeners := listeners.(invokerClick := true, observing := true))
    {
      if !hasInvoker then ThrewTypeError(this)
      else Returned(this.(listeners := listeners.(invokerClick := true, observing := true)))
    }
  }

  /** A freshly constructed element: placement 'top', not modal, nothing registered, `popoverMargin` 16. */
  function Initial(hasInvoker: bool): (h: Host)
    ensures h.Valid()
    ensures !h.Opened() && h.trace.events == [] && h.props.popoverMargin == 16
  {
    Host(Props("top", false, false, 16),
         hasInvoker,
         Status(false, false),
         NativeDialog(false, ""),
         OutsideClick(false, false, false, false, false, false),
         Listeners(false, false, false, {}, None, 0),
         Trace([], [], []))
  }

  /** The legacy middleware is the later element's list for a host without an arrow element. */
  lemma LegacyMiddlewareMatchesArrowless(h: Host)
    ensures h.SetLocalPosition().trace.requests[|h.trace.requests|].middleware == Middlewares(DialogMargin, false)
  {
  }

  /** `popoverMargin` has no effect: the requested middleware is the same for every value of it. */
  lemma PositioningIgnoresPopoverMargin(h: Host, margin: int)
    ensures h.(props := h.props.(popoverMargin := margin)).SetLocalPosition().trace == h.SetLocalPosition().trace
    ensures h.(props := h.props.(popoverMargin := margin)).Open().trace == h.Open().trace
  {
  }

  // ---------------------------------------------------------------------
  // The invariant is kept by every operation.
  // ---------------------------------------------------------------------

  lemma OutsideClickKeepsValid(h: Host, phase: Phase)
    requires h.Valid()
    ensures h.AddOrRemoveOutsideClickHandlers(phase).Valid()
    ensures h.SetupCloseOnOutsideClick().Valid()
  {
  }

  /**
    Opening from closed registers a new closure only when nothing is
    registered, so at most one Escape closure is ever registered.
   */
  lemma {:induction false} OpenKeepsValid(h: Host)
    requires h.Valid()
    ensures h.Open().Valid()
  {
    if !h.Opened() {
      OpenRegistersOneClosure(h);
      StartKeepsBalanced(h.trace.events, h.trace.pending, DialogOpening, DispatchOpened);
      AppendKeepsOrdered(h.trace.events, DialogOpening);
      var r := h.Open();
      assert FinishClose in h.trace.pending ==> FinishClose in r.trace.pending;
    }
  }

  /** The Escape closures after an open from closed: none for a modal dialog, the new one alone otherwise. */
  lemma OpenRegistersOneClosure(h: Host)
    requires h.Valid() && !h.Opened()
    ensures var l := h.Open().listeners;
      && l.keyup <= l.Current()
      && (l.escHandler.Some? ==> l.escHandler.value < l.nextHandler)
      && l.resize && l.observing == h.listeners.observing && l.invokerClick == h.listeners.invokerClick
  {
  }

  lemma {:induction false} CloseKeepsValid(h: Host)
    requires h.Valid()
    ensures h.Close().Valid()
  {
    if h.Opened() {
      StartKeepsBalanced(h.trace.events, h.trace.pending, DialogClosing, FinishClose);
      AppendKeepsOrdered(h.trace.events, DialogClosing);
      assert h.Close().trace.pending[|h.trace.pending|] == FinishClose;
    }
  }

  lemma {:induction false} AnimationsSettledKeepsValid(h: Host, k: nat)
    requires h.Valid() && k < |h.trace.pending|
    ensures h.AnimationsSettled(k).Valid()
  {
    FinishKeepsBalanced(h.trace.events, h.trace.pending, k);
    CountRemoveAt(h.trace.pending, k, FinishClose);
  }

  lemma {:induction false} DocumentMouseUpKeepsValid(h: Host)
    requires h.Valid()
    ensures h.DocumentMouseUp().Valid()
  {
    CloseKeepsValid(h);
    OutsideClickKeepsValid(h.Close(), Remove);
  }

  lemma {:induction false} UpdatedKeepsValid(h: Host, placementChanged: bool, closesChanged: bool)
    requires h.Valid()
    ensures h.Updated(placementChanged, closesChanged).Valid()
  {
    var s := if placementChanged && h.Opened() then h.SetLocalPosition() else h;
    OutsideClickKeepsValid(s, Add);
  }

  lemma InputsKeepValid(h: Host)
    requires h.Valid()
    ensures h.InsideMouseDown().Valid() && h.InsideMouseUp().Valid()
    ensures forall p :: h.(props := p).Valid()
    ensures h.FirstUpdated().state.Valid()
  {
  }

  lemma NativeCloseKeepsValid(h: Host, result: Option<string>)
    requires h.Valid()
    ensures h.NativeClose(result).Valid()
    ensures forall t :: h.LightDismiss(t).Valid()
  {
  }

  /**
    What can happen to the element from outside, one step at a time. An
    Escape keyup reaches the element only through a registered closure; the
    number of registered closures does not matter, since `close()` is a no-op
    once closed.
   */
  datatype Step =
    | OpenCall | CloseCall
    | InsideMouseDownEvent(onInvoker: bool) | InsideMouseUpEvent(onInvoker: bool)
    | DocumentMouseUpTimeout
    | KeyUpEvent(key: string)
    | AttributeMutation(attributeName: string)
    | DialogClick(targetNodeName: string)
    | NativeCloseCall(result: Option<string>)
    | AnimationsSettledAt(k: nat)
    | PropertiesUpdated(placementChanged: bool, closesChanged: bool)
    | FirstUpdate
    | PropsSet(props: Props)
  {
    /** A step that does something only when its listener, observer or continuation is there. */
    predicate Guarded() {
      || InsideMouseDownEvent? || InsideMouseUpEvent? || DocumentMouseUpTimeout? || KeyUpEvent?
      || AttributeMutation? || AnimationsSettledAt?
    }
  }

  predicate InsideListening(h: Host, onInvoker: bool) {
    if onInvoker then h.outside.invokerListeners else h.outside.dialogListeners
  }

  /** One step; an event nobody listens to changes nothing. */
  function Apply(h: Host, step: Step): Host {
    match step
    case OpenCall => h.Open()
    case CloseCall => h.Close()
    case InsideMouseDownEvent(i) => if InsideListening(h, i) then h.InsideMouseDown() else h
    case InsideMouseUpEvent(i) => if InsideListening(h, i) then h.InsideMouseUp() else h
    case DocumentMouseUpTimeout => if h.outside.documentListener then h.DocumentMouseUp() else h
    case KeyUpEvent(key) => if h.listeners.keyup != {} then h.EscKeyUp(key) else h
    case AttributeMutation(name) => if h.listeners.observing then h.DialogAttributeMutation(name) else h
    case DialogClick(t) => h.LightDismiss(t)
    case NativeCloseCall(result) => h.NativeClose(result)
    case AnimationsSettledAt(k) => if k < |h.trace.pending| then h.AnimationsSettled(k) else h
    case PropertiesUpdated(p, c) => h.Updated(p, c)
    case FirstUpdate => h.FirstUpdated().state
    case PropsSet(p) => h.(props := p)
  }

  /** The steps applied in order. */
  function Run(h: Host, steps: seq<Step>): Host
    decreases |steps|
  {
    if steps == [] then h else Run(Apply(h, steps[0]), steps[1..])
  }

  lemma {:induction false} GuardedStepKeepsValid(h: Host, step: Step)
    requires h.Valid() && step.Guarded()
    ensures Apply(h, step).Valid()
  {
    match step
    case DocumentMouseUpTimeout => DocumentMouseUpKeepsValid(h);
    case KeyUpEvent(key) => CloseKeepsValid(h);
    case AttributeMutation(name) => CloseKeepsValid(h);
    case AnimationsSettledAt(k) => if k < |h.trace.pending| { AnimationsSettledKeepsValid(h, k); }
    case InsideMouseDownEvent(i) => InputsKeepValid(h);
    case InsideMouseUpEvent(i) => InputsKeepValid(h);
  }

  lemma {:induction false} ApplyKeepsValid(h: Host, step: Step)
    requires h.Valid()
    ensures Apply(h, step).Valid()
  {
    if step.Guarded() {
      GuardedStepKeepsValid(h, step);
    } else {
      match step
      case OpenCall => OpenKeepsValid(h);
      case CloseCall => CloseKeepsValid(h);
      case PropertiesUpdated(p, c) => UpdatedKeepsValid(h, p, c);
      case DialogClick(t) => NativeCloseKeepsValid(h, Some("dismiss"));
      case NativeCloseCall(result) => NativeCloseKeepsValid(h, result);
      case FirstUpdate => InputsKeepValid(h);
      case PropsSet(p) => InputsKeepValid(h);
    }
  }

  lemma {:induction false} RunKeepsValid(h: Host, steps: seq<Step>)
    requires h.Valid()
    ensures Run(h, steps).Valid()
    decreases |steps|
  {
    if steps != [] {
      ApplyKeepsValid(h, steps[0]);
      RunKeepsValid(Apply(h, steps[0]), steps[1..]);
    }
  }

  /**
    From construction on, whatever happens: events come in ordered pairs, at
    most one Escape closure is registered for 'keyup', none is left
    registered once the element is closed, and the outside-click listeners
    are all present or all absent together with their flag.
   */
  lemma EscapeClosuresNeverLeak(hasInvoker: bool, steps: seq<Step>)
    ensures var h := Run(Initial(hasInvoker), steps);
      && PrefixOrdered(h.trace.events)
      && |h.listeners.keyup| <= 1
      && (!h.Opened() ==> h.listeners.keyup == {} && !h.listeners.resize && !h.native.open)
      && h.outside.dialogListeners == h.outside.documentListener == h.outside.closeOnOutsideClickIsSet
  {
    var h := Run(Initial(hasInvoker), steps);
    RunKeepsValid(Initial(hasInvoker), steps);
    SubsetSize(h.listeners.keyup, h.listeners.Current());
  }

  lemma {:induction false} SubsetSize(a: set<nat>, b: set<nat>)
    requires a <= b
    ensures |a| <= |b|
  {
    if a != {} {
      var x :| x in a;
      SubsetSize(a - {x}, b - {x});
    }
  }

  // ---------------------------------------------------------------------
  // Scenarios.
  // ---------------------------------------------------------------------

  /**
    A modal open registers neither an Escape closure nor outside-click
    handlers, and a full cycle dispatches opening, opened, closing, closed,
    with `isClosing` cleared only by the last step.
   */
  lemma ModalCycle(h: Host)
    requires h.Valid() && h.props.isModal && !h.Opened() && h.trace.pending == []
    ensures h.Open().listeners.keyup == h.listeners.keyup == {}
    ensures h.Open().outside == h.outside
    ensures var c := h.Open().AnimationsSettled(0).Close();
      && c.status.isClosing
      && c.AnimationsSettled(0).trace.events == h.trace.events + [DialogOpening, DialogOpened, DialogClosing, DialogClosed]
      && !c.AnimationsSettled(0).status.isClosing
  {
  }

  /** A click on any `DIALOG` element closes the native dialog when light dismiss is on; the observer then closes the host. */
  lemma LightDismissCloses(h: Host)
    requires h.Valid() && h.Opened() && h.native.open && !h.status.isClosing && h.props.closesOnOutsideClick
    ensures var r := h.LightDismiss("DIALOG").DialogAttributeMutation("open");
      !r.Opened() && r.native.returnValue == "dismiss"
  {
  }

  // ---------------------------------------------------------------------
  // The element, with its state in fields.
  // ---------------------------------------------------------------------

  class LegacyRiotsDialog {
    var props: Props
    const hasInvoker: bool
    var status: Status
    var native: NativeDialog
    var outside: OutsideClick
    var listeners: Listeners
    var trace: Trace

    /** The fields as a `Host` value. */
    function State(): Host
      reads this
    {
      Host(props, hasInvoker, status, native, outside, listeners, trace)
    }

    ghost predicate Valid()
      reads this
    {
      State().Valid()
    }

    constructor (hasInvoker: bool)
      ensures State() == Initial(hasInvoker) && Valid()
    {
      this.hasInvoker := hasInvoker;
      props := Props("top", false, false, 16);
      status := Status(false, false);
      native := NativeDialog(false, "");
      outside := OutsideClick(false, false, false, false, false, false);
      listeners := Listeners(false, false, false, {}, None, 0);
      trace := Trace([], [], []);
    }

    method SetLocalPosition()
      modifies this
      ensures State() == old(State()).SetLocalPosition()
    {
      trace := trace.(requests := trace.requests + [LegacyRequest(props.placement, [Offset(16), Flip, Shift])]);
    }

    method AddOrRemoveOutsideClickHandlers(phase: Phase)
      modifies this
      ensures State() == old(State()).AddOrRemoveOutsideClickHandlers(phase)
    {
      outside := outside.(wasMouseDownInside := false, wasMouseUpInside := false);
      outside := outside.(dialogListeners := phase == Add);
      if hasInvoker {
        outside := outside.(invokerListeners := phase == Add);
      }
      outside := outside.(documentListener := phase == Add, closeOnOutsideClickIsSet := phase == Add);
    }

    method SetupCloseOnOutsideClick()
      modifies this
      ensures State() == old(State()).SetupCloseOnOutsideClick()
    {
      if outside.closeOnOutsideClickIsSet {
        return;
      }
      AddOrRemoveOutsideClickHandlers(Add);
    }

    method InsideMouseDown()
      requires Valid()
      modifies this
      ensures State() == old(State()).InsideMouseDown() && Valid()
    {
      outside := outside.(wasMouseDownInside := true);
    }

    method InsideMouseUp()
      requires Valid()
      modifies this
      ensures State() == old(State()).InsideMouseUp() && Valid()
    {
      outside := outside.(wasMouseUpInside := true);
    }

    method SetupCloseOnEsc()
      modifies this
      ensures State() == old(State()).SetupCloseOnEsc()
    {
      var id := listeners.nextHandler;
      listeners := listeners.(escHandler := Some(id), nextHandler := id + 1);
      listeners := listeners.(keyup := listeners.keyup + {id});
    }

    /** `__open`, up to its await. */
    method OpenTransition()
      modifies this
      ensures State() == old(State()).OpenTransition()
    {
      native := native.(open := true);  // showModal() or show()
      if !props.isModal {
        SetupCloseOnEsc();
        if props.closesOnOutsideClick {
          SetupCloseOnOutsideClick();
        }
      }
      SetLocalPosition();
      listeners := listeners.(resize := true);
      trace := trace.(events := trace.events + [DialogOpening],
                      pending := trace.pending + [DispatchOpened]);  // await animationsComplete
    }

    /** `__close`, up to its await. */
    method CloseTransition()
      modifies this
      ensures State() == old(State()).CloseTransition()
    {
      NativeClose(None);
      listeners := listeners.(resize := false, keyup := listeners.keyup - listeners.Current());
      trace := trace.(events := trace.events + [DialogClosing],
                      pending := trace.pending + [FinishClose]);  // await animationsComplete
    }

    method Open()
      requires Valid()
      modifies this
      ensures State() == old(State()).Open() && Valid()
    {
      OpenKeepsValid(State());
      if status.openedAttr {
        return;
      }
      status := status.(openedAttr := true);  // the `opened` setter runs __open
      OpenTransition();
    }

    method Close()
      requires Valid()
      modifies this
      ensures State() == old(State()).Close() && Valid()
    {
      CloseKeepsValid(State());
      if !status.openedAttr {
        return;
      }
      status := Status(openedAttr := false, isClosing := true);  // the `opened` setter runs __close
      CloseTransition();
    }

    method AnimationsSettled(k: nat)
      requires Valid() && k < |trace.pending|
      modifies this
      ensures State() == old(State()).AnimationsSettled(k) && Valid()
    {
      AnimationsSettledKeepsValid(State(), k);
      var next := trace.pending[k];
      trace := trace.(pending := RemoveAt(trace.pending, k));
      match next
      case DispatchOpened =>
        trace := trace.(events := trace.events + [DialogOpened]);
      case FinishClose =>
        trace := trace.(events := trace.events + [DialogClosed]);
        status := status.(isClosing := false);
    }

    /** The `setTimeout` callback of `__onDocumentMouseUp`. */
    method DocumentMouseUp()
      requires Valid()
      modifies this
      ensures State() == old(State()).DocumentMouseUp() && Valid()
    {
      DocumentMouseUpKeepsValid(State());
      if !outside.wasMouseDownInside && !outside.wasMouseUpInside {
        Close();
        AddOrRemoveOutsideClickHandlers(Remove);
      }
      outside := outside.(wasMouseDownInside := false, wasMouseUpInside := false);
    }

    method EscKeyUp(key: string)
      requires Valid()
      modifies this
      ensures State() == old(State()).EscKeyUp(key) && Valid()
    {
      if key == "Escape" {
        Close();
      }
    }

    method DialogAttributeMutation(attributeName: string)
      requires Valid()
      modifies this
      ensures State() == old(State()).DialogAttributeMutation(attributeName) && Valid()
    {
      if attributeName == "open" {
        var isOpen := native.open;
        if !isOpen && !status.isClosing {
          Close();
        }
      }
    }

    method NativeClose(result: Option<string>)
      modifies this
      ensures State() == old(State()).NativeClose(result)
    {
      if !native.open {
        return;
      }
      native := native.(open := false);
      if result.Some? {
        native := native.(returnValue := result.value);
      }
    }

    method LightDismiss(targetNodeName: string)
      requires Valid()
      modifies this
      ensures State() == old(State()).LightDismiss(targetNodeName) && Valid()
    {
      if targetNodeName == "DIALOG" && props.closesOnOutsideClick {
        NativeClose(Some("dismiss"));
      }
    }

    method Updated(placementChanged: bool, closesChanged: bool)
      requires Valid()
      modifies this
      ensures State() == old(State()).Updated(placementChanged, closesChanged) && Valid()
    {
      UpdatedKeepsValid(State(), placementChanged, closesChanged);
      if placementChanged && status.openedAttr {
        SetLocalPosition();
      }
      if closesChanged && status.openedAttr {
        SetupCloseOnOutsideClick();
      }
    }

    /** `firstUpdated`; `threw` reports the TypeError of a missing invoker. */
    method FirstUpdated() returns (threw: bool)
      requires Valid()
      modifies this
      ensures var c := old(State()).FirstUpdated();
        State() == c.state && Valid() && threw == c.ThrewTypeError?
    {
      if !hasInvoker {
        return true;
      }
      listeners := listeners.(invokerClick := true);
      listeners := listeners.(observing := true);  // setupMutationObserver
      threw := false;
    }
  }
}
