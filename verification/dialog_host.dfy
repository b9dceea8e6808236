/**
  The dialog host element of src/dialog.js (`RiotsDialog`): its open/close
  lifecycle, its outside-click ("light dismiss") and Escape handling, and the
  bookkeeping of the listeners it registers.

  `Host` is a value snapshot of everything the element keeps in attributes,
  instance properties, the native dialog and listener registrations; each of
  its member functions says what one operation of the element does to that
  snapshot. The class `RiotsDialog` holds the same state in mutable fields,
  and each of its methods is proved to perform exactly its `Host` counterpart.

  An `async` operation runs up to its `await animationsComplete(...)`, then
  queues a `Resume` in `trace.pending`; `AnimationsSettled(k)` is the event
  loop resuming one of them once the animations have settled.
 */
module RiotsDialogHost {
  import opened Lifecycle
  import opened Positioning

  /** The message of the error thrown when the observer finds no dialog node. */
  const MissingDialogMessage: string :=
    "Attempting to register MutationObserver to dialogNode, but dialogNode does not exist"

  /** The reflected properties the page sets, and the public `dialogMargin` field. */
  datatype Props = Props(placement: string, positionStrategy: Strategy, isModal: bool, closesOnOutsideClick: bool,
                         dialogMargin: int)

  /** Which slotted nodes exist: the dialog node and the arrow element are fixed, the invoker can be set. */
  datatype Nodes = Nodes(hasDialog: bool, hasInvoker: bool, hasArrowEl: bool)

  /**
    The other registrations: the attribute observer, the auto-update
    subscription, the invoker's click listener, window 'resize' and document
    'keyup' (Escape).
   */
  datatype Wiring = Wiring(observing: bool, autoUpdating: bool, invokerClick: bool, resize: bool, keyup: bool)

  /** What is seen from outside: dispatched events, continuations waiting for animations, computePosition calls. */
  datatype Trace = Trace(events: seq<LifecycleEvent>, pending: seq<Resume>, requests: seq<PositionRequest>)

  /** An operation that either returns normally or throws after having changed the state. */
  datatype Completion = Returned(state: Host) | Threw(state: Host, message: string)

  datatype Host = Host(
    props: Props,
    nodes: Nodes,
    status: Status,
    native: NativeDialog,
    outside: OutsideClick,
    wiring: Wiring,
    trace: Trace)
  {
    predicate Opened() {
      status.openedAttr
    }

    /** The element's invariant: the relations every reachable state keeps. */
    ghost predicate Valid() {
      && (native.open ==> Opened() && nodes.hasDialog)
      && (!nodes.hasDialog ==> trace.events == [] && trace.pending == [])
      && (nodes.hasDialog && status.isClosing ==> FinishClose in trace.pending)
      && outside.dialogListeners == (nodes.hasDialog && outside.closeOnOutsideClickIsSet)
      && (outside.invokerListeners ==> nodes.hasInvoker && outside.closeOnOutsideClickIsSet)
      && outside.documentListener == outside.closeOnOutsideClickIsSet
      && (wiring.keyup ==> Opened() && nodes.hasDialog)
      && (wiring.resize ==> Opened() && nodes.hasDialog)
      && (wiring.invokerClick ==> nodes.hasInvoker)
      && (wiring.autoUpdating ==> nodes.hasDialog && nodes.hasInvoker)
      && Balanced(trace.events, trace.pending)
      && PrefixOrdered(trace.events)
    }

    /** `doComputePosition`: one `computePosition` call when both nodes exist, nothing otherwise. */
    function DoComputePosition(): (r: Host)
      ensures r.(trace := trace) == this
      ensures r.trace.events == trace.events && r.trace.pending == trace.pending
      ensures |r.trace.requests| == |trace.requests| + (if nodes.hasDialog && nodes.hasInvoker then 1 else 0)
      ensures r.trace.requests[..|trace.requests|] == trace.requests
      ensures nodes.hasDialog && nodes.hasInvoker ==>
        r.trace.requests[|trace.requests|] ==
          PositionRequest(props.positionStrategy, props.placement, Middlewares(props.dialogMargin, nodes.hasArrowEl))
    {
      match RequestFor(nodes.hasDialog, nodes.hasInvoker, props.positionStrategy, props.placement,
                       props.dialogMargin, nodes.hasArrowEl)
      case None => this
      case Some(q) => this.(trace := trace.(requests := trace.requests + [q]))
    }

    /**
      `addOrRemoveOutsideClickHandlers(phase)`: both "inside" flags are reset,
      and the capture listeners on the dialog, the invoker (each when present)
      and the document are added or removed together.
     */
    function AddOrRemoveOutsideClickHandlers(phase: Phase): (r: Host)
      ensures !r.outside.wasMouseDownInside && !r.outside.wasMouseUpInside
      ensures r.outside.closeOnOutsideClickIsSet == (phase == Add)
      ensures r.outside.documentListener == (phase == Add)
      ensures r.outside.dialogListeners == if nodes.hasDialog then phase == Add else outside.dialogListeners
      ensures r.outside.invokerListeners == if nodes.hasInvoker then phase == Add else outside.invokerListeners
      ensures r.(outside := outside) == this
    {
      var add := phase == Add;
      this.(outside := OutsideClick(
        closeOnOutsideClickIsSet := add,
        wasMouseDownInside := false,
        wasMouseUpInside := false,
        dialogListeners := if nodes.hasDialog then add else outside.dialogListeners,
        invokerListeners := if nodes.hasInvoker then add else outside.invokerListeners,
        documentListener := add))
    }

    /** `setupCloseOnOutsideClick`: installs the handlers unless they are already installed. */
    function SetupCloseOnOutsideClick(): (r: Host)
      ensures r.outside.closeOnOutsideClickIsSet
      ensures outside.closeOnOutsideClickIsSet ==> r == this
      ensures !outside.closeOnOutsideClickIsSet ==> r.outside.documentListener
      ensures !outside.closeOnOutsideClickIsSet ==> !r.outside.wasMouseDownInside && !r.outside.wasMouseUpInside
      ensures r.(outside := outside) == this
    {
      if outside.closeOnOutsideClickIsSet then this else AddOrRemoveOutsideClickHandlers(Add)
    }

    /** `onInsideMouseDown`. */
    function InsideMouseDown(): (r: Host)
      ensures r.outside.wasMouseDownInside
      ensures r.(outside := r.outside.(wasMouseDownInside := outside.wasMouseDownInside)) == this
    {
      this.(outside := outside.(wasMouseDownInside := true))
    }

    /** `onInsideMouseUp`. */
    function InsideMouseUp(): (r: Host)
      ensures r.outside.wasMouseUpInside
      ensures r.(outside := r.outside.(wasMouseUpInside := outside.wasMouseUpInside)) == this
    {
      this.(outside := outside.(wasMouseUpInside := true))
    }

    /** Both "inside" flags cleared. */
    function ClearInsideFlags(): (r: Host)
      ensures !r.outside.wasMouseDownInside && !r.outside.wasMouseUpInside
      ensures r.(outside := r.outside.(wasMouseDownInside := outside.wasMouseDownInside,
                                       wasMouseUpInside := outside.wasMouseUpInside)) == this
    {
      this.(outside := outside.(wasMouseDownInside := false, wasMouseUpInside := false))
    }

    /**
      The `setTimeout` callback of `onDocumentMouseUp`, which runs after the
      inside handlers of the same click: with neither flag set it closes the
      dialog and removes the handlers; in every case both flags end false.
     */
    function DocumentMouseUp(): (r: Host)
      ensures !r.outside.wasMouseDownInside && !r.outside.wasMouseUpInside
      ensures r.Opened() == (Opened() && (outside.wasMouseDownInside || outside.wasMouseUpInside))
      ensures !outside.wasMouseDownInside && !outside.wasMouseUpInside ==>
        && !r.outside.closeOnOutsideClickIsSet && !r.outside.documentListener
        && r.(outside := Close().outside) == Close()
      ensures outside.wasMouseDownInside || outside.wasMouseUpInside ==> r == ClearInsideFlags()
    {
      var s := if !outside.wasMouseDownInside && !outside.wasMouseUpInside
               then Close().AddOrRemoveOutsideClickHandlers(Remove)
               else this;
      s.ClearInsideFlags()
    }

    /** `escKeyHandler`: Escape closes, any other key does nothing. */
    function EscKeyUp(key: string): (r: Host)
      ensures key != "Escape" ==> r == this
      ensures key == "Escape" ==> !r.Opened() && r.outside == outside && (Opened() ==> r.status.isClosing)
    {
      if key == "Escape" then Close() else this
    }

    /**
      The MutationObserver callback for one mutation of the dialog's
      attributes: it calls `close()` only for an `open` mutation that left the
      dialog without `open` while no close is in progress.
     */
    function DialogAttributeMutation(attributeName: string): (r: Host)
      ensures r != this ==> attributeName == "open" && !(nodes.hasDialog && native.open) && !status.isClosing && Opened()
      ensures attributeName == "open" && !(nodes.hasDialog && native.open) && !status.isClosing ==> !r.Opened()
    {
      var isOpen := nodes.hasDialog && native.open;
      if attributeName == "open" && !isOpen && !status.isClosing then Close() else this
    }

    /** `dialogNode.close(result)`, as `NativeDialog.Close` describes it. */
    function NativeClose(result: Option<string>): (r: Host)
      ensures !r.native.open
      ensures r.native.returnValue == if native.open && result.Some? then result.value else native.returnValue
      ensures r.(native := native) == this
    {
      this.(native := native.Close(result))
    }

    /**
      `lightDismiss`: a click whose target is the dialog node itself (its
      backdrop) closes the native dialog with return value "dismiss" when
      `closesOnOutsideClick` is set.
     */
    function LightDismiss(targetIsDialog: bool): (r: Host)
      ensures r.native.open != native.open <==>
        nodes.hasDialog && targetIsDialog && props.closesOnOutsideClick && native.open
      ensures r.native.open != native.open ==> r.native.returnValue == "dismiss"
      ensures r.(native := native) == this
    {
      if nodes.hasDialog && targetIsDialog && props.closesOnOutsideClick then NativeClose(Some("dismiss")) else this
    }

    /** `show()` or `showModal()` on the native dialog. */
    function Show(): (r: Host)
      ensures r.native.open && r.(native := native) == this
    {
      this.(native := native.(open := true))
    }

    /** The non-modal guards of `_open`: the Escape listener and, when configured, the outside-click handlers. */
    function NonModalGuards(): (r: Host)
      ensures r.wiring == wiring.(keyup := true)
      ensures r.outside.closeOnOutsideClickIsSet == (outside.closeOnOutsideClickIsSet || props.closesOnOutsideClick)
      ensures !props.closesOnOutsideClick ==> r.outside == outside
      ensures r.(wiring := wiring, outside := outside) == this
    {
      var withEsc := this.(wiring := wiring.(keyup := true));
      if props.closesOnOutsideClick then withEsc.SetupCloseOnOutsideClick() else withEsc
    }

    /** The end of `_open` before its await: the resize listener, "dialog-opening", and the queued rest. */
    function StartOpening(): (r: Host)
      ensures r.wiring == wiring.(resize := true)
      ensures r.trace == trace.(events := trace.events + [DialogOpening], pending := trace.pending + [DispatchOpened])
      ensures r.(wiring := wiring, trace := trace) == this
    {
      this.(wiring := wiring.(resize := true),
            trace := trace.(events := trace.events + [DialogOpening], pending := trace.pending + [DispatchOpened]))
    }

    /**
      `_open` up to its await: without a dialog node nothing happens; else the
      native dialog is shown, a non-modal dialog gets the Escape listener and,
      when configured, the outside-click handlers, the position is computed,
      the resize listener is added and "dialog-opening" is dispatched.
     */
    function OpenTransition(): (r: Host)
      ensures !nodes.hasDialog ==> r == this
      ensures nodes.hasDialog ==>
        && r.native.open && r.wiring.resize
        && r.wiring.keyup == (wiring.keyup || !props.isModal)
        && r.outside.closeOnOutsideClickIsSet ==
             (outside.closeOnOutsideClickIsSet || (!props.isModal && props.closesOnOutsideClick))
        && r.trace.events == trace.events + [DialogOpening]
        && r.trace.pending == trace.pending + [DispatchOpened]
        && r.trace.requests == trace.requests +
             (if nodes.hasInvoker
              then [PositionRequest(props.positionStrategy, props.placement, Middlewares(props.dialogMargin, nodes.hasArrowEl))]
              else [])
      ensures r.props == props && r.nodes == nodes && r.status == status
      ensures r.native.returnValue == native.returnValue
      ensures r.wiring.observing == wiring.observing && r.wiring.autoUpdating == wiring.autoUpdating
      ensures r.wiring.invokerClick == wiring.invokerClick
      ensures props.isModal || !props.closesOnOutsideClick ==> r.outside == outside
    {
      if !nodes.hasDialog then this
      else
        var shown := Show();
        var guarded := if props.isModal then shown else shown.NonModalGuards();
        guarded.DoComputePosition().StartOpening()
    }

    /** The end of `_close` before its await: the resize and Escape listeners go, "dialog-closing" is dispatched. */
    function StartClosing(): (r: Host)
      ensures r.wiring == wiring.(resize := false, keyup := false)
      ensures r.trace == trace.(events := trace.events + [DialogClosing], pending := trace.pending + [FinishClose])
      ensures r.(wiring := wiring, trace := trace) == this
    {
      this.(wiring := wiring.(resize := false, keyup := false),
            trace := trace.(events := trace.events + [DialogClosing], pending := trace.pending + [FinishClose]))
    }

    /**
      `_close` up to its await: the native dialog is closed, the resize and
      Escape listeners are removed and "dialog-closing" is dispatched. The
      outside-click handlers are left as they are.
     */
    function CloseTransition(): (r: Host)
      ensures !nodes.hasDialog ==> r == this
      ensures nodes.hasDialog ==>
        && !r.native.open && !r.wiring.resize && !r.wiring.keyup
        && r.trace.events == trace.events + [DialogClosing]
        && r.trace.pending == trace.pending + [FinishClose]
      ensures r.props == props && r.nodes == nodes && r.status == status && r.outside == outside
      ensures r.native.returnValue == native.returnValue && r.trace.requests == trace.requests
      ensures r.wiring.observing == wiring.observing && r.wiring.autoUpdating == wiring.autoUpdating
      ensures r.wiring.invokerClick == wiring.invokerClick
    {
      if !nodes.hasDialog then this else NativeClose(None).StartClosing()
    }

    /** `open()`: nothing when already opened; else sets `opened`, whose setter runs `_open`. */
    function Open(): (r: Host)
      ensures Opened() ==> r == this
      ensures !Opened() ==>
        && r.Opened() && r.status.isClosing == status.isClosing
        && r.trace.events == trace.events + (if nodes.hasDialog then [DialogOpening] else [])
        && r.trace.pending == trace.pending + (if nodes.hasDialog then [DispatchOpened] else [])
      ensures !Opened() && nodes.hasDialog ==>
        && r.native.open && r.wiring.resize
        && (r.wiring.keyup <==> wiring.keyup || !props.isModal)
        && (r.outside.closeOnOutsideClickIsSet <==>
              outside.closeOnOutsideClickIsSet || (!props.isModal && props.closesOnOutsideClick))
    {
      if Opened() then this else this.(status := status.(openedAttr := true)).OpenTransition()
    }

    /**
      `close()`: nothing when not opened; else `isClosing` is set before
      `opened` is cleared, whose setter runs `_close`. The outside-click
      handlers and their flag are not touched.
     */
    function Close(): (r: Host)
      ensures !Opened() ==> r == this
      ensures Opened() ==>
        && !r.Opened() && r.status.isClosing
        && r.trace.events == trace.events + (if nodes.hasDialog then [DialogClosing] else [])
        && r.trace.pending == trace.pending + (if nodes.hasDialog then [FinishClose] else [])
      ensures Opened() && nodes.hasDialog ==> !r.native.open && !r.wiring.resize && !r.wiring.keyup
      ensures r.props == props && r.nodes == nodes && r.outside == outside
      ensures r.trace.requests == trace.requests && r.wiring.invokerClick == wiring.invokerClick
    {
      if !Opened() then this else this.(status := Status(openedAttr := false, isClosing := true)).CloseTransition()
    }

    /**
      The event loop resuming the continuation at index `k` after its
      animations settled: "dialog-opened", or "dialog-closed" followed by
      clearing `isClosing`.
     */
    function AnimationsSettled(k: nat): (r: Host)
      requires k < |trace.pending|
      ensures r.trace.pending == RemoveAt(trace.pending, k)
      ensures trace.pending[k] == DispatchOpened ==>
        r.trace.events == trace.events + [DialogOpened] && r.status == status
      ensures trace.pending[k] == FinishClose ==>
        r.trace.events == trace.events + [DialogClosed] && r.status == status.(isClosing := false)
      ensures r.(status := status, trace := trace) == this && r.trace.requests == trace.requests
    {
      var rest := RemoveAt(trace.pending, k);
      match trace.pending[k]
      case DispatchOpened =>
        this.(trace := trace.(events := trace.events + [DialogOpened], pending := rest))
      case FinishClose =>
        this.(status := status.(isClosing := false),
              trace := trace.(events := trace.events + [DialogClosed], pending := rest))
    }

    /**
      The `invokerNode` setter: null changes nothing; otherwise the node
      becomes the invoker with the click listener, and an opened dialog is
      positioned against it. The new node has no "inside" listeners. When an
      invoker was already there, the host element is moved next to the new
      one; the move disconnects it, so `disconnectedCallback` ends the
      auto-update subscription, and nothing subscribes again.
     */
    function SetInvoker(present: bool): (r: Host)
      ensures !present ==> r == this
      ensures present ==> r.nodes.hasInvoker && r.wiring.invokerClick && !r.outside.invokerListeners
      ensures present ==>
        r.trace.requests == trace.requests +
          (if Opened() && nodes.hasDialog
           then [PositionRequest(props.positionStrategy, props.placement, Middlewares(props.dialogMargin, nodes.hasArrowEl))]
           else [])
      ensures present && nodes.hasInvoker ==> !r.wiring.autoUpdating
      ensures !nodes.hasInvoker ==> r.wiring.autoUpdating == wiring.autoUpdating
      ensures r.status == status && r.native == native && r.props == props
      ensures r.trace.events == trace.events && r.trace.pending == trace.pending
      ensures r.outside.closeOnOutsideClickIsSet == outside.closeOnOutsideClickIsSet
      ensures r.wiring.observing == wiring.observing && r.wiring.keyup == wiring.keyup && r.wiring.resize == wiring.resize
    {
      if !present then this
      else
        var moved := if nodes.hasInvoker then Disconnected() else this;
        var s := moved.(nodes := nodes.(hasInvoker := true),
                        wiring := moved.wiring.(invokerClick := true),
                        outside := outside.(invokerListeners := false));
        if Opened() then s.DoComputePosition() else s
    }

    /**
      `renderDialogContent`: the content itself is not modelled; with a
      dialog node present and the element opened, the position is computed
      again.
     */
    function RenderDialogContent(): (r: Host)
      ensures !(nodes.hasDialog && Opened()) ==> r == this
      ensures nodes.hasDialog && Opened() ==> r.trace.requests == DoComputePosition().trace.requests
      ensures r.(trace := trace) == this
      ensures r.trace.events == trace.events && r.trace.pending == trace.pending
    {
      if nodes.hasDialog && Opened() then DoComputePosition() else this
    }

    /**
      Lit's `updated` hook: a placement change while opened recomputes the
      position; a `closesOnOutsideClick` change while opened calls
      `setupCloseOnOutsideClick`, which only ever installs handlers.
     */
    function Updated(placementChanged: bool, closesChanged: bool): (r: Host)
      ensures !Opened() ==> r == this
      ensures Opened() && closesChanged ==> r.outside.closeOnOutsideClickIsSet
      ensures !(Opened() && closesChanged) ==> r.outside == outside
      ensures |r.trace.requests| ==
        |trace.requests| + (if Opened() && placementChanged && nodes.hasDialog && nodes.hasInvoker then 1 else 0)
      ensures Opened() && placementChanged ==> r.trace.requests == DoComputePosition().trace.requests
      ensures !(Opened() && placementChanged) ==> r.trace.requests == trace.requests
      ensures r.status == status && r.native == native && r.props == props
      ensures r.trace.events == trace.events && r.trace.pending == trace.pending
    {
      var s := if placementChanged && Opened() then DoComputePosition() else this;
      if closesChanged && s.Opened() then s.SetupCloseOnOutsideClick() else s
    }

    /** `setupMutationObserver`: observes the dialog node, or throws when there is none. */
    function SetupMutationObserver(): (r: Completion)
      ensures r.Threw? <==> !nodes.hasDialog
      ensures r.Threw? ==> r.message == MissingDialogMessage && r.state == this
      ensures r.Returned? ==> r.state == this.(wiring := wiring.(observing := true))
    {
      if nodes.hasDialog then Returned(this.(wiring := wiring.(observing := true)))
      else Threw(this, MissingDialogMessage)
    }

    /**
      `firstUpdated`: the invoker (if any) gets the click listener, then the
      observer is set up (throwing without a dialog node, in which case no
      auto-update is subscribed), then the auto-update subscription when both
      nodes exist.
     */
    function FirstUpdated(): (r: Completion)
      ensures r.Threw? <==> !nodes.hasDialog
      ensures r.state.wiring.invokerClick == (wiring.invokerClick || nodes.hasInvoker)
      ensures r.state.wiring.autoUpdating == (wiring.autoUpdating || (nodes.hasDialog && nodes.hasInvoker))
      ensures r.state.wiring.observing == (wiring.observing || nodes.hasDialog)
      ensures r.state.(wiring := wiring) == this
    {
      var clickable := if nodes.hasInvoker then this.(wiring := wiring.(invokerClick := true)) else this;
      match clickable.SetupMutationObserver()
      case Threw(s, m) => Threw(s, m)
      case Returned(s) =>
        Returned(if s.nodes.hasInvoker && s.nodes.hasDialog then s.(wiring := s.wiring.(autoUpdating := true)) else s)
    }

    /** `disconnectedCallback`: the auto-update subscription is torn down. */
    function Disconnected(): (r: Host)
      ensures !r.wiring.autoUpdating
      ensures r.(wiring := r.wiring.(autoUpdating := wiring.autoUpdating)) == this
    {
      this.(wiring := wiring.(autoUpdating := false))
    }
  }

  /** A freshly constructed host: placement 'top', absolute, not modal, no outside-click closing, margin 16, nothing registered. */
  function Initial(hasDialog: bool, hasInvoker: bool, hasArrowEl: bool): (h: Host)
    ensures h.Valid()
    ensures !h.Opened() && h.trace.events == [] && h.trace.pending == []
  {
    Host(Props("top", Absolute, false, false, DialogMargin),
         Nodes(hasDialog, hasInvoker, hasArrowEl),
         Status(false, false),
         NativeDialog(false, ""),
         OutsideClick(false, false, false, false, false, false),
         Wiring(false, false, false, false, false),
         Trace([], [], []))
  }

  // ---------------------------------------------------------------------
  // The invariant is kept by every operation.
  // ---------------------------------------------------------------------

  lemma OutsideClickKeepsValid(h: Host, phase: Phase)
    requires h.Valid()
    ensures h.AddOrRemoveOutsideClickHandlers(phase).Valid()
    ensures h.SetupCloseOnOutsideClick().Valid()
  {
  }

  lemma {:induction false} OpenKeepsValid(h: Host)
    requires h.Valid()
    ensures h.Open().Valid()
  {
    if !h.Opened() && h.nodes.hasDialog {
      StartKeepsBalanced(h.trace.events, h.trace.pending, DialogOpening, DispatchOpened);
      AppendKeepsOrdered(h.trace.events, DialogOpening);
      var r := h.Open();
      assert FinishClose in h.trace.pending ==> FinishClose in r.trace.pending;
    }
  }

  lemma {:induction false} CloseKeepsValid(h: Host)
    requires h.Valid()
    ensures h.Close().Valid()
  {
    if h.Opened() && h.nodes.hasDialog {
      StartKeepsBalanced(h.trace.events, h.trace.pending, DialogClosing, FinishClose);
      AppendKeepsOrdered(h.trace.events, DialogClosing);
      assert h.Close().trace.pending[|h.trace.pending|] == FinishClose;
    }
  }

  lemma {:induction false} AnimationsSettledKeepsValid(h: Host, k: nat)
    requires h.Valid() && k < |h.trace.pending|
    ensures h.AnimationsSettled(k).Valid()
  {
    FinishKeepsBalanced(h.trace.events, h.trace.pending, k);
    CountRemoveAt(h.trace.pending, k, FinishClose);
  }

  lemma {:induction false} DocumentMouseUpKeepsValid(h: Host)
    requires h.Valid()
    ensures h.DocumentMouseUp().Valid()
  {
    CloseKeepsValid(h);
    OutsideClickKeepsValid(h.Close(), Remove);
  }

  lemma {:induction false} UpdatedKeepsValid(h: Host, placementChanged: bool, closesChanged: bool)
    requires h.Valid()
    ensures h.Updated(placementChanged, closesChanged).Valid()
  {
    var s := if placementChanged && h.Opened() then h.DoComputePosition() else h;
    OutsideClickKeepsValid(s, Add);
  }

  lemma InputsKeepValid(h: Host)
    requires h.Valid()
    ensures h.InsideMouseDown().Valid() && h.InsideMouseUp().Valid()
    ensures forall p :: h.(props := p).Valid()
  {
  }

  lemma NativeCloseKeepsValid(h: Host, result: Option<string>)
    requires h.Valid()
    ensures h.NativeClose(result).Valid()
    ensures forall t :: h.LightDismiss(t).Valid()
  {
  }

  lemma WiringKeepsValid(h: Host)
    requires h.Valid()
    ensures h.FirstUpdated().state.Valid() && h.Disconnected().Valid()
  {
  }

  lemma PositionKeepsValid(h: Host)
    requires h.Valid()
    ensures h.DoComputePosition().Valid()
  {
  }

  lemma {:induction false} SetInvokerKeepsValid(h: Host, present: bool)
    requires h.Valid()
    ensures h.SetInvoker(present).Valid()
  {
    if present {
      var moved := if h.nodes.hasInvoker then h.Disconnected() else h;
      var s := moved.(nodes := h.nodes.(hasInvoker := true),
                      wiring := moved.wiring.(invokerClick := true),
                      outside := h.outside.(invokerListeners := false));
      assert s.Valid();
      if h.Opened() {
        PositionKeepsValid(s);
      }
    }
  }

  lemma {:induction false} RenderDialogContentKeepsValid(h: Host)
    requires h.Valid()
    ensures h.RenderDialogContent().Valid()
  {
    PositionKeepsValid(h);
  }

  /**
    What can happen to the element from outside, one step at a time: calls
    the page makes, events that reach a registered listener, the observer
    firing, the event loop resuming an awaited continuation, and Lit
    re-rendering after properties changed.
   */
  datatype Step =
    | OpenCall | CloseCall
    | InsideMouseDownEvent(onInvoker: bool) | InsideMouseUpEvent(onInvoker: bool)
    | DocumentMouseUpTimeout
    | KeyUpEvent(key: string)
    | AttributeMutation(attributeName: string)
    | DialogClick(targetIsDialog: bool)
    | NativeCloseCall(result: Option<string>)
    | AnimationsSettledAt(k: nat)
    | InvokerSet(present: bool)
    | PropertiesUpdated(placementChanged: bool, closesChanged: bool)
    | FirstUpdate | Disconnect
    | ContentRendered
    | PropsSet(props: Props)
  {
    /** A step that does something only when its listener, observer or continuation is there. */
    predicate Guarded() {
      || InsideMouseDownEvent? || InsideMouseUpEvent? || DocumentMouseUpTimeout? || KeyUpEvent?
      || AttributeMutation? || DialogClick? || AnimationsSettledAt?
    }
  }

  /** Whether the capture listeners on the invoker (or else the dialog node) would receive an event. */
  predicate InsideListening(h: Host, onInvoker: bool) {
    if onInvoker then h.outside.invokerListeners else h.outside.dialogListeners
  }

  /** One step; an event nobody listens to changes nothing. */
  function Apply(h: Host, step: Step): Host {
    match step
    case OpenCall => h.Open()
    case CloseCall => h.Close()
    case InsideMouseDownEvent(i) => if InsideListening(h, i) then h.InsideMouseDown() else h
    case InsideMouseUpEvent(i) => if InsideListening(h, i) then h.InsideMouseUp() else h
    case DocumentMouseUpTimeout => if h.outside.documentListener then h.DocumentMouseUp() else h
    case KeyUpEvent(key) => if h.wiring.keyup then h.EscKeyUp(key) else h
    case AttributeMutation(name) => if h.wiring.observing then h.DialogAttributeMutation(name) else h
    case DialogClick(t) => if h.nodes.hasDialog then h.LightDismiss(t) else h
    case NativeCloseCall(result) => h.NativeClose(result)
    case AnimationsSettledAt(k) => if k < |h.trace.pending| then h.AnimationsSettled(k) else h
    case InvokerSet(present) => h.SetInvoker(present)
    case PropertiesUpdated(p, c) => h.Updated(p, c)
    case FirstUpdate => h.FirstUpdated().state
    case Disconnect => h.Disconnected()
    case ContentRendered => h.RenderDialogContent()
    case PropsSet(p) => h.(props := p)
  }

  /** The steps applied in order. */
  function Run(h: Host, steps: seq<Step>): Host
    decreases |steps|
  {
    if steps == [] then h else Run(Apply(h, steps[0]), steps[1..])
  }

  lemma {:induction false} GuardedStepKeepsValid(h: Host, step: Step)
    requires h.Valid() && step.Guarded()
    ensures Apply(h, step).Valid()
  {
    match step
    case DocumentMouseUpTimeout => DocumentMouseUpKeepsValid(h);
    case KeyUpEvent(key) => CloseKeepsValid(h);
    case AttributeMutation(name) => CloseKeepsValid(h);
    case AnimationsSettledAt(k) => if k < |h.trace.pending| { AnimationsSettledKeepsValid(h, k); }
    case InsideMouseDownEvent(i) => InputsKeepValid(h);
    case InsideMouseUpEvent(i) => InputsKeepValid(h);
    case DialogClick(t) => NativeCloseKeepsValid(h, Some("dismiss"));
  }

  lemma {:induction false} ApplyKeepsValid(h: Host, step: Step)
    requires h.Valid()
    ensures Apply(h, step).Valid()
  {
    if step.Guarded() {
      GuardedStepKeepsValid(h, step);
    } else {
      match step
      case OpenCall => OpenKeepsValid(h);
      case CloseCall => CloseKeepsValid(h);
      case PropertiesUpdated(p, c) => UpdatedKeepsValid(h, p, c);
      case NativeCloseCall(result) => NativeCloseKeepsValid(h, result);
      case InvokerSet(present) => SetInvokerKeepsValid(h, present);
      case FirstUpdate => WiringKeepsValid(h);
      case Disconnect => WiringKeepsValid(h);
      case ContentRendered => RenderDialogContentKeepsValid(h);
      case PropsSet(p) => InputsKeepValid(h);
    }
  }

  /** No step adds or removes the dialog node. */
  lemma ApplyKeepsDialogNode(h: Host, step: Step)
    ensures Apply(h, step).nodes.hasDialog == h.nodes.hasDialog
  {
  }

  lemma {:induction false} RunKeepsValid(h: Host, steps: seq<Step>)
    requires h.Valid()
    ensures Run(h, steps).Valid()
    ensures Run(h, steps).nodes.hasDialog == h.nodes.hasDialog
    decreases |steps|
  {
    if steps != [] {
      ApplyKeepsValid(h, steps[0]);
      ApplyKeepsDialogNode(h, steps[0]);
      RunKeepsValid(Apply(h, steps[0]), steps[1..]);
    }
  }

  /**
    In every trace the element can produce from construction on, each
    "dialog-opened" comes after a matching "dialog-opening" and each
    "dialog-closed" after a matching "dialog-closing"; the native dialog is
    never open while `opened` is clear, and no Escape or resize listener
    outlives `opened`.
   */
  lemma ReachableTracesOrdered(hasDialog: bool, hasInvoker: bool, hasArrowEl: bool, steps: seq<Step>)
    ensures var h := Run(Initial(hasDialog, hasInvoker, hasArrowEl), steps);
      && PrefixOrdered(h.trace.events)
      && (h.native.open ==> h.Opened())
      && (h.wiring.keyup || h.wiring.resize ==> h.Opened())
      && (!hasDialog ==> h.trace.events == [])
  {
    RunKeepsValid(Initial(hasDialog, hasInvoker, hasArrowEl), steps);
  }

  // ---------------------------------------------------------------------
  // Scenarios the source relies on.
  // ---------------------------------------------------------------------

  /** Opening an idle host and letting its animations settle dispatches "dialog-opening" then "dialog-opened". */
  lemma OpenThenSettle(h: Host)
    requires h.nodes.hasDialog && !h.Opened() && h.trace.pending == []
    ensures h.Open().Open() == h.Open()
    ensures var s := h.Open().AnimationsSettled(0);
      && s.Opened() && s.native.open && s.trace.pending == [] && s.nodes == h.nodes
      && s.trace.events == h.trace.events + [DialogOpening, DialogOpened]
  {
  }

  /**
    Closing an opened host with nothing pending and letting its animations
    settle dispatches "dialog-closing" then "dialog-closed"; `isClosing`
    holds in between and is clear at the end, and no Escape or resize
    listener is left.
   */
  lemma CloseThenSettle(h: Host)
    requires h.nodes.hasDialog && h.Opened() && h.trace.pending == []
    ensures h.Close().status.isClosing
    ensures var s := h.Close().AnimationsSettled(0);
      && !s.Opened() && !s.status.isClosing && !s.native.open
      && !s.wiring.keyup && !s.wiring.resize && s.trace.pending == []
      && s.trace.events == h.trace.events + [DialogClosing, DialogClosed]
  {
  }

  /** A full cycle from rest dispatches exactly opening, opened, closing, closed, in that order. */
  lemma {:induction false} OpenCloseCycle(h: Host)
    requires h.nodes.hasDialog && !h.Opened() && h.trace.pending == []
    ensures var closed := h.Open().AnimationsSettled(0).Close().AnimationsSettled(0);
      && closed.trace.events == h.trace.events + [DialogOpening, DialogOpened, DialogClosing, DialogClosed]
      && !closed.Opened() && !closed.status.isClosing && closed.trace.pending == []
  {
    OpenThenSettle(h);
    CloseThenSettle(h.Open().AnimationsSettled(0));
  }

  /**
    The close that `close()` itself starts removes the native `open`
    attribute; the observer sees that mutation while `isClosing` holds and
    ignores it, and ignores it too once the close has finished.
   */
  lemma SelfTriggeredMutationIgnored(h: Host)
    requires h.Opened() && h.nodes.hasDialog
    ensures var c := h.Close();
      && c.DialogAttributeMutation("open") == c
      && forall k :: 0 <= k < |c.trace.pending| ==>
           c.AnimationsSettled(k).DialogAttributeMutation("open") == c.AnimationsSettled(k)
  {
  }

  /**
    A close the host did not start (the browser closing a modal dialog on
    Escape, or a light dismiss) is followed by the observer, which brings
    `opened` back in line: the host closes and dispatches "dialog-closing".
   */
  lemma NativeCloseResynchronises(h: Host, result: Option<string>)
    requires h.Valid() && h.Opened() && h.native.open && !h.status.isClosing
    ensures var r := h.NativeClose(result).DialogAttributeMutation("open");
      && !r.Opened() && r.status.isClosing && !r.native.open
      && r.trace.events == h.trace.events + [DialogClosing]
  {
  }

  /** A click on the backdrop of a dialog that closes on outside click ends with the host closed and return value "dismiss". */
  lemma LightDismissCloses(h: Host)
    requires h.Valid() && h.Opened() && h.native.open && !h.status.isClosing && h.props.closesOnOutsideClick
    ensures var r := h.LightDismiss(true).DialogAttributeMutation("open");
      !r.Opened() && r.native.returnValue == "dismiss"
  {
  }

  /**
    The page opening the native dialog itself (`show()` on the slotted
    node) is a mutation the observer ignores: `opened` stays clear, no event
    is dispatched, and the element's invariant no longer holds.
   */
  lemma ExternalShowIgnored(h: Host)
    requires h.Valid() && h.nodes.hasDialog && !h.Opened()
    ensures var s := h.Show();
      && s.DialogAttributeMutation("open") == s
      && !s.Opened() && s.native.open && s.trace == h.trace
      && !s.Valid()
  {
  }

  /**
    Turning `closesOnOutsideClick` on while a dialog is open arms the
    handlers, so a click with no inside mousedown or mouseup closes it, and
    one with an inside mousedown does not.
   */
  lemma EnablingOutsideClickWhileOpen(h: Host)
    requires h.Valid() && h.Opened() && !h.props.closesOnOutsideClick && !h.outside.closeOnOutsideClickIsSet
    ensures var armed := h.(props := h.props.(closesOnOutsideClick := true)).Updated(false, true);
      && armed.outside.closeOnOutsideClickIsSet && armed.outside.documentListener
      && !armed.DocumentMouseUp().Opened()
      && armed.InsideMouseDown().DocumentMouseUp().Opened()
  {
  }

  /**
    Turning `closesOnOutsideClick` off while the handlers are installed does
    not remove them: `updated` calls `setupCloseOnOutsideClick` whichever way
    the flag changed, so an outside click still closes the dialog.
   */
  lemma DisablingOutsideClickWhileOpenKeepsHandlers(h: Host)
    requires h.Valid() && h.Opened() && h.outside.closeOnOutsideClickIsSet
    requires !h.outside.wasMouseDownInside && !h.outside.wasMouseUpInside
    ensures var g := h.(props := h.props.(closesOnOutsideClick := false)).Updated(false, true);
      && !g.props.closesOnOutsideClick && g.outside.closeOnOutsideClickIsSet
      && !g.DocumentMouseUp().Opened()
  {
  }

  // ---------------------------------------------------------------------
  // The element, with its state in fields.
  // ---------------------------------------------------------------------

  class RiotsDialog {
    /** `placement`, `positionStrategy`, `isModal`, `closesOnOutsideClick`, `dialogMargin`. */
    var props: Props
    /** The slotted dialog, invoker and arrow nodes. */
    var nodes: Nodes
    /** The `opened` attribute and `isClosing`. */
    var status: Status
    /** The native dialog element's state. */
    var native: NativeDialog
    /** `closeOnOutsideClickIsSet`, `wasMouseDownInside`, `wasMouseUpInside` and the capture listeners. */
    var outside: OutsideClick
    /** The observer, the auto-update subscription and the other listeners. */
    var wiring: Wiring
    /** Dispatched events, awaiting continuations, `computePosition` calls. */
    var trace: Trace

    /** The fields as a `Host` value. */
    function State(): Host
      reads this
    {
      Host(props, nodes, status, native, outside, wiring, trace)
    }

    ghost predicate Valid()
      reads this
    {
      State().Valid()
    }

    constructor (hasDialog: bool, hasInvoker: bool, hasArrowEl: bool)
      ensures State() == Initial(hasDialog, hasInvoker, hasArrowEl) && Valid()
    {
      props := Props("top", Absolute, false, false, DialogMargin);
      nodes := Nodes(hasDialog, hasInvoker, hasArrowEl);
      status := Status(false, false);
      native := NativeDialog(false, "");
      outside := OutsideClick(false, false, false, false, false, false);
      wiring := Wiring(false, false, false, false, false);
      trace := Trace([], [], []);
    }

    /** The page assigning the reflected properties (`placement`, `isModal`, ...). */
    method SetProps(p: Props)
      modifies this
      ensures State() == old(State()).(props := p)
      ensures old(Valid()) ==> Valid()
    {
      if Valid() {
        InputsKeepValid(State());
      }
      props := p;
    }

    method DoComputePosition()
      modifies this
      ensures State() == old(State()).DoComputePosition()
    {
      var q := RequestFor(nodes.hasDialog, nodes.hasInvoker, props.positionStrategy, props.placement,
                          props.dialogMargin, nodes.hasArrowEl);
      if q.Some? {
        trace := trace.(requests := trace.requests + [q.value]);
      }
    }

    method AddOrRemoveOutsideClickHandlers(phase: Phase)
      modifies this
      ensures State() == old(State()).AddOrRemoveOutsideClickHandlers(phase)
    {
      outside := outside.(wasMouseDownInside := false, wasMouseUpInside := false);
      if nodes.hasDialog {
        outside := outside.(dialogListeners := phase == Add);
      }
      if nodes.hasInvoker {
        outside := outside.(invokerListeners := phase == Add);
      }
      outside := outside.(documentListener := phase == Add, closeOnOutsideClickIsSet := phase == Add);
    }

    method SetupCloseOnOutsideClick()
      modifies this
      ensures State() == old(State()).SetupCloseOnOutsideClick()
    {
      if outside.closeOnOutsideClickIsSet {
        return;
      }
      AddOrRemoveOutsideClickHandlers(Add);
    }

    method InsideMouseDown()
      requires Valid()
      modifies this
      ensures State() == old(State()).InsideMouseDown() && Valid()
    {
      outside := outside.(wasMouseDownInside := true);
    }

    method InsideMouseUp()
      requires Valid()
      modifies this
      ensures State() == old(State()).InsideMouseUp() && Valid()
    {
      outside := outside.(wasMouseUpInside := true);
    }

    /** `_open`, up to its await. */
    method OpenTransition()
      modifies this
      ensures State() == old(State()).OpenTransition()
    {
      if !nodes.hasDialog {
        return;
      }
      native := native.(open := true);  // showModal() or show()
      if !props.isModal {
        wiring := wiring.(keyup := true);  // setupCloseOnEsc
        if props.closesOnOutsideClick {
          SetupCloseOnOutsideClick();
        }
      }
      DoComputePosition();
      wiring := wiring.(resize := true);
      trace := trace.(events := trace.events + [DialogOpening],
                      pending := trace.pending + [DispatchOpened]);  // await animationsComplete
    }

    /** `_close`, up to its await. */
    method CloseTransition()
      modifies this
      ensures State() == old(State()).CloseTransition()
    {
      if !nodes.hasDialog {
        return;
      }
      NativeClose(None);
      wiring := wiring.(resize := false, keyup := false);
      trace := trace.(events := trace.events + [DialogClosing],
                      pending := trace.pending + [FinishClose]);  // await animationsComplete
    }

    method Open()
      requires Valid()
      modifies this
      ensures State() == old(State()).Open() && Valid()
    {
      OpenKeepsValid(State());
      if status.openedAttr {
        return;
      }
      status := status.(openedAttr := true);  // the `opened` setter runs _open
      OpenTransition();
    }

    method Close()
      requires Valid()
      modifies this
      ensures State() == old(State()).Close() && Valid()
    {
      CloseKeepsValid(State());
      if !status.openedAttr {
        return;
      }
      status := Status(openedAttr := false, isClosing := true);  // the `opened` setter runs _close
      CloseTransition();
    }

    method AnimationsSettled(k: nat)
      requires Valid() && k < |trace.pending|
      modifies this
      ensures State() == old(State()).AnimationsSettled(k) && Valid()
    {
      AnimationsSettledKeepsValid(State(), k);
      var next := trace.pending[k];
      trace := trace.(pending := RemoveAt(trace.pending, k));
      match next
      case DispatchOpened =>
        trace := trace.(events := trace.events + [DialogOpened]);
      case FinishClose =>
        trace := trace.(events := trace.events + [DialogClosed]);
        status := status.(isClosing := false);
    }

    /** The `setTimeout` callback of `onDocumentMouseUp`. */
    method DocumentMouseUp()
      requires Valid()
      modifies this
      ensures State() == old(State()).DocumentMouseUp() && Valid()
    {
      DocumentMouseUpKeepsValid(State());
      if !outside.wasMouseDownInside && !outside.wasMouseUpInside {
        Close();
        AddOrRemoveOutsideClickHandlers(Remove);
      }
      outside := outside.(wasMouseDownInside := false, wasMouseUpInside := false);
    }

    method EscKeyUp(key: string)
      requires Valid()
      modifies this
      ensures State() == old(State()).EscKeyUp(key) && Valid()
    {
      if key == "Escape" {
        Close();
      }
    }

    /** The observer callback for one attribute mutation of the dialog node. */
    method DialogAttributeMutation(attributeName: string)
      requires Valid()
      modifies this
      ensures State() == old(State()).DialogAttributeMutation(attributeName) && Valid()
    {
      if attributeName == "open" {
        var isOpen := nodes.hasDialog && native.open;
        if !isOpen && !status.isClosing {
          Close();
        }
      }
    }

    /** The native dialog's `close(result)`. */
    method NativeClose(result: Option<string>)
      modifies this
      ensures State() == old(State()).NativeClose(result)
    {
      if !native.open {
        return;
      }
      native := native.(open := false);
      if result.Some? {
        native := native.(returnValue := result.value);
      }
    }

    method LightDismiss(targetIsDialog: bool)
      requires Valid()
      modifies this
      ensures State() == old(State()).LightDismiss(targetIsDialog) && Valid()
    {
      if nodes.hasDialog && targetIsDialog && props.closesOnOutsideClick {
        NativeClose(Some("dismiss"));
      }
    }

    /** The `invokerNode` setter; `present` is false for null. */
    method SetInvoker(present: bool)
      requires Valid()
      modifies this
      ensures State() == old(State()).SetInvoker(present) && Valid()
    {
      SetInvokerKeepsValid(State(), present);
      if !present {
        return;
      }
      if nodes.hasInvoker {
        // the old invoker loses its click listener and is moved out; moving
        // the host next to the new one disconnects it
        wiring := wiring.(autoUpdating := false);
      }
      nodes := nodes.(hasInvoker := true);
      outside := outside.(invokerListeners := false);
      wiring := wiring.(invokerClick := true);
      if status.openedAttr {
        DoComputePosition();
      }
      assert State() == old(State()).SetInvoker(present);
    }

    /** `renderDialogContent`, for its effect on positioning. */
    method RenderDialogContent()
      requires Valid()
      modifies this
      ensures State() == old(State()).RenderDialogContent() && Valid()
    {
      RenderDialogContentKeepsValid(State());
      if !nodes.hasDialog {
        return;
      }
      if status.openedAttr {
        DoComputePosition();
      }
    }

    method Updated(placementChanged: bool, closesChanged: bool)
      requires Valid()
      modifies this
      ensures State() == old(State()).Updated(placementChanged, closesChanged) && Valid()
    {
      UpdatedKeepsValid(State(), placementChanged, closesChanged);
      if placementChanged && status.openedAttr {
        DoComputePosition();
      }
      if closesChanged && status.openedAttr {
        SetupCloseOnOutsideClick();
      }
    }

    /** `setupMutationObserver`; `error` carries the thrown message. */
    method SetupMutationObserver() returns (error: Option<string>)
      requires Valid()
      modifies this
      ensures var c := old(State()).SetupMutationObserver();
        && State() == c.state && Valid()
        && (error.Some? <==> c.Threw?) && (c.Threw? ==> error.value == c.message)
    {
      if !nodes.hasDialog {
        return Some(MissingDialogMessage);
      }
      wiring := wiring.(observing := true);
      error := None;
    }

    method FirstUpdated() returns (error: Option<string>)
      requires Valid()
      modifies this
      ensures var c := old(State()).FirstUpdated();
        && State() == c.state && Valid()
        && (error.Some? <==> c.Threw?) && (c.Threw? ==> error.value == c.message)
    {
      if nodes.hasInvoker {
        wiring := wiring.(invokerClick := true);
      }
      error := SetupMutationObserver();
      if error.Some? {
        return;
      }
      if nodes.hasInvoker && nodes.hasDialog {  // setupComputePosition
        wiring := wiring.(autoUpdating := true);
      }
    }

    method Disconnected()
      requires Valid()
      modifies this
      ensures State() == old(State()).Disconnected() && Valid()
    {
      wiring := wiring.(autoUpdating := false);
    }
  }
}
