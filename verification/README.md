# riots-dialog host element, modelled in Dafny

This project models the `<riots-dialog>` custom element. The element wraps a native `<dialog>` node and opens it next to an invoker node. Two versions of it are modelled, plus the demo page that drives it:

- **src/dialog.js**, the current `RiotsDialog`:
  - the `open()`/`close()` lifecycle, which goes through the reflected `opened` attribute into the `_open`/`_close` transitions;
  - the `isClosing` re-entrancy flag;
  - the four lifecycle events "dialog-opening", "dialog-opened", "dialog-closing" and "dialog-closed";
  - the outside-click ("light dismiss") heuristic with its two "inside" flags and its installed-handlers flag;
  - the Escape `keyup` listener and the attribute observer that resynchronises `opened` when the native dialog closes by itself;
  - the `invokerNode` setter, `renderDialogContent`, `firstUpdated`, `updated` and `disconnectedCallback`;
  - the guards and the middleware list of `doComputePosition`, and its arrow-styling table.
- **dialog.js**, the earlier element with the same lifecycle. It creates a fresh Escape closure on every non-modal open, always positions with `offset(16), flip(), shift()`, and treats a click on any `DIALOG` element as a light dismiss.
- **demo/demo.js**: the twelve-entry placement list and the three buttons that cycle the placement and toggle `isModal` and `closesOnOutsideClick`.

Files:

- `lifecycle.dfy` (module `Lifecycle`) holds the shared vocabulary:
  - the lifecycle events;
  - the `Resume` continuations, which stand for the second half of an `async` transition after its `await`;
  - the native dialog's `close(result)`;
  - event counting, and the facts that keep "opened" after "opening" and "closed" after "closing".
- `positioning.dfy` (module `Positioning`) holds the pure positioning logic of src/dialog.js: the `computePosition` request, `placement.split('-')[0]`, the arrow table and the arrow's style.
- `dialog_host.dfy` (module `RiotsDialogHost`) models src/dialog.js:
  - `Host` is a value snapshot of the element. Each operation of the element is a member function of it, with its contract.
  - `Valid` is the invariant every operation keeps.
  - `Step`/`Run` describe the ways of driving the element that the model covers, and `ReachableTracesOrdered` is proved over all of them. Opening the native dialog from outside the element is not among them (see "Left out").
  - The class `RiotsDialog` keeps the same state in fields. Each of its methods changes them step by step, as the JavaScript does, and is proved to end in the state its `Host` function specifies.
- `legacy_dialog.dfy` (module `LegacyDialog`) models dialog.js in the same way, with the class `LegacyRiotsDialog`.
- `demo.dfy` (module `Demo`) holds the placement list, `findIndex`, and the class `DemoPage` with the three button handlers.

How the model treats the asynchronous parts:

- **Awaits.** `_open` and `_close` run synchronously up to `await animationsComplete(...)`. At that point they queue a `Resume` in `trace.pending`. `AnimationsSettled(k)` is the event loop resuming queued continuation `k`. It may pick any `k`, so overlapping cycles are allowed, but nothing is claimed about how they interleave.
- **Deferred mouseup.** The `setTimeout` callback of `onDocumentMouseUp` is one atomic step, run after the inside handlers of the same click.
- **Inside events.** An inside mousedown or mouseup reaches the element only while the matching capture listener is registered (`InsideListening`).

Two behaviours of the code a reader may not expect:

- **`updated`.** A change of `closesOnOutsideClick` while the dialog is open only ever *installs* the outside-click handlers. It never removes them, even when the flag was switched off (`DisablingOutsideClickWhileOpenKeepsHandlers`).
- **`_close`.** Closing leaves the outside-click handlers installed. The handlers therefore outlive the open dialog until an outside click removes them.

## Model

| member | source | states |
|---|---|---|
| Positioning.Middlewares | src/dialog.js:420-431 | the middleware list is offset(margin), flip, shift, followed by arrow exactly when an arrow element exists |
| Positioning.RequestFor | src/dialog.js:411-419 | a position request is made exactly when both the dialog and the invoker node exist; it carries the strategy, the placement and the middleware list |
| Positioning.PrimaryAxis | src/dialog.js:445-446 | the primary axis is the longest dash-free prefix of the placement: it is a prefix, contains no '-', and is followed by '-' or the end |
| Positioning.AxisSide | src/dialog.js:447-472 | an axis names an edge exactly when it is one of top, right, bottom, left |
| Positioning.ArrowTableMeaning | src/dialog.js:447-472 | the table has an entry exactly for the four sides; the arrow sits on the opposite edge, is rotated 90 degrees per quarter turn from the top, and its margin is h, or h + (w - h) / 2 on the left and right |
| Positioning.DefaultArrowMargins | src/dialog-arrow.js:30-31 | with the 16 by 12 arrow, the margin is 12 for rotations 0 and 180 and 14 for rotations 90 and 270 |
| Positioning.AlignedPlacementHasArrow | src/dialog.js:445-472 | a side followed by "", "-start" or "-end" has that side as its primary axis, so it has a table entry |
| Positioning.ArrowPropsFor | src/dialog.js:447-472 | an entry exists only for a side; its rotation is a quarter turn (0, 90, 180 or 270) and its margin is h or h + (w - h) / 2 |
| Positioning.ArrowCssFor | src/dialog.js:474-482 | the rotation is the entry's; `right` and `bottom` are set exactly on those sides; the anchored edge among `left` and `top` gets minus the margin, and otherwise keeps the library's coordinate |
| Positioning.ArrowCssAnchorsOneEdge | src/dialog.js:474-482 | the arrow's anchored edge gets minus the margin; left and top otherwise keep the library's coordinates; right and bottom are cleared; the rotation is the table's |
| Positioning.PositionStyles | src/dialog.js:432-484 | the dialog goes to (x, y); the arrow is styled exactly when arrow data came back, an arrow element exists and the resolved axis is in the table, and then it is pulled out on the opposite edge and rotated |
| Lifecycle.StartKeepsBalanced | src/dialog.js:387-388 | dispatching "opening" (or "closing") and queuing its continuation keeps the dispatched events matched against the queued continuations |
| Lifecycle.FinishKeepsBalanced | src/dialog.js:388-389 | resuming a queued continuation dispatches its second event, keeps the trace balanced, and keeps every prefix ordered |
| Lifecycle.AppendKeepsOrdered | src/dialog.js:397-399 | appending an event whose partner already occurred more often keeps every prefix of the trace ordered |
| RiotsDialogHost.Host.DoComputePosition | src/dialog.js:411-431 | without a dialog or invoker node nothing happens; otherwise exactly one request is appended, with the current strategy, placement and the middleware for the current `dialogMargin` |
| RiotsDialogHost.Host.AddOrRemoveOutsideClickHandlers | src/dialog.js:257-292 | both inside flags end false; the installed flag and the document listener become phase == Add; the dialog and invoker listeners change only when the node exists |
| RiotsDialogHost.Host.SetupCloseOnOutsideClick | src/dialog.js:228-233 | the handlers end installed; nothing changes when they already were; otherwise the inside flags are reset |
| RiotsDialogHost.Host.InsideMouseDown | src/dialog.js:235-237 | sets the mousedown-inside flag and nothing else |
| RiotsDialogHost.Host.InsideMouseUp | src/dialog.js:239-241 | sets the mouseup-inside flag and nothing else |
| RiotsDialogHost.Host.ClearInsideFlags | src/dialog.js:249-250 | clears both inside flags and nothing else |
| RiotsDialogHost.Host.DocumentMouseUp | src/dialog.js:243-252 | with neither inside flag set the element is closed as by close() and the handlers are removed; with either set only the flags are cleared; both flags end false |
| RiotsDialogHost.Host.EscKeyUp | src/dialog.js:295-299 | Escape closes (starting a close when opened), any other key changes nothing |
| RiotsDialogHost.Host.DialogAttributeMutation | src/dialog.js:306-315 | the observer changes the state only for an `open` mutation with the native dialog not open, no close in progress and the element opened, and then the element ends closed |
| RiotsDialogHost.Host.NativeClose | src/dialog.js:354 | the native dialog ends not open; its return value becomes the given result only when it was open |
| RiotsDialogHost.Host.LightDismiss | src/dialog.js:348-356 | the native dialog closes exactly when the click targets the dialog node itself, light dismiss is on and it was open, with return value "dismiss"; nothing else changes |
| RiotsDialogHost.Host.Show | src/dialog.js:375-378 | the native dialog becomes open and nothing else changes |
| RiotsDialogHost.Host.NonModalGuards | src/dialog.js:378-383 | the Escape listener is added; the outside-click handlers end installed if they were or light dismiss is on, and are untouched otherwise |
| RiotsDialogHost.Host.StartOpening | src/dialog.js:386-388 | adds the resize listener, dispatches "opening" and queues the dispatch of "opened" |
| RiotsDialogHost.Host.OpenTransition | src/dialog.js:373-390 | without a dialog node nothing happens; otherwise the dialog is shown; Escape is added only when non-modal and outside-click only when non-modal with light dismiss on; exactly the `doComputePosition` request (strategy, placement, middleware) is appended when the invoker exists, and none otherwise; the resize listener is added; "opening" is dispatched and "opened" queued |
| RiotsDialogHost.Host.StartClosing | src/dialog.js:395-398 | removes the resize and Escape listeners, dispatches "closing" and queues the rest of the close |
| RiotsDialogHost.Host.CloseTransition | src/dialog.js:392-401 | without a dialog node nothing happens; otherwise the native dialog closes, the resize and Escape listeners go, and "closing" is dispatched with the rest queued; the outside-click state is untouched |
| RiotsDialogHost.Host.Open | src/dialog.js:358-363 | changes nothing when already opened; otherwise `opened` is set and the open transition runs |
| RiotsDialogHost.Host.Close | src/dialog.js:365-371 | changes nothing when not opened; otherwise `isClosing` is set and `opened` cleared, and the close transition runs without touching the outside-click state |
| RiotsDialogHost.Host.AnimationsSettled | src/dialog.js:388-400 | the resumed continuation leaves the queue; an open dispatches "opened"; a close dispatches "closed" and only then clears `isClosing` |
| RiotsDialogHost.Host.SetInvoker | src/dialog.js:191-210 | null changes nothing; a node becomes the invoker with the click listener and no inside listeners, and an opened dialog with a dialog node gets exactly one request, with the current strategy, placement and middleware (otherwise none); replacing an existing invoker moves the host, whose `disconnectedCallback` ends the auto-update subscription, with nothing subscribing again; without an earlier invoker the subscription is unchanged |
| RiotsDialogHost.Host.RenderDialogContent | src/dialog.js:172-186 | without a dialog node, or while not opened, nothing changes; otherwise the only change is the request `doComputePosition` appends |
| RiotsDialogHost.Host.Updated | src/dialog.js:133-140 | only while opened: a placement change appends exactly the request `doComputePosition` makes, and a light-dismiss change installs the handlers; otherwise no request is made |
| RiotsDialogHost.Host.SetupMutationObserver | src/dialog.js:305-325 | throws with the fixed message exactly when there is no dialog node; otherwise the dialog is observed |
| RiotsDialogHost.Host.FirstUpdated | src/dialog.js:124-128 | the invoker gets its click listener; observing fails exactly without a dialog node; auto-update runs only with both nodes |
| RiotsDialogHost.Host.Disconnected | src/dialog.js:142-145 | the auto-update subscription ends and nothing else changes |
| RiotsDialogHost.Initial | src/dialog.js:102-120 | a fresh element (placement 'top', absolute, `dialogMargin` 16) is valid, not opened, with an empty trace |
| RiotsDialogHost.OutsideClickKeepsValid | src/dialog.js:228-292 | installing or removing the outside-click handlers keeps the invariant |
| RiotsDialogHost.OpenKeepsValid | src/dialog.js:358-390 | open() keeps the invariant |
| RiotsDialogHost.CloseKeepsValid | src/dialog.js:365-401 | close() keeps the invariant |
| RiotsDialogHost.AnimationsSettledKeepsValid | src/dialog.js:388-400 | resuming any queued continuation keeps the invariant |
| RiotsDialogHost.DocumentMouseUpKeepsValid | src/dialog.js:243-252 | the deferred document mouseup keeps the invariant |
| RiotsDialogHost.UpdatedKeepsValid | src/dialog.js:133-140 | `updated` keeps the invariant |
| RiotsDialogHost.InputsKeepValid | src/dialog.js:235-241 | the inside handlers and any property assignment keep the invariant |
| RiotsDialogHost.NativeCloseKeepsValid | src/dialog.js:348-356 | a native close and a light dismiss keep the invariant |
| RiotsDialogHost.WiringKeepsValid | src/dialog.js:124-145 | `firstUpdated` and `disconnectedCallback` keep the invariant |
| RiotsDialogHost.PositionKeepsValid | src/dialog.js:411-431 | `doComputePosition` keeps the invariant |
| RiotsDialogHost.SetInvokerKeepsValid | src/dialog.js:191-210 | the invoker setter keeps the invariant, also when it replaces an invoker |
| RiotsDialogHost.RenderDialogContentKeepsValid | src/dialog.js:172-186 | `renderDialogContent` keeps the invariant |
| RiotsDialogHost.GuardedStepKeepsValid | src/dialog.js:235-315 | an event, observer firing or resumed continuation, delivered only while its listener or continuation is there, keeps the invariant |
| RiotsDialogHost.ApplyKeepsValid | src/dialog.js:124-401 | every modelled step keeps the invariant |
| RiotsDialogHost.RunKeepsValid | src/dialog.js:124-401 | every sequence of modelled steps keeps the invariant and the presence of the dialog node |
| RiotsDialogHost.ReachableTracesOrdered | src/dialog.js:387-400 | in every state the modelled steps reach from construction, each "opened" follows a matching "opening" and each "closed" a matching "closing"; the native dialog is open and the Escape and resize listeners exist only while `opened` is set; without a dialog node nothing is dispatched |
| RiotsDialogHost.OpenThenSettle | src/dialog.js:358-390 | opening an idle element twice is the same as once; after the animations it is opened and has dispatched "opening" then "opened" |
| RiotsDialogHost.CloseThenSettle | src/dialog.js:365-401 | closing an opened element sets `isClosing`; after the animations it is closed with `isClosing` clear, no Escape or resize listener, and "closing" then "closed" dispatched |
| RiotsDialogHost.OpenCloseCycle | src/dialog.js:358-401 | a full cycle from rest dispatches exactly opening, opened, closing, closed |
| RiotsDialogHost.SelfTriggeredMutationIgnored | src/dialog.js:306-315 | the observer ignores the `open` mutation caused by close() itself, both during the close and after it finished |
| RiotsDialogHost.NativeCloseResynchronises | src/dialog.js:306-315 | a native close the element did not start is followed by the observer closing the element and dispatching "closing" |
| RiotsDialogHost.LightDismissCloses | src/dialog.js:348-356 | a backdrop click with light dismiss on ends with the element closed and return value "dismiss" |
| RiotsDialogHost.ExternalShowIgnored | src/dialog.js:306-315 | when the native dialog is opened from outside while `opened` is clear, the observer ignores the `open` mutation, so the element stays closed with its native dialog open, outside the invariant |
| RiotsDialogHost.EnablingOutsideClickWhileOpen | src/dialog.js:137-139 | switching light dismiss on while open arms the handlers: an outside click closes, a click with an inside mousedown does not |
| RiotsDialogHost.DisablingOutsideClickWhileOpenKeepsHandlers | src/dialog.js:137-139 | switching light dismiss off while the handlers are installed leaves them installed, so an outside click still closes |
| RiotsDialogHost.RiotsDialog.constructor | src/dialog.js:102-120 | the fields start as the initial state |
| RiotsDialogHost.RiotsDialog.SetProps | src/dialog.js:61-106 | assigning the reflected properties or `dialogMargin` changes only them and keeps the invariant |
| RiotsDialogHost.RiotsDialog.DoComputePosition | src/dialog.js:411-431 | performs `Host.DoComputePosition` on the fields |
| RiotsDialogHost.RiotsDialog.AddOrRemoveOutsideClickHandlers | src/dialog.js:257-292 | performs `Host.AddOrRemoveOutsideClickHandlers` on the fields |
| RiotsDialogHost.RiotsDialog.SetupCloseOnOutsideClick | src/dialog.js:228-233 | performs `Host.SetupCloseOnOutsideClick` on the fields |
| RiotsDialogHost.RiotsDialog.InsideMouseDown | src/dialog.js:235-237 | performs `Host.InsideMouseDown` and keeps the invariant |
| RiotsDialogHost.RiotsDialog.InsideMouseUp | src/dialog.js:239-241 | performs `Host.InsideMouseUp` and keeps the invariant |
| RiotsDialogHost.RiotsDialog.OpenTransition | src/dialog.js:373-390 | performs `Host.OpenTransition` on the fields |
| RiotsDialogHost.RiotsDialog.CloseTransition | src/dialog.js:392-401 | performs `Host.CloseTransition` on the fields |
| RiotsDialogHost.RiotsDialog.Open | src/dialog.js:358-363 | performs `Host.Open` and keeps the invariant |
| RiotsDialogHost.RiotsDialog.Close | src/dialog.js:365-371 | performs `Host.Close` and keeps the invariant |
| RiotsDialogHost.RiotsDialog.AnimationsSettled | src/dialog.js:388-400 | performs `Host.AnimationsSettled` and keeps the invariant |
| RiotsDialogHost.RiotsDialog.DocumentMouseUp | src/dialog.js:243-252 | performs `Host.DocumentMouseUp` and keeps the invariant |
| RiotsDialogHost.RiotsDialog.EscKeyUp | src/dialog.js:295-299 | performs `Host.EscKeyUp` and keeps the invariant |
| RiotsDialogHost.RiotsDialog.DialogAttributeMutation | src/dialog.js:306-315 | performs `Host.DialogAttributeMutation` and keeps the invariant |
| RiotsDialogHost.RiotsDialog.NativeClose | src/dialog.js:354 | performs `Host.NativeClose` on the fields |
| RiotsDialogHost.RiotsDialog.LightDismiss | src/dialog.js:348-356 | performs `Host.LightDismiss` and keeps the invariant |
| RiotsDialogHost.RiotsDialog.SetInvoker | src/dialog.js:191-210 | performs `Host.SetInvoker`, ending the auto-update subscription when an invoker is replaced, and keeps the invariant |
| RiotsDialogHost.RiotsDialog.RenderDialogContent | src/dialog.js:172-186 | performs `Host.RenderDialogContent` and keeps the invariant |
| RiotsDialogHost.RiotsDialog.Updated | src/dialog.js:133-140 | performs `Host.Updated` and keeps the invariant |
| RiotsDialogHost.RiotsDialog.SetupMutationObserver | src/dialog.js:305-325 | performs `Host.SetupMutationObserver`; the error returned is the thrown message |
| RiotsDialogHost.RiotsDialog.FirstUpdated | src/dialog.js:124-128 | performs `Host.FirstUpdated`; the error returned is the thrown message |
| RiotsDialogHost.RiotsDialog.Disconnected | src/dialog.js:142-145 | performs `Host.Disconnected` and keeps the invariant |
| LegacyDialog.Listeners.Current | dialog.js:297 | the closures the Escape removal can reach: only the one `__escKeyHandler` names, if any |
| LegacyDialog.Host.SetLocalPosition | dialog.js:305-315 | always exactly one request, with the placement and offset(16), flip, shift |
| LegacyDialog.Host.AddOrRemoveOutsideClickHandlers | dialog.js:179-212 | both inside flags end false; the installed flag and the dialog and document listeners become phase == Add; the invoker's change only when it exists |
| LegacyDialog.Host.SetupCloseOnOutsideClick | dialog.js:153-158 | the handlers end installed; nothing changes when they already were |
| LegacyDialog.Host.InsideMouseDown | dialog.js:160-162 | sets the mousedown-inside flag and nothing else |
| LegacyDialog.Host.InsideMouseUp | dialog.js:164-166 | sets the mouseup-inside flag and nothing else |
| LegacyDialog.Host.DocumentMouseUp | dialog.js:168-177 | with neither inside flag set the element is closed and the handlers removed; otherwise only the flags are cleared; both flags end false |
| LegacyDialog.Host.SetupCloseOnEsc | dialog.js:214-221 | a fresh closure becomes `__escKeyHandler` and is added to the keyup listeners |
| LegacyDialog.Host.EscKeyUp | dialog.js:215-219 | Escape closes; any other key changes nothing |
| LegacyDialog.Host.DialogAttributeMutation | dialog.js:224-233 | the observer changes the state only for an `open` mutation with the native dialog not open, no close in progress and the element opened, and then the element ends closed |
| LegacyDialog.Host.LightDismiss | dialog.js:255-259 | the native dialog closes exactly when the target's node name is DIALOG, light dismiss is on and it was open, with return value "dismiss" |
| LegacyDialog.Host.NativeClose | dialog.js:257 | the native dialog ends not open and nothing else changes |
| LegacyDialog.Host.NonModalGuards | dialog.js:280-284 | a fresh Escape closure is registered; outside-click handlers are installed when light dismiss is on, and untouched otherwise |
| LegacyDialog.Host.StartOpening | dialog.js:288-290 | adds the resize listener, dispatches "opening" and queues "opened" |
| LegacyDialog.Host.OpenTransition | dialog.js:276-292 | the dialog is shown; a modal open registers no Escape closure and touches no outside-click state; a non-modal one registers one new closure; exactly one request, with the placement and offset(16), flip, shift, is appended; "opening" dispatched and "opened" queued |
| LegacyDialog.Host.CloseTransition | dialog.js:294-302 | the native dialog closes; the resize listener and the closure `__escKeyHandler` names are removed; "closing" dispatched with the rest queued; outside-click state untouched |
| LegacyDialog.Host.Open | dialog.js:261-266 | changes nothing when opened; otherwise `opened` is set and the open transition runs |
| LegacyDialog.Host.Close | dialog.js:268-274 | changes nothing when not opened; otherwise `isClosing` is set, `opened` cleared and the close transition runs |
| LegacyDialog.Host.AnimationsSettled | dialog.js:290-301 | the resumed continuation leaves the queue; "opened", or "closed" followed by clearing `isClosing` |
| LegacyDialog.Host.Updated | dialog.js:112-119 | only while opened: a placement change appends exactly the request `setLocalPosition` makes, and a light-dismiss change installs the handlers; otherwise no request is made |
| LegacyDialog.Host.FirstUpdated | dialog.js:107-110 | a missing invoker throws a TypeError before anything changes; otherwise the click listener and the observer are set up |
| LegacyDialog.Initial | dialog.js:94-105 | a fresh element is valid, not opened, with an empty trace and `popoverMargin` 16 |
| LegacyDialog.LegacyMiddlewareMatchesArrowless | dialog.js:306-308 | the legacy middleware equals the current element's list for a host without an arrow element |
| LegacyDialog.PositioningIgnoresPopoverMargin | dialog.js:103 | requests, and the open transition's trace, do not depend on `popoverMargin` |
| LegacyDialog.OutsideClickKeepsValid | dialog.js:153-212 | installing or removing the handlers keeps the invariant |
| LegacyDialog.OpenKeepsValid | dialog.js:261-292 | open() keeps the invariant, including that at most the current Escape closure is registered |
| LegacyDialog.OpenRegistersOneClosure | dialog.js:276-285 | opening from closed leaves no Escape closure (modal) or only the new one (non-modal) |
| LegacyDialog.CloseKeepsValid | dialog.js:268-302 | close() keeps the invariant |
| LegacyDialog.AnimationsSettledKeepsValid | dialog.js:290-301 | resuming any queued continuation keeps the invariant |
| LegacyDialog.DocumentMouseUpKeepsValid | dialog.js:168-177 | the deferred document mouseup keeps the invariant |
| LegacyDialog.UpdatedKeepsValid | dialog.js:112-119 | `updated` keeps the invariant |
| LegacyDialog.InputsKeepValid | dialog.js:107-166 | inside handlers, property assignments and `firstUpdated` keep the invariant |
| LegacyDialog.NativeCloseKeepsValid | dialog.js:255-259 | a native close and a light dismiss keep the invariant |
| LegacyDialog.GuardedStepKeepsValid | dialog.js:160-301 | an event, observer firing or resumed continuation, delivered only while its listener or continuation is there, keeps the invariant |
| LegacyDialog.ApplyKeepsValid | dialog.js:153-302 | every modelled step keeps the invariant |
| LegacyDialog.RunKeepsValid | dialog.js:153-302 | every sequence of modelled steps keeps the invariant |
| LegacyDialog.EscapeClosuresNeverLeak | dialog.js:214-221 | in every reachable state events are ordered in pairs, at most one Escape closure is registered, none remains once closed, and the dialog and document listeners match the installed flag |
| LegacyDialog.ModalCycle | dialog.js:276-302 | a modal open registers no Escape closure or outside-click handlers; a full cycle dispatches opening, opened, closing, closed, clearing `isClosing` last |
| LegacyDialog.LightDismissCloses | dialog.js:255-259 | a click on a DIALOG target with light dismiss on ends with the element closed and return value "dismiss" |
| LegacyDialog.LegacyRiotsDialog.constructor | dialog.js:94-105 | the fields start as the initial state |
| LegacyDialog.LegacyRiotsDialog.SetLocalPosition | dialog.js:305-315 | performs `Host.SetLocalPosition` on the fields |
| LegacyDialog.LegacyRiotsDialog.AddOrRemoveOutsideClickHandlers | dialog.js:179-212 | performs `Host.AddOrRemoveOutsideClickHandlers` on the fields |
| LegacyDialog.LegacyRiotsDialog.SetupCloseOnOutsideClick | dialog.js:153-158 | performs `Host.SetupCloseOnOutsideClick` on the fields |
| LegacyDialog.LegacyRiotsDialog.InsideMouseDown | dialog.js:160-162 | performs `Host.InsideMouseDown` and keeps the invariant |
| LegacyDialog.LegacyRiotsDialog.InsideMouseUp | dialog.js:164-166 | performs `Host.InsideMouseUp` and keeps the invariant |
| LegacyDialog.LegacyRiotsDialog.SetupCloseOnEsc | dialog.js:214-221 | performs `Host.SetupCloseOnEsc` on the fields |
| LegacyDialog.LegacyRiotsDialog.OpenTransition | dialog.js:276-292 | performs `Host.OpenTransition` on the fields |
| LegacyDialog.LegacyRiotsDialog.CloseTransition | dialog.js:294-302 | performs `Host.CloseTransition` on the fields |
| LegacyDialog.LegacyRiotsDialog.Open | dialog.js:261-266 | performs `Host.Open` and keeps the invariant |
| LegacyDialog.LegacyRiotsDialog.Close | dialog.js:268-274 | performs `Host.Close` and keeps the invariant |
| LegacyDialog.LegacyRiotsDialog.AnimationsSettled | dialog.js:290-301 | performs `Host.AnimationsSettled` and keeps the invariant |
| LegacyDialog.LegacyRiotsDialog.DocumentMouseUp | dialog.js:168-177 | performs `Host.DocumentMouseUp` and keeps the invariant |
| LegacyDialog.LegacyRiotsDialog.EscKeyUp | dialog.js:215-219 | performs `Host.EscKeyUp` and keeps the invariant |
| LegacyDialog.LegacyRiotsDialog.DialogAttributeMutation | dialog.js:224-233 | performs `Host.DialogAttributeMutation` and keeps the invariant |
| LegacyDialog.LegacyRiotsDialog.NativeClose | dialog.js:257 | performs `Host.NativeClose` on the fields |
| LegacyDialog.LegacyRiotsDialog.LightDismiss | dialog.js:255-259 | performs `Host.LightDismiss` and keeps the invariant |
| LegacyDialog.LegacyRiotsDialog.Updated | dialog.js:112-119 | performs `Host.Updated` and keeps the invariant |
| LegacyDialog.LegacyRiotsDialog.FirstUpdated | dialog.js:107-110 | performs `Host.FirstUpdated`; `threw` reports the TypeError |
| Demo.FindIndex | demo/demo.js:45 | -1 exactly when the value is absent; otherwise an index holding it with no earlier occurrence |
| Demo.BoolText | demo/demo.js:56 | a flag shows as "true" exactly when set and "false" exactly when clear |
| Demo.Successor | demo/demo.js:45-49 | the chosen entry is always in the list |
| Demo.SuccessorOfDistinct | demo/demo.js:45-49 | in a list without repeats, the entry after index i is at i + 1, or the first after the last |
| Demo.NextPlacement | demo/demo.js:43-52 | the new placement is always one of the twelve |
| Demo.PlacementsDistinct | demo/demo.js:28-41 | no placement is listed twice |
| Demo.NextPlacementCases | demo/demo.js:45-49 | each placement moves to the next one; "left-end" wraps to "top-end"; a placement not in the list becomes "top-end" |
| Demo.NextPlacementStepsThrough | demo/demo.js:28-52 | pressing the position button walks the list in order and wraps from the last entry to the first |
| Demo.PressCycles | demo/demo.js:28-52 | twelve presses bring any listed placement back, and every placement is shown within twelve presses |
| Demo.DemoPlacementsHaveArrows | demo/demo.js:28-41 | every placement the demo offers has an entry in the arrow table |
| Demo.DemoPage.constructor | demo/demo.js:24-26 | each text element starts showing the setting it echoes, and the list is the twelve placements |
| Demo.DemoPage.SwitchPosition | demo/demo.js:43-52 | the placement becomes the list successor of the old one and nothing else of the element changes; the position text shows it and it is in the list; the other texts are unchanged |
| Demo.DemoPage.SwitchIsModal | demo/demo.js:54-57 | `isModal` is negated and nothing else of the element changes, so two presses restore it; its text follows |
| Demo.DemoPage.SwitchClosesOutside | demo/demo.js:59-62 | `closesOnOutsideClick` is negated and nothing else of the element changes, so two presses restore it; its text follows |

## Left out

- Geometry. The floating-position library's `computePosition`, `autoUpdate` and the pixel coordinates they produce are foreign code doing floating-point geometry. A request is recorded in `trace.requests`, and the library's results are the inputs of `PositionStyles`. The resize and auto-update callbacks only record that they are subscribed.
- Animations. `animationsComplete`, `getAnimations` and `Promise.allSettled` are browser animation promises. Each await is a step boundary (a queued `Resume`).
- Focus. `autoFocusTarget` only moves focus.
- Rendering and content. Lit rendering, slots, scoped styles, `onContentSlotChange` and the content `renderDialogContent` inserts are DOM manipulation with no state the lifecycle reads. What `renderDialogContent` does to positioning (a new request while opened) is modelled.
- Node moves. The `invokerNode` setter moves the old invoker back to the parent and the host next to the new invoker. Of these moves only the host's disconnection is modelled: it ends the auto-update subscription. A re-connection runs no `firstUpdated` again, so nothing subscribes anew.
- Dialog and arrow nodes. In the current element `dialogNode` is a live `querySelector` lookup, and the arrow element is found the same way, so both could appear or disappear while the element lives. The model fixes their presence at construction; only the invoker can be set.
- External native opens. The native dialog can be opened without `open()`: an `open` attribute in the markup, a `show()`/`showModal()` call from the page, or an invoker command. No `Step` does this, and `Initial` starts with the native dialog closed, so the invariant conjunct "native dialog open implies `opened`" holds only for the modelled steps. `ExternalShowIgnored` shows what the code does after such an open: the observer ignores it and the element stays closed with its native dialog open.
- Invoker swap. When the invoker is replaced, the old invoker's capture mousedown/mouseup listeners are not tracked. The model records only that the new invoker has none.
- Native dialog exceptions. `show`/`showModal` on an already-open dialog, or on a modal dialog, is treated as succeeding. So is `showModal` on a dialog node that is not connected to the document, which throws in the browser.
- Property lookup in the arrow table. The table is indexed with `{...}[primaryAxis]`, so an axis naming an `Object.prototype` member (such as "constructor") returns a non-undefined value. The model treats every axis outside the four sides as having no entry.
- Direct `opened` assignment. Setting the `opened` property directly runs `_open`/`_close` without the guards of `open()`/`close()`. Only the `open()`/`close()` path is modelled.
- Interleavings. Nothing is claimed about how overlapping open/close cycles are ordered, or about several instances sharing document listeners. The code does not coordinate either.
- Legacy node presence. In the legacy element the dialog node is always present, since dialog.js dereferences it unconditionally. Invoker presence is fixed at construction, because dialog.js has no invoker setter.
- LegacyDialog.Host.NativeClose: states only that the native dialog closes and nothing else changes. The return-value rule is the shared `NativeDialog.Close`.
- LegacyDialog.LegacyRiotsDialog: has no setter for the reflected properties. A property assignment is the `PropsSet` step of the value model.
- Demo.DemoPage.SwitchPosition: its result is stated through the page's `placements` field, which the constructor sets to the twelve placements. `NextPlacement` and its lemmas state the same step for that list.
- Other demo code. Logging of lifecycle events and the wiring of the buttons' click listeners are left out.
- Other files. dialog-copy.js, index.js, src/dialog-arrow.js beyond its width and height, and the build configuration are not part of this model.
