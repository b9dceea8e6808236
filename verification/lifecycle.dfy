/**
  Vocabulary shared by both versions of the dialog host: the lifecycle events
  it dispatches, the work left over after an `await` on the dialog's
  animations, and the counting facts that show every "opened" is preceded by
  an "opening" and every "closed" by a "closing".
 */
module Lifecycle {

  datatype Option<+T> = None | Some(value: T)

  /** The four events the host dispatches on itself. */
  datatype LifecycleEvent = DialogOpening | DialogOpened | DialogClosing | DialogClosed

  /**
    What an `async` open or close still has to do once the awaited animations
    have settled: dispatch "dialog-opened", or dispatch "dialog-closed" and
    clear `isClosing`.
   */
  datatype Resume = DispatchOpened | FinishClose

  /** The `phase` argument of the outside-click install/remove helper. */
  datatype Phase = Add | Remove

  /** The `opened` attribute and the `isClosing` re-entrancy flag. */
  datatype Status = Status(openedAttr: bool, isClosing: bool)

  /** The native dialog element: its `open` attribute and `returnValue`. */
  datatype NativeDialog = NativeDialog(open: bool, returnValue: string) {
    /**
      The element's `close(result)`: a dialog that is not open is left alone;
      otherwise it loses `open`, and takes `result` as its return value when
      one is given.
     */
    function Close(result: Option<string>): (r: NativeDialog)
      ensures !r.open
      ensures r.returnValue == if open && result.Some? then result.value else returnValue
    {
      if !open then this
      else NativeDialog(false, if result.Some? then result.value else returnValue)
    }
  }

  /**
    The outside-click machinery: the installed-handlers flag, the two "inside"
    flags, and the capture listeners on the dialog node, on the invoker and on
    the document element.
   */
  datatype OutsideClick = OutsideClick(
    closeOnOutsideClickIsSet: bool,
    wasMouseDownInside: bool,
    wasMouseUpInside: bool,
    dialogListeners: bool,
    invokerListeners: bool,
    documentListener: bool)

  /** Number of occurrences of `x` in `s`. */
  function Count<T(==)>(s: seq<T>, x: T): (n: nat)
    ensures n <= |s|
    ensures n == 0 <==> x !in s
  {
    if s == [] then 0 else (if s[0] == x then 1 else 0) + Count(s[1..], x)
  }

  lemma {:induction false} CountAppend<T>(a: seq<T>, b: seq<T>, x: T)
    ensures Count(a + b, x) == Count(a, x) + Count(b, x)
  {
    if a == [] {
      assert a + b == b;
    } else {
      assert (a + b)[1..] == a[1..] + b;
      CountAppend(a[1..], b, x);
    }
  }

  /** `s` with its element at index `k` taken out. */
  function RemoveAt<T>(s: seq<T>, k: nat): (r: seq<T>)
    requires k < |s|
    ensures |r| == |s| - 1
    ensures forall i :: 0 <= i < k ==> r[i] == s[i]
    ensures forall i :: k <= i < |r| ==> r[i] == s[i + 1]
  {
    s[..k] + s[k + 1..]
  }

  lemma {:induction false} CountRemoveAt<T>(s: seq<T>, k: nat, x: T)
    requires k < |s|
    ensures Count(RemoveAt(s, k), x) + (if s[k] == x then 1 else 0) == Count(s, x)
  {
    var front, back := s[..k], s[k + 1..];
    assert s == front + ([s[k]] + back);
    CountAppend(front, [s[k]] + back, x);
    assert ([s[k]] + back)[1..] == back;
    CountAppend(front, back, x);
  }

  /** No more "opened" than "opening" events, and no more "closed" than "closing". */
  predicate PairsOrdered(events: seq<LifecycleEvent>) {
    && Count(events, DialogOpened) <= Count(events, DialogOpening)
    && Count(events, DialogClosed) <= Count(events, DialogClosing)
  }

  /** Every prefix of the trace is `PairsOrdered`: each "opened" has an earlier "opening", each "closed" an earlier "closing". */
  predicate PrefixOrdered(events: seq<LifecycleEvent>) {
    forall i :: 0 <= i <= |events| ==> PairsOrdered(events[..i])
  }

  /**
    Every "opening" already dispatched is matched by a dispatched "opened" or
    by a queued `DispatchOpened`, and likewise for closing.
   */
  predicate Balanced(events: seq<LifecycleEvent>, pending: seq<Resume>) {
    && Count(events, DialogOpening) == Count(events, DialogOpened) + Count(pending, DispatchOpened)
    && Count(events, DialogClosing) == Count(events, DialogClosed) + Count(pending, FinishClose)
  }

  /** Appending an event that has its partner earlier in the trace keeps every prefix ordered. */
  lemma {:induction false} AppendKeepsOrdered(events: seq<LifecycleEvent>, e: LifecycleEvent)
    requires PrefixOrdered(events)
    requires e == DialogOpened ==> Count(events, DialogOpened) < Count(events, DialogOpening)
    requires e == DialogClosed ==> Count(events, DialogClosed) < Count(events, DialogClosing)
    ensures PrefixOrdered(events + [e])
  {
    var t := events + [e];
    forall i | 0 <= i <= |t|
      ensures PairsOrdered(t[..i])
    {
      if i <= |events| {
        assert t[..i] == events[..i];
      } else {
        assert t[..i] == events + [e];
        assert events[..|events|] == events;
        CountAppend(events, [e], DialogOpened);
        CountAppend(events, [e], DialogOpening);
        CountAppend(events, [e], DialogClosed);
        CountAppend(events, [e], DialogClosing);
      }
    }
  }

  /**
    Dispatching an event of a pair and queuing its partner's continuation keeps
    the trace balanced against the queue.
   */
  lemma StartKeepsBalanced(events: seq<LifecycleEvent>, pending: seq<Resume>, e: LifecycleEvent, r: Resume)
    requires Balanced(events, pending)
    requires (e == DialogOpening && r == DispatchOpened) || (e == DialogClosing && r == FinishClose)
    ensures Balanced(events + [e], pending + [r])
  {
    CountAppend(events, [e], DialogOpened);
    CountAppend(events, [e], DialogOpening);
    CountAppend(events, [e], DialogClosed);
    CountAppend(events, [e], DialogClosing);
    CountAppend(pending, [r], DispatchOpened);
    CountAppend(pending, [r], FinishClose);
  }

  /**
    Running the queued continuation at index `k` dispatches its event, keeps
    the trace balanced against what is still queued, and keeps every prefix of
    the trace ordered.
   */
  lemma FinishKeepsBalanced(events: seq<LifecycleEvent>, pending: seq<Resume>, k: nat)
    requires k < |pending|
    requires Balanced(events, pending) && PrefixOrdered(events)
    ensures var e := if pending[k] == DispatchOpened then DialogOpened else DialogClosed;
      && Balanced(events + [e], RemoveAt(pending, k))
      && PrefixOrdered(events + [e])
  {
    var e := if pending[k] == DispatchOpened then DialogOpened else DialogClosed;
    assert pending[k] in pending;
    CountRemoveAt(pending, k, DispatchOpened);
    CountRemoveAt(pending, k, FinishClose);
    AppendKeepsOrdered(events, e);
    CountAppend(events, [e], DialogOpened);
    CountAppend(events, [e], DialogOpening);
    CountAppend(events, [e], DialogClosed);
    CountAppend(events, [e], DialogClosing);
  }
}
