/**
  The demo page of demo/demo.js: buttons that cycle the dialog's placement
  through a fixed list and toggle `isModal` and `closesOnOutsideClick`, each
  echoing the new value into a text element.
 */
module Demo {
  import opened Positioning
  import opened RiotsDialogHost

  /** The twelve placements in the order the position button cycles through them. */
  const Placements: seq<string> := [
    "top-end", "top", "top-start",
    "right-end", "right", "right-start",
    "bottom-start", "bottom", "bottom-end",
    "left-start", "left", "left-end"
  ]

  /** `Array.prototype.findIndex` with strict equality: the first index holding `x`, or -1. */
  function FindIndex<T(==)>(xs: seq<T>, x: T): (i: int)
    ensures -1 <= i < |xs|
    ensures i == -1 <==> x !in xs
    ensures 0 <= i ==> xs[i] == x && x !in xs[..i]
  {
    if xs == [] then -1
    else if xs[0] == x then 0
    else
      var j := FindIndex(xs[1..], x);
      assert forall k :: 0 <= k < |xs| - 1 ==> xs[1..][k] == xs[k + 1];
      if j == -1 then -1
      else
        assert xs[..j + 1] == [xs[0]] + xs[1..][..j];
        j + 1
  }

  /** How a boolean shows when assigned to `innerText`. */
  function BoolText(b: bool): (t: string)
    ensures t == "true" <==> b
    ensures t == "false" <==> !b
  {
    if b then "true" else "false"
  }

  /** No entry appears twice. */
  predicate Distinct<T(==)>(xs: seq<T>) {
    forall i, j :: 0 <= i < j < |xs| ==> xs[i] != xs[j]
  }

  /** The entry after the first occurrence of `current`, wrapping to the first entry; the first entry when `current` is absent. */
  function Successor<T(==)>(xs: seq<T>, current: T): (p: T)
    requires xs != []
    ensures p in xs
  {
    var newIndex := FindIndex(xs, current) + 1;
    xs[if newIndex >= |xs| then 0 else newIndex]
  }

  /** In a list without repeats, `FindIndex` finds each entry at its own index. */
  lemma FindIndexOfDistinct<T>(xs: seq<T>, i: nat)
    requires Distinct(xs) && i < |xs|
    ensures FindIndex(xs, xs[i]) == i
  {
  }

  /** In a list without repeats, the successor of the entry at `i` is the entry at `i + 1`, or the first after the last. */
  lemma SuccessorOfDistinct<T>(xs: seq<T>, i: nat)
    requires Distinct(xs) && i < |xs|
    ensures Successor(xs, xs[i]) == if i + 1 < |xs| then xs[i + 1] else xs[0]
  {
    FindIndexOfDistinct(xs, i);
  }

  /** `f` applied `n` times. */
  function Iterate<T>(f: T -> T, x: T, n: nat): T
    decreases n
  {
    if n == 0 then x else Iterate(f, f(x), n - 1)
  }

  /** `f` steps through `xs` in order, from the last entry back to the first. */
  ghost predicate StepsThrough<T>(f: T -> T, xs: seq<T>) {
    && xs != []
    && (forall k :: 0 <= k < |xs| - 1 ==> f(xs[k]) == xs[k + 1])
    && f(xs[|xs| - 1]) == xs[0]
  }

  /** `y` is reached from `x` in fewer than `bound` applications of `f`. */
  ghost predicate Reaches<T>(f: T -> T, x: T, y: T, bound: nat) {
    exists n: nat :: n < bound && Iterate(f, x, n) == y
  }

  lemma {:induction false} IterateAdd<T>(f: T -> T, x: T, a: nat, b: nat)
    ensures Iterate(f, Iterate(f, x, a), b) == Iterate(f, x, a + b)
    decreases a
  {
    if a > 0 {
      IterateAdd(f, f(x), a - 1, b);
    }
  }

  lemma {:induction false} IterateForward<T>(f: T -> T, xs: seq<T>, i: nat, k: nat)
    requires StepsThrough(f, xs) && i + k < |xs|
    ensures Iterate(f, xs[i], k) == xs[i + k]
    decreases k
  {
    if k > 0 {
      IterateForward(f, xs, i + 1, k - 1);
    }
  }

  /**
    A step function that walks through `xs` in order and wraps around comes
    back to where it started after `|xs|` steps, and reaches every entry in
    fewer.
   */
  lemma IterateCycles<T>(f: T -> T, xs: seq<T>, i: nat)
    requires StepsThrough(f, xs) && i < |xs|
    ensures Iterate(f, xs[i], |xs|) == xs[i]
    ensures forall j :: 0 <= j < |xs| ==> Reaches(f, xs[i], xs[j], |xs|)
  {
    var last := |xs| - 1;
    IterateForward(f, xs, i, last - i);
    IterateAdd(f, xs[i], last - i, 1);
    assert Iterate(f, xs[last], 1) == xs[0];
    assert Iterate(f, xs[i], |xs| - i) == xs[0];
    IterateForward(f, xs, 0, i);
    IterateAdd(f, xs[i], |xs| - i, i);
    forall j | 0 <= j < |xs|
      ensures Reaches(f, xs[i], xs[j], |xs|)
    {
      if i <= j {
        IterateForward(f, xs, i, j - i);
        assert Iterate(f, xs[i], j - i) == xs[j];
      } else {
        IterateForward(f, xs, 0, j);
        IterateAdd(f, xs[i], |xs| - i, j);
        assert Iterate(f, xs[i], |xs| - i + j) == xs[j];
      }
    }
  }

  /** The placement `switchPosition` moves to from `current`. */
  function NextPlacement(current: string): (p: string)
    ensures p in Placements
  {
    Successor(Placements, current)
  }

  /** No placement appears twice in the demo's list. */
  lemma PlacementsDistinct()
    ensures Distinct(Placements)
  {
  }

  /**
    The placement `switchPosition` moves to: from the entry at index `i` the
    next one, from `left-end` back to `top-end`, and from a placement not in
    the list to `top-end`.
   */
  lemma NextPlacementCases(current: string, i: nat)
    requires i + 1 < |Placements|
    ensures NextPlacement(Placements[i]) == Placements[i + 1]
    ensures NextPlacement("left-end") == "top-end"
    ensures current !in Placements ==> NextPlacement(current) == "top-end"
  {
    PlacementsDistinct();
    SuccessorOfDistinct(Placements, i);
    SuccessorOfDistinct(Placements, 11);
  }

  /** `NextPlacement` walks the list in order and wraps from the last entry to the first. */
  lemma NextPlacementStepsThrough()
    ensures StepsThrough(NextPlacement, Placements)
  {
    PlacementsDistinct();
    forall k | 0 <= k < |Placements| - 1
      ensures NextPlacement(Placements[k]) == Placements[k + 1]
    {
      SuccessorOfDistinct(Placements, k);
    }
    SuccessorOfDistinct(Placements, |Placements| - 1);
  }

  /** `IterateCycles`, stated for a member of the list rather than an index. */
  lemma IterateCyclesFrom<T>(f: T -> T, xs: seq<T>, x: T)
    requires StepsThrough(f, xs) && x in xs
    ensures Iterate(f, x, |xs|) == x
    ensures forall p :: p in xs ==> Reaches(f, x, p, |xs|)
  {
    var i :| 0 <= i < |xs| && xs[i] == x;
    IterateCycles(f, xs, i);
  }

  /** Twelve presses of the position button bring every listed placement back, and each of the twelve is shown on the way. */
  lemma PressCycles(current: string)
    requires current in Placements
    ensures Iterate(NextPlacement, current, |Placements|) == current
    ensures forall p :: p in Placements ==> Reaches(NextPlacement, current, p, |Placements|)
  {
    NextPlacementStepsThrough();
    IterateCyclesFrom(NextPlacement, Placements, current);
  }

  /** The page: the dialog element, the placement list, and the three text elements echoing the dialog's settings. */
  class DemoPage {
    const dialogEl: RiotsDialog
    const placements: seq<string>
    var posText: string
    var isModalText: string
    var closesOutsideText: string

    /** Each text element shows the setting it echoes. */
    ghost predicate Shows()
      reads this, dialogEl
    {
      && posText == dialogEl.props.placement
      && isModalText == BoolText(dialogEl.props.isModal)
      && closesOutsideText == BoolText(dialogEl.props.closesOnOutsideClick)
    }

    /** Page start-up: the texts are initialised from the dialog. */
    constructor (dialogEl: RiotsDialog)
      ensures this.dialogEl == dialogEl && placements == Placements && Shows()
    {
      this.dialogEl := dialogEl;
      placements := Placements;
      posText := dialogEl.props.placement;
      isModalText := BoolText(dialogEl.props.isModal);
      closesOutsideText := BoolText(dialogEl.props.closesOnOutsideClick);
    }

    /**
      `switchPosition`: the dialog's placement becomes the successor of the
      current one in the list (`NextPlacement` for the demo's list), and the
      position text shows it.
     */
    method SwitchPosition()
      requires placements != []
      modifies this, dialogEl
      ensures dialogEl.State() ==
        old(dialogEl.State()).(props := old(dialogEl.props).(placement := Successor(placements, old(dialogEl.props.placement))))
      ensures posText == dialogEl.props.placement && posText in placements
      ensures isModalText == old(isModalText) && closesOutsideText == old(closesOutsideText)
      ensures old(Shows()) ==> Shows()
    {
      var currentPosition := dialogEl.props.placement;
      var newIndex := FindIndex(placements, currentPosition) + 1;
      if newIndex >= |placements| {
        newIndex := 0;
      }
      var newPos := placements[newIndex];
      dialogEl.SetProps(dialogEl.props.(placement := newPos));
      posText := newPos;
    }

    /** `switchIsModal`: the flag is negated, so two presses restore it, and its text follows. */
    method SwitchIsModal()
      modifies this, dialogEl
      ensures dialogEl.State() == old(dialogEl.State()).(props := old(dialogEl.props).(isModal := !old(dialogEl.props.isModal)))
      ensures isModalText == BoolText(dialogEl.props.isModal)
      ensures posText == old(posText) && closesOutsideText == old(closesOutsideText)
      ensures old(Shows()) ==> Shows()
    {
      dialogEl.SetProps(dialogEl.props.(isModal := !dialogEl.props.isModal));
      isModalText := BoolText(dialogEl.props.isModal);
    }

    /** `switchClosesOutside`: the flag is negated, so two presses restore it, and its text follows. */
    method SwitchClosesOutside()
      modifies this, dialogEl
      ensures dialogEl.State() ==
        old(dialogEl.State()).(props := old(dialogEl.props).(closesOnOutsideClick := !old(dialogEl.props.closesOnOutsideClick)))
      ensures closesOutsideText == BoolText(dialogEl.props.closesOnOutsideClick)
      ensures posText == old(posText) && isModalText == old(isModalText)
      ensures old(Shows()) ==> Shows()
    {
      dialogEl.SetProps(dialogEl.props.(closesOnOutsideClick := !dialogEl.props.closesOnOutsideClick));
      closesOutsideText := BoolText(dialogEl.props.closesOnOutsideClick);
    }
  }

  /** Every placement the demo offers has an arrow entry in the positioning table. */
  lemma DemoPlacementsHaveArrows(w: real, h: real)
    ensures forall i :: 0 <= i < |Placements| ==> ArrowPropsFor(PrimaryAxis(Placements[i]), w, h).Some?
  {
    forall i | 0 <= i < |Placements|
      ensures ArrowPropsFor(PrimaryAxis(Placements[i]), w, h).Some?
    {
      var axis := ["top", "right", "bottom", "left"][i / 3];
      var alignment := Placements[i][|axis|..];
      assert Placements[i] == axis + alignment;
      AlignedPlacementHasArrow(axis, alignment, w, h);
    }
  }
}
