/**
  The pure part of the host's positioning (src/dialog.js `doComputePosition`):
  which request it hands to the floating-position library, and how it styles
  the arrow from the placement the library resolved. The library's geometry
  itself is not modelled; its results are inputs here.
 */
module Positioning {
  import opened Lifecycle

  /** `positionStrategy`: 'absolute' or 'fixed'. */
  datatype Strategy = Absolute | Fixed

  /** One step of the library's middleware pipeline. */
  datatype Middleware = Offset(margin: int) | Flip | Shift | Arrow

  /** The arguments of one `computePosition` call. */
  datatype PositionRequest = PositionRequest(strategy: Strategy, placement: string, middleware: seq<Middleware>)

  /** An edge of the dialog, clockwise from the top. */
  datatype Side = Top | Right | Bottom | Left {
    function Opposite(): (o: Side)
      ensures o.QuarterTurns() == (QuarterTurns() + 2) % 4
    {
      match this
      case Top => Bottom
      case Right => Left
      case Bottom => Top
      case Left => Right
    }

    /** Quarter turns clockwise from `Top`. */
    function QuarterTurns(): (n: nat)
      ensures n < 4
    {
      match this
      case Top => 0
      case Right => 1
      case Bottom => 2
      case Left => 3
    }
  }

  /** Arrow styling picked from the resolved placement's primary axis. */
  datatype ArrowProps = ArrowProps(side: Side, rotation: int, staticMargin: real)

  /** The style properties the callback writes on the arrow element (None is the empty string). */
  datatype ArrowCss = ArrowCss(left: Option<real>, top: Option<real>, right: Option<real>, bottom: Option<real>, rotation: int)

  /** `middlewareData.arrow` as returned by the library. */
  datatype ArrowData = ArrowData(x: Option<real>, y: Option<real>)

  /** What the `.then` callback writes: the dialog's left/top and, maybe, the arrow's style. */
  datatype Placed = Placed(left: real, top: real, arrow: Option<ArrowCss>)

  /** `dialogMargin` as set by the constructor. */
  const DialogMargin: int := 16

  /** `width` and `height` of the arrow element. */
  const ArrowWidth: real := 16.0
  const ArrowHeight: real := 12.0

  /** The middleware list: offset, flip, shift, and arrow only when an arrow element exists. */
  function Middlewares(margin: int, hasArrowEl: bool): (m: seq<Middleware>)
    ensures |m| == if hasArrowEl then 4 else 3
    ensures m[..3] == [Offset(margin), Flip, Shift]
    ensures Arrow in m <==> hasArrowEl
  {
    [Offset(margin), Flip, Shift] + (if hasArrowEl then [Arrow] else [])
  }

  /** `doComputePosition`'s call: none unless both the dialog and the invoker node exist. */
  function RequestFor(hasDialog: bool, hasInvoker: bool, strategy: Strategy, placement: string,
                      margin: int, hasArrowEl: bool): (r: Option<PositionRequest>)
    ensures r.Some? <==> hasDialog && hasInvoker
    ensures r.Some? ==> && r.value.strategy == strategy && r.value.placement == placement
                        && r.value.middleware == Middlewares(margin, hasArrowEl)
  {
    if !hasDialog || !hasInvoker then None
    else Some(PositionRequest(strategy, placement, Middlewares(margin, hasArrowEl)))
  }

  /** `placement.split('-')[0]`: the part of the placement before its first '-'. */
  function PrimaryAxis(placement: string): (axis: string)
    ensures axis <= placement
    ensures '-' !in axis
    ensures |axis| == |placement| || placement[|axis|] == '-'
  {
    if placement == [] || placement[0] == '-' then []
    else [placement[0]] + PrimaryAxis(placement[1..])
  }

  /** The arrow table keyed by primary axis; an unknown axis has no entry. */
  function ArrowPropsFor(axis: string, w: real, h: real): (r: Option<ArrowProps>)
    ensures r.Some? <==> axis in {"top", "right", "bottom", "left"}
    ensures r.Some? ==> r.value.rotation in {0, 90, 180, 270}
    ensures r.Some? ==> r.value.staticMargin == h || r.value.staticMargin == h + (w - h) / 2.0
  {
    if axis == "top" then Some(ArrowProps(Bottom, 0, h))
    else if axis == "right" then Some(ArrowProps(Left, 90, h + (w - h) / 2.0))
    else if axis == "bottom" then Some(ArrowProps(Top, 180, h))
    else if axis == "left" then Some(ArrowProps(Right, 270, h + (w - h) / 2.0))
    else None
  }

  /** The edge named by a primary axis, if it names one. */
  function AxisSide(axis: string): (s: Option<Side>)
    ensures s.Some? <==> axis in {"top", "right", "bottom", "left"}
  {
    match axis
    case "top" => Some(Top)
    case "right" => Some(Right)
    case "bottom" => Some(Bottom)
    case "left" => Some(Left)
    case _ => None
  }

  /**
    The table, described without it: the arrow sits on the edge opposite the
    primary axis, turned a quarter turn per step clockwise from the top, and
    on the left and right its margin grows by half the width/height
    difference, which is how far a quarter turn displaces its box.
   */
  lemma ArrowTableMeaning(axis: string, w: real, h: real)
    ensures ArrowPropsFor(axis, w, h).Some? <==> AxisSide(axis).Some?
    ensures AxisSide(axis).Some? ==>
      var s := AxisSide(axis).value;
      var p := ArrowPropsFor(axis, w, h).value;
      && p.side == s.Opposite()
      && p.rotation == 90 * s.QuarterTurns()
      && p.staticMargin == if s.QuarterTurns() % 2 == 0 then h else h + (w - h) / 2.0
  {
  }

  /** With the arrow element's 16 by 12 box the margins are 12 on top/bottom and 14 on left/right. */
  lemma DefaultArrowMargins(placement: string)
    ensures var p := ArrowPropsFor(PrimaryAxis(placement), ArrowWidth, ArrowHeight);
      p.Some? ==> ((p.value.staticMargin == 12.0 <==> p.value.rotation in {0, 180})
                && (p.value.staticMargin == 14.0 <==> p.value.rotation in {90, 270}))
  {
  }

  /**
    Each of the twelve placements (a side, optionally followed by "-start" or
    "-end") has that side as its primary axis, so it has an arrow entry: e.g.
    "bottom-start" puts the arrow on the dialog's top edge, turned 180 degrees.
   */
  lemma {:induction false} AlignedPlacementHasArrow(axis: string, alignment: string, w: real, h: real)
    requires axis in {"top", "right", "bottom", "left"}
    requires alignment in {"", "-start", "-end"}
    ensures PrimaryAxis(axis + alignment) == axis
    ensures ArrowPropsFor(PrimaryAxis(axis + alignment), w, h).Some?
  {
    PrimaryAxisOfPrefix(axis, alignment);
  }

  /** A dash-free word followed by something starting with '-' (or nothing) is its own primary axis. */
  lemma {:induction false} PrimaryAxisOfPrefix(word: string, rest: string)
    requires '-' !in word
    ensures rest == [] || rest[0] == '-' ==> PrimaryAxis(word + rest) == word
  {
    if word != [] {
      assert (word + rest)[0] == word[0];
      assert (word + rest)[1..] == word[1..] + rest;
      PrimaryAxisOfPrefix(word[1..], rest);
    } else {
      assert word + rest == rest;
    }
  }

  /** The arrow's style: left/top from the library, right/bottom cleared, then the anchored side pulled out by the margin. */
  function ArrowCssFor(props: ArrowProps, data: ArrowData): (c: ArrowCss)
    ensures c.rotation == props.rotation
    ensures c.right.Some? <==> props.side == Right
    ensures c.bottom.Some? <==> props.side == Bottom
    ensures c.left == if props.side == Left then Some(-props.staticMargin) else data.x
    ensures c.top == if props.side == Top then Some(-props.staticMargin) else data.y
  {
    var base := ArrowCss(data.x, data.y, None, None, props.rotation);
    var pulled := Some(-props.staticMargin);
    match props.side
    case Top => base.(top := pulled)
    case Right => base.(right := pulled)
    case Bottom => base.(bottom := pulled)
    case Left => base.(left := pulled)
  }

  function Edge(c: ArrowCss, s: Side): Option<real> {
    match s
    case Top => c.top
    case Right => c.right
    case Bottom => c.bottom
    case Left => c.left
  }

  /** The anchored edge carries minus the margin; every other edge keeps what the library gave or stays empty. */
  lemma ArrowCssAnchorsOneEdge(props: ArrowProps, data: ArrowData, s: Side)
    ensures Edge(ArrowCssFor(props, data), props.side) == Some(-props.staticMargin)
    ensures s != props.side ==> (Edge(ArrowCssFor(props, data), s) ==
      match s
      case Left => data.x
      case Top => data.y
      case _ => None)
    ensures ArrowCssFor(props, data).rotation == props.rotation
  {
  }

  /**
    The callback on the library's result: the dialog goes to (x, y); the arrow
    is styled only when the library returned arrow data, an arrow element
    exists and the resolved placement's axis is in the table.
   */
  function PositionStyles(x: real, y: real, resolved: string, arrowData: Option<ArrowData>,
                          hasArrowEl: bool, w: real, h: real): (p: Placed)
    ensures p.left == x && p.top == y
    ensures p.arrow.Some? <==> arrowData.Some? && hasArrowEl && AxisSide(PrimaryAxis(resolved)).Some?
    ensures p.arrow.Some? ==>
      var s := AxisSide(PrimaryAxis(resolved)).value;
      && Edge(p.arrow.value, s.Opposite()) == Some(-ArrowPropsFor(PrimaryAxis(resolved), w, h).value.staticMargin)
      && p.arrow.value.rotation == 90 * s.QuarterTurns()
  {
    ArrowTableMeaning(PrimaryAxis(resolved), w, h);
    if arrowData.None? || !hasArrowEl then Placed(x, y, None)
    else
      match ArrowPropsFor(PrimaryAxis(resolved), w, h)
      case None => Placed(x, y, None)
      case Some(props) =>
        ArrowCssAnchorsOneEdge(props, arrowData.value, props.side);
        Placed(x, y, Some(ArrowCssFor(props, arrowData.value)))
  }
}
