/** The rubber-band selection rectangle on the desktop: a press on empty
    desktop space anchors it, each pointer move redraws it between the
    anchor and the pointer, and releasing the button hides it. It is only
    visual feedback; no icon is selected by it. */
module DragSelect {

  /** `#selection-rect`'s left, top, width and height, in desktop pixels. */
  datatype Rect = Rect(left: int, top: int, width: nat, height: nat)

  function Min(a: int, b: int): int {
    if a <= b then a else b
  }

  function Abs(d: int): nat {
    if d < 0 then -d else d
  }

  /** The rectangle between the press point (x0, y0) and the pointer (x, y). */
  function Span(x0: int, y0: int, x: int, y: int): (r: Rect)
    ensures r.left <= x0 && r.left <= x && (r.left == x0 || r.left == x)
    ensures r.top <= y0 && r.top <= y && (r.top == y0 || r.top == y)
    ensures r.left + r.width == (if x0 <= x then x else x0)
    ensures r.top + r.height == (if y0 <= y then y else y0)
  {
    Rect(Min(x, x0), Min(y, y0), Abs(x - x0), Abs(y - y0))
  }

  /** (x, y) is one of the rectangle's four corners. */
  predicate IsCorner(r: Rect, x: int, y: int) {
    (x == r.left || x == r.left + r.width) && (y == r.top || y == r.top + r.height)
  }

  /** Both points are opposite corners of the rectangle, and it does not
      depend on the direction of the drag. */
  lemma SpanCorners(x0: int, y0: int, x: int, y: int)
    ensures IsCorner(Span(x0, y0, x, y), x0, y0) && IsCorner(Span(x0, y0, x, y), x, y)
    ensures Span(x0, y0, x, y) == Span(x, y, x0, y0)
  {
  }

  /** Where a press inside `#desktop` lands. */
  datatype PressTarget = OnIcon | OnWelcomeWindow | OnEmptyDesktop

  /** `_isDragging`, `_dragStart`, the rectangle and whether it is shown. */
  datatype State = State(dragging: bool, startX: int, startY: int, rect: Rect, visible: bool)

  const Initial: State := State(false, 0, 0, Rect(0, 0, 0, 0), false)

  /** The rectangle is shown exactly while a drag is on, and while it is on
      the anchor is a corner of it. */
  ghost predicate Inv(st: State) {
    st.visible == st.dragging && (st.dragging ==> IsCorner(st.rect, st.startX, st.startY))
  }

  /** Pointer positions are client coordinates; (ox, oy) is the desktop's
      top-left corner at the time of the event. */
  datatype Event =
    | Pressed(target: PressTarget, cx: int, cy: int, ox: int, oy: int)
    | Moved(cx: int, cy: int, ox: int, oy: int)
    | Released

  function Step(st: State, e: Event): (r: State)
    ensures e.Pressed? && e.target != OnEmptyDesktop ==> r == st
    ensures e.Pressed? && e.target == OnEmptyDesktop ==>
      r == State(true, e.cx - e.ox, e.cy - e.oy, Rect(e.cx - e.ox, e.cy - e.oy, 0, 0), true)
    ensures e.Moved? && !st.dragging ==> r == st
    ensures e.Moved? && st.dragging ==>
      r == st.(rect := Span(st.startX, st.startY, e.cx - e.ox, e.cy - e.oy))
    ensures e.Released? ==> !r.dragging && !r.visible
    ensures e.Released? ==> r == st.(dragging := false, visible := false)
    ensures Inv(st) ==> Inv(r)
  {
    match e
    case Pressed(t, cx, cy, ox, oy) =>
      if t != OnEmptyDesktop then st
      else State(true, cx - ox, cy - oy, Rect(cx - ox, cy - oy, 0, 0), true)
    case Moved(cx, cy, ox, oy) =>
      if !st.dragging then st
      else st.(rect := Span(st.startX, st.startY, cx - ox, cy - oy))
    case Released => st.(dragging := false, visible := false)
  }

  function Run(st: State, evs: seq<Event>): State
    decreases |evs|
  {
    if evs == [] then st else Run(Step(st, evs[0]), evs[1..])
  }

  predicate NoPress(evs: seq<Event>) {
    forall i :: 0 <= i < |evs| ==> !evs[i].Pressed?
  }

  /** The invariant holds after any events. */
  lemma {:induction false} RunKeepsInv(st: State, evs: seq<Event>)
    requires Inv(st)
    ensures Inv(Run(st, evs))
    decreases |evs|
  {
    if evs != [] {
      RunKeepsInv(Step(st, evs[0]), evs[1..]);
    }
  }

  /** With no drag on, moves and releases change nothing at all. */
  lemma {:induction false} IdleIgnoresPointer(st: State, evs: seq<Event>)
    requires Inv(st) && !st.dragging && NoPress(evs)
    ensures Run(st, evs) == st
    decreases |evs|
  {
    if evs != [] {
      assert !evs[0].Pressed?;
      IdleIgnoresPointer(Step(st, evs[0]), evs[1..]);
    }
  }

  /** Press at p0 on empty desktop, move to p: the rectangle spans p0 and p
      in desktop coordinates, whichever way the pointer went. */
  lemma PressMoveSpans(st: State, cx0: int, cy0: int, cx: int, cy: int, ox: int, oy: int)
    ensures Run(st, [Pressed(OnEmptyDesktop, cx0, cy0, ox, oy), Moved(cx, cy, ox, oy)]).rect
              == Span(cx0 - ox, cy0 - oy, cx - ox, cy - oy)
    ensures Run(st, [Pressed(OnEmptyDesktop, cx0, cy0, ox, oy), Moved(cx, cy, ox, oy)]).visible
  {
    var evs := [Pressed(OnEmptyDesktop, cx0, cy0, ox, oy), Moved(cx, cy, ox, oy)];
    assert evs[1..] == [Moved(cx, cy, ox, oy)] && evs[1..][1..] == [];
    var pressed := Step(st, evs[0]);
    assert pressed.dragging && pressed.startX == cx0 - ox && pressed.startY == cy0 - oy;
    assert Run(st, evs) == Run(pressed, [Moved(cx, cy, ox, oy)]);
    assert Run(pressed, [Moved(cx, cy, ox, oy)]) == Step(pressed, Moved(cx, cy, ox, oy));
  }

  /** The selection rectangle's fields of the desktop element. */
  class SelectionRect {
    var isDragging: bool
    var startX: int
    var startY: int
    var left: int
    var top: int
    var width: nat
    var height: nat
    var visible: bool

    ghost function Model(): State
      reads this
    {
      State(isDragging, startX, startY, Rect(left, top, width, height), visible)
    }

    ghost predicate Valid()
      reads this
    {
      Inv(Model())
    }

    constructor ()
      ensures Valid() && Model() == Initial
    {
      isDragging, startX, startY := false, 0, 0;
      left, top, width, height, visible := 0, 0, 0, 0, false;
    }

    /** The desktop's mousedown listener. */
    method MouseDown(target: PressTarget, cx: int, cy: int, ox: int, oy: int)
      requires Valid()
      modifies this
      ensures Valid() && Model() == Step(old(Model()), Pressed(target, cx, cy, ox, oy))
    {
      if target == OnIcon || target == OnWelcomeWindow {
        return;
      }
      isDragging := true;
      startX, startY := cx - ox, cy - oy;
      left, top := startX, startY;
      width, height := 0, 0;
      visible := true;
    }

    /** The document's mousemove listener. */
    method MouseMove(cx: int, cy: int, ox: int, oy: int)
      requires Valid()
      modifies this
      ensures Valid() && Model() == Step(old(Model()), Moved(cx, cy, ox, oy))
    {
      if !isDragging {
        return;
      }
      var x, y := cx - ox, cy - oy;
      left := Min(x, startX);
      top := Min(y, startY);
      width := Abs(x - startX);
      height := Abs(y - startY);
    }

    /** The document's mouseup listener. */
    method MouseUp()
      requires Valid()
      modifies this
      ensures Valid() && Model() == Step(old(Model()), Released)
    {
      isDragging := false;
      visible := false;
    }
  }
}
