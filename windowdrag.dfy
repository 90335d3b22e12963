/** Dragging the welcome window by its title bar. A press records where in
    the window it was grabbed; every pointer move while the drag is on puts
    the window's top-left corner at the pointer minus the desktop's origin
    minus that offset and drops the centring transform; releasing the
    button anywhere ends the drag. There is no clamping to the desktop. */
module WindowDrag {

  /** Centred by the stylesheet's transform, or placed at a left/top offset
      inside the desktop once it has been dragged. */
  datatype Placement = Centered | At(left: int, top: int)

  /** `_welcomeDrag`, `_welcomeOffset` and the window's placement. */
  datatype State = State(dragging: bool, offsetX: int, offsetY: int, place: Placement)

  const Initial: State := State(false, 0, 0, Centered)

  /** Pointer positions are client coordinates. A press carries the
      window's top-left corner, a move the desktop's. */
  datatype Event =
    | Pressed(cx: int, cy: int, winLeft: int, winTop: int)
    | Moved(cx: int, cy: int, deskLeft: int, deskTop: int)
    | Released

  /** Where a move puts the window, given the offset recorded at the press. */
  function Target(st: State, cx: int, cy: int, deskLeft: int, deskTop: int): (r: Placement)
    ensures r.At?
    ensures deskLeft + r.left + st.offsetX == cx && deskTop + r.top + st.offsetY == cy
  {
    At(cx - deskLeft - st.offsetX, cy - deskTop - st.offsetY)
  }

  function Step(st: State, e: Event): (r: State)
    ensures e.Pressed? ==> r == st.(dragging := true, offsetX := e.cx - e.winLeft, offsetY := e.cy - e.winTop)
    ensures e.Moved? && !st.dragging ==> r == st
    ensures e.Moved? && st.dragging ==> r == st.(place := Target(st, e.cx, e.cy, e.deskLeft, e.deskTop))
    ensures e.Released? ==> r == st.(dragging := false)
  {
    match e
    case Pressed(cx, cy, wl, wt) => st.(dragging := true, offsetX := cx - wl, offsetY := cy - wt)
    case Moved(cx, cy, dl, dt) =>
      if st.dragging then st.(place := Target(st, cx, cy, dl, dt)) else st
    case Released => st.(dragging := false)
  }

  function Run(st: State, evs: seq<Event>): State
    decreases |evs|
  {
    if evs == [] then st else Run(Step(st, evs[0]), evs[1..])
  }

  predicate NoPress(evs: seq<Event>) {
    forall i :: 0 <= i < |evs| ==> !evs[i].Pressed?
  }

  predicate AllMoves(evs: seq<Event>) {
    forall i :: 0 <= i < |evs| ==> evs[i].Moved?
  }

  /** After a release, moves leave the window where it is until the next
      press on the title bar. */
  lemma {:induction false} ReleasedStaysPut(st: State, evs: seq<Event>)
    requires !st.dragging && NoPress(evs)
    ensures Run(st, evs) == st
    decreases |evs|
  {
    if evs != [] {
      assert !evs[0].Pressed?;
      ReleasedStaysPut(Step(st, evs[0]), evs[1..]);
    }
  }

  /** During a drag the window's place depends on the last move only, not
      on the path the pointer took; the offset is the one of the press. */
  lemma {:induction false} LastMoveDecides(st: State, evs: seq<Event>)
    requires st.dragging && AllMoves(evs) && evs != []
    ensures Run(st, evs).place == Target(st, evs[|evs| - 1].cx, evs[|evs| - 1].cy, evs[|evs| - 1].deskLeft, evs[|evs| - 1].deskTop)
    ensures Run(st, evs).dragging && Run(st, evs).offsetX == st.offsetX && Run(st, evs).offsetY == st.offsetY
    decreases |evs|
  {
    assert evs[0].Moved?;
    if |evs| > 1 {
      LastMoveDecides(Step(st, evs[0]), evs[1..]);
    }
  }

  /** Press at p0 on a window whose corner is at w, then move to p: the
      window's corner, in client coordinates, is w moved by p - p0, so the
      point that was grabbed stays under the pointer. The first such move
      also ends the centred placement. */
  lemma GrabPointFollowsPointer(st: State, cx0: int, cy0: int, wl: int, wt: int, cx: int, cy: int, dl: int, dt: int)
    ensures Run(st, [Pressed(cx0, cy0, wl, wt), Moved(cx, cy, dl, dt)]).place
              == At(wl + (cx - cx0) - dl, wt + (cy - cy0) - dt)
  {
    var evs := [Pressed(cx0, cy0, wl, wt), Moved(cx, cy, dl, dt)];
    assert evs[1..] == [Moved(cx, cy, dl, dt)] && evs[1..][1..] == [];
    var pressed := Step(st, evs[0]);
    assert Run(st, evs) == Run(pressed, [Moved(cx, cy, dl, dt)]);
    assert Run(pressed, [Moved(cx, cy, dl, dt)]) == Step(pressed, Moved(cx, cy, dl, dt));
  }

  /** The welcome window's fields of the desktop element. */
  class WelcomeWindow {
    var dragging: bool
    var offsetX: int
    var offsetY: int
    var place: Placement

    ghost function Model(): State
      reads this
    {
      State(dragging, offsetX, offsetY, place)
    }

    constructor ()
      ensures Model() == Initial
    {
      dragging, offsetX, offsetY, place := false, 0, 0, Centered;
    }

    /** The title bar's mousedown listener. */
    method MouseDown(cx: int, cy: int, winLeft: int, winTop: int)
      modifies this
      ensures Model() == Step(old(Model()), Pressed(cx, cy, winLeft, winTop))
    {
      dragging := true;
      offsetX, offsetY := cx - winLeft, cy - winTop;
    }

    /** The document's mousemove listener. */
    method MouseMove(cx: int, cy: int, deskLeft: int, deskTop: int)
      modifies this
      ensures Model() == Step(old(Model()), Moved(cx, cy, deskLeft, deskTop))
    {
      if !dragging {
        return;
      }
      place := At(cx - deskLeft - offsetX, cy - deskTop - offsetY);
    }

    /** The document's mouseup listener. */
    method MouseUp()
      modifies this
      ensures Model() == Step(old(Model()), Released)
    {
      dragging := false;
    }
  }
}
