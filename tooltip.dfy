/** The retro tooltip shared by every element that has a `data-tip`. Entering
    such an element arms a 600 ms timer of that element; when it fires, the
    tooltip shows the element's tip next to where the pointer entered.
    Moving over the element repositions the tooltip; leaving it cancels the
    element's timer and hides the tooltip. */
module Tooltip {

  /** Offset of the tooltip from the pointer, in pixels. */
  const OffsetX: int := 12
  const OffsetY: int := 16

  /** A pending timer of one element: the tip it will show and the client
      position of the mouseenter event it was armed by. */
  datatype Arm = Arm(tip: string, x: int, y: int)

  /** The tooltip element and the pending timers, by element. */
  datatype State = State(visible: bool, text: string, left: int, top: int, armed: map<nat, Arm>)

  const Initial: State := State(false, "", 0, 0, map[])

  /** Pointer positions are client coordinates; (hl, ht) is the host
      element's top-left corner when the listener runs. */
  datatype Event =
    | Entered(el: nat, tip: string, x: int, y: int)
    | Moved(x: int, y: int, hl: int, ht: int)
    | Left(el: nat)
    | Fired(el: nat, hl: int, ht: int)

  function Step(st: State, e: Event): (r: State)
    ensures e.Entered? ==> r == st.(armed := st.armed[e.el := Arm(e.tip, e.x, e.y)])
    ensures e.Moved? ==> r == st.(left := e.x - e.hl + OffsetX, top := e.y - e.ht + OffsetY)
    ensures e.Left? ==> !r.visible && e.el !in r.armed
    ensures e.Left? ==> r == st.(visible := false, armed := st.armed - {e.el})
    ensures e.Fired? && e.el !in st.armed ==> r == st
    ensures e.Fired? && e.el in st.armed ==>
      r.visible && r.text == st.armed[e.el].tip && e.el !in r.armed &&
      r.left == st.armed[e.el].x - e.hl + OffsetX && r.top == st.armed[e.el].y - e.ht + OffsetY
    ensures e.Fired? && e.el in st.armed ==> r.armed == st.armed - {e.el}
    ensures !e.Moved? ==> forall other :: other in st.armed && other != e.el ==> other in r.armed && r.armed[other] == st.armed[other]
  {
    match e
    case Entered(el, tip, x, y) => st.(armed := st.armed[el := Arm(tip, x, y)])
    case Moved(x, y, hl, ht) => st.(left := x - hl + OffsetX, top := y - ht + OffsetY)
    case Left(el) => st.(visible := false, armed := st.armed - {el})
    case Fired(el, hl, ht) =>
      if el !in st.armed then st
      else
        var a := st.armed[el];
        State(true, a.tip, a.x - hl + OffsetX, a.y - ht + OffsetY, st.armed - {el})
  }

  function Run(st: State, evs: seq<Event>): State
    decreases |evs|
  {
    if evs == [] then st else Run(Step(st, evs[0]), evs[1..])
  }

  predicate NoFire(evs: seq<Event>) {
    forall i :: 0 <= i < |evs| ==> !evs[i].Fired?
  }

  predicate NoEnter(evs: seq<Event>) {
    forall i :: 0 <= i < |evs| ==> !evs[i].Entered?
  }

  predicate AllMoves(evs: seq<Event>) {
    forall i :: 0 <= i < |evs| ==> evs[i].Moved?
  }

  /** A run over `a + b` is the run over `a` followed by the run over `b`. */
  lemma {:induction false} RunAppend(st: State, a: seq<Event>, b: seq<Event>)
    ensures Run(st, a + b) == Run(Run(st, a), b)
    decreases |a|
  {
    if a == [] {
      assert a + b == b;
    } else {
      assert (a + b)[0] == a[0] && (a + b)[1..] == a[1..] + b;
      RunAppend(Step(st, a[0]), a[1..], b);
    }
  }

  /** Only a timer firing shows the tooltip. */
  lemma {:induction false} NoFireStaysHidden(st: State, evs: seq<Event>)
    requires !st.visible && NoFire(evs)
    ensures !Run(st, evs).visible
    decreases |evs|
  {
    if evs != [] {
      assert !evs[0].Fired?;
      NoFireStaysHidden(Step(st, evs[0]), evs[1..]);
    }
  }

  /** With nothing armed and nothing entered, the tooltip stays hidden and no
      timer appears, whatever else happens. */
  lemma {:induction false} QuietStaysHidden(st: State, evs: seq<Event>)
    requires !st.visible && st.armed == map[] && NoEnter(evs)
    ensures !Run(st, evs).visible && Run(st, evs).armed == map[]
    decreases |evs|
  {
    if evs != [] {
      assert !evs[0].Entered?;
      var next := Step(st, evs[0]);
      assert next.armed == map[];
      QuietStaysHidden(next, evs[1..]);
    }
  }

  /** Enter and leave before the timer fires: the tooltip is never shown
      afterwards, even when the cancelled timer's turn comes, unless another
      element is entered. */
  lemma LeaveBeforeFireNeverShows(st: State, el: nat, tip: string, x: int, y: int, rest: seq<Event>)
    requires !st.visible && st.armed == map[] && NoEnter(rest)
    ensures !Run(st, [Entered(el, tip, x, y), Left(el)] + rest).visible
  {
    var left := Step(Step(st, Entered(el, tip, x, y)), Left(el));
    assert left.armed == map[];
    var two := [Entered(el, tip, x, y), Left(el)];
    assert two[1..] == [Left(el)] && two[1..][1..] == [];
    assert Run(Step(st, Entered(el, tip, x, y)), [Left(el)]) == left;
    assert Run(st, two) == left;
    RunAppend(st, two, rest);
    QuietStaysHidden(left, rest);
  }

  lemma {:induction false} MovesKeepTimers(st: State, evs: seq<Event>)
    requires AllMoves(evs)
    ensures Run(st, evs).armed == st.armed
    decreases |evs|
  {
    if evs != [] {
      assert evs[0].Moved?;
      MovesKeepTimers(Step(st, evs[0]), evs[1..]);
    }
  }

  /** When the timer fires the tooltip is shown with the element's tip, at
      the point where the pointer entered the element plus (12, 16),
      relative to the host; moves in between do not change that point. */
  lemma FireShowsAtEntryPoint(st: State, el: nat, tip: string, x: int, y: int, moves: seq<Event>, hl: int, ht: int)
    requires AllMoves(moves)
    ensures Run(st, [Entered(el, tip, x, y)] + moves + [Fired(el, hl, ht)]).visible
    ensures Run(st, [Entered(el, tip, x, y)] + moves + [Fired(el, hl, ht)]).text == tip
    ensures Run(st, [Entered(el, tip, x, y)] + moves + [Fired(el, hl, ht)]).left == x - hl + OffsetX
    ensures Run(st, [Entered(el, tip, x, y)] + moves + [Fired(el, hl, ht)]).top == y - ht + OffsetY
  {
    var entered := Step(st, Entered(el, tip, x, y));
    assert Run(st, [Entered(el, tip, x, y)]) == entered;
    RunAppend(st, [Entered(el, tip, x, y)], moves);
    MovesKeepTimers(entered, moves);
    RunAppend(st, [Entered(el, tip, x, y)] + moves, [Fired(el, hl, ht)]);
  }

  /** The tooltip element's visible fields and the elements' timers. */
  class TooltipView {
    var visible: bool
    var text: string
    var left: int
    var top: int
    var armed: map<nat, Arm>

    ghost function Model(): State
      reads this
    {
      State(visible, text, left, top, armed)
    }

    constructor ()
      ensures Model() == Initial
    {
      visible, text, left, top, armed := false, "", 0, 0, map[];
    }

    /** Mouseenter on element `el` whose tip is `tip`. */
    method MouseEnter(el: nat, tip: string, x: int, y: int)
      modifies this
      ensures Model() == Step(old(Model()), Entered(el, tip, x, y))
    {
      armed := armed[el := Arm(tip, x, y)];
    }

    /** Mousemove over any tip-bearing element. */
    method MouseMove(x: int, y: int, hl: int, ht: int)
      modifies this
      ensures Model() == Step(old(Model()), Moved(x, y, hl, ht))
    {
      left := x - hl + OffsetX;
      top := y - ht + OffsetY;
    }

    method MouseLeave(el: nat)
      modifies this
      ensures Model() == Step(old(Model()), Left(el))
    {
      armed := armed - {el};
      visible := false;
    }

    /** The 600 ms timer of `el` fires; a cancelled one never does. */
    method TimerFired(el: nat, hl: int, ht: int)
      modifies this
      ensures Model() == Step(old(Model()), Fired(el, hl, ht))
    {
      if el in armed {
        var a := armed[el];
        text := a.tip;
        visible := true;
        left := a.x - hl + OffsetX;
        top := a.y - ht + OffsetY;
        armed := armed - {el};
      }
    }
  }
}
