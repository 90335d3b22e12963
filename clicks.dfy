/** Single- versus double-click on the desktop icons and on the Donna
    button. A press with no timer pending arms a 400 ms timer; a press while
    it is pending cancels it and opens the target in a new tab. All icons
    share one timer; the Donna button has its own and leaves the icon
    selection alone. */
module ClickIntent {
  import opened Common

  /** One press with the timer pending or not: the new pending flag and
      whether the target is opened. */
  function Press(pending: bool): (r: (bool, bool))
    ensures r.1 <==> pending
    ensures r.0 <==> !pending
  {
    if pending then (false, true) else (true, false)
  }

  // ---------------------------------------------------------------- icons

  /** `_selectedIcon` (an icon of the catalog, by position) and whether the
      shared `_clickTimer` is pending. */
  datatype Icons = Icons(selected: Option<nat>, pending: bool)

  const NoIcons: Icons := Icons(None, false)

  datatype Event = Clicked(icon: nat) | TimerFired | DesktopClicked

  /** One event: the new state and the icon opened, if any. */
  function Step(st: Icons, e: Event): (r: (Icons, Option<nat>))
    ensures e.Clicked? ==> r.0.selected == Some(e.icon)
    ensures e.Clicked? ==> (r.1.Some? <==> st.pending) && r.0.pending == !st.pending
    ensures r.1.Some? ==> e.Clicked? && r.1 == Some(e.icon)
    ensures e.TimerFired? ==> r.0 == st.(pending := false)
    ensures e.DesktopClicked? ==> r.0 == st.(selected := None)
  {
    match e
    case Clicked(i) =>
      var (pending, open) := Press(st.pending);
      (Icons(Some(i), pending), if open then Some(i) else None)
    case TimerFired => (st.(pending := false), None)
    case DesktopClicked => (st.(selected := None), None)
  }

  /** A stream of events: the final state and the icons opened, in order. */
  function Run(st: Icons, evs: seq<Event>): (r: (Icons, seq<nat>))
    decreases |evs|
  {
    if evs == [] then (st, [])
    else
      var (next, out) := Step(st, evs[0]);
      var (last, more) := Run(next, evs[1..]);
      (last, (if out.Some? then [out.value] else []) + more)
  }

  function CountClicks(evs: seq<Event>): nat {
    if evs == [] then 0 else (if evs[0].Clicked? then 1 else 0) + CountClicks(evs[1..])
  }

  function Weight(b: bool): nat {
    if b then 1 else 0
  }

  /** Every opening uses up two presses, or one press and a timer that was
      pending already: over any events, twice the openings plus the final
      pending flag is at most the presses plus the initial pending flag. */
  lemma {:induction false} OpeningsNeedTwoPresses(st: Icons, evs: seq<Event>)
    ensures 2 * |Run(st, evs).1| + Weight(Run(st, evs).0.pending) <= CountClicks(evs) + Weight(st.pending)
    decreases |evs|
  {
    if evs != [] {
      OpeningsNeedTwoPresses(Step(st, evs[0]).0, evs[1..]);
    }
  }

  /** A single press, then the timer: selected, nothing opened, nothing
      pending. */
  lemma SingleClickSelects(st: Icons, a: nat)
    requires !st.pending
    ensures Run(st, [Clicked(a), TimerFired]) == (Icons(Some(a), false), [])
  {
    assert [Clicked(a), TimerFired][1..] == [TimerFired];
    assert Run(Icons(Some(a), true), [TimerFired]) == (Icons(Some(a), false), []);
  }

  /** Two presses before the timer fires open the second target once. The
      timer is shared, so this holds for two different icons too: a press
      on b within 400 ms of a press on a opens b. */
  lemma SecondPressOpens(st: Icons, a: nat, b: nat)
    requires !st.pending
    ensures Run(st, [Clicked(a), Clicked(b)]) == (Icons(Some(b), false), [b])
  {
    assert [Clicked(a), Clicked(b)][1..] == [Clicked(b)];
    assert [Clicked(b)][1..] == [] && [b] + [] == [b] && [] + [b] == [b];
    assert Run(Icons(Some(a), true), [Clicked(b)]) == (Icons(Some(b), false), [b]);
    assert Run(st, [Clicked(a), Clicked(b)]) == (Icons(Some(b), false), [] + [b]);
  }

  /** After any events that end with a press, exactly that icon is selected. */
  lemma {:induction false} LastClickSelected(st: Icons, evs: seq<Event>, a: nat)
    ensures Run(st, evs + [Clicked(a)]).0.selected == Some(a)
    decreases |evs|
  {
    if evs == [] {
      assert evs + [Clicked(a)] == [Clicked(a)];
    } else {
      assert (evs + [Clicked(a)])[0] == evs[0] && (evs + [Clicked(a)])[1..] == evs[1..] + [Clicked(a)];
      LastClickSelected(Step(st, evs[0]).0, evs[1..], a);
    }
  }

  /** The desktop's selection and the shared click timer. */
  class IconClicks {
    var selected: Option<nat>
    var timerPending: bool

    ghost function Model(): Icons
      reads this
    {
      Icons(selected, timerPending)
    }

    constructor ()
      ensures Model() == NoIcons
    {
      selected, timerPending := None, false;
    }

    /** The click handler of icon `icon`: select it, then open it or arm the
        timer. */
    method Click(icon: nat) returns (open: Option<nat>)
      modifies this
      ensures (Model(), open) == Step(old(Model()), Clicked(icon))
    {
      selected := Some(icon);
      if timerPending {
        timerPending := false;
        open := Some(icon);
      } else {
        timerPending := true;
        open := None;
      }
    }

    method TimerFired()
      modifies this
      ensures Model() == Step(old(Model()), Event.TimerFired).0
    {
      timerPending := false;
    }

    /** A click on the bare desktop or on the icon layout itself. */
    method Deselect()
      modifies this
      ensures Model() == Step(old(Model()), DesktopClicked).0
    {
      selected := None;
    }
  }

  // ---------------------------------------------------------------- Donna

  /** The Donna button's own `_donnaClickTimer`. */
  class DonnaButton {
    var timerPending: bool

    constructor ()
      ensures !timerPending
    {
      timerPending := false;
    }

    method Click() returns (open: bool)
      modifies this
      ensures (timerPending, open) == Press(old(timerPending))
    {
      if timerPending {
        timerPending := false;
        open := true;
      } else {
        timerPending := true;
        open := false;
      }
    }

    method TimerFired()
      modifies this
      ensures !timerPending
    {
      timerPending := false;
    }
  }
}
