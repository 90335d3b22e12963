/** The start menu and the account dropdown. Each has a trigger whose click
    listener toggles its `open` class, and a listener on the shadow root
    that removes the class for any click outside the menu's own region
    (its trigger and its panel). The two menus do not know of each other. */
module Menus {

  /** Where a click lands relative to one menu. */
  datatype Where = OnTrigger | InRegion | Outside

  /** The menu's state after one click: the trigger's listener runs first,
      then the shadow root's, which leaves a click inside the region alone. */
  function AfterClick(open: bool, w: Where): (r: bool)
    ensures w == OnTrigger ==> r == !open
    ensures w == InRegion ==> r == open
    ensures w == Outside ==> !r
  {
    var toggled := if w == OnTrigger then !open else open;
    if w == Outside then false else toggled
  }

  function Run(open: bool, clicks: seq<Where>): bool
    decreases |clicks|
  {
    if clicks == [] then open else Run(AfterClick(open, clicks[0]), clicks[1..])
  }

  function CountTriggers(clicks: seq<Where>): nat {
    if clicks == [] then 0 else (if clicks[0] == OnTrigger then 1 else 0) + CountTriggers(clicks[1..])
  }

  predicate NoOutside(clicks: seq<Where>) {
    forall i :: 0 <= i < |clicks| ==> clicks[i] != Outside
  }

  /** A run over `a + b` is the run over `a` followed by the run over `b`. */
  lemma {:induction false} RunAppend(open: bool, a: seq<Where>, b: seq<Where>)
    ensures Run(open, a + b) == Run(Run(open, a), b)
    decreases |a|
  {
    if a == [] {
      assert a + b == b;
    } else {
      assert (a + b)[0] == a[0] && (a + b)[1..] == a[1..] + b;
      RunAppend(AfterClick(open, a[0]), a[1..], b);
    }
  }

  /** Without an outside click the menu is open exactly when it started open
      or was toggled an odd number of times, but not both. */
  lemma {:induction false} InsideClicksToggle(open: bool, clicks: seq<Where>)
    requires NoOutside(clicks)
    ensures Run(open, clicks) == (open != (CountTriggers(clicks) % 2 == 1))
    decreases |clicks|
  {
    if clicks != [] {
      assert clicks[0] != Outside;
      InsideClicksToggle(AfterClick(open, clicks[0]), clicks[1..]);
    }
  }

  /** After the last outside click, only the trigger clicks since then count:
      the menu is open exactly when there was an odd number of them. */
  lemma OpenAfterLastOutside(open: bool, before: seq<Where>, after: seq<Where>)
    requires NoOutside(after)
    ensures Run(open, before + [Outside] + after) == (CountTriggers(after) % 2 == 1)
  {
    RunAppend(open, before + [Outside], after);
    RunAppend(open, before, [Outside]);
    InsideClicksToggle(false, after);
  }

  /** One menu: the `open` class of its panel. */
  class Menu {
    var open: bool

    constructor ()
      ensures !open
    {
      open := false;
    }

    /** The trigger's click listener. */
    method Toggle()
      modifies this
      ensures open == !old(open)
    {
      open := !open;
    }

    /** The shadow root's click listener for this menu; `inside` when the
        click came from within the trigger or the panel. */
    method DocumentClick(inside: bool)
      modifies this
      ensures open == (inside && old(open))
    {
      if !inside {
        open := false;
      }
    }

    method Close()
      modifies this
      ensures !open
    {
      open := false;
    }
  }
}
