/** The desktop element as a whole: the controllers of the other modules,
    wired to the events the element listens to. A click is seen first by
    the listeners of the element it lands on and its ancestors, then by the
    three listeners on the shadow root that close the start menu, the
    billing popup and the account dropdown when the click is outside their
    regions. Opening a tab, the two custom events and the cheat-code effect
    are the element's outputs. */
module Desktop {
  import opened Common
  import Billing
  import Konami
  import ClickIntent
  import DragSelect
  import WindowDrag
  import Menus
  import Tooltip
  import Identity

  /** Where a click lands. `AccountEntry` is an item of the account dropdown
      other than the logout item; `BareDesktop` and `IconLayout` are
      `#desktop` and `#desktop-layout` themselves, `OtherDesktop` anything
      else inside `#desktop` that is not an icon. `Elsewhere` is a click
      inside the shadow tree on none of these elements; a click on the host
      page never reaches the shadow root's listeners. */
  datatype Target =
    | StartButton | StartMenuEntry
    | LoginButton | AccountButton | AccountEntry | LogoutButton
    | Icon(id: nat) | BareDesktop | IconLayout | OtherDesktop
    | DonnaButton | BillingTimer | BillingPopup | CrtToggle
    | Elsewhere

  /** Where a mouse button goes down: on the welcome window's title bar,
      elsewhere in the welcome window, on an icon, on any other part of
      `#desktop`, or outside `#desktop` (taskbar, bottom bar, menus). */
  datatype PressAt = TitleBar | WelcomeBody | OnIcon | DesktopSpace | OutsideDesktop

  datatype Link = IconLink(id: nat) | DonnaLink

  /** `window.open` of a link, the `login-click` and `logout-click` custom
      events, and the start of the cheat-code effect. */
  datatype Output = OpenTab(link: Link) | LoginClick | LogoutClick | KonamiEffect

  /** Where a click lands relative to the start menu and to the account menu. */
  function StartWhere(t: Target): Menus.Where {
    if t == StartButton then Menus.OnTrigger
    else if t == StartMenuEntry then Menus.InRegion
    else Menus.Outside
  }

  function AccountWhere(t: Target): Menus.Where {
    if t == AccountButton then Menus.OnTrigger
    else if t == AccountEntry || t == LogoutButton then Menus.InRegion
    else Menus.Outside
  }

  predicate InBillingRegion(t: Target) {
    t == BillingTimer || t == BillingPopup
  }

  /** The element's whole interaction state. */
  datatype Shell = Shell(
    icons: ClickIntent.Icons,
    donnaPending: bool,
    start: bool,
    account: bool,
    billing: Billing.State,
    konami: nat,
    selection: DragSelect.State,
    welcome: WindowDrag.State,
    tooltip: Tooltip.State,
    element: Identity.Element,
    crt: bool)

  /** Just after connection, with the attributes the page had set. The CRT
      overlay starts on. */
  function Boot(paidAttr: Option<string>, nameAttr: Option<string>): Shell {
    Shell(ClickIntent.NoIcons, false, false, false, Billing.Initial, 0,
          DragSelect.Initial, WindowDrag.Initial, Tooltip.Initial,
          Identity.Run(Identity.Created, [Identity.SetPaid(paidAttr), Identity.SetName(nameAttr), Identity.Connected]),
          true)
  }

  /** One click, listener by listener: the element's own listeners (icon,
      desktop deselect, start button, login, account button, logout, Donna,
      billing timer, CRT toggle), then the shadow root's. */
  function ClickStep(sh: Shell, t: Target, pick: Billing.Pick): (r: (Shell, seq<Output>))
    ensures r.0.start == if t == StartButton then !sh.start else t == StartMenuEntry && sh.start
    ensures r.0.account == if t == AccountButton then !sh.account else t == AccountEntry && sh.account
    ensures r.0.billing.popupOpen == (t == BillingTimer || (t == BillingPopup && sh.billing.popupOpen))
    ensures t == BillingTimer ==> r.0.billing.running == !sh.billing.running
    ensures t != BillingTimer ==> r.0.billing == sh.billing.(popupOpen := r.0.billing.popupOpen)
    ensures r.0.billing.seconds == sh.billing.seconds
    ensures t == BillingTimer ==> r.0.billing == Billing.Toggle(sh.billing, pick)
    ensures t.Icon? ==> r.0.icons.selected == Some(t.id) && r.0.icons.pending == !sh.icons.pending
    ensures t.Icon? ==> r.0.icons == ClickIntent.Step(sh.icons, ClickIntent.Clicked(t.id)).0
    ensures t == BareDesktop || t == IconLayout ==> r.0.icons == sh.icons.(selected := None)
    ensures !t.Icon? && t != BareDesktop && t != IconLayout ==> r.0.icons == sh.icons
    ensures r.0.donnaPending == (sh.donnaPending != (t == DonnaButton))
    ensures r.0.crt == (sh.crt != (t == CrtToggle))
    ensures r.0.konami == sh.konami && r.0.selection == sh.selection && r.0.welcome == sh.welcome
    ensures r.0.tooltip == sh.tooltip && r.0.element == sh.element
    ensures |r.1| <= 1
    ensures LoginClick in r.1 <==> t == LoginButton
    ensures LogoutClick in r.1 <==> t == LogoutButton
    ensures OpenTab(DonnaLink) in r.1 <==> t == DonnaButton && sh.donnaPending
    ensures forall i :: OpenTab(IconLink(i)) in r.1 <==> t == Icon(i) && sh.icons.pending
    ensures KonamiEffect !in r.1
  {
    var (mid, out) := TargetListeners(sh, t, pick);
    (RootListeners(mid, t), out)
  }

  /** The listeners of the clicked element and of its ancestors. */
  function TargetListeners(sh: Shell, t: Target, pick: Billing.Pick): (r: (Shell, seq<Output>))
    ensures r.0.start == (sh.start != (t == StartButton))
    ensures r.0.account == if t == LogoutButton then false else sh.account != (t == AccountButton)
    ensures t == BillingTimer ==> r.0.billing == Billing.Toggle(sh.billing, pick)
    ensures t != BillingTimer ==> r.0.billing == sh.billing
    ensures t.Icon? ==> r.0.icons.selected == Some(t.id) && r.0.icons.pending == !sh.icons.pending
    ensures t.Icon? ==> r.0.icons == ClickIntent.Step(sh.icons, ClickIntent.Clicked(t.id)).0
    ensures t == BareDesktop || t == IconLayout ==> r.0.icons == sh.icons.(selected := None)
    ensures !t.Icon? && t != BareDesktop && t != IconLayout ==> r.0.icons == sh.icons
    ensures r.0.donnaPending == (sh.donnaPending != (t == DonnaButton))
    ensures r.0.crt == (sh.crt != (t == CrtToggle))
    ensures r.0.konami == sh.konami && r.0.selection == sh.selection && r.0.welcome == sh.welcome
    ensures r.0.tooltip == sh.tooltip && r.0.element == sh.element
    ensures |r.1| <= 1
    ensures LoginClick in r.1 <==> t == LoginButton
    ensures LogoutClick in r.1 <==> t == LogoutButton
    ensures OpenTab(DonnaLink) in r.1 <==> t == DonnaButton && sh.donnaPending
    ensures forall i :: OpenTab(IconLink(i)) in r.1 <==> t == Icon(i) && sh.icons.pending
    ensures KonamiEffect !in r.1
  {
    match t
    case Icon(id) =>
      var (icons, hit) := ClickIntent.Step(sh.icons, ClickIntent.Clicked(id));
      (sh.(icons := icons), if hit.Some? then [OpenTab(IconLink(hit.value))] else [])
    case BareDesktop => (sh.(icons := ClickIntent.Step(sh.icons, ClickIntent.DesktopClicked).0), [])
    case IconLayout => (sh.(icons := ClickIntent.Step(sh.icons, ClickIntent.DesktopClicked).0), [])
    case StartButton => (sh.(start := !sh.start), [])
    case LoginButton => (sh, [LoginClick])
    case AccountButton => (sh.(account := !sh.account), [])
    case LogoutButton => (sh.(account := false), [LogoutClick])
    case DonnaButton =>
      var (pending, open) := ClickIntent.Press(sh.donnaPending);
      (sh.(donnaPending := pending), if open then [OpenTab(DonnaLink)] else [])
    case BillingTimer => (sh.(billing := Billing.Toggle(sh.billing, pick)), [])
    case CrtToggle => (sh.(crt := !sh.crt), [])
    case _ => (sh, [])
  }

  /** The three listeners on the shadow root. */
  function RootListeners(sh: Shell, t: Target): (r: Shell)
    ensures r.start == (sh.start && (t == StartButton || t == StartMenuEntry))
    ensures r.account == (sh.account && (t == AccountButton || t == AccountEntry || t == LogoutButton))
    ensures r.billing.popupOpen == (sh.billing.popupOpen && InBillingRegion(t))
    ensures r == sh.(start := r.start, account := r.account, billing := sh.billing.(popupOpen := r.billing.popupOpen))
  {
    sh.(start := sh.start && StartWhere(t) != Menus.Outside,
        billing := if InBillingRegion(t) then sh.billing else Billing.Dismiss(sh.billing),
        account := sh.account && AccountWhere(t) != Menus.Outside)
  }

  /** Every event the element reacts to. Pointer positions are client
      coordinates; `(winLeft, winTop)`, `(deskLeft, deskTop)` and
      `(hostLeft, hostTop)` are the top-left corners of the welcome window,
      of `#desktop` and of the element when the listener runs. */
  datatype Event =
    | Clicked(target: Target, pick: Billing.Pick)
    | Pressed(at: PressAt, cx: int, cy: int, winLeft: int, winTop: int, deskLeft: int, deskTop: int)
    | Moved(cx: int, cy: int, deskLeft: int, deskTop: int, overTip: bool, hostLeft: int, hostTop: int)
    | Released
    | KeyPressed(key: int)
    | Entered(el: nat, tip: string, x: int, y: int)
    | Left(el: nat)
    | TipTimerFired(el: nat, hostLeft: int, hostTop: int)
    | IconTimerFired
    | DonnaTimerFired
    | BillingTick
    | BillingCloseFired
    | PaidChanged(value: Option<string>)
    | NameChanged(value: Option<string>)

  /** What the desktop's mousedown listener sees of a press inside
      `#desktop`; a press outside it never reaches that listener. */
  function PressTarget(at: PressAt): (r: DragSelect.PressTarget)
    requires at != OutsideDesktop
    ensures r == DragSelect.OnEmptyDesktop <==> at == DesktopSpace
  {
    match at
    case TitleBar => DragSelect.OnWelcomeWindow
    case WelcomeBody => DragSelect.OnWelcomeWindow
    case OnIcon => DragSelect.OnIcon
    case DesktopSpace => DragSelect.OnEmptyDesktop
  }

  /** Mousedown: the title bar's listener, then the desktop's. */
  function PressStep(sh: Shell, at: PressAt, cx: int, cy: int, wl: int, wt: int, dl: int, dt: int): (r: Shell)
    ensures at == TitleBar ==> r.welcome == sh.welcome.(dragging := true, offsetX := cx - wl, offsetY := cy - wt)
    ensures at != TitleBar ==> r.welcome == sh.welcome
    ensures at == DesktopSpace ==> r.selection == DragSelect.State(true, cx - dl, cy - dt, DragSelect.Rect(cx - dl, cy - dt, 0, 0), true)
    ensures at != DesktopSpace ==> r.selection == sh.selection
    ensures r == sh.(welcome := r.welcome, selection := r.selection)
  {
    var welcome := if at == TitleBar then WindowDrag.Step(sh.welcome, WindowDrag.Pressed(cx, cy, wl, wt)) else sh.welcome;
    var selection := if at == OutsideDesktop then sh.selection
                     else DragSelect.Step(sh.selection, DragSelect.Pressed(PressTarget(at), cx, cy, dl, dt));
    sh.(welcome := welcome, selection := selection)
  }

  /** Mousemove: the two document listeners, and the tooltip's when the
      pointer is over an element with a tip. */
  function MoveStep(sh: Shell, cx: int, cy: int, dl: int, dt: int, overTip: bool, hl: int, ht: int): (r: Shell)
    ensures r.welcome.dragging == sh.welcome.dragging && r.selection.dragging == sh.selection.dragging
    ensures sh.welcome.dragging ==> r.welcome == sh.welcome.(place := WindowDrag.Target(sh.welcome, cx, cy, dl, dt))
    ensures !sh.welcome.dragging ==> r.welcome == sh.welcome
    ensures sh.selection.dragging ==>
      r.selection == sh.selection.(rect := DragSelect.Span(sh.selection.startX, sh.selection.startY, cx - dl, cy - dt))
    ensures !sh.selection.dragging ==> r.selection == sh.selection
    ensures overTip ==> r.tooltip == sh.tooltip.(left := cx - hl + Tooltip.OffsetX, top := cy - ht + Tooltip.OffsetY)
    ensures !overTip ==> r.tooltip == sh.tooltip
    ensures r == sh.(welcome := r.welcome, selection := r.selection, tooltip := r.tooltip)
  {
    var welcome := WindowDrag.Step(sh.welcome, WindowDrag.Moved(cx, cy, dl, dt));
    var selection := DragSelect.Step(sh.selection, DragSelect.Moved(cx, cy, dl, dt));
    var tooltip := if overTip then Tooltip.Step(sh.tooltip, Tooltip.Moved(cx, cy, hl, ht)) else sh.tooltip;
    sh.(welcome := welcome, selection := selection, tooltip := tooltip)
  }

  /** Mouseup: the two document listeners. */
  function ReleaseStep(sh: Shell): (r: Shell)
    ensures !r.welcome.dragging && !r.selection.dragging && !r.selection.visible
    ensures r.welcome == sh.welcome.(dragging := false)
    ensures r.selection == sh.selection.(dragging := false, visible := false)
    ensures r == sh.(welcome := r.welcome, selection := r.selection)
  {
    sh.(welcome := WindowDrag.Step(sh.welcome, WindowDrag.Released),
        selection := DragSelect.Step(sh.selection, DragSelect.Released))
  }

  function Step(sh: Shell, e: Event): (r: (Shell, seq<Output>))
    requires sh.konami < |Konami.Code|
    ensures r.0.konami < |Konami.Code|
  {
    match e
    case Clicked(t, pick) => ClickStep(sh, t, pick)
    case Pressed(at, cx, cy, wl, wt, dl, dt) => (PressStep(sh, at, cx, cy, wl, wt, dl, dt), [])
    case Moved(cx, cy, dl, dt, overTip, hl, ht) => (MoveStep(sh, cx, cy, dl, dt, overTip, hl, ht), [])
    case Released => (ReleaseStep(sh), [])
    case KeyPressed(key) =>
      var (index, fired) := Konami.Step(sh.konami, key);
      (sh.(konami := index), if fired then [KonamiEffect] else [])
    case Entered(el, tip, x, y) => (sh.(tooltip := Tooltip.Step(sh.tooltip, Tooltip.Entered(el, tip, x, y))), [])
    case Left(el) => (sh.(tooltip := Tooltip.Step(sh.tooltip, Tooltip.Left(el))), [])
    case TipTimerFired(el, hl, ht) => (sh.(tooltip := Tooltip.Step(sh.tooltip, Tooltip.Fired(el, hl, ht))), [])
    case IconTimerFired => (sh.(icons := ClickIntent.Step(sh.icons, ClickIntent.TimerFired).0), [])
    case DonnaTimerFired => (sh.(donnaPending := false), [])
    case BillingTick => (sh.(billing := Billing.Advance(sh.billing)), [])
    case BillingCloseFired => (sh.(billing := Billing.AutoClose(sh.billing)), [])
    case PaidChanged(v) => (sh.(element := Identity.Step(sh.element, Identity.SetPaid(v))), [])
    case NameChanged(v) => (sh.(element := Identity.Step(sh.element, Identity.SetName(v))), [])
  }

  /** Only clicks and key presses have outputs, only a key press moves the
      cheat-code detector, only clicks toggle the two menus, and only clicks
      and the close timers change whether the billing popup is open. */
  lemma OnlyClicksAndKeysAct(sh: Shell, e: Event)
    requires sh.konami < |Konami.Code|
    ensures !e.Clicked? && !e.KeyPressed? ==> Step(sh, e).1 == []
    ensures e.KeyPressed? ==> (Step(sh, e).0.konami, KonamiEffect in Step(sh, e).1) == Konami.Step(sh.konami, e.key)
    ensures !e.KeyPressed? ==> Step(sh, e).0.konami == sh.konami
    ensures !e.Clicked? ==> Step(sh, e).0.start == sh.start && Step(sh, e).0.account == sh.account
    ensures !e.Clicked? && !e.BillingCloseFired? ==> Step(sh, e).0.billing.popupOpen == sh.billing.popupOpen
  {
    match e
    case KeyPressed(key) =>
      var (index, fired) := Konami.Step(sh.konami, key);
      assert Step(sh, e).1 == if fired then [KonamiEffect] else [];
    case _ =>
  }

  /** A stream of events: the final state and the outputs, in order. */
  function Run(sh: Shell, evs: seq<Event>): (r: (Shell, seq<Output>))
    requires sh.konami < |Konami.Code|
    ensures r.0.konami < |Konami.Code|
    decreases |evs|
  {
    if evs == [] then (sh, [])
    else
      var (next, out) := Step(sh, evs[0]);
      var (last, more) := Run(next, evs[1..]);
      (last, out + more)
  }

  /** Of the start menu, the account dropdown and the billing popup, at most
      one is open. */
  predicate OnePanel(sh: Shell) {
    (if sh.start then 1 else 0) + (if sh.account then 1 else 0) + (if sh.billing.popupOpen then 1 else 0) <= 1
  }

  /** What holds of every state the element goes through: the controllers'
      own invariants, at most one open panel, and a chrome that shows
      exactly one of the login link and the account menu. */
  ghost predicate Inv(sh: Shell) {
    && sh.konami < |Konami.Code|
    && DragSelect.Inv(sh.selection)
    && Identity.PaidReflected(sh.element)
    && sh.element.chrome.Some?
    && sh.element.chrome.value.loginShown != sh.element.chrome.value.accountShown
    && OnePanel(sh)
  }

  lemma BootInv(paidAttr: Option<string>, nameAttr: Option<string>)
    ensures Inv(Boot(paidAttr, nameAttr))
    ensures Boot(paidAttr, nameAttr).element.chrome == Some(Identity.Rendered.(paid := Identity.IsPaid(paidAttr)))
  {
    var evs := [Identity.SetPaid(paidAttr), Identity.SetName(nameAttr), Identity.Connected];
    assert evs[1..] == [Identity.SetName(nameAttr), Identity.Connected] && evs[1..][1..] == [Identity.Connected];
    assert evs[1..][1..][1..] == [];
    var s1 := Identity.Step(Identity.Created, evs[0]);
    var s2 := Identity.Step(s1, evs[1]);
    assert s2 == Identity.Element(paidAttr, nameAttr, None);
    assert Identity.Run(s2, [Identity.Connected]) == Identity.Step(s2, Identity.Connected);
    assert Identity.Run(s1, evs[1..]) == Identity.Run(s2, [Identity.Connected]);
  }

  lemma StepInv(sh: Shell, e: Event)
    requires Inv(sh)
    ensures Inv(Step(sh, e).0)
  {
    match e
    case Clicked(t, pick) =>
      var r := ClickStep(sh, t, pick).0;
      assert r.start ==> StartWhere(t) != Menus.Outside;
      assert r.account ==> AccountWhere(t) != Menus.Outside;
    case NameChanged(v) =>
    case PaidChanged(v) =>
    case _ =>
  }

  /** The invariant holds of every state reached from a state where it holds. */
  lemma {:induction false} RunInv(sh: Shell, evs: seq<Event>)
    requires Inv(sh)
    ensures Inv(Run(sh, evs).0)
    decreases |evs|
  {
    if evs != [] {
      StepInv(sh, evs[0]);
      RunInv(Step(sh, evs[0]).0, evs[1..]);
    }
  }

  /** Closing one panel never opens another: a panel is open after a click
      only when the click was on its own trigger or inside it. */
  lemma PanelOpensOnlyFromItsRegion(sh: Shell, t: Target, pick: Billing.Pick)
    ensures ClickStep(sh, t, pick).0.start ==> t == StartButton || t == StartMenuEntry
    ensures ClickStep(sh, t, pick).0.account ==> t == AccountButton || t == AccountEntry
    ensures ClickStep(sh, t, pick).0.billing.popupOpen ==> InBillingRegion(t)
    ensures !sh.start && ClickStep(sh, t, pick).0.start ==> t == StartButton
    ensures !sh.account && ClickStep(sh, t, pick).0.account ==> t == AccountButton
    ensures !sh.billing.popupOpen && ClickStep(sh, t, pick).0.billing.popupOpen ==> t == BillingTimer
  {
  }

  /** Logout leaves the dropdown closed and emits exactly one `logout-click`. */
  lemma LogoutClosesAndSignalsOnce(sh: Shell, pick: Billing.Pick)
    ensures !ClickStep(sh, LogoutButton, pick).0.account
    ensures ClickStep(sh, LogoutButton, pick).1 == [LogoutClick]
  {
  }

  /** A double click on an icon, each press landing outside every panel,
      opens that icon once and closes all three panels. */
  lemma DoubleClickOpensIcon(sh: Shell, id: nat, p: Billing.Pick)
    requires Inv(sh) && !sh.icons.pending
    ensures Run(sh, [Clicked(Icon(id), p), Clicked(Icon(id), p)]).1 == [OpenTab(IconLink(id))]
    ensures Run(sh, [Clicked(Icon(id), p), Clicked(Icon(id), p)]).0.icons == ClickIntent.Icons(Some(id), false)
    ensures OnePanel(Run(sh, [Clicked(Icon(id), p), Clicked(Icon(id), p)]).0)
  {
    var evs := [Clicked(Icon(id), p), Clicked(Icon(id), p)];
    assert evs[1..] == [Clicked(Icon(id), p)] && evs[1..][1..] == [];
    var first := ClickStep(sh, Icon(id), p);
    assert first.1 == [] && first.0.icons.pending;
    var second := ClickStep(first.0, Icon(id), p);
    assert second.1 == [OpenTab(IconLink(id))];
    assert Run(first.0, [Clicked(Icon(id), p)]) == (second.0, second.1 + []);
    assert second.1 + [] == second.1 && [] + second.1 == second.1;
    RunInv(sh, evs);
  }

  /** The whole desktop element: one object per controller, and the CRT
      flag. */
  class Desktop {
    const icons: ClickIntent.IconClicks
    const donna: ClickIntent.DonnaButton
    const startMenu: Menus.Menu
    const accountMenu: Menus.Menu
    const billing: Billing.BillingTimer
    const konami: Konami.Detector
    const selection: DragSelect.SelectionRect
    const welcome: WindowDrag.WelcomeWindow
    const tooltip: Tooltip.TooltipView
    const host: Identity.Host
    var crtOn: bool

    ghost predicate Valid()
      reads this, startMenu, accountMenu, billing, konami, selection
    {
      && startMenu != accountMenu
      && billing.Valid() && konami.Valid() && selection.Valid()
    }

    ghost function Model(): Shell
      reads this, icons, donna, startMenu, accountMenu, billing, konami, selection, welcome, tooltip, host
    {
      Shell(icons.Model(), donna.timerPending, startMenu.open, accountMenu.open, billing.Model(),
            konami.index, selection.Model(), welcome.Model(), tooltip.Model(), host.Model(), crtOn)
    }

    /** Creation and connection; the page's attributes are those it set
        before the element was connected. */
    constructor (paidAttr: Option<string>, nameAttr: Option<string>)
      ensures Valid() && Model() == Boot(paidAttr, nameAttr)
    {
      icons := new ClickIntent.IconClicks();
      donna := new ClickIntent.DonnaButton();
      startMenu := new Menus.Menu();
      accountMenu := new Menus.Menu();
      billing := new Billing.BillingTimer();
      konami := new Konami.Detector();
      selection := new DragSelect.SelectionRect();
      welcome := new WindowDrag.WelcomeWindow();
      tooltip := new Tooltip.TooltipView();
      host := new Identity.Host(paidAttr, nameAttr);
      crtOn := true;
    }

    method Click(t: Target, pick: Billing.Pick) returns (out: seq<Output>)
      requires Valid()
      modifies this, icons, donna, startMenu, accountMenu, billing
      ensures Valid()
      ensures (Model(), out) == ClickStep(old(Model()), t, pick)
    {
      out := TargetClick(t, pick);
      RootClick(t);
    }

    method TargetClick(t: Target, pick: Billing.Pick) returns (out: seq<Output>)
      requires Valid()
      modifies this, icons, donna, startMenu, accountMenu, billing
      ensures Valid()
      ensures (Model(), out) == TargetListeners(old(Model()), t, pick)
    {
      if t.Icon? || t == BareDesktop || t == IconLayout {
        out := IconTargetClick(t, pick);
      } else if t == StartButton || t == LoginButton || t == AccountButton || t == LogoutButton {
        out := MenuTargetClick(t, pick);
      } else if t == DonnaButton || t == BillingTimer {
        out := ButtonTargetClick(t, pick);
      } else {
        out := OtherTargetClick(t, pick);
      }
    }

    /** The icon listeners and the desktop's deselect listener. */
    method IconTargetClick(t: Target, pick: Billing.Pick) returns (out: seq<Output>)
      requires Valid()
      requires t.Icon? || t == BareDesktop || t == IconLayout
      modifies icons
      ensures Valid()
      ensures (Model(), out) == TargetListeners(old(Model()), t, pick)
    {
      out := [];
      if t.Icon? {
        var hit := icons.Click(t.id);
        if hit.Some? {
          out := [OpenTab(IconLink(hit.value))];
        }
      } else {
        icons.Deselect();
      }
    }

    /** The start button, the login link, the account button and the
        logout item. */
    method MenuTargetClick(t: Target, pick: Billing.Pick) returns (out: seq<Output>)
      requires Valid()
      requires t == StartButton || t == LoginButton || t == AccountButton || t == LogoutButton
      modifies startMenu, accountMenu
      ensures Valid()
      ensures (Model(), out) == TargetListeners(old(Model()), t, pick)
    {
      out := [];
      if t == StartButton {
        startMenu.Toggle();
      } else if t == LoginButton {
        out := [LoginClick];
      } else if t == AccountButton {
        accountMenu.Toggle();
      } else {
        accountMenu.Close();
        out := [LogoutClick];
      }
    }

    /** The Donna button and the billing timer. */
    method ButtonTargetClick(t: Target, pick: Billing.Pick) returns (out: seq<Output>)
      requires Valid()
      requires t == DonnaButton || t == BillingTimer
      modifies donna, billing
      ensures Valid()
      ensures (Model(), out) == TargetListeners(old(Model()), t, pick)
    {
      out := [];
      if t == DonnaButton {
        var open := donna.Click();
        if open {
          out := [OpenTab(DonnaLink)];
        }
      } else {
        billing.Click(pick);
      }
    }

    /** The CRT toggle, and targets without a listener of their own. */
    method OtherTargetClick(t: Target, pick: Billing.Pick) returns (out: seq<Output>)
      requires Valid()
      requires !(t.Icon? || t == BareDesktop || t == IconLayout || t == DonnaButton || t == BillingTimer)
      requires !(t == StartButton || t == LoginButton || t == AccountButton || t == LogoutButton)
      modifies this
      ensures Valid()
      ensures (Model(), out) == TargetListeners(old(Model()), t, pick)
    {
      out := [];
      if t == CrtToggle {
        crtOn := !crtOn;
      }
    }

    method RootClick(t: Target)
      requires Valid()
      modifies startMenu, accountMenu, billing
      ensures Valid()
      ensures Model() == RootListeners(old(Model()), t)
    {
      startMenu.DocumentClick(StartWhere(t) != Menus.Outside);
      billing.DocumentClick(InBillingRegion(t));
      accountMenu.DocumentClick(AccountWhere(t) != Menus.Outside);
    }

    /** Mousedown: the title bar's listener, then the desktop's. */
    method MouseDown(at: PressAt, cx: int, cy: int, winLeft: int, winTop: int, deskLeft: int, deskTop: int)
      requires Valid()
      modifies welcome, selection
      ensures Valid()
      ensures Model() == Step(old(Model()), Pressed(at, cx, cy, winLeft, winTop, deskLeft, deskTop)).0
    {
      if at == TitleBar {
        welcome.MouseDown(cx, cy, winLeft, winTop);
      }
      if at != OutsideDesktop {
        selection.MouseDown(PressTarget(at), cx, cy, deskLeft, deskTop);
      }
    }

    /** Mousemove: the two document listeners, and the tooltip's when the
        pointer is over an element with a tip. */
    method MouseMove(cx: int, cy: int, deskLeft: int, deskTop: int, overTip: bool, hostLeft: int, hostTop: int)
      requires Valid()
      modifies welcome, selection, tooltip
      ensures Valid()
      ensures Model() == Step(old(Model()), Moved(cx, cy, deskLeft, deskTop, overTip, hostLeft, hostTop)).0
    {
      welcome.MouseMove(cx, cy, deskLeft, deskTop);
      selection.MouseMove(cx, cy, deskLeft, deskTop);
      if overTip {
        tooltip.MouseMove(cx, cy, hostLeft, hostTop);
      }
    }

    method MouseUp()
      requires Valid()
      modifies welcome, selection
      ensures Valid()
      ensures Model() == Step(old(Model()), Released).0
    {
      welcome.MouseUp();
      selection.MouseUp();
    }

    method KeyDown(key: int) returns (out: seq<Output>)
      requires Valid()
      modifies konami
      ensures Valid()
      ensures (Model(), out) == Step(old(Model()), KeyPressed(key))
    {
      var fired := konami.KeyDown(key);
      out := if fired then [KonamiEffect] else [];
    }

    method MouseEnter(el: nat, tip: string, x: int, y: int)
      requires Valid()
      modifies tooltip
      ensures Valid()
      ensures Model() == Step(old(Model()), Entered(el, tip, x, y)).0
    {
      tooltip.MouseEnter(el, tip, x, y);
    }

    method MouseLeave(el: nat)
      requires Valid()
      modifies tooltip
      ensures Valid()
      ensures Model() == Step(old(Model()), Left(el)).0
    {
      tooltip.MouseLeave(el);
    }

    /** The element `el`'s 600 ms tooltip timer fires. */
    method TipTimer(el: nat, hostLeft: int, hostTop: int)
      requires Valid()
      modifies tooltip
      ensures Valid()
      ensures Model() == Step(old(Model()), TipTimerFired(el, hostLeft, hostTop)).0
    {
      tooltip.TimerFired(el, hostLeft, hostTop);
    }

    /** The shared 400 ms icon timer fires. */
    method IconTimer()
      requires Valid()
      modifies icons
      ensures Valid()
      ensures Model() == Step(old(Model()), IconTimerFired).0
    {
      icons.TimerFired();
    }

    method DonnaTimer()
      requires Valid()
      modifies donna
      ensures Valid()
      ensures Model() == Step(old(Model()), DonnaTimerFired).0
    {
      donna.TimerFired();
    }

    /** The 1 s billing interval fires. */
    method BillingInterval()
      requires Valid()
      modifies billing
      ensures Valid()
      ensures Model() == Step(old(Model()), BillingTick).0
    {
      billing.Tick();
    }

    /** One of the 4 s popup close timers fires. */
    method BillingCloseTimer()
      requires Valid()
      modifies billing
      ensures Valid()
      ensures Model() == Step(old(Model()), BillingCloseFired).0
    {
      billing.CloseTimerFired();
    }

    /** `attributeChangedCallback` for `paid-user` and for `user-name`. */
    method SetPaidUser(v: Option<string>)
      requires Valid()
      modifies host
      ensures Valid()
      ensures Model() == Step(old(Model()), PaidChanged(v)).0
    {
      host.SetPaidUser(v);
    }

    method SetUserName(v: Option<string>)
      requires Valid()
      modifies host
      ensures Valid()
      ensures Model() == Step(old(Model()), NameChanged(v)).0
    {
      host.SetUserName(v);
    }
  }
}
