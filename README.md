# GoodLegal desktop: the interaction state engine

`goodlegal-desktop.js` defines the `<goodlegal-desktop>` custom element, a
retro "desktop" for a legal-services site. Apart from its markup and styles,
the element's behaviour is a set of small, independent event-driven state
machines kept in its instance fields:

- the icon click classifier, with one 400 ms `_clickTimer` shared by all icons;
- the Donna button, which has a timer of its own;
- the cheat-code detector;
- the billing timer with its `HH:MM:SS` readout, its euro amount and its popup;
- the drag-select rectangle;
- dragging the welcome window;
- the start menu and the account dropdown, and the `login-click` and
  `logout-click` events;
- the tooltip;
- the reflection of the `paid-user` and `user-name` attributes;
- the CRT flag.

This project models each machine twice. Each has a pure state datatype with
a `Step` function per event and a `Run` over event streams, and the lemmas
about the machine are stated on these. Each also has a class whose fields
are the element's fields and whose methods are its event handlers. Every
handler is proved to perform its machine's step function on the class's
state, or, for the menus and the Donna button, to have the same effect
stated directly.

Module `Desktop` puts the machines together. It routes each event the
element listens to through the listeners that see it, in the source's
order. For a click, that means the clicked element's own listener, then the
desktop's deselect listener, then the three shadow-root listeners that close
the panels. It then proves properties of the whole: at most one of the start
menu, the account dropdown and the billing popup is open at any time, and a
panel opens only from its own trigger.

Timers, randomness, pointer geometry and DOM hit-testing become inputs:
- a timer firing is an event;
- the random joke is an index argument;
- bounding rectangles are integer arguments;
- "where the click landed" is an enumeration (`Desktop.Target`, `Desktop.PressAt`, `Menus.Where`).

Opening a tab, dispatching `login-click` and `logout-click`, and starting
the colour effect are the element's outputs (`Desktop.Output`).

One `_clickTimer` is shared by all icons (goodlegal-desktop.js:900-918), so
a press on icon B within 400 ms of a press on icon A opens B
(`ClickIntent.SecondPressOpens`).

## Model

| member | source | states |
|---|---|---|
| `Text.Decimal` | goodlegal-desktop.js:1070-1072 | `String(n)` of a natural: all digits, no leading zero, one digit exactly below ten, at most two below a hundred |
| `Text.Pad2` | goodlegal-desktop.js:1070-1072 | `padStart(2, '0')`: the string padded on the left with zeros to length two and never cut |
| `Text.DecimalRoundTrip` | goodlegal-desktop.js:1070-1072 | reading the digits of `String(n)` back gives `n` |
| `Text.LeadingZeroIgnored` | goodlegal-desktop.js:1070-1072 | a leading `0` does not change the value a digit string stands for |
| `Text.Pad2RoundTrip` | goodlegal-desktop.js:1070-1072 | a padded field is all digits, reads back as `n`, and is exactly two long below a hundred |
| `Billing.ClockRoundTrip` | goodlegal-desktop.js:1070-1073 | `Clock(s)`, the `#timer-display` text, is `H…H:MM:SS`: colons in place, digit fields, hours `s div 3600`, minutes and seconds below sixty, and parsing it back gives `s` |
| `Billing.ClockFieldsRecombine` | goodlegal-desktop.js:1070-1072 | the hour, minute and second fields recombine into the elapsed seconds |
| `Billing.ClockHoursWiden` | goodlegal-desktop.js:1070 | from 100 hours on, the hour field grows past two digits: padded, never truncated |
| `Billing.ClockExample` | goodlegal-desktop.js:1070-1073 | 3661 seconds read `01:01:01` |
| `Billing.Cents` | goodlegal-desktop.js:1074 | the amount in cents is within half a cent of `s / 3600 * 500` euros |
| `Billing.CentsUnique` | goodlegal-desktop.js:1074 | no other whole number of cents is within half a cent, so no tie arises and `toFixed(2)`'s rounding rule makes no difference |
| `Billing.FieldsOfAmount` | goodlegal-desktop.js:1074 | any digits, a comma, two digits and ` EUR` split back from the right into the euros and cents they spell |
| `Billing.CentsTextRoundTrip` | goodlegal-desktop.js:1074 | `CentsText(n)` reads `E…E,CC EUR` with digit fields and a comma, and euros and cents read back give `n` |
| `Billing.AmountRoundTrip` | goodlegal-desktop.js:1074 | `AmountText(s)`, the `#billing-amount` text, reads `E…E,CC EUR` with digit fields and a comma, and euros and cents read back give the rounded cents `Cents(s)` |
| `Billing.AmountExample` | goodlegal-desktop.js:1074 | 3661 seconds bill `508,47 EUR` |
| `Billing.InitialReadout` | goodlegal-desktop.js:836-851 | the markup's initial `00:00:00` and `0,00 EUR` are the readout of zero seconds |
| `Billing.Toggle` | goodlegal-desktop.js:1042-1060 | a click flips running, leaves the seconds alone and opens the popup; a stop shows the picked joke and schedules one more close, a start shows the running remark |
| `Billing.Advance` | goodlegal-desktop.js:1046-1049 | one interval firing adds a second exactly while running and changes nothing else |
| `Billing.AutoClose` | goodlegal-desktop.js:1058 | a close timer firing hides the popup and uses up one scheduled close; with none scheduled nothing changes; running, seconds and remark are kept |
| `Billing.Dismiss` | goodlegal-desktop.js:1062-1066 | a click outside the timer and the popup hides the popup and changes nothing else |
| `Billing.SecondsMonotone` | goodlegal-desktop.js:1046-1049 | over any events the seconds never decrease and grow by at most the number of ticks |
| `Billing.RunningParity` | goodlegal-desktop.js:1042-1060 | the timer runs exactly when it started running or was clicked an odd number of times, but not both |
| `Billing.RunningTicks` | goodlegal-desktop.js:1046-1049 | while running, `n` ticks add exactly `n` seconds and change nothing else |
| `Billing.IdleTicks` | goodlegal-desktop.js:1053-1055 | while stopped, a tick changes nothing |
| `Billing.StartStopStartResumes` | goodlegal-desktop.js:1042-1060 | start, `n` ticks, stop, `m` ticks, start: running again with exactly `n` more seconds, resuming the total rather than restarting at zero |
| `Billing.StaleCloseHidesRunningPopup` | goodlegal-desktop.js:1058 | the close timer of an earlier stop is never cancelled: after a stop and a restart it hides the popup of the running timer |
| `Billing.BillingTimer.constructor` | goodlegal-desktop.js:22-24 | a new timer is stopped at zero seconds, with the popup closed |
| `Billing.BillingTimer.Click` | goodlegal-desktop.js:1042-1060 | the timer's click handler performs `Toggle` and keeps the interval scheduled exactly while running |
| `Billing.BillingTimer.Tick` | goodlegal-desktop.js:1046-1049 | one firing of the interval performs `Advance` |
| `Billing.BillingTimer.CloseTimerFired` | goodlegal-desktop.js:1058 | one 4 s close timer fires: the popup closes |
| `Billing.BillingTimer.DocumentClick` | goodlegal-desktop.js:1062-1066 | a click outside the timer and the popup closes the popup; a click inside leaves everything unchanged |
| `Billing.BillingTimer.Display` | goodlegal-desktop.js:1069-1073 | `#timer-display` shows `Clock` of the current seconds |
| `Billing.BillingTimer.Amount` | goodlegal-desktop.js:1074 | `#billing-amount` shows `AmountText` of the current seconds |
| `Konami.Step` | goodlegal-desktop.js:1124-1137 | a matching key advances the position, a wrong key resets it to 0, the effect fires exactly on the last key, and the position stays below 10 |
| `Konami.Run` | goodlegal-desktop.js:1124-1137 | over any keys the position stays below 10 |
| `Konami.RunAppend` | goodlegal-desktop.js:1124-1137 | running two key streams one after the other is running their concatenation |
| `Konami.RestOfCodeFiresOnce` | goodlegal-desktop.js:33 | from any position, the rest of the sequence fires exactly once and returns to 0 |
| `Konami.CodeFiresOnce` | goodlegal-desktop.js:33 | typing 38,38,40,40,37,39,37,39,66,65 fires exactly once and leaves the index at 0 |
| `Konami.CodeTwiceFiresTwice` | goodlegal-desktop.js:33 | typing the sequence twice fires twice |
| `Konami.ShortRunNeverFires` | goodlegal-desktop.js:1124-1137 | fewer keys than the sequence has left never fire |
| `Konami.PrefixAdvances` | goodlegal-desktop.js:1125-1126 | the first `k` keys of the sequence bring the index to `k` |
| `Konami.MismatchResets` | goodlegal-desktop.js:1135-1136 | a wrong key resets to 0, with no re-check against position 0 |
| `Konami.SubstitutedCodeNeverFires` | goodlegal-desktop.js:1124-1137 | the sequence with any one key replaced by a wrong one never fires |
| `Konami.ExtraUpNeverFires` | goodlegal-desktop.js:1135-1136 | `38, 38, 38, 40, …` (an extra up before the sequence) never fires |
| `Konami.Detector.constructor` | goodlegal-desktop.js:32 | the index starts at 0 |
| `Konami.Detector.KeyDown` | goodlegal-desktop.js:1124-1137 | the keydown handler performs `Step` and keeps the index below 10 |
| `ClickIntent.Press` | goodlegal-desktop.js:910-916 | a press with the timer pending opens the target and clears the timer; a press without a pending timer arms it and opens nothing |
| `ClickIntent.Step` | goodlegal-desktop.js:902-917 | an icon click selects exactly that icon and opens it exactly when the shared timer was pending; the timer firing only clears the pending flag; the desktop click only clears the selection |
| `ClickIntent.OpeningsNeedTwoPresses` | goodlegal-desktop.js:910-916 | over any events, twice the openings plus the final pending flag is at most the presses plus the initial pending flag |
| `ClickIntent.SingleClickSelects` | goodlegal-desktop.js:902-916 | one press followed by the timer selects the icon and opens nothing |
| `ClickIntent.SecondPressOpens` | goodlegal-desktop.js:910-913 | two presses within the timer open the second icon once, even when it is a different icon |
| `ClickIntent.LastClickSelected` | goodlegal-desktop.js:904-906 | after any events ending in a press, exactly that icon is selected |
| `ClickIntent.IconClicks.constructor` | goodlegal-desktop.js:25-26 | nothing is selected and no timer is pending |
| `ClickIntent.IconClicks.Click` | goodlegal-desktop.js:902-917 | the icon's click handler performs `Step` for that icon and returns the icon opened |
| `ClickIntent.IconClicks.TimerFired` | goodlegal-desktop.js:915 | the 400 ms timer clears the pending flag only |
| `ClickIntent.IconClicks.Deselect` | goodlegal-desktop.js:989-993 | a click on the bare desktop or layout clears the selection only |
| `ClickIntent.DonnaButton.constructor` | goodlegal-desktop.js:34 | no Donna timer is pending |
| `ClickIntent.DonnaButton.Click` | goodlegal-desktop.js:1079-1088 | the Donna button's press with its own timer, as `Press` |
| `ClickIntent.DonnaButton.TimerFired` | goodlegal-desktop.js:1086 | the Donna timer clears its pending flag |
| `DragSelect.Span` | goodlegal-desktop.js:1010-1015 | the rectangle's top-left is (min(x, x0), min(y, y0)) and it reaches max(x, x0), max(y, y0) |
| `DragSelect.SpanCorners` | goodlegal-desktop.js:1012-1015 | both the anchor and the pointer are corners, and the rectangle does not depend on the drag direction |
| `DragSelect.Step` | goodlegal-desktop.js:996-1020 | a press on an icon or the welcome window changes nothing; a press elsewhere anchors a zero rectangle; a move spans anchor and pointer only while dragging; mouseup ends the drag and hides the rectangle; the invariant is kept |
| `DragSelect.RunKeepsInv` | goodlegal-desktop.js:996-1020 | the rectangle is shown exactly while dragging, with the anchor at a corner, after any events |
| `DragSelect.IdleIgnoresPointer` | goodlegal-desktop.js:1008-1020 | with no drag on, moves and releases change nothing |
| `DragSelect.PressMoveSpans` | goodlegal-desktop.js:996-1016 | press then move: the visible rectangle spans the two points in desktop coordinates |
| `DragSelect.SelectionRect.constructor` | goodlegal-desktop.js:28-29 | no drag, hidden rectangle |
| `DragSelect.SelectionRect.MouseDown` | goodlegal-desktop.js:996-1006 | the desktop's mousedown handler performs `Step` and keeps the invariant |
| `DragSelect.SelectionRect.MouseMove` | goodlegal-desktop.js:1007-1016 | the mousemove handler performs `Step` and keeps the invariant |
| `DragSelect.SelectionRect.MouseUp` | goodlegal-desktop.js:1017-1020 | the mouseup handler performs `Step` and keeps the invariant |
| `WindowDrag.Step` | goodlegal-desktop.js:968-981 | a press records the grab offset; a move while dragging places the window at pointer minus desktop origin minus offset and ends centring; a move otherwise changes nothing; mouseup ends the drag |
| `WindowDrag.Target` | goodlegal-desktop.js:977-978 | a move puts the window so that the grab offset from its corner stays under the pointer |
| `WindowDrag.ReleasedStaysPut` | goodlegal-desktop.js:975-981 | after mouseup, moves do not change the position until the next press |
| `WindowDrag.LastMoveDecides` | goodlegal-desktop.js:974-980 | during a drag the place depends only on the last move, and the offset stays that of the press |
| `WindowDrag.GrabPointFollowsPointer` | goodlegal-desktop.js:968-980 | press then move: the window's corner moves by exactly the pointer's displacement |
| `WindowDrag.WelcomeWindow.constructor` | goodlegal-desktop.js:30-31 | no drag, centred window |
| `WindowDrag.WelcomeWindow.MouseDown` | goodlegal-desktop.js:968-973 | the title bar's mousedown handler performs `Step` |
| `WindowDrag.WelcomeWindow.MouseMove` | goodlegal-desktop.js:974-980 | the mousemove handler performs `Step` |
| `WindowDrag.WelcomeWindow.MouseUp` | goodlegal-desktop.js:981 | the mouseup handler performs `Step` |
| `Menus.AfterClick` | goodlegal-desktop.js:948-953 | a trigger click flips the menu and the same click does not close it; a click in the region leaves it; a click outside closes it |
| `Menus.RunAppend` | goodlegal-desktop.js:948-953 | running two click streams in turn is running their concatenation |
| `Menus.InsideClicksToggle` | goodlegal-desktop.js:948-953 | without outside clicks, the menu is open exactly when it started open or got an odd number of trigger clicks, but not both |
| `Menus.OpenAfterLastOutside` | goodlegal-desktop.js:948-953 | after the last outside click the menu is open exactly when an odd number of trigger clicks followed |
| `Menus.Menu.constructor` | goodlegal-desktop.js:695 | a menu starts closed |
| `Menus.Menu.Toggle` | goodlegal-desktop.js:948 | the trigger's listener flips `open` |
| `Menus.Menu.DocumentClick` | goodlegal-desktop.js:949-953 | the shadow root's listener closes the menu unless the click is inside |
| `Menus.Menu.Close` | goodlegal-desktop.js:1117 | the logout listener's removal of `open` |
| `Tooltip.Step` | goodlegal-desktop.js:924-941 | mouseenter arms the element's timer with the entry point; a move repositions at pointer minus host plus (12, 16); mouseleave cancels that timer and hides, keeping text and position; a live timer shows the tip at the entry point and uses up that timer, a cancelled one does nothing; enter, leave and fire never touch another element's timer |
| `Tooltip.RunAppend` | goodlegal-desktop.js:924-941 | running two event streams in turn is running their concatenation |
| `Tooltip.NoFireStaysHidden` | goodlegal-desktop.js:925-931 | only a timer firing shows the tooltip |
| `Tooltip.QuietStaysHidden` | goodlegal-desktop.js:924-941 | with nothing armed and no mouseenter, the tooltip stays hidden and no timer appears |
| `Tooltip.LeaveBeforeFireNeverShows` | goodlegal-desktop.js:938-941 | mouseleave before the 600 ms timer fires: the tooltip is never shown afterwards without a new mouseenter |
| `Tooltip.MovesKeepTimers` | goodlegal-desktop.js:933-937 | moves never arm or cancel a timer |
| `Tooltip.FireShowsAtEntryPoint` | goodlegal-desktop.js:925-931 | enter, any moves, fire: the tip is visible at the entry pointer minus host plus (12, 16) |
| `Tooltip.TooltipView.constructor` | goodlegal-desktop.js:668 | hidden, no timers |
| `Tooltip.TooltipView.MouseEnter` | goodlegal-desktop.js:924-932 | the mouseenter handler performs `Step` |
| `Tooltip.TooltipView.MouseMove` | goodlegal-desktop.js:933-937 | the mousemove handler performs `Step` |
| `Tooltip.TooltipView.MouseLeave` | goodlegal-desktop.js:938-941 | the mouseleave handler performs `Step` |
| `Tooltip.TooltipView.TimerFired` | goodlegal-desktop.js:925-931 | the 600 ms timer performs `Step` |
| `Identity.Step` | goodlegal-desktop.js:37-88 | an attribute change records the new value and, on a rendered element, applies it: the paid class for `paid-user`, exactly one of login link and account menu for `user-name`; on an unrendered element nothing is rendered; connection renders the markup with the paid class from the attribute and the name not applied |
| `Identity.IsPaid` | goodlegal-desktop.js:67 | paid exactly when the attribute is the string `true` |
| `Identity.ApplyPaid` | goodlegal-desktop.js:66-72 | the host's `paid-user` class becomes `IsPaid`, nothing else changes |
| `Identity.ApplyUserName` | goodlegal-desktop.js:74-88 | a truthy name hides the login link and shows the account menu with that name; otherwise the reverse, keeping the old name in the hidden menu |
| `Identity.PaidAlwaysReflected` | goodlegal-desktop.js:57-72 | once rendered, the paid class agrees with the current attribute after any changes and connections |
| `Identity.NameShownUntilChanged` | goodlegal-desktop.js:61-88 | after a `user-name` change on a rendered element, exactly one of login link and account menu shows, as that value says, until the next change of it |
| `Identity.ChromeNamesKept` | goodlegal-desktop.js:58-60 | `paid-user` changes never touch the login link or the account menu |
| `Identity.NameBeforeConnectNotShown` | goodlegal-desktop.js:37-88 | a `user-name` set before connection is never shown: the login link stays up |
| `Identity.Host.constructor` | goodlegal-desktop.js:37-55 | connecting renders the markup and applies `paid-user` only |
| `Identity.Host.SetPaidUser` | goodlegal-desktop.js:58-60 | the `paid-user` change performs `Step` |
| `Identity.Host.SetUserName` | goodlegal-desktop.js:61-63 | the `user-name` change performs `Step` |
| `Desktop.ClickStep` | goodlegal-desktop.js:900-1120 | one click on the whole element. Start menu and account dropdown flip on their button, stay open only on a click inside them and close otherwise. The popup is open exactly after a click on the timer, or a click in the popup while it was open. Only the billing timer changes billing, and never its seconds. A click on the billing timer performs `Billing.Toggle`. A click on an icon selects it and flips the shared timer's pending flag, as `ClickIntent.Step`; a click on bare desktop or the icon layout deselects. The Donna button flips its own pending flag, and the CRT flag flips on its toggle. The click emits at most one output: `login-click` exactly on login, `logout-click` exactly on logout, a tab exactly for a second press within a timer |
| `Desktop.TargetListeners` | goodlegal-desktop.js:900-1120 | the listeners of the clicked element and of the desktop: which state each target changes and which output it emits; an icon performs `ClickIntent.Step`, so its pending flag flips and it becomes selected, and the billing timer performs `Billing.Toggle` |
| `Desktop.RootListeners` | goodlegal-desktop.js:949-1110 | the shadow-root listeners keep each panel open only for a click inside its own region, and change nothing else |
| `Desktop.Step` | goodlegal-desktop.js:37-1139 | each event the element listens to; the cheat-code position stays below 10 |
| `Desktop.OnlyClicksAndKeysAct` | goodlegal-desktop.js:37-1139 | only clicks and keys produce outputs; only keys move the cheat-code detector, as `Konami.Step`; only clicks change the menus; only clicks and close timers change the popup |
| `Desktop.Run` | goodlegal-desktop.js:37-1139 | over any events the cheat-code position stays below 10 |
| `Desktop.BootInv` | goodlegal-desktop.js:20-55 | `Boot`, the state after connection, satisfies the invariant, with the paid class set from the attribute and the login link shown whatever `user-name` was |
| `Desktop.PressTarget` | goodlegal-desktop.js:995-996 | the desktop's mousedown starts a selection exactly for a press on bare desktop space, not on an icon or the welcome window |
| `Desktop.PressStep` | goodlegal-desktop.js:968-1006 | a press on the title bar grabs the welcome window at the pointer's offset, and otherwise leaves it; a press on bare desktop space starts an empty, visible selection at the pointer, and otherwise leaves it; nothing else changes |
| `Desktop.MoveStep` | goodlegal-desktop.js:933-1016 | a move places the welcome window only while it is dragged, spans the selection from its start only while selecting, and moves the tooltip only over a tip; neither drag flag changes; nothing else changes |
| `Desktop.ReleaseStep` | goodlegal-desktop.js:981-1020 | a release ends both drags and hides the selection, keeping the window where it is; nothing else changes |
| `Desktop.StepInv` | goodlegal-desktop.js:37-1139 | every event keeps the invariant: controller invariants, at most one open panel, exactly one of login link and account menu |
| `Desktop.RunInv` | goodlegal-desktop.js:37-1139 | the invariant holds after any events |
| `Desktop.PanelOpensOnlyFromItsRegion` | goodlegal-desktop.js:948-1110 | closing one panel never opens another: a panel is open after a click only from its own region, and a closed one only opens from its own trigger |
| `Desktop.LogoutClosesAndSignalsOnce` | goodlegal-desktop.js:1114-1120 | logout leaves the dropdown closed and emits exactly one `logout-click` |
| `Desktop.DoubleClickOpensIcon` | goodlegal-desktop.js:902-954 | two clicks on an icon open it once, leave it selected with no timer pending, and keep at most one panel open |
| `Desktop.Desktop.constructor` | goodlegal-desktop.js:20-55 | creation and connection give the boot state |
| `Desktop.Desktop.Click` | goodlegal-desktop.js:900-1120 | a click performs `ClickStep` on all the controllers |
| `Desktop.Desktop.TargetClick` | goodlegal-desktop.js:900-1120 | the element's own click listeners perform `TargetListeners` |
| `Desktop.Desktop.IconTargetClick` | goodlegal-desktop.js:900-993 | icon and deselect listeners |
| `Desktop.Desktop.MenuTargetClick` | goodlegal-desktop.js:948-1119 | start, login, account and logout listeners |
| `Desktop.Desktop.ButtonTargetClick` | goodlegal-desktop.js:1042-1088 | Donna and billing-timer listeners |
| `Desktop.Desktop.OtherTargetClick` | goodlegal-desktop.js:1022-1026 | the CRT toggle flips `_crtOn`; other targets have no listener |
| `Desktop.Desktop.RootClick` | goodlegal-desktop.js:949-1110 | the three shadow-root listeners perform `RootListeners` |
| `Desktop.Desktop.MouseDown` | goodlegal-desktop.js:968-1006 | title bar, then desktop mousedown |
| `Desktop.Desktop.MouseMove` | goodlegal-desktop.js:933-1016 | both document mousemove listeners, and the tooltip's over a tip |
| `Desktop.Desktop.MouseUp` | goodlegal-desktop.js:981-1020 | both document mouseup listeners |
| `Desktop.Desktop.KeyDown` | goodlegal-desktop.js:1124-1138 | the keydown listener; the effect is an output |
| `Desktop.Desktop.MouseEnter` | goodlegal-desktop.js:924-932 | tooltip mouseenter |
| `Desktop.Desktop.MouseLeave` | goodlegal-desktop.js:938-941 | tooltip mouseleave |
| `Desktop.Desktop.TipTimer` | goodlegal-desktop.js:925-931 | tooltip timer |
| `Desktop.Desktop.IconTimer` | goodlegal-desktop.js:915 | shared icon timer |
| `Desktop.Desktop.DonnaTimer` | goodlegal-desktop.js:1086 | Donna timer |
| `Desktop.Desktop.BillingInterval` | goodlegal-desktop.js:1046-1049 | billing interval |
| `Desktop.Desktop.BillingCloseTimer` | goodlegal-desktop.js:1058 | billing close timer |
| `Desktop.Desktop.SetPaidUser` | goodlegal-desktop.js:58-60 | `paid-user` attribute change |
| `Desktop.Desktop.SetUserName` | goodlegal-desktop.js:61-63 | `user-name` attribute change |

## Left out

- Markup and styles (`_getStyles`, `_getHTML`): the icon catalogue and its links are opaque identifiers (`Icon(id)`, `IconLink(id)`).
- The boot animation and `_revealAll`: timed animations with random delays and no decisions.
- The taskbar clock (`_initClock`): it reads the wall clock; only the padding idiom it shares with the readout is modelled (`Text.Pad2`).
- Visual effects: the 200 ms `flash` class, the CRT overlay's class, the colour-filter sequence after the cheat code (only the `KonamiEffect` output is kept), and the welcome window's close button and fade.
  - After that close the window has `display: none`. Presses on it are then impossible, but the model does not track this.
- Timers and the clock become events. `setTimeout` and `setInterval` firings are delivered as the events `Desktop.Event` lists, in whatever order the caller chooses. The model does not tie them to elapsed time.
  - For example, the 400 ms icon timer would in fact fire before a tooltip timer armed later.
- `Math.random` in the joke choice becomes a `Billing.Pick` argument.
- `getBoundingClientRect` and `clientX`/`clientY` become integer arguments. `closest()` hit-testing becomes the `Target`, `PressAt` and `Where` enumerations.
  - Which elements are currently displayed, so clickable, is not modelled. The account button, for instance, can only be clicked while the account menu shows.
- `Billing.Cents`: the amount uses exact arithmetic instead of the binary floating point of `s / 3600 * 500` and `toFixed(2)`. The exact value is never a tie, so the two can differ only if the floating-point error crosses a rounding boundary.
  - For amounts of 1e21 euros and above, `toFixed` switches to exponent notation. This is also not modelled.
- `Billing.BillingTimer.Display`, `Billing.BillingTimer.Amount`: `#timer-display` and `#billing-amount` are modelled as functions of the seconds, not as stored text. The markup starts with the texts of zero seconds (`Billing.InitialReadout`), and `_updateBilling` rewrites both after every increment.
- `Tooltip.Step`: a second mouseenter on the same element before the first timer fires overwrites the closure's timer handle. The first timer stays live and shows the tip too. The model keeps one timer per element and drops the older one.
- Reconnecting the element (a second `connectedCallback`) is not modelled: it would add a second copy of every document and shadow-root listener.
- A click on a start menu entry or on a dropdown item other than logout does nothing beyond the panel rules: the menu links' navigation is the browser's.
- Nothing is concurrent: the element runs on the browser's single event loop.
