/** The billing timer in the bottom bar: a start/stop counter of elapsed
    seconds, its `HH:MM:SS` readout, the amount billed at 500 EUR an hour
    and the popup that shows the amount and a closing remark. */
module Billing {
  import opened Text

  /** Hourly rate in euros. */
  const Rate: nat := 500

  /** Closing remarks; one is shown when the timer is stopped. */
  const Jokes: seq<string> := [
    "Harvey Specter approuve.",
    "Le temps c'est de l'argent... surtout le votre.",
    "Un bon avocat facture meme ses pauses cafe.",
    "Vous venez de gagner le prix d'un croissant.",
    "Objet: Etude approfondie (vrai: pause dej).",
    "A ce rythme, offrez-vous un stylo Montblanc.",
    "Votre taux horaire > salaire annuel d'un stagiaire."
  ]

  /** The remark shown while the timer runs, and the one in the markup. */
  const RunningRemark: string := "Le compteur tourne..."
  const InitialRemark: string := "Cliquez pour commencer a facturer."

  /** An index drawn as `Math.floor(Math.random() * jokes.length)`. */
  type Pick = k: nat | k < |Jokes|

  // ---------------------------------------------------------------- readout

  /** The `#timer-display` text for `s` elapsed seconds. */
  function Clock(s: nat): string {
    Pad2(Decimal(s / 3600)) + ":" + Pad2(Decimal(s % 3600 / 60)) + ":" + Pad2(Decimal(s % 60))
  }

  /** The three fields of a readout `H…H:MM:SS`, split from the right. */
  function HoursField(t: string): string requires |t| >= 6 { t[..|t| - 6] }
  function MinutesField(t: string): string requires |t| >= 6 { t[|t| - 5..|t| - 3] }
  function SecondsField(t: string): string requires |t| >= 6 { t[|t| - 2..] }

  /** The number of seconds a readout stands for. */
  function ParseClock(t: string): nat
    requires |t| >= 6
  {
    ParseDecimal(HoursField(t)) * 3600 + ParseDecimal(MinutesField(t)) * 60 + ParseDecimal(SecondsField(t))
  }

  /** Splitting a joined readout from the right gives back its parts. */
  lemma FieldsOfJoined(h: string, m: string, c: string)
    requires |m| == 2 && |c| == 2
    ensures |h + ":" + m + ":" + c| == |h| + 6
    ensures HoursField(h + ":" + m + ":" + c) == h
    ensures MinutesField(h + ":" + m + ":" + c) == m
    ensures SecondsField(h + ":" + m + ":" + c) == c
    ensures (h + ":" + m + ":" + c)[|h| + 3] == ':' && (h + ":" + m + ":" + c)[|h|] == ':'
  {
    var t := h + ":" + m + ":" + c;
    assert t[..|t| - 6] == h;
    assert t[|t| - 5..|t| - 3] == m;
    assert t[|t| - 2..] == c;
  }

  /** The readout is `H…H:MM:SS` with two-digit minutes and seconds below
      sixty and an hour field that is padded but never cut, so reading it
      back gives the elapsed seconds. */
  lemma ClockRoundTrip(s: nat)
    ensures |Clock(s)| >= 8
    ensures Clock(s)[|Clock(s)| - 6] == ':' && Clock(s)[|Clock(s)| - 3] == ':'
    ensures AllDigits(HoursField(Clock(s))) && AllDigits(MinutesField(Clock(s))) && AllDigits(SecondsField(Clock(s)))
    ensures ParseDecimal(HoursField(Clock(s))) == s / 3600
    ensures ParseDecimal(MinutesField(Clock(s))) < 60 && ParseDecimal(SecondsField(Clock(s))) < 60
    ensures ParseClock(Clock(s)) == s
  {
    var hh, mm, ss := s / 3600, s % 3600 / 60, s % 60;
    ClockFieldsRecombine(s);
    Pad2RoundTrip(hh);
    Pad2RoundTrip(mm);
    Pad2RoundTrip(ss);
    var h, m, c := Pad2(Decimal(hh)), Pad2(Decimal(mm)), Pad2(Decimal(ss));
    assert Clock(s) == h + ":" + m + ":" + c;
    FieldsOfJoined(h, m, c);
    assert |h| >= 2;
  }

  /** Hours, minutes and seconds recombine into the elapsed seconds. */
  lemma ClockFieldsRecombine(s: nat)
    ensures s / 3600 * 3600 + s % 3600 / 60 * 60 + s % 60 == s
    ensures s % 3600 / 60 < 60 && s % 60 < 60
  {
    var q, r := s / 3600, s % 3600;
    assert s == q * 3600 + r && r < 3600;
    var m, c := r / 60, r % 60;
    assert r == m * 60 + c && m < 60;
    assert s == (q * 60 + m) * 60 + c;
    ModOfMultiple(s, q * 60 + m, c);
  }

  /** `a % 60` is the remainder of any split of `a` into whole minutes and
      fewer than sixty seconds. */
  lemma ModOfMultiple(a: nat, k: nat, c: nat)
    requires a == k * 60 + c && c < 60
    ensures a % 60 == c
  {
  }

  /** From one hundred hours on, the hour field has more than two digits. */
  lemma {:induction false} ClockHoursWiden(s: nat)
    requires s >= 100 * 3600
    ensures |Clock(s)| > 8
  {
    assert s / 3600 >= 10;
    assert |Decimal(s / 3600)| >= 2;
  }

  lemma ClockExample()
    ensures Clock(3661) == "01:01:01"
  {
    assert 3661 / 3600 == 1 && 3661 % 3600 / 60 == 1 && 3661 % 60 == 1;
    assert Decimal(1) == "1";
    assert Pad2("1") == "01";
  }

  /** The amount in cents for `s` seconds: `(s / 3600 * Rate).toFixed(2)`
      computed exactly, i.e. the integer nearest to `s * Rate * 100 / 3600`. */
  function Cents(s: nat): (c: nat)
    ensures -1800 < 3600 * c - 100 * Rate * s < 1800
  {
    var c := (200 * Rate * s + 3600) / 7200;
    // 3600 * c - 50000 * s == 1800 would make 18 * c - 250 * s odd
    assert 18 * c - 250 * s != 9 by {
      assert (18 * c - 250 * s) % 2 == 0;
    }
    c
  }

  /** No other number of cents is as close, so the rounding is that of
      `toFixed(2)` whatever its tie rule. */
  lemma CentsUnique(s: nat, c: int)
    requires -1800 < 3600 * c - 100 * Rate * s < 1800
    ensures c == Cents(s)
  {
  }

  /** The `#billing-amount` text: euros, a comma, two digits of cents and
      the currency. */
  function AmountText(s: nat): string {
    CentsText(Cents(s))
  }

  /** An amount of `n` cents as the readout writes it. */
  function CentsText(n: nat): string {
    Decimal(n / 100) + "," + Pad2(Decimal(n % 100)) + " EUR"
  }

  /** `t` reads `E…E,CC EUR`, and its euros and cents read back to `n`
      cents. */
  predicate ReadsAsCents(t: string, n: nat) {
    && |t| >= 8
    && t[|t| - 4..] == " EUR"
    && t[|t| - 7] == ','
    && AllDigits(t[..|t| - 7])
    && AllDigits(t[|t| - 6..|t| - 4])
    && ParseDecimal(t[..|t| - 7]) * 100 + ParseDecimal(t[|t| - 6..|t| - 4]) == n
  }

  /** Any digits, a comma, two digits and the currency read as the cents
      the digits spell. */
  lemma FieldsOfAmount(e: string, c: string, n: nat)
    requires |e| >= 1 && |c| == 2 && AllDigits(e) && AllDigits(c)
    requires ParseDecimal(e) * 100 + ParseDecimal(c) == n
    ensures ReadsAsCents(e + "," + c + " EUR", n)
  {
    var t := e + "," + c + " EUR";
    assert |t| == |e| + 7;
    assert t[..|t| - 7] == e;
    assert t[|t| - 6..|t| - 4] == c;
    assert t[|t| - 4..] == " EUR";
  }

  lemma CentsTextRoundTrip(n: nat)
    ensures ReadsAsCents(CentsText(n), n)
  {
    DecimalRoundTrip(n / 100);
    Pad2RoundTrip(n % 100);
    FieldsOfAmount(Decimal(n / 100), Pad2(Decimal(n % 100)), n);
  }

  /** The amount reads `E…E,CC EUR`, and reading euros and cents back
      gives the rounded number of cents. */
  lemma AmountRoundTrip(s: nat)
    ensures ReadsAsCents(AmountText(s), Cents(s))
  {
    CentsTextRoundTrip(Cents(s));
  }

  lemma AmountExample()
    ensures AmountText(3661) == "508,47 EUR"
  {
    assert Cents(3661) == 50847;
    assert Decimal(508) == "508";
    assert Decimal(47) == "47";
  }

  /** The markup's initial readout is the readout of zero seconds. */
  lemma InitialReadout()
    ensures Clock(0) == "00:00:00" && AmountText(0) == "0,00 EUR"
  {
    assert Decimal(0) == "0" && Pad2("0") == "00";
    assert Cents(0) == 0;
  }

  // ---------------------------------------------------------------- state machine

  /** What the timer's handlers update: whether it runs, the elapsed
      seconds, whether the popup is open, how many 4 s close timers are
      still to fire, and the remark in the popup. */
  datatype State = State(running: bool, seconds: nat, popupOpen: bool, pendingCloses: nat, remark: string)

  const Initial: State := State(false, 0, false, 0, InitialRemark)

  /** A click on `#billing-timer`: start, or stop and schedule a close. */
  function Toggle(st: State, pick: Pick): (r: State)
    ensures r.running == !st.running && r.seconds == st.seconds && r.popupOpen
    ensures r.pendingCloses == st.pendingCloses + (if st.running then 1 else 0)
    ensures r.remark == if st.running then Jokes[pick] else RunningRemark
  {
    if !st.running then st.(running := true, remark := RunningRemark, popupOpen := true)
    else st.(running := false, remark := Jokes[pick], popupOpen := true, pendingCloses := st.pendingCloses + 1)
  }

  /** One firing of the 1 s interval, which exists only while running. */
  function Advance(st: State): (r: State)
    ensures r.seconds == st.seconds + (if st.running then 1 else 0)
    ensures r == st.(seconds := r.seconds)
  {
    if st.running then st.(seconds := st.seconds + 1) else st
  }

  /** One of the 4 s close timers fires; none is ever cancelled. */
  function AutoClose(st: State): (r: State)
    ensures st.pendingCloses > 0 ==> !r.popupOpen && r.pendingCloses + 1 == st.pendingCloses
    ensures st.pendingCloses == 0 ==> r == st
    ensures r == st.(popupOpen := r.popupOpen, pendingCloses := r.pendingCloses)
  {
    if st.pendingCloses > 0 then st.(popupOpen := false, pendingCloses := st.pendingCloses - 1) else st
  }

  /** A click outside both the timer and the popup. */
  function Dismiss(st: State): (r: State)
    ensures !r.popupOpen && r.(popupOpen := st.popupOpen) == st
  {
    st.(popupOpen := false)
  }

  datatype Event = Clicked(pick: Pick) | Ticked | CloseTimerFired | ClickedOutside

  function Step(st: State, e: Event): State {
    match e
    case Clicked(k) => Toggle(st, k)
    case Ticked => Advance(st)
    case CloseTimerFired => AutoClose(st)
    case ClickedOutside => Dismiss(st)
  }

  function Run(st: State, evs: seq<Event>): State
    decreases |evs|
  {
    if evs == [] then st else Run(Step(st, evs[0]), evs[1..])
  }

  function CountTicks(evs: seq<Event>): nat {
    if evs == [] then 0 else (if evs[0].Ticked? then 1 else 0) + CountTicks(evs[1..])
  }

  function CountClicks(evs: seq<Event>): nat {
    if evs == [] then 0 else (if evs[0].Clicked? then 1 else 0) + CountClicks(evs[1..])
  }

  /** `n` interval firings in a row: a helper for stating the tick lemmas. */
  function Ticks(n: nat): (r: seq<Event>)
    ensures |r| == n && forall i :: 0 <= i < n ==> r[i] == Ticked
  {
    if n == 0 then [] else [Ticked] + Ticks(n - 1)
  }

  /** A run over `a + b` is the run over `a` followed by the run over `b`. */
  lemma {:induction false} RunAppend(st: State, a: seq<Event>, b: seq<Event>)
    ensures Run(st, a + b) == Run(Run(st, a), b)
    decreases |a|
  {
    if a == [] {
      assert a + b == b;
    } else {
      assert (a + b)[0] == a[0] && (a + b)[1..] == a[1..] + b;
      RunAppend(Step(st, a[0]), a[1..], b);
    }
  }

  /** Seconds are never reset: over any events they grow by at most one
      per tick and never shrink, whatever the clicks in between. */
  lemma {:induction false} SecondsMonotone(st: State, evs: seq<Event>)
    ensures st.seconds <= Run(st, evs).seconds <= st.seconds + CountTicks(evs)
    decreases |evs|
  {
    if evs != [] {
      SecondsMonotone(Step(st, evs[0]), evs[1..]);
    }
  }

  /** Only clicks on the timer switch it between idle and running. */
  lemma {:induction false} RunningParity(st: State, evs: seq<Event>)
    ensures Run(st, evs).running == (st.running != (CountClicks(evs) % 2 == 1))
    decreases |evs|
  {
    if evs != [] {
      RunningParity(Step(st, evs[0]), evs[1..]);
    }
  }

  /** While running, n ticks add exactly n seconds and change nothing else. */
  lemma {:induction false} RunningTicks(st: State, n: nat)
    requires st.running
    ensures Run(st, Ticks(n)) == st.(seconds := st.seconds + n)
    decreases n
  {
    if n > 0 {
      assert Ticks(n)[1..] == Ticks(n - 1);
      RunningTicks(Advance(st), n - 1);
    }
  }

  /** While idle, ticks change nothing. */
  lemma {:induction false} IdleTicks(st: State, n: nat)
    requires !st.running
    ensures Run(st, Ticks(n)) == st
    decreases n
  {
    if n > 0 {
      assert Ticks(n)[1..] == Ticks(n - 1);
      IdleTicks(st, n - 1);
    }
  }

  /** Start, n ticks, stop, m ticks while idle, start again: the timer
      runs on from the n seconds billed, not from zero. */
  lemma StartStopStartResumes(st: State, p: Pick, q: Pick, r: Pick, n: nat, m: nat)
    requires !st.running
    ensures Run(st, [Clicked(p)] + Ticks(n) + [Clicked(q)] + Ticks(m) + [Clicked(r)]).running
    ensures Run(st, [Clicked(p)] + Ticks(n) + [Clicked(q)] + Ticks(m) + [Clicked(r)]).seconds == st.seconds + n
  {
    var s1 := Toggle(st, p);
    RunningTicks(s1, n);
    var s2 := Toggle(s1.(seconds := s1.seconds + n), q);
    IdleTicks(s2, m);
    var s3 := Toggle(s2, r);
    RunAppend(st, [Clicked(p)], Ticks(n));
    RunAppend(st, [Clicked(p)] + Ticks(n), [Clicked(q)]);
    RunAppend(st, [Clicked(p)] + Ticks(n) + [Clicked(q)], Ticks(m));
    RunAppend(st, [Clicked(p)] + Ticks(n) + [Clicked(q)] + Ticks(m), [Clicked(r)]);
  }

  /** The close timer scheduled by a stop is never cancelled: when the timer
      is restarted before it fires, it closes the popup of the new run. */
  lemma StaleCloseHidesRunningPopup(st: State, p: Pick, q: Pick, r: Pick)
    requires !st.running && st.pendingCloses == 0
    ensures Run(st, [Clicked(p), Clicked(q), Clicked(r)]).popupOpen
    ensures Run(st, [Clicked(p), Clicked(q), Clicked(r), CloseTimerFired]).running
    ensures !Run(st, [Clicked(p), Clicked(q), Clicked(r), CloseTimerFired]).popupOpen
  {
    var s3 := Toggle(Toggle(Toggle(st, p), q), r);
    var three := [Clicked(p), Clicked(q), Clicked(r)];
    assert three[1..] == [Clicked(q), Clicked(r)] && three[1..][1..] == [Clicked(r)];
    assert Run(Toggle(Toggle(st, p), q), [Clicked(r)]) == s3;
    assert Run(Toggle(st, p), [Clicked(q), Clicked(r)]) == s3;
    assert Run(st, three) == s3;
    RunAppend(st, three, [CloseTimerFired]);
    assert three + [CloseTimerFired] == [Clicked(p), Clicked(q), Clicked(r), CloseTimerFired];
  }

  // ---------------------------------------------------------------- object

  /** The timer's fields of the desktop element. The two texts that
      `_updateBilling` writes after every increment are functions of
      `seconds`: the markup starts with the texts of zero seconds
      (InitialReadout) and seconds change only in a tick. */
  class BillingTimer {
    var running: bool
    var seconds: nat
    /** the 1 s interval is scheduled */
    var ticking: bool
    var popupOpen: bool
    var pendingCloses: nat
    var remark: string

    /** The interval is live exactly while the timer runs. */
    ghost predicate Valid()
      reads this
    {
      ticking == running
    }

    ghost function Model(): State
      reads this
    {
      State(running, seconds, popupOpen, pendingCloses, remark)
    }

    /** `#timer-display` and `#billing-amount`. */
    function Display(): (r: string)
      reads this
      ensures r == Clock(Model().seconds)
    {
      Clock(seconds)
    }

    function Amount(): (r: string)
      reads this
      ensures r == AmountText(Model().seconds)
    {
      AmountText(seconds)
    }

    constructor ()
      ensures Valid() && Model() == Initial
    {
      running, seconds, ticking := false, 0, false;
      popupOpen, pendingCloses, remark := false, 0, InitialRemark;
    }

    method Click(pick: Pick)
      requires Valid()
      modifies this
      ensures Valid() && Model() == Toggle(old(Model()), pick)
    {
      if !running {
        running := true;
        ticking := true;
        remark := RunningRemark;
        popupOpen := true;
      } else {
        running := false;
        ticking := false;
        remark := Jokes[pick];
        popupOpen := true;
        pendingCloses := pendingCloses + 1;
      }
    }

    method Tick()
      requires Valid()
      modifies this
      ensures Valid() && Model() == Advance(old(Model()))
    {
      if ticking {
        seconds := seconds + 1;
      }
    }

    method CloseTimerFired()
      requires Valid()
      modifies this
      ensures Valid() && Model() == AutoClose(old(Model()))
    {
      if pendingCloses > 0 {
        pendingCloses := pendingCloses - 1;
        popupOpen := false;
      }
    }

    /** The document-level click listener; `inside` when the click is on
        the timer or in the popup. */
    method DocumentClick(inside: bool)
      requires Valid()
      modifies this
      ensures Valid()
      ensures Model() == if inside then old(Model()) else Dismiss(old(Model()))
    {
      if !inside {
        popupOpen := false;
      }
    }
  }
}
