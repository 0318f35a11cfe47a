/**
 * The hang monitor (ViewModel/HangMonitorViewModel.swift): a monitoring switch, the rule that
 * turns a stall duration into a banner, and the banner's fire-and-forget auto-clear.
 *
 * Each `Task { @MainActor in ... }` hop is taken as an immediate state change. The 2-second
 * sleep-then-clear task is a pending event: `pendingClears` counts the ones scheduled and not
 * yet run, and `AutoClear` is one of them running. A clear carries no token, so it hides
 * whatever banner is current when it runs.
 */
module HangMonitor {
  import opened Optional
  import opened Banner
  import opened Decimal
  import opened MonitorUI

  const TimeoutThresholdYellow: nat := 100
  const TimeoutThresholdRed: nat := 250

  /** The red banner's text, interpolating the red threshold. */
  function RedMessage(): string {
    "App Hang Detected (> " + NatToDecimal(TimeoutThresholdRed) + "ms)"
  }

  /** The yellow banner's text, interpolating the yellow threshold. */
  function YellowMessage(): string {
    "Potential App Hang (> " + NatToDecimal(TimeoutThresholdYellow) + "ms)"
  }

  /** The interpolated messages are exactly the texts the banner shows. */
  lemma MessagesSpelledOut()
    ensures RedMessage() == "App Hang Detected (> 250ms)"
    ensures YellowMessage() == "Potential App Hang (> 100ms)"
  {
  }

  /**
   * What `showBannerIfNeeded` leaves on screen for a stall of `duration` milliseconds:
   * the red banner above the red threshold, the yellow one above the yellow threshold,
   * and no banner otherwise.
   */
  function Classify(duration: int): (r: Option<BannerData>)
    ensures r == Some(BannerData(Red, RedMessage())) <==> duration > TimeoutThresholdRed
    ensures r == Some(BannerData(Yellow, YellowMessage())) <==>
              TimeoutThresholdYellow < duration <= TimeoutThresholdRed
    ensures r == None <==> duration <= TimeoutThresholdYellow
  {
    if duration > TimeoutThresholdRed then Some(BannerData(Red, RedMessage()))
    else if duration > TimeoutThresholdYellow then Some(BannerData(Yellow, YellowMessage()))
    else None
  }

  /** How severe a banner state is: none, yellow, red. */
  function Severity(b: Option<BannerData>): nat {
    match b
    case None => 0
    case Some(d) => if d.color == Yellow then 1 else 2
  }

  /** A longer stall never gets a milder banner than a shorter one. */
  lemma ClassifyMonotone(d1: int, d2: int)
    requires d1 <= d2
    ensures Severity(Classify(d1)) <= Severity(Classify(d2))
  {
  }

  /** The boundaries: exactly at a threshold is still the milder outcome, one above it is not. */
  lemma ClassifyBoundaries()
    ensures Classify(TimeoutThresholdYellow) == None
    ensures Classify(TimeoutThresholdYellow + 1) == Some(BannerData(Yellow, "Potential App Hang (> 100ms)"))
    ensures Classify(TimeoutThresholdRed) == Some(BannerData(Yellow, "Potential App Hang (> 100ms)"))
    ensures Classify(TimeoutThresholdRed + 1) == Some(BannerData(Red, "App Hang Detected (> 250ms)"))
  {
    MessagesSpelledOut();
  }

  /**
   * The monitor's whole state: the monitoring flag, whether a timer is held, the banner
   * the UI shows, and the number of auto-clears scheduled and not yet run.
   */
  datatype MonitorState = MonitorState(
    monitoring: bool,
    timerSet: bool,
    banner: Option<BannerData>,
    pendingClears: nat)

  /** The state before any call: not monitoring, no timer, no banner, nothing scheduled. */
  function Initial(): MonitorState {
    MonitorState(false, false, None, 0)
  }

  /**
   * What the monitor's own operations keep true: no timer is ever created, and a banner is
   * only on screen while an auto-clear is still scheduled to remove it.
   */
  predicate Valid(s: MonitorState) {
    !s.timerSet && (s.banner.Some? ==> s.pendingClears > 0)
  }

  /** `startMonitoring`: nothing when already monitoring, otherwise switch monitoring on. */
  function Start(s: MonitorState): MonitorState {
    if s.monitoring then s else s.(monitoring := true)
  }

  /** `stopMonitoring`: switch off, drop the timer, clear the banner. Scheduled clears stay scheduled. */
  function Stop(s: MonitorState): MonitorState {
    s.(monitoring := false, timerSet := false, banner := None)
  }

  /** `showBanner`: put the banner up and schedule one more auto-clear. */
  function BannerShown(s: MonitorState, b: BannerData): MonitorState {
    s.(banner := Some(b), pendingClears := s.pendingClears + 1)
  }

  /** `showBannerIfNeeded`: show the classified banner, or clear the banner below the yellow threshold. */
  function ShowIfNeeded(s: MonitorState, duration: int): MonitorState {
    match Classify(duration)
    case Some(b) => BannerShown(s, b)
    case None => s.(banner := None)
  }

  /** One scheduled auto-clear runs: the banner is hidden, whichever banner it is. */
  function AutoClear(s: MonitorState): MonitorState {
    if s.pendingClears == 0 then s else s.(banner := None, pendingClears := s.pendingClears - 1)
  }

  /**
   * The calls and events that change the state: the monitor's own operations, a scheduled
   * auto-clear running, and direct calls on the public UI object, which bypass the monitor.
   */
  datatype Event =
    | StartEv
    | StopEv
    | ShowEv(duration: int)
    | AutoClearEv
    | UISetBannerEv(color: Color, message: string)
    | UIClearBannerEv

  /** A direct UI call changes the banner only, as `HangMonitorUI` does. */
  function UICall(s: MonitorState, call: BannerCall): MonitorState {
    s.(banner := AfterCall(s.banner, call))
  }

  /** Every event except a direct `SetBanner` on the UI keeps `Valid`. */
  function Step(s: MonitorState, e: Event): (r: MonitorState)
    ensures Valid(s) && !e.UISetBannerEv? ==> Valid(r)
  {
    match e
    case StartEv => Start(s)
    case StopEv => Stop(s)
    case ShowEv(d) => ShowIfNeeded(s, d)
    case AutoClearEv => AutoClear(s)
    case UISetBannerEv(c, m) => UICall(s, SetBannerCall(c, m))
    case UIClearBannerEv => UICall(s, ClearBannerCall)
  }

  /** No event in `es` sets the banner on the UI directly. */
  predicate NoDirectSet(es: seq<Event>) {
    forall i :: 0 <= i < |es| ==> !es[i].UISetBannerEv?
  }

  /** The state after the events, first to last. */
  function Run(s: MonitorState, es: seq<Event>): MonitorState
    decreases |es|
  {
    if es == [] then s else Step(Run(s, es[..|es| - 1]), es[|es| - 1])
  }

  /** A freshly built monitor, over a fresh UI, satisfies the invariant. */
  lemma InitialState()
    ensures Valid(Initial())
  {
  }

  /** Starting turns monitoring on; starting again changes nothing; nothing but the flag changes. */
  lemma StartMonitoringSwitchesOn(s: MonitorState)
    ensures Start(s).monitoring
    ensures s.monitoring ==> Start(s) == s
    ensures Start(Start(s)) == Start(s)
    ensures Start(s).(monitoring := s.monitoring) == s
  {
  }

  /**
   * Whatever the state, stopping leaves monitoring off, no timer and no banner; it does not
   * cancel scheduled clears; and stopping twice is stopping once.
   */
  lemma StopMonitoringResets(s: MonitorState)
    ensures !Stop(s).monitoring && !Stop(s).timerSet && Stop(s).banner == None
    ensures Stop(s).pendingClears == s.pendingClears
    ensures Stop(Stop(s)) == Stop(s)
    ensures Valid(Stop(s))
  {
  }

  /**
   * `showBannerIfNeeded` sets the banner to the classification of the duration, and each call
   * that shows a banner schedules exactly one clear; the monitoring flag is not consulted or changed.
   */
  lemma ShowBannerIfNeededEffect(s: MonitorState, duration: int)
    ensures ShowIfNeeded(s, duration).banner == Classify(duration)
    ensures ShowIfNeeded(s, duration).pendingClears ==
              s.pendingClears + (if duration > TimeoutThresholdYellow then 1 else 0)
    ensures ShowIfNeeded(s, duration).monitoring == s.monitoring
    ensures ShowIfNeeded(s, duration).timerSet == s.timerSet
  {
  }

  /**
   * The auto-clear carries no token: a clear scheduled for an older yellow banner hides a newer
   * red one, although the red banner's own clear is still pending.
   */
  lemma StaleAutoClearHidesNewerBanner(s: MonitorState)
    requires s.pendingClears == 0
    ensures var shown := ShowIfNeeded(ShowIfNeeded(s, TimeoutThresholdYellow + 1), TimeoutThresholdRed + 1);
            shown.banner == Some(BannerData(Red, RedMessage())) &&
            shown.pendingClears == 2 &&
            AutoClear(shown).banner == None &&
            AutoClear(shown).pendingClears == 1
  {
  }

  /** `n` auto-clears running in a row. */
  function Clears(n: nat): (es: seq<Event>)
    ensures |es| == n
  {
    seq(n, _ => AutoClearEv)
  }

  /**
   * Running `n` of the scheduled clears removes `n` from the schedule and, when `n > 0`, hides
   * the banner; monitoring and timer are untouched.
   */
  lemma {:induction false} ClearsRun(s: MonitorState, n: nat)
    requires n <= s.pendingClears
    ensures Run(s, Clears(n)) ==
              s.(banner := if n > 0 then None else s.banner, pendingClears := s.pendingClears - n)
  {
    if n > 0 {
      assert Clears(n)[..n - 1] == Clears(n - 1);
      ClearsRun(s, n - 1);
    }
  }

  /**
   * Once every scheduled clear has run, no banner is left, from any state satisfying `Valid`:
   * every state reached from a fresh monitor without a direct UI `SetBanner`.
   */
  lemma AllClearsHideBanner(s: MonitorState)
    requires Valid(s)
    ensures Run(s, Clears(s.pendingClears)).banner == None
    ensures Run(s, Clears(s.pendingClears)).pendingClears == 0
  {
    ClearsRun(s, s.pendingClears);
  }

  /** Every run without a direct UI `SetBanner` keeps `Valid`. */
  lemma {:induction false} RunPreservesValid(s: MonitorState, es: seq<Event>)
    requires Valid(s) && NoDirectSet(es)
    ensures Valid(Run(s, es))
    decreases |es|
  {
    if es != [] {
      RunPreservesValid(s, es[..|es| - 1]);
    }
  }

  /**
   * A banner set directly on the UI has no clear scheduled: running every scheduled clear
   * leaves it up.
   */
  lemma DirectBannerOutlivesClears(s: MonitorState, c: Color, m: string)
    requires Valid(s) && s.pendingClears == 0
    ensures var t := Step(s, UISetBannerEv(c, m));
            !Valid(t) && Run(t, Clears(t.pendingClears)).banner == Some(BannerData(c, m))
  {
  }

  /**
   * Whatever the UI shows, a reported stall brings the state back under `Valid`; a stall at or
   * below the yellow threshold removes a directly set banner.
   */
  lemma MonitorRestoresValid(s: MonitorState, duration: int)
    requires !s.timerSet
    ensures Valid(ShowIfNeeded(s, duration))
    ensures duration <= TimeoutThresholdYellow ==> ShowIfNeeded(s, duration).banner == None
  {
  }

  /** Monitoring as the last start or stop in the events left it; other events do not touch it. */
  function MonitoringAfter(initially: bool, es: seq<Event>): bool
    decreases |es|
  {
    if es == [] then initially
    else match es[|es| - 1]
      case StartEv => true
      case StopEv => false
      case _ => MonitoringAfter(initially, es[..|es| - 1])
  }

  /** Only `startMonitoring` and `stopMonitoring` decide whether the monitor is monitoring; UI calls do not. */
  lemma {:induction false} MonitoringFollowsLastSwitch(s: MonitorState, es: seq<Event>)
    ensures Run(s, es).monitoring == MonitoringAfter(s.monitoring, es)
    decreases |es|
  {
    if es != [] {
      MonitoringFollowsLastSwitch(s, es[..|es| - 1]);
    }
  }

  /**
   * The monitor object. The UI object it drives is shared: `ui` is a reference, so the banner
   * belongs to the UI object and the monitor only calls its `SetBanner`/`ClearBanner`.
   */
  class HangMonitorViewModel {
    var isMonitoringFlag: bool
    /** Whether `timer` holds a timer; no code path ever assigns one. */
    var timerSet: bool
    /** Auto-clear tasks started by `ShowBanner` whose 2-second sleep has not yet ended. */
    var pendingClears: nat
    const ui: HangMonitorUI

    ghost function State(): MonitorState
      reads this, ui
    {
      MonitorState(isMonitoringFlag, timerSet, ui.currentBannerData, pendingClears)
    }

    constructor (ui: HangMonitorUI)
      ensures this.ui == ui
      ensures State() == MonitorState(false, false, ui.currentBannerData, 0)
      ensures ui.currentBannerData == None ==> State() == Initial()
    {
      this.ui := ui;
      isMonitoringFlag := false;
      timerSet := false;
      pendingClears := 0;
    }

    /** `isMonitoring`. */
    function IsMonitoring(): (r: bool)
      reads this, ui
      ensures r == State().monitoring
    {
      isMonitoringFlag
    }

    method StartMonitoring()
      modifies this
      ensures State() == Start(old(State()))
    {
      if IsMonitoring() {
        return;
      }
      isMonitoringFlag := true;
    }

    method StopMonitoring()
      modifies this, ui
      ensures State() == Stop(old(State()))
    {
      isMonitoringFlag := false;
      timerSet := false;
      ui.ClearBanner();
    }

    method ShowBannerIfNeeded(duration: int)
      modifies this, ui
      ensures State() == ShowIfNeeded(old(State()), duration)
    {
      if duration > TimeoutThresholdRed {
        ShowBanner(Red, RedMessage());
      } else if duration > TimeoutThresholdYellow {
        ShowBanner(Yellow, YellowMessage());
      } else {
        ui.ClearBanner();
      }
    }

    method ShowBanner(color: Color, message: string)
      modifies this, ui
      ensures State() == BannerShown(old(State()), BannerData(color, message))
    {
      ui.SetBanner(color, message);
      pendingClears := pendingClears + 1;
    }

    /** One scheduled auto-clear wakes up and clears the banner; nothing happens if none is scheduled. */
    method FireAutoClear()
      modifies this, ui
      ensures State() == AutoClear(old(State()))
    {
      if pendingClears > 0 {
        pendingClears := pendingClears - 1;
        ui.ClearBanner();
      }
    }
  }
}
