# RenderDetectorKit hang monitor — a Dafny model

RenderDetectorKit watches an iOS app's main thread for stalls. When a stall is reported, the
hang monitor (`HangMonitorViewModel`) sorts its duration into a severity and shows a banner
through the shared UI state object (`HangMonitorUI`). It then schedules a clear of that banner
two seconds later. This project models that core:

- `optional.dfy`, `banner_data.dfy`: Swift's `T?` and the `BannerData` record. SwiftUI's
  `Color` becomes the two-value `Color = Yellow | Red`.
- `decimal.dfy`: the decimal string interpolation that writes the thresholds into the
  banner messages.
- `hang_monitor_ui.dfy`: the class `HangMonitorUI`, whose one field `currentBannerData` is set
  and cleared in place. There is also a value-level replay of banner calls, used for
  last-write-wins.
- `hang_monitor_view_model.dfy`: the class `HangMonitorViewModel` (monitoring flag, timer slot,
  number of scheduled auto-clears, reference to the UI object). Each of its methods is
  specified by a function on `MonitorState`, so that `State() == F(old(State()))`. The lemmas
  about those functions carry the monitor's properties: classification, start/stop, the
  auto-clear and the invariant.

Modelling choices:

- Every `Task { @MainActor in ... }` hop is an immediate, sequential state change.
- The fire-and-forget "sleep 2 s, then clear" task is a scheduled event. `pendingClears`
  counts such tasks that have not run yet. `FireAutoClear` is one of them waking up.
- The auto-clear carries no token, so a clear scheduled for an older banner hides a newer one
  (`StaleAutoClearHidesNewerBanner`).
- A duration at or below the yellow threshold clears the current banner
  (`HangMonitorViewModel.swift:71-74`).
- `HangMonitorUI`'s methods are public, so its banner can also be set or cleared directly,
  bypassing the monitor. The event model includes these direct calls. A directly set banner
  has no auto-clear scheduled. So the invariant "a banner is up only while a clear is
  scheduled" holds for runs without a direct `SetBanner` (`DirectBannerOutlivesClears`).
- `stopMonitoring` does not cancel scheduled auto-clears. They still run later and clear
  whatever banner is then current.
- `timer` is never assigned a timer anywhere. `timerSet` therefore stays false, and `Valid`
  records this.

## Model

| member | source | states |
|---|---|---|
| `Decimal.NatToDecimal` | Sources/RenderDetectorKit/ViewModel/HangMonitorViewModel.swift:68-70 | the interpolated threshold text is non-empty and all decimal digits, with a leading `0` exactly for zero |
| `Decimal.DecimalRoundTrip` | Sources/RenderDetectorKit/ViewModel/HangMonitorViewModel.swift:68-70 | reading the interpolated digits back gives the threshold: the spelling is faithful |
| `HangMonitor.MessagesSpelledOut` | Sources/RenderDetectorKit/ViewModel/HangMonitorViewModel.swift:68-70 | the interpolated messages are exactly "App Hang Detected (> 250ms)" and "Potential App Hang (> 100ms)" |
| `HangMonitor.Classify` | Sources/RenderDetectorKit/ViewModel/HangMonitorViewModel.swift:66-76 | red banner iff duration > 250; yellow banner iff 100 < duration <= 250; no banner iff duration <= 100 |
| `HangMonitor.ClassifyMonotone` | Sources/RenderDetectorKit/ViewModel/HangMonitorViewModel.swift:19-20 | a longer stall never gets a milder outcome (none < yellow < red) |
| `HangMonitor.ClassifyBoundaries` | Sources/RenderDetectorKit/ViewModel/HangMonitorViewModel.swift:67-71 | 100 gives no banner; 101 and 250 give yellow; 251 gives red, with the exact texts |
| `HangMonitor.InitialState` | Sources/RenderDetectorKit/ViewModel/HangMonitorViewModel.swift:15-16 | the state of a fresh monitor over a fresh UI satisfies the invariant |
| `HangMonitor.StartMonitoringSwitchesOn` | Sources/RenderDetectorKit/ViewModel/HangMonitorViewModel.swift:28-32 | afterwards monitoring is on; when it already was, nothing changes; starting twice equals starting once; only the flag changes |
| `HangMonitor.StopMonitoringResets` | Sources/RenderDetectorKit/ViewModel/HangMonitorViewModel.swift:34-44 | from any state: monitoring off, no timer, no banner; scheduled clears kept; stopping twice equals stopping once |
| `HangMonitor.ShowBannerIfNeededEffect` | Sources/RenderDetectorKit/ViewModel/HangMonitorViewModel.swift:66-89 | the banner becomes the classification of the duration; a shown banner schedules exactly one clear; monitoring and timer untouched |
| `HangMonitor.StaleAutoClearHidesNewerBanner` | Sources/RenderDetectorKit/ViewModel/HangMonitorViewModel.swift:83-88 | yellow then red, then the yellow banner's clear runs: the red banner is gone while its own clear is still pending |
| `HangMonitor.Step` | Sources/RenderDetectorKit/ViewModel/HangMonitorViewModel.swift:28-89 | every event except a direct UI `SetBanner` keeps the invariant: no timer, and a banner only while a clear is scheduled |
| `HangMonitor.ClearsRun` | Sources/RenderDetectorKit/ViewModel/HangMonitorViewModel.swift:83-88 | running n scheduled clears removes n from the schedule and, for n > 0, hides the banner; nothing else changes |
| `HangMonitor.AllClearsHideBanner` | Sources/RenderDetectorKit/ViewModel/HangMonitorViewModel.swift:78-88 | in any state satisfying the invariant (every state reached from a fresh monitor without a direct UI `SetBanner`), once every scheduled clear has run, no banner is left |
| `HangMonitor.RunPreservesValid` | Sources/RenderDetectorKit/ViewModel/HangMonitorViewModel.swift:28-89 | any sequence of start, stop, show, auto-clear and direct UI clear events keeps the invariant |
| `HangMonitor.DirectBannerOutlivesClears` | Sources/RenderDetectorKit/HangMonitorUI.swift:15-17 | a banner set directly on the UI, with nothing scheduled, breaks the invariant and is still up after every scheduled clear has run |
| `HangMonitor.MonitorRestoresValid` | Sources/RenderDetectorKit/ViewModel/HangMonitorViewModel.swift:66-76 | from any state with no timer, a reported stall restores the invariant; a stall of at most 100 ms removes even a directly set banner |
| `HangMonitor.MonitoringFollowsLastSwitch` | Sources/RenderDetectorKit/ViewModel/HangMonitorViewModel.swift:28-44 | after any event sequence, monitoring is what the last start or stop set; banner calls, direct UI calls and clears never change it |
| `HangMonitor.HangMonitorViewModel.constructor` | Sources/RenderDetectorKit/ViewModel/HangMonitorViewModel.swift:15-22 | a new monitor is not monitoring, holds no timer and has no clear scheduled; over a UI with no banner its state is the initial state |
| `HangMonitor.HangMonitorViewModel.IsMonitoring` | Sources/RenderDetectorKit/ViewModel/HangMonitorViewModel.swift:24-26 | reports the monitoring flag of the current state |
| `HangMonitor.HangMonitorViewModel.StartMonitoring` | Sources/RenderDetectorKit/ViewModel/HangMonitorViewModel.swift:28-32 | the new state is `Start` of the old one |
| `HangMonitor.HangMonitorViewModel.StopMonitoring` | Sources/RenderDetectorKit/ViewModel/HangMonitorViewModel.swift:34-44 | the new state, including the shared UI's banner, is `Stop` of the old one |
| `HangMonitor.HangMonitorViewModel.ShowBannerIfNeeded` | Sources/RenderDetectorKit/ViewModel/HangMonitorViewModel.swift:66-76 | the new state is `ShowIfNeeded` of the old one and the duration |
| `HangMonitor.HangMonitorViewModel.ShowBanner` | Sources/RenderDetectorKit/ViewModel/HangMonitorViewModel.swift:78-89 | the UI shows exactly the given banner and one more clear is scheduled |
| `HangMonitor.HangMonitorViewModel.FireAutoClear` | Sources/RenderDetectorKit/ViewModel/HangMonitorViewModel.swift:83-88 | a scheduled clear runs: the banner is hidden unconditionally and the schedule shrinks by one |
| `MonitorUI.HangMonitorUI.constructor` | Sources/RenderDetectorKit/HangMonitorUI.swift:13 | initially no banner |
| `MonitorUI.HangMonitorUI.SetBanner` | Sources/RenderDetectorKit/HangMonitorUI.swift:15-17 | afterwards the banner is exactly `BannerData(color, message)`, whatever it was |
| `MonitorUI.HangMonitorUI.ClearBanner` | Sources/RenderDetectorKit/HangMonitorUI.swift:19-21 | afterwards there is no banner, from any state |
| `MonitorUI.CallForgetsPreviousBanner` | Sources/RenderDetectorKit/HangMonitorUI.swift:15-21 | the banner after a call does not depend on the banner before it |
| `MonitorUI.LastCallWins` | Sources/RenderDetectorKit/HangMonitorUI.swift:16 | after any non-empty series of set/clear calls, the banner is what the last call alone makes it |
| `MonitorUI.ClearBannerIdempotent` | Sources/RenderDetectorKit/HangMonitorUI.swift:19-21 | clearing twice equals clearing once, and leaves no banner |

## Left out

- `checkHang` and `reportHang` (`HangMonitorViewModel.swift:46-64`) are not modelled. They
  probe the main queue with a semaphore and a 0.3 s timed wait, then measure the stall as a
  `Double` from `Date` and convert it to `Int`. That is cross-thread timing and floating point.
  The measured duration is instead the `duration` argument of `ShowBannerIfNeeded`. So
  `StartMonitoring` models only the flag update, not the single probe it runs.
- The `lock` dispatch queue, `@unchecked Sendable` and the unlocked write in `startMonitoring`
  are concurrency concerns and are left out. Operations are taken one at a time.
- The real 2-second sleep is left out. Only its order is kept: a clear runs after the show
  that scheduled it, at a time the caller of `FireAutoClear` chooses. The model does not make
  clears run in FIFO order or at fixed times.
- SwiftUI `Color` becomes a two-value enum. `@Published`/`ObservableObject` change
  notification is left out.
- Sources/RenderDetectorKit/View/HangBannerView.swift is rendering and animation only.
  Package.swift is the build manifest. Neither is part of this model.
- The shared singletons (`shared`) are represented by passing the one `HangMonitorUI` object
  to the monitor's constructor.
