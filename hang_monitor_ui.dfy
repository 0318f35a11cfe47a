/** The observable banner state (HangMonitorUI.swift): one optional banner, set and cleared in place. */
module MonitorUI {
  import opened Optional
  import opened Banner

  class HangMonitorUI {
    /** The banner the view shows; `None` hides it. This is the object's only state. */
    var currentBannerData: Option<BannerData>

    constructor ()
      ensures currentBannerData == None
    {
      currentBannerData := None;
    }

    /** Replaces whatever banner is current; no earlier banner is remembered. */
    method SetBanner(color: Color, message: string)
      modifies this
      ensures currentBannerData == Some(BannerData(color, message))
      ensures currentBannerData == AfterCall(old(currentBannerData), SetBannerCall(color, message))
    {
      currentBannerData := Some(BannerData(color, message));
    }

    /** Hides the banner, whatever was shown before. */
    method ClearBanner()
      modifies this
      ensures currentBannerData == None
      ensures currentBannerData == AfterCall(old(currentBannerData), ClearBannerCall)
    {
      currentBannerData := None;
    }
  }

  /** A call on the banner state, for reasoning about several calls in a row. */
  datatype BannerCall = SetBannerCall(color: Color, message: string) | ClearBannerCall

  /**
   * The banner after one call, given the banner before it: the effect the methods above state,
   * as a function, so that series of calls can be replayed.
   */
  function AfterCall(current: Option<BannerData>, call: BannerCall): Option<BannerData> {
    match call
    case SetBannerCall(c, m) => Some(BannerData(c, m))
    case ClearBannerCall => None
  }

  /** The banner after the calls, performed first to last. */
  function AfterCalls(current: Option<BannerData>, calls: seq<BannerCall>): Option<BannerData>
    decreases |calls|
  {
    if calls == [] then current else AfterCalls(AfterCall(current, calls[0]), calls[1..])
  }

  /** No history is kept: the result of a call does not depend on the banner it replaces. */
  lemma CallForgetsPreviousBanner(b1: Option<BannerData>, b2: Option<BannerData>, call: BannerCall)
    ensures AfterCall(b1, call) == AfterCall(b2, call)
    ensures call.SetBannerCall? ==> AfterCall(b1, call) == Some(BannerData(call.color, call.message))
    ensures call.ClearBannerCall? ==> AfterCall(b1, call) == None
  {
  }

  /** Last write wins: after any non-empty series of calls the banner is what the last call alone makes it. */
  lemma {:induction false} LastCallWins(current: Option<BannerData>, calls: seq<BannerCall>)
    requires |calls| > 0
    ensures AfterCalls(current, calls) == AfterCall(None, calls[|calls| - 1])
    decreases |calls|
  {
    if |calls| > 1 {
      LastCallWins(AfterCall(current, calls[0]), calls[1..]);
    }
  }

  /** Clearing twice is the same as clearing once, from any banner. */
  lemma ClearBannerIdempotent(current: Option<BannerData>)
    ensures AfterCalls(current, [ClearBannerCall, ClearBannerCall]) == AfterCalls(current, [ClearBannerCall])
    ensures AfterCalls(current, [ClearBannerCall]) == None
  {
  }
}
