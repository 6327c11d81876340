/**
 * The poll controller of main.js on values: the browser's interval timers
 * and what one startPolling call does to them and to `pollHandle`.
 */
module Polling {

  /**
   * The browser's interval timers: the ids that are still live, and the id
   * the next setInterval returns. Browsers hand out positive ids and never
   * reuse one, so 0 can stand for `pollHandle = null`.
   */
  datatype Timers = Timers(live: set<nat>, nextId: nat)

  /** A handle and a timer table that belong together: only the timer the handle names can be live. */
  predicate TimersOk(handle: nat, t: Timers) {
    && 0 < t.nextId
    && handle < t.nextId
    && (t.live == {} || t.live == {handle})
    && 0 !in t.live
  }

  /**
   * startPolling: `clearInterval(pollHandle)` when the handle is set, then,
   * when polling is wanted, `pollHandle = setInterval(...)`. The handle is
   * not reset when no new timer is armed.
   */
  function Restart(handle: nat, t: Timers, wanted: bool): (r: (nat, Timers))
    ensures r.1.nextId >= t.nextId
  {
    var live := if handle != 0 then t.live - {handle} else t.live;
    if wanted then (t.nextId, Timers(live + {t.nextId}, t.nextId + 1))
    else (handle, Timers(live, t.nextId))
  }

  /**
   * After startPolling exactly one timer is live when polling is wanted and
   * none otherwise, the live timer (if any) is one that did not exist before,
   * and the handle still names the only timer that can be live.
   */
  lemma RestartSpec(handle: nat, t: Timers, wanted: bool)
    requires TimersOk(handle, t)
    ensures TimersOk(Restart(handle, t, wanted).0, Restart(handle, t, wanted).1)
    ensures Restart(handle, t, wanted).1.live == if wanted then {Restart(handle, t, wanted).0} else {}
    ensures Restart(handle, t, wanted).1.live !! t.live
    ensures |Restart(handle, t, wanted).1.live| <= 1
  {
    var r := Restart(handle, t, wanted);
    if handle == 0 {
      assert t.live == {};
    }
    if wanted {
      assert t.nextId !in t.live;
    }
  }
}
