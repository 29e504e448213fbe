/**
 * The Jobs page's accept handler, which adds the availability check the store lacks,
 * and the facts that connect the store's transitions to the timer the page displays.
 */
module JobsPage {
  import opened Types
  import opened JobStore

  /**
   * `handleAcceptJob`: refuse while the signed-in user's record says busy, otherwise
   * call the store. `sessionUser` is the session's copy of the user, not the store's.
   */
  method HandleAcceptJob(store: Store, sessionUser: User, jobId: Id, now: Instant) returns (ok: bool)
    modifies store
    ensures sessionUser.status == Busy ==> !ok && store.Snap() == old(store.Snap())
    ensures sessionUser.status == Free ==>
      var r := Accept(old(store.Snap()), jobId, sessionUser.id, now);
      ok == r.ok && store.Snap() == r.store
  {
    if sessionUser.status == Busy {
      return false;
    }
    ok := store.AcceptJob(jobId, sessionUser.id, now);
  }
}

module Lifecycle {
  import opened Types
  import opened JobStore
  import opened JobTimer

  /** The caption under the timer names the same number of hours the accept table grants. */
  lemma LabelMatchesTable(level: GarbageLevel)
    ensures var hours := TimerMinutes(level) / 60;
            TimerMinutes(level) == hours * 60
            && DurationLabel(TimerMinutes(level)) == NatToString(hours) + (if hours == 1 then " hour" else " hours")
  {
    assert NatToString(1) == "1" && NatToString(2) == "2" && NatToString(4) == "4";
  }

  /**
   * Accepting a job at `now` starts its timer: the accepted job shows the full duration
   * at `now`, overtime +0 at the deadline and overtime +1 a second later.
   */
  lemma AcceptStartsTimer(s: Snapshot, jobId: Id, userId: Id, now: Instant)
    requires Accept(s, jobId, userId, now).ok
    requires now != 0
    ensures var t := Accept(s, jobId, userId, now).store;
            var minutes := TimerMinutes(s.jobs[JobIndex(s.jobs, jobId).value].garbageLevel);
            forall i :: 0 <= i < |t.jobs| && t.jobs[i].id == jobId ==>
              && Projection(t.jobs[i], now) == Some(TimerState(minutes * 60, false))
              && Projection(t.jobs[i], now + minutes * 60000) == Some(TimerState(0, true))
              && Projection(t.jobs[i], now + minutes * 60000 + 1000) == Some(TimerState(1, true))
  {
    var minutes := TimerMinutes(s.jobs[JobIndex(s.jobs, jobId).value].garbageLevel);
    OvertimeAtDeadline(now, minutes);
  }

  /** A completed job shows no timer, whatever the time. */
  lemma CompleteStopsTimer(s: Snapshot, jobId: Id, userId: Id, now: Instant, later: Instant)
    requires Complete(s, jobId, userId, now).ok
    ensures var t := Complete(s, jobId, userId, now).store;
            forall i :: 0 <= i < |t.jobs| && t.jobs[i].id == jobId ==> Projection(t.jobs[i], later) == None
  {
  }

  /** The auto-release leaves every job, and so every timer, as it was. */
  lemma ReleaseKeepsTimers(s: Snapshot, userId: Id, now: Instant)
    ensures var t := Release(s, userId);
            forall i :: 0 <= i < |s.jobs| ==> Projection(t.jobs[i], now) == Projection(s.jobs[i], now)
  {
  }
}
