/**
 TimerEvent as the source has it: an object whose fields each call updates in place.
 Every method is tied to its function in module Timers, and the public ones say what they do
 to the plain set of live timers.
 */
module TimerEvents {
  import opened Handles
  import opened Timers

  class TimerEvent {
    var cur: Task
    // std::priority_queue; a set, since every task pushed has an id of its own.
    var waitingQueue: set<Task>
    var nextTimerId: nat
    var activeTimerIds: map<Ptr, nat>
    var cancelledTimerIds: set<nat>
    var timerfd: Timerfd

    ghost function View(): State
      reads this
    {
      State(cur, waitingQueue, nextTimerId, activeTimerIds, cancelledTimerIds, timerfd)
    }

    constructor ()
      ensures View() == INITIAL && Inv(View())
    {
      cur := NO_TASK;
      waitingQueue := {};
      nextTimerId := 1;
      activeTimerIds := map[];
      cancelledTimerIds := {};
      timerfd := Timerfd(None, false);
    }

    method UpdateTimer(due: int)
      modifies this`timerfd
      ensures View() == Arm(old(View()), due)
    {
      timerfd := Timerfd(Some(due), false);
    }

    method ClearTimer()
      modifies this`timerfd
      ensures View() == Disarm(old(View()))
    {
      timerfd := Timerfd(None, false);
    }

    method DoRememberActive(task: Task)
      modifies this`activeTimerIds
      ensures View() == RememberActive(old(View()), task)
    {
      if task.read != Null {
        activeTimerIds := activeTimerIds[task.read := task.id];
      }
    }

    method DoForgetActive(task: Task)
      modifies this`activeTimerIds
      ensures View() == ForgetActive(old(View()), task)
    {
      if task.read == Null {
        return;
      }
      if task.read in activeTimerIds && activeTimerIds[task.read] == task.id {
        activeTimerIds := activeTimerIds - {task.read};
      }
    }

    method ConsumeCancelled(task: Task) returns (was: bool)
      modifies this`cancelledTimerIds
      ensures was <==> IsTombstone(old(View()), task)
      ensures View() == if was then ConsumeTombstone(old(View()), task) else old(View())
    {
      if task.id == 0 {
        return false;
      }
      was := task.id in cancelledTimerIds;
      cancelledTimerIds := cancelledTimerIds - {task.id};
    }

    /** Pops tombstones until a live task turns up. */
    method ActivateNextTimer(pick: Pick)
      requires PicksEarliest(pick)
      modifies this
      ensures View() == ActivateNext(old(View()), pick)
    {
      while waitingQueue != {}
        invariant ActivateNext(View(), pick) == ActivateNext(old(View()), pick)
        decreases waitingQueue
      {
        var task := pick(waitingQueue);
        waitingQueue := waitingQueue - {task};
        var skipped := ConsumeCancelled(task);
        if skipped {
          DoForgetActive(task);
          continue;
        }
        cur := task;
        UpdateTimer(cur.due);
        return;
      }
      cur := NO_TASK;
      ClearTimer();
    }

    /** operator++ */
    method Next(pick: Pick)
      requires PicksEarliest(pick)
      modifies this
      ensures View() == Advance(old(View()), pick)
      ensures old(Inv(View()) && Settled(View())) ==>
        Inv(View()) && Settled(View()) && Live(View()) == old(Live(View())) - {old(cur)}
    {
      ghost var before := View();
      DoForgetActive(cur);
      ActivateNextTimer(pick);
      if Inv(before) && Settled(before) { AdvanceLemma(before, pick); }
    }

    method RefreshCurrentTimer(pick: Pick)
      requires PicksEarliest(pick)
      modifies this
      ensures View() == Refresh(old(View()), pick)
      ensures old(Inv(View())) ==> Inv(View()) && Settled(View()) && Live(View()) == old(Live(View()))
    {
      ghost var before := View();
      var stale := EmptyTask(cur);
      if !stale {
        stale := ConsumeCancelled(cur);
      }
      if stale {
        DoForgetActive(cur);
        ActivateNextTimer(pick);
      }
      if Inv(before) { RefreshLemma(before, pick); }
    }

    method CurrentEmpty() returns (empty: bool)
      ensures empty <==> EmptyTask(cur)
      ensures Inv(View()) && Settled(View()) ==> (empty <==> Live(View()) == {})
    {
      empty := EmptyTask(cur);
      if Inv(View()) && Settled(View()) { CurIsEarliest(View()); }
    }

    method CancelTimer(read: Ptr)
      modifies this`activeTimerIds, this`cancelledTimerIds
      ensures View() == Cancel(old(View()), read)
      ensures old(Inv(View())) ==> Inv(View()) && Live(View()) == (set t <- old(Live(View())) | t.read != read)
    {
      ghost var before := View();
      if Inv(before) { CancelLemma(before, read); }
      if read == Null || read !in activeTimerIds {
        return;
      }
      cancelledTimerIds := cancelledTimerIds + {activeTimerIds[read]};
      activeTimerIds := activeTimerIds - {read};
    }

    method SetTimerAt(read: Ptr, due: int, pick: Pick)
      requires PicksEarliest(pick)
      modifies this
      ensures View() == SetTimer(old(View()), read, due, pick)
      ensures old(Inv(View()) && read !in activeTimerIds) && read != Null && due > 0 ==>
        Inv(View()) && Settled(View()) && Live(View()) == old(Live(View())) + {Task(read, due, old(nextTimerId))}
    {
      ghost var before := View();
      if Inv(before) && read !in activeTimerIds && read != Null && due > 0 { SetTimerLemma(before, read, due, pick); }
      RefreshCurrentTimer(pick);
      var task := Task(read, due, nextTimerId);
      nextTimerId := nextTimerId + 1;
      DoRememberActive(task);
      if EmptyTask(cur) {
        cur := task;
        UpdateTimer(due);
        return;
      }
      if cur.due > due {
        waitingQueue := waitingQueue + {cur};
        cur := task;
        UpdateTimer(due);
      } else {
        waitingQueue := waitingQueue + {task};
      }
    }

    /** The blocking read of the expiration count, and the clock when it returns; None if it never does,
        because the timerfd is disarmed or its count was read already. */
    method ConsumeExpirations(now: int) returns (after: Option<int>)
      modifies this`timerfd
      ensures after.Some? <==> old(timerfd.armed.Some? && !timerfd.drained)
      ensures after.None? ==> View() == old(View())
      ensures after.Some? ==>
        && View() == Consume(old(View())) && after.value == ConsumeReturnsAt(old(View()), now)
        && after.value >= now && after.value >= old(timerfd).armed.value
        && (after.value == now <==> old(Readable(View(), now)))
        && timerfd.drained && timerfd.armed == old(timerfd.armed)
    {
      if timerfd.armed.None? || timerfd.drained {
        return None;
      }
      after := Some(if timerfd.armed.value <= now then now else timerfd.armed.value);
      timerfd := timerfd.(drained := true);
    }
  }
}
