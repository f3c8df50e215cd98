/** Scheduler::Impl itself, on its lists. */
module Scheduler {
  import opened PriorityOrder
  import opened Wrappers
  import opened SchedulerModel
  import opened SchedulerInvariant
  import SchedulerWaits
  import M = ManageableTask

  /** The future an operation returns: ready, of a promise put on a list of the task, or of
      the end of the task's function. */
  datatype Reply = Ready | OnPause(id: TaskId) | OnResume(id: TaskId) | OnStop(id: TaskId) | AtEnd(id: TaskId)

  class Impl {
    var waitedTasks: seq<Item>
    var delayedTasks: seq<Item>
    var activeTask: Option<Item>
    var idCounter: TaskId
    var waitStopPromises: nat   // how many there are
    var clock: nat   // numbers the arrivals; not in the code
    ghost var outstanding: set<TaskId>
    ghost var ran: set<TaskId>
    ghost var waitsResolved: nat

    ghost function View(): Sched
      reads this
    {
      Sched(waitedTasks, delayedTasks, activeTask, idCounter, clock, outstanding, ran)
    }

    ghost function Waited(): SchedulerWaits.Waits
      reads this
    {
      SchedulerWaits.Waits(View(), waitStopPromises, waitsResolved)
    }

    constructor ()
      ensures Waited() == SchedulerWaits.Start()
    {
      waitStopPromises, waitsResolved := 0, 0;
      waitedTasks, delayedTasks, activeTask, idCounter := [], [], None, 0;
      clock, outstanding, ran := 0, {}, {};
    }

    static method FindTaskById(list: seq<Item>, id: TaskId) returns (it: nat)
      ensures it == SchedulerModel.Find(list, id)
    {
      it := 0;
      while it < |list| && list[it].value.id != id
        invariant it <= |list|
        invariant SchedulerModel.Find(list, id) == it + SchedulerModel.Find(list[it..], id)
      {
        assert list[it..][1..] == list[it + 1..];
        it := it + 1;
      }
    }

    /** Task::resume, then a place for the task at the top. */
    method Activate(task: Item)
      modifies this`activeTask, this`ran
      ensures View() == SchedulerModel.Activate(old(View()), task)
    {
      activeTask := Some(ResumeItem(task));
      ran := if LetsIn(task) then ran + {task.value.id} else ran;
    }

    method QueueTask(task: Item)
      requires Ascending(waitedTasks)
      modifies this`waitedTasks
      ensures waitedTasks == Insert(old(waitedTasks), task)
    {
      var it := LowerBound(waitedTasks, task.priority);
      waitedTasks := waitedTasks[..it] + [task] + waitedTasks[it..];
    }

    method Schedule(task: Item, ends: bool)
      requires OrderOk(View())
      modifies this`activeTask, this`waitedTasks, this`clock, this`ran
      ensures View() == SchedulerModel.Schedule(old(View()), task, ends)
      ensures OrderOk(View())
    {
      ScheduleOrder(View(), task, ends);
      var arrived := task.(value := task.value.(arrival := clock));
      clock := clock + 1;
      if activeTask.None? {
        assert waitedTasks == [];   // the assertion of the code
        Activate(arrived);
      } else if activeTask.value.priority < task.priority {
        waitedTasks := waitedTasks + [PauseItem(activeTask.value, ends)];
        Activate(arrived);
      } else {
        QueueTask(arrived);
      }
    }

    method ResumeNextTask()
      requires activeTask.None?
      modifies this
      ensures View() == ResumeNext(old(View()))
      ensures waitStopPromises == if SchedulerWaits.ReachesEnd(old(View())) then 0 else old(waitStopPromises)
      ensures waitsResolved + waitStopPromises == old(waitsResolved + waitStopPromises)
      decreases |waitedTasks|
    {
      if waitedTasks == [] {
        if delayedTasks == [] {
          ResolveWaits();
        }
        return;
      }
      var last := waitedTasks[|waitedTasks| - 1];
      waitedTasks := waitedTasks[..|waitedTasks| - 1];
      if last.value.pauseAsked {
        delayedTasks := delayedTasks + [PauseItem(last, false)];
        ResumeNextTask();
      } else {
        Activate(last);
      }
    }

    method ResolveWaits()
      modifies this`waitStopPromises, this`waitsResolved
      ensures waitStopPromises == 0 && waitsResolved == old(waitsResolved + waitStopPromises)
    {
      waitStopPromises, waitsResolved := 0, waitsResolved + waitStopPromises;
    }

    /** makeWaitAllPromise: true when the future is ready at once. */
    method MakeWaitAllPromise() returns (ready: bool)
      modifies this`waitStopPromises
      ensures Waited() == SchedulerWaits.Do(old(Waited()), SchedulerWaits.WaitAll)
      ensures ready == activeTask.None?
    {
      if activeTask.None? {
        return true;
      }
      waitStopPromises := waitStopPromises + 1;
      return false;
    }

    method Push(priority: int, ends: bool) returns (id: TaskId)
      requires OrderOk(View())
      modifies this
      ensures Waited() == SchedulerWaits.Do(old(Waited()), SchedulerWaits.Op(Event.Push(priority, ends)))
      ensures View() == PushS(old(View()), priority, ends) && id == old(idCounter)
      ensures OrderOk(View())
    {
      id := idCounter;
      var task := New(idCounter, clock, priority);
      idCounter, outstanding := idCounter + 1, outstanding + {id};
      Schedule(task, ends);
    }

    method Pause(id: TaskId, ends: bool) returns (reply: Reply)
      requires OrderOk(View())
      modifies this
      ensures Waited() == SchedulerWaits.Do(old(Waited()), SchedulerWaits.Op(Event.Pause(id, ends)))
      ensures reply == if !IsActive(old(View()), id) && SchedulerModel.Find(old(waitedTasks), id) < |old(waitedTasks)|
                       then OnPause(id) else Ready
    {
      reply := Ready;
      if activeTask.Some? && activeTask.value.value.id == id {
        delayedTasks := delayedTasks + [PauseItem(activeTask.value, ends)];
        activeTask := None;
        ResumeNextTask();
      } else {
        var it := FindTaskById(waitedTasks, id);
        if it < |waitedTasks| {
          var task := waitedTasks[it];
          waitedTasks := waitedTasks[it := task.(value := task.value.(pauseAsked := true))];
          reply := OnPause(id);
        }
      }
    }

    method Resume(id: TaskId, ends: bool) returns (reply: Reply)
      requires OrderOk(View())
      modifies this
      ensures Waited() == SchedulerWaits.Do(old(Waited()), SchedulerWaits.Op(Event.Resume(id, ends)))
      ensures reply == if SchedulerModel.Find(old(waitedTasks), id) < |old(waitedTasks)|
                          || SchedulerModel.Find(old(delayedTasks), id) < |old(delayedTasks)|
                       then OnResume(id) else Ready
    {
      var waited := FindTaskById(waitedTasks, id);
      if waited < |waitedTasks| {
        return OnResume(id);
      }
      var it := FindTaskById(delayedTasks, id);
      if it < |delayedTasks| {
        var task := delayedTasks[it];
        delayedTasks := delayedTasks[..it] + delayedTasks[it + 1..];
        Schedule(task, ends);
        return OnResume(id);
      }
      return Ready;
    }

    method CancelTask(id: TaskId, ends: bool) returns (reply: Reply)
      requires OrderOk(View())
      modifies this
      ensures Waited() == SchedulerWaits.Do(old(Waited()), SchedulerWaits.Op(Event.Cancel(id, ends)))
      ensures reply == if IsActive(old(View()), id) then AtEnd(id)
                       else if SchedulerModel.Find(old(waitedTasks), id) < |old(waitedTasks)|
                               || SchedulerModel.Find(old(delayedTasks), id) < |old(delayedTasks)|
                       then OnStop(id) else Ready
    {
      if activeTask.Some? && activeTask.value.value.id == id {
        var a := activeTask.value;
        activeTask := Some(a.(value := a.value.(st := AskedToStop(a.value.st))));
        return AtEnd(id);
      }
      var wIt := FindTaskById(waitedTasks, id);
      if wIt < |waitedTasks| {
        CancelWaiting(wIt);
        return OnStop(id);
      }
      var it := FindTaskById(delayedTasks, id);
      if it < |delayedTasks| {
        var task := delayedTasks[it];
        delayedTasks := delayedTasks[..it] + delayedTasks[it + 1..];
        Schedule(Cancelled(task), ends);
        return OnStop(id);
      }
      return Ready;
    }

    /** A task that has not been started yet is taken out at once. */
    method CancelWaiting(wIt: nat)
      requires wIt < |waitedTasks|
      modifies this`waitedTasks
      ensures var was := old(waitedTasks);
              waitedTasks == if was[wIt].value.started then was[wIt := Cancelled(was[wIt])] else Erase(was, wIt)
    {
      var task := Cancelled(waitedTasks[wIt]);
      waitedTasks := waitedTasks[wIt := task];
      if !task.value.started {
        waitedTasks := waitedTasks[..wIt] + waitedTasks[wIt + 1..];
        assert waitedTasks == Erase(old(waitedTasks), wIt);
      }
    }

    /** The callback createTask attaches to the task's end. */
    method TaskFinished(finishedId: TaskId)
      requires Inv(View()) && Enabled(View(), Event.Finished(finishedId))
      modifies this
      ensures Waited() == SchedulerWaits.Do(old(Waited()), SchedulerWaits.Op(Event.Finished(finishedId)))
    {
      outstanding := outstanding - {finishedId};
      if activeTask.None? || finishedId != activeTask.value.value.id {
        EraseTask(finishedId);
      } else {
        assert activeTask.value in Tasks(old(View()));
        assert activeTask.value.value.st.Stopped?;   // the assertion of the code
        activeTask := None;
        ResumeNextTask();
      }
    }

    method EraseTask(id: TaskId)
      requires forall x :: x in waitedTasks + delayedTasks && x.value.id == id ==> x.value.st.Stopped?
      modifies this`waitedTasks, this`delayedTasks
      ensures View() == SchedulerModel.EraseTask(old(View()), id)
    {
      var it := FindTaskById(waitedTasks, id);
      if it < |waitedTasks| {
        assert waitedTasks[it] in waitedTasks + delayedTasks;
        assert waitedTasks[it].value.st.Stopped?;   // the assertion of the code
        waitedTasks := waitedTasks[..it] + waitedTasks[it + 1..];
        return;
      }
      var delayedIt := FindTaskById(delayedTasks, id);
      if delayedIt < |delayedTasks| {
        delayedTasks := delayedTasks[..delayedIt] + delayedTasks[delayedIt + 1..];
      }
    }

    method Size() returns (n: nat)
      ensures n == |Tasks(View())|
    {
      n := |waitedTasks| + |delayedTasks| + if activeTask.None? then 0 else 1;
    }
  }
}
