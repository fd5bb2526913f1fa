/** The router object's methods as they update its fields, each stretch between two
    yields proved to do what the step system of RouterIo says. */
module RouterObject {
  import opened Options
  import opened RouterIo
  import opened RouterDurability

  lemma DropExitedKeepsTasks(s: State)
    ensures DropExited(s).tasks == s.tasks && DropExited(s).savingSequence == s.savingSequence
  {
  }

  lemma FinishedKeepsTasks(s: State, pc: Pc, ok: bool, landed: bool, implRoute: Option<Route>)
    requires pc.Saving?
    ensures Finished(s, pc, ok, landed, implRoute).tasks == s.tasks
  {
  }

  lemma ReachableStart(s: State)
    requires Init(s)
    ensures Reachable(s)
  {
    assert Possible(s, []) && Exec(s, []) == s;
  }

  class RouterObject {
    // the object
    var awaitTask: Option<TaskId>       // awaitTaskActionImpl
    var awaitList: seq<TaskId>          // awaitIOTaskList
    var isObject: bool
    var forcePull: bool
    var cacheRemoved: bool
    var route: Route
    var savingSequence: nat
    var savedSequence: nat
    // the tasks
    var tasks: map<TaskId, Task>
    var memory: nat                     // version of the object in memory
    // what the world has seen
    ghost var stored: nat
    ghost var issued: seq<nat>
    ghost var writes: seq<Write>
    ghost var acked: seq<nat>
    ghost var committed: Route
    ghost var poisoned: bool

    ghost function View(): State
      reads this
    {
      State(awaitTask, awaitList, isObject, forcePull, cacheRemoved, route, savingSequence, savedSequence, tasks,
            memory, stored, issued, writes, acked, committed, poisoned)
    }

    constructor (route: Route, tasks: map<TaskId, Task>)
      requires forall t :: t in tasks ==> tasks[t] == Task(Ready, [], false)
      ensures Valid() && Init(View()) && View().tasks == tasks && View().route == route
    {
      awaitTask, awaitList := None, [];
      isObject, forcePull, cacheRemoved := true, false, false;
      this.route, this.tasks := route, tasks;
      savingSequence, savedSequence := 0, 0;
      memory, stored, issued, writes, acked, committed, poisoned := 0, 0, [], [], [], route, false;
      new;
      ReachableStart(View());
    }

    /** The object is in a state that some run leads to, so all that is proved of
        reachable states holds of it. */
    ghost predicate Valid()
      reads this
    {
      Reachable(View())
    }

    /** Any event, between two of which tasks may change places. */
    method Perform(e: Event)
      requires Valid() && Enabled(View(), e)
      modifies this
      ensures Valid() && View() == Apply(old(View()), e)
    {
      hide Take, Release, Rerun, EndSave, Reachable;
      ghost var before := View();
      ReachableStep(before, e);
      match e {
        case CloseGuard(t) => ReleaseGuard(t);
        case CallTake(t) => TakeGuard(t, Hold);
        case CallSave(t) => InternalSaveObject(t);
        case CallRemove(t, target) => RemoveObject(t, target);
        case Resumed(t) => WakeUp(t);
        case Kill(t) => KillTask(t);
        case SaveDone(t, ok, landed, implRoute) => SaveReturns(t, ok, landed, implRoute);
        case OpenGuard(_) => Quiet(e);
        case Timeout(_) => Quiet(e);
        case Mutate => Quiet(e);
        case SetFlags(_, _, _) => Quiet(e);
      }
    }

    /** Any run. */
    method PerformAll(es: seq<Event>)
      requires Valid() && Possible(View(), es)
      modifies this
      ensures Valid() && View() == Exec(old(View()), es)
      decreases |es|
    {
      hide Apply, Enabled, Reachable;
      if es != [] {
        Perform(es[0]);
        PerformAll(es[1..]);
      }
    }

    /** What happens around the lock without touching it. */
    method Quiet(e: Event)
      requires Enabled(View(), e) && (e.OpenGuard? || e.Timeout? || e.Mutate? || e.SetFlags?)
      modifies this
      ensures View() == Apply(old(View()), e)
    {
      match e {
        case OpenGuard(t) => tasks := tasks[t := tasks[t].(guards := tasks[t].guards + [false])];
        case Timeout(t) => tasks := tasks[t := tasks[t].(pc := AwaitLock(tasks[t].pc.call, true))];
        case Mutate => memory := memory + 1;
        case SetFlags(o, f, c) => isObject, forcePull, cacheRemoved := o, f, c;
      }
    }

    /** A kill wakes the task if it waits. */
    method KillTask(t: TaskId)
      requires t in tasks
      modifies this
      ensures View() == Apply(old(View()), Kill(t))
    {
      var pc := tasks[t].pc;
      if pc.AwaitLock? {
        pc := AwaitLock(pc.call, true);
      }
      tasks := tasks[t := tasks[t].(pc := pc, exiting := true)];
      poisoned := poisoned || awaitTask == Some(t);
    }

    /** None is the task id 0. */
    method GetAwaitTaskId() returns (id: Option<TaskId>)
      modifies this
      ensures View() == DropExited(old(View())) && id == View().holder
    {
      if awaitTask.None? {
        return None;
      }
      if awaitTask.value in tasks && tasks[awaitTask.value].exiting {
        awaitTask := None;
        return None;
      }
      return awaitTask;
    }

    /** ResumeTaskAction: fails for a task that is not in its await any more. */
    method ResumeTask(t: TaskId) returns (ok: bool)
      modifies this
      ensures ok == CanResume(old(View()), t)
      ensures ok ==> View() == old(View()).At(t, AwaitLock(old(View()).tasks[t].pc.call, true))
      ensures !ok ==> View() == old(View())
    {
      ok := t in tasks && !tasks[t].exiting && tasks[t].pc.AwaitLock? && !tasks[t].pc.woken;
      if ok {
        tasks := tasks[t := tasks[t].(pc := AwaitLock(tasks[t].pc.call, true))];
      }
    }

    /** Wakes the first task of the list that can still be woken.  Each turn stops,
        removes the front, or marks the front to be removed by the next turn. */
    method ResumeAwaitTask()
      requires awaitTask.None?
      modifies this
      ensures View() == WakeFirst(old(View()))
    {
      var failedTask: Option<TaskId> := None;
      while |awaitList| > 0
        invariant awaitTask.None? && WakeFirst(View()) == WakeFirst(old(View()))
        invariant failedTask.Some? ==> !CanResume(View(), failedTask.value)
        decreases |awaitList|, if awaitList != [] && failedTask == Some(awaitList[0]) then 0 else 1
      {
        var id := GetAwaitTaskId();
        if id.Some? {
          break;
        }
        var front := awaitList[0];
        if !(front in tasks && tasks[front].exiting) && failedTask != Some(front) {
          var ok := ResumeTask(front);
          if ok {
            return;
          }
          failedTask := Some(front);
        } else {
          awaitList := awaitList[1..];
        }
      }
    }

    /** IoTaskGuard.ResumeAwaitTask; `took` says that the guard's awaitTaskId is set. */
    method ReleaseGuard(t: TaskId)
      requires t in tasks && tasks[t].guards != []
      modifies this
      ensures View() == Release(old(View()), t)
    {
      hide WakeFirst;
      var guards := tasks[t].guards;
      var took := guards[|guards| - 1];
      tasks := tasks[t := tasks[t].(guards := guards[..|guards| - 1])];
      if !took {
        return;
      }
      var id := GetAwaitTaskId();
      if id != Some(t) {
        return;
      }
      awaitTask := None;
      ResumeAwaitTask();
    }

    /** The tail of IoTaskGuard.Take. */
    method Own(t: TaskId)
      requires t in tasks && tasks[t].guards != []
      modifies this
      ensures View() == Acquire(old(View()), t)
    {
      var guards := tasks[t].guards;
      tasks := tasks[t := tasks[t].(guards := guards[|guards| - 1 := true])];
      awaitTask := Some(t);
      poisoned := poisoned || tasks[t].exiting;
    }

    /** IoTaskGuard.Take up to its first yield, with the call that follows it. */
    method TakeGuard(t: TaskId, call: Call)
      requires t in tasks && tasks[t].guards != []
      modifies this
      ensures View() == Take(old(View()), t, call)
    {
      hide Granted, Park;
      var id := GetAwaitTaskId();
      if id == Some(t) {
        AfterTake(t, call);
        return;
      }
      id := GetAwaitTaskId();
      if id.None? {
        Own(t);
        AfterTake(t, call);
        return;
      }
      Wait(t, call);
    }

    /** One turn of AwaitIOTask's loop, up to the yield. */
    method Wait(t: TaskId, call: Call)
      requires t in tasks
      modifies this
      ensures View() == Park(old(View()), t, call)
    {
      if tasks[t].exiting {
        tasks := tasks[t := tasks[t].(pc := AwaitLock(call, true))];
      } else {
        tasks := tasks[t := tasks[t].(pc := AwaitLock(call, false))];
        awaitList := awaitList + [t];
      }
    }

    /** The rest of a turn, after the yield. */
    method WakeUp(t: TaskId)
      requires t in tasks && tasks[t].guards != [] && tasks[t].pc.AwaitLock?
      modifies this
      ensures View() == Rerun(old(View()), t)
    {
      hide Granted, Park;
      var call := tasks[t].pc.call;
      RemoveWaiter(t);
      var id := GetAwaitTaskId();
      if id.Some? && id != Some(t) {
        Wait(t, call);
        return;
      }
      Own(t);
      AfterTake(t, call);
    }

    method RemoveWaiter(t: TaskId)
      modifies this
      ensures View() == old(View()).(queue := Without(old(View()).queue, t))
    {
      var left, i := [], 0;
      while i < |awaitList|
        invariant i <= |awaitList| && View() == old(View())
        invariant Without(awaitList, t) == left + Without(awaitList[i..], t)
      {
        if awaitList[i] != t {
          left := left + [awaitList[i]];
        }
        assert awaitList[i..][1..] == awaitList[i + 1..];
        i := i + 1;
      }
      assert left == Without(awaitList, t);
      awaitList := left;
    }

    /** What the caller of Take does once it owns the object. */
    method AfterTake(t: TaskId, call: Call)
      requires t in tasks && tasks[t].guards != []
      modifies this
      ensures View() == Granted(old(View()), t, call)
    {
      hide BeginSave, BeginRemoval;
      match call {
        case Hold => tasks := tasks[t := tasks[t].(pc := Ready)];
        case Save(number) => SaveOwned(t, number, None);
        case Remove(target) => RemoveOwned(t, target);
      }
    }

    /** InternalSaveObject behind its Take, up to the database call. */
    method SaveOwned(t: TaskId, number: nat, undo: Option<Route>)
      requires t in tasks
      modifies this
      ensures View() == BeginSave(old(View()), t, number, undo)
    {
      if !isObject || forcePull || cacheRemoved {
        Answer(t, number, undo, false);
        return;
      }
      if savedSequence >= number {
        Answer(t, number, undo, true);
        return;
      }
      var realSavingSeq := savingSequence;
      tasks := tasks[t := tasks[t].(pc := Saving(number, realSavingSeq, memory, undo))];
    }

    /** The result of a save goes to its caller; RemoveObject then downgrades the
        object or puts its old route back. */
    method Answer(t: TaskId, number: nat, undo: Option<Route>, ok: bool)
      requires t in tasks
      modifies this
      ensures View() == Return(old(View()), t, number, undo, ok)
    {
      Reply(t, number, ok);
      if undo.Some? {
        if ok {
          isObject, committed := false, route;
        } else {
          route := undo.value;
        }
      }
    }

    method Reply(t: TaskId, number: nat, ok: bool)
      requires t in tasks
      modifies this
      ensures View() == old(View()).At(t, Ready).(acked := if ok then old(acked) + [number] else old(acked))
    {
      tasks := tasks[t := tasks[t].(pc := Ready)];
      acked := if ok then acked + [number] else acked;
    }

    method NextNumber() returns (thisSavingSeq: nat)
      modifies this
      ensures View() == IssueNumber(old(View())) && thisSavingSeq == View().savingSequence
    {
      savingSequence, issued := savingSequence + 1, issued + [memory];
      thisSavingSeq := savingSequence;
    }

    /** RemoveObject behind its Take, up to the database call of the nested save. */
    method RemoveOwned(t: TaskId, target: nat)
      requires t in tasks && tasks[t].guards != []
      modifies this
      ensures View() == BeginRemoval(old(View()), t, target)
    {
      hide BeginSave, DropExited;
      if !isObject || forcePull || cacheRemoved {
        tasks := tasks[t := tasks[t].(pc := Ready)];
        return;
      }
      var before := route;
      if target != before.serverId {
        route := Route(target, before.version + 1);
      }
      var thisSavingSeq := NextNumber();
      DropExitedKeepsTasks(View());
      var id := GetAwaitTaskId();
      if id != Some(t) {
        Own(t);
      }
      SaveOwned(t, thisSavingSeq, Some(before));
    }

    /** InternalSaveObject up to its first yield. */
    method InternalSaveObject(t: TaskId)
      requires Enabled(View(), CallSave(t))
      modifies this
      ensures View() == Apply(old(View()), CallSave(t))
    {
      hide Take;
      if !isObject || forcePull || cacheRemoved {
        return;
      }
      var thisSavingSeq := NextNumber();
      TakeGuard(t, Save(thisSavingSeq));
    }

    /** RemoveObject up to its first yield. */
    method RemoveObject(t: TaskId, target: nat)
      requires Enabled(View(), CallRemove(t, target))
      modifies this
      ensures View() == Apply(old(View()), CallRemove(t, target))
    {
      hide Take;
      TakeGuard(t, Remove(target));
    }

    /** The rest of InternalSaveObject, and of RemoveObject around it. */
    method SaveReturns(t: TaskId, ok: bool, ghost landed: bool, implRoute: Option<Route>)
      requires Enabled(View(), SaveDone(t, ok, landed, implRoute))
      modifies this
      ensures View() == Apply(old(View()), SaveDone(t, ok, landed, implRoute))
    {
      hide Return, Finished;
      var pc := tasks[t].pc;
      FinishedKeepsTasks(View(), pc, ok, landed, implRoute);
      RecordSave(pc, ok, landed, implRoute);
      Answer(t, pc.number, pc.undo, ok);
    }

    method RecordSave(pc: Pc, ok: bool, ghost landed: bool, implRoute: Option<Route>)
      requires pc.Saving?
      modifies this
      ensures View() == Finished(old(View()), pc, ok, landed, implRoute)
    {
      KeepRoute(pc, implRoute);
      if ok {
        if pc.covers > savedSequence {
          savedSequence := pc.covers;
        }
        stored, writes := pc.snapshot, writes + [Write(pc.covers, pc.snapshot)];
      } else if landed {
        stored := pc.snapshot;
      }
    }

    /** A route that the SaveObject implementation has set. */
    method KeepRoute(pc: Pc, implRoute: Option<Route>)
      requires pc.Saving?
      modifies this
      ensures View() == match implRoute
                        case None => old(View())
                        case Some(r) =>
                          old(View()).(route := r, committed := if pc.undo.None? then r else old(committed))
    {
      if implRoute.Some? {
        route := implRoute.value;
        committed := if pc.undo.None? then route else committed;
      }
    }
  }
}
