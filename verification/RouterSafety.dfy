/** What every run of the router object's lock keeps: exclusion, re-entrancy,
    and, while no exiting task holds the lock, no lost wake-up. */
module RouterSafety {
  import opened Options
  import opened RouterIo

  /** How many of a task's guards took the lock. */
  function Owned(guards: seq<bool>): nat {
    if guards == [] then 0
    else Owned(guards[..|guards| - 1]) + (if guards[|guards| - 1] then 1 else 0)
  }

  ghost predicate NoDuplicates(q: seq<TaskId>) {
    forall i, j :: 0 <= i < j < |q| ==> q[i] != q[j]
  }

  predicate Waiting(s: State, t: TaskId) { t in s.tasks && s.tasks[t].pc.AwaitLock? && !s.tasks[t].pc.woken }

  predicate Woken(s: State, t: TaskId) { t in s.tasks && s.tasks[t].pc.AwaitLock? && s.tasks[t].pc.woken }

  predicate LockTask(s: State, t: TaskId)
    requires t in s.tasks
  {
    var task := s.tasks[t];
    && (!task.exiting ==> Owned(task.guards) == if s.holder == Some(t) then 1 else 0)
    && (s.holder == Some(t) ==> !task.pc.AwaitLock?)
    && (task.pc.AwaitLock? ==> task.guards != [])
    && (task.pc.AwaitLock? && !task.pc.woken ==> !task.exiting && t in s.queue)
    && (task.pc.Saving? && !task.exiting ==> s.holder == Some(t))
    && (task.exiting && !s.poisoned ==> s.holder != Some(t) && !task.pc.Saving?)
  }

  predicate Queued(s: State, t: TaskId) { t in s.tasks && s.tasks[t].pc.AwaitLock? }

  /** All of the lock invariant except for the task `but`, which is mid-step. */
  ghost predicate LockBut(s: State, but: Option<TaskId>) {
    && (s.holder.Some? ==> s.holder.value in s.tasks)
    && NoDuplicates(s.queue)
    && (forall t :: t in s.queue ==> Queued(s, t) && but != Some(t))
    && (forall t :: t in s.tasks && but != Some(t) ==> LockTask(s, t))
  }

  ghost predicate NoLostWakeup(s: State) {
    !s.poisoned && s.holder.None? && (exists t :: Waiting(s, t)) ==> exists u :: Woken(s, u)
  }

  ghost predicate LockInv(s: State) { LockBut(s, None) && NoLostWakeup(s) }

  // ------------------------------------------------------------------ steps

  lemma OwnedLast(g: seq<bool>)
    requires g != []
    ensures var h := g[|g| - 1 := true]; Owned(h) == Owned(g[..|g| - 1]) + 1
    ensures Owned(g + [false]) == Owned(g)
  {
  }

  lemma {:induction false} WithoutSpec(q: seq<TaskId>, t: TaskId)
    requires NoDuplicates(q)
    ensures NoDuplicates(Without(q, t))
    ensures forall u :: u in Without(q, t) <==> u in q && u != t
  {
    if q == [] {
    } else {
      var rest := q[1..];
      assert forall u :: u in q <==> u == q[0] || u in rest;
      assert NoDuplicates(rest) by {
        assert forall i :: 0 <= i < |rest| ==> rest[i] == q[i + 1];
      }
      assert q[0] !in rest;
      WithoutSpec(rest, t);
    }
  }

  lemma DropExitedLock(s: State, but: Option<TaskId>)
    requires LockBut(s, but)
    ensures LockBut(DropExited(s), but)
  {
  }

  lemma AcquireLock(s: State, t: TaskId)
    requires t in s.tasks && s.tasks[t].guards != []
    requires LockBut(s, Some(t)) && s.holder.None?
    requires !s.tasks[t].exiting ==> Owned(s.tasks[t].guards) == 0
    ensures LockBut(Acquire(s, t), Some(t))
    ensures !s.tasks[t].exiting ==> Owned(Acquire(s, t).tasks[t].guards) == 1
  {
  }

  /** `r` is `s` but for the pc of `t`, as far as the lock can see. */
  ghost predicate OnlyPc(s: State, r: State, t: TaskId) {
    && t in s.tasks && t in r.tasks && !r.tasks[t].pc.AwaitLock?
    && r.holder == s.holder && r.queue == s.queue && r.poisoned == s.poisoned
    && r.tasks == s.tasks[t := s.tasks[t].(pc := r.tasks[t].pc)]
  }

  lemma BeginSaveOnlyPc(s: State, t: TaskId, number: nat, undo: Option<Route>)
    requires t in s.tasks
    ensures OnlyPc(s, BeginSave(s, t, number, undo), t)
  {
  }

  /** Whatever the granted call does, the lock, the queue and the guards stay. */
  lemma GrantedKeepsLock(s: State, t: TaskId, call: Call)
    requires t in s.tasks && s.tasks[t].guards != [] && s.holder == Some(t)
    requires s.tasks[t].exiting ==> s.poisoned && s.tasks[t].guards[|s.tasks[t].guards| - 1]
    ensures OnlyPc(s, Granted(s, t, call), t)
  {
    match call
    case Hold =>
    case Save(number) => BeginSaveOnlyPc(s, t, number, None);
    case Remove(target) =>
      if s.Writable() {
        var s1 := if target != s.route.serverId then s.(route := Route(target, s.route.version + 1)) else s;
        var s2 := DropExited(IssueNumber(s1));
        var s3 := if s2.holder == Some(t) then s2 else Acquire(s2, t);
        var g := s.tasks[t].guards;
        if s.tasks[t].exiting { assert g[|g| - 1 := true] == g; }
        assert s3.tasks == s.tasks && s3.holder == s.holder && s3.poisoned == s.poisoned;
        BeginSaveOnlyPc(s3, t, s3.savingSequence, Some(s.route));
      }
  }

  lemma GrantedLock(s: State, t: TaskId, call: Call)
    requires t in s.tasks && s.tasks[t].guards != [] && s.holder == Some(t)
    requires s.tasks[t].exiting ==> s.poisoned && s.tasks[t].guards[|s.tasks[t].guards| - 1]
    requires LockBut(s, Some(t))
    requires !s.tasks[t].exiting ==> Owned(s.tasks[t].guards) == 1
    ensures LockInv(Granted(s, t, call))
  {
    GrantedKeepsLock(s, t, call);
    var r := Granted(s, t, call);
    forall u | u in r.tasks && u != t ensures LockTask(r, u) { assert LockTask(s, u); }
    forall u | u in r.queue ensures Queued(r, u) { assert Queued(s, u); }
  }

  lemma ParkLock(s: State, t: TaskId, call: Call)
    requires t in s.tasks && s.tasks[t].guards != []
    requires LockBut(s, Some(t)) && s.holder.Some? && s.holder != Some(t)
    requires !s.tasks[t].exiting ==> Owned(s.tasks[t].guards) == 0
    ensures LockInv(Park(s, t, call))
  {
    var r := Park(s, t, call);
    forall u | u in r.tasks && u != t ensures LockTask(r, u) { assert LockTask(s, u); }
    forall u | u in r.queue ensures Queued(r, u) { assert u != t ==> Queued(s, u); }
  }

  /** A task that is not queued can be put aside. */
  lemma PutAside(s: State, t: TaskId)
    requires LockBut(s, None) && Idle(s, t)
    ensures LockBut(s, Some(t)) && LockTask(s, t)
  {
    assert t in s.queue ==> Queued(s, t);
  }

  lemma TakeFromLock(s: State, t: TaskId, call: Call)
    requires LockBut(s, Some(t)) && Guarded(s, t) && LockTask(s, t) && !(s.holder == Some(t) && s.tasks[t].exiting)
    ensures if s.holder == Some(t) then LockInv(Granted(s, t, call))
            else if s.holder.None? then LockInv(Granted(Acquire(s, t), t, call))
            else LockInv(Park(s, t, call))
  {
    hide Granted, Park, Owned, LockBut, NoLostWakeup;
    if s.holder == Some(t) {
      GrantedLock(s, t, call);
    } else if s.holder.None? {
      AcquireLock(s, t);
      GrantedLock(Acquire(s, t), t, call);
    } else {
      ParkLock(s, t, call);
    }
  }

  lemma TakeLock(s: State, t: TaskId, call: Call)
    requires LockInv(s) && Guarded(s, t)
    ensures LockInv(Take(s, t, call))
  {
    PutAside(s, t);
    hide Granted, Park, Owned, LockBut, NoLostWakeup;
    DropExitedLock(s, Some(t));
    TakeFromLock(DropExited(s), t, call);
  }

  lemma LeaveQueue(s: State, t: TaskId)
    requires LockBut(s, None) && t in s.tasks
    ensures LockBut(s.(queue := Without(s.queue, t)), Some(t)) && LockTask(s, t)
  {
    WithoutSpec(s.queue, t);
    var s0 := s.(queue := Without(s.queue, t));
    forall u | u in s0.tasks && u != t ensures LockTask(s0, u) { assert LockTask(s, u); }
    forall u | u in s0.queue ensures Queued(s0, u) { assert Queued(s, u); }
  }

  lemma RerunLock(s: State, t: TaskId)
    requires LockInv(s) && Enabled(s, Resumed(t))
    ensures LockInv(Rerun(s, t))
  {
    LeaveQueue(s, t);
    hide Granted, Park, Owned, LockBut, NoLostWakeup, Without;
    var s0 := s.(queue := Without(s.queue, t));
    DropExitedLock(s0, Some(t));
    var s1 := DropExited(s0);
    var call := s.tasks[t].pc.call;
    if s1.holder.None? {
      AcquireLock(s1, t);
      GrantedLock(Acquire(s1, t), t, call);
    } else {
      ParkLock(s1, t, call);
    }
  }

  /** On a free lock WakeFirst leaves a woken task behind whenever someone waits. */
  lemma {:induction false} WakeFirstLock(s: State)
    requires LockBut(s, None) && s.holder.None?
    ensures LockInv(WakeFirst(s))
    decreases |s.queue|
  {
    if s.queue == [] {
      assert forall t :: Waiting(s, t) ==> LockTask(s, t);
    } else {
      var t := s.queue[0];
      assert Queued(s, t);
      if CanResume(s, t) {
        var r := WakeFirst(s);
        assert LockTask(s, t);
        forall u | u in r.tasks ensures LockTask(r, u) { assert LockTask(s, u); }
        forall u | u in r.queue ensures Queued(r, u) { assert Queued(s, u); }
        assert Woken(r, t);
      } else {
        var s1 := s.(queue := s.queue[1..]);
        assert forall u :: u in s.queue <==> u == t || u in s1.queue;
        forall u | u in s1.tasks ensures LockTask(s1, u) { assert LockTask(s, u); }
        forall u | u in s1.queue ensures Queued(s1, u) { assert Queued(s, u); }
        WakeFirstLock(s1);
      }
    }
  }

  /** A change to one task that keeps the lock, the queue and what the task owns. */
  lemma OneTaskLock(s: State, r: State, t: TaskId)
    requires LockInv(s) && t in s.tasks && t in r.tasks
    requires r.holder == s.holder && r.queue == s.queue
    requires r.poisoned == (s.poisoned || (r.tasks[t].exiting && s.holder == Some(t)))
    requires r.tasks == s.tasks[t := r.tasks[t]] && LockTask(r, t)
    requires s.tasks[t].pc.AwaitLock? == r.tasks[t].pc.AwaitLock?
    requires Woken(s, t) ==> Woken(r, t)
    ensures LockInv(r)
  {
    forall u | u in r.tasks ensures LockTask(r, u) { assert LockTask(s, u); }
    forall u | u in r.queue ensures Queued(r, u) { assert Queued(s, u); }
    if u :| Waiting(r, u) {
      assert Waiting(s, u);
      if !r.poisoned && r.holder.None? {
        var v :| Woken(s, v);
        assert Woken(r, v);
      }
    }
  }

  /** The guard that took the lock is closed by its live task. */
  lemma ReleaseOwnedLock(s: State, t: TaskId)
    requires LockInv(s) && Guarded(s, t) && s.holder == Some(t) && !s.tasks[t].exiting
    requires s.tasks[t].guards[|s.tasks[t].guards| - 1]
    ensures LockInv(Release(s, t))
  {
    var g := s.tasks[t].guards;
    var s1 := s.With(t, s.tasks[t].(guards := g[..|g| - 1])).(holder := None);
    assert LockTask(s, t);
    assert t in s.queue ==> Queued(s, t);
    forall u | u in s1.tasks ensures LockTask(s1, u) { assert LockTask(s, u); }
    forall u | u in s1.queue ensures Queued(s1, u) { assert Queued(s, u); }
    hide WakeFirst, Owned, NoDuplicates;
    WakeFirstLock(s1);
  }

  lemma DropExitedInv(s: State)
    requires LockInv(s)
    ensures LockInv(DropExited(s))
  {
    DropExitedLock(s, None);
    if s.holder.Some? { assert LockTask(s, s.holder.value); }
  }

  /** Any other guard is closed: nobody can be woken by that. */
  lemma ReleaseNestedLock(s: State, t: TaskId)
    requires LockInv(s) && Guarded(s, t)
    requires !(s.tasks[t].guards[|s.tasks[t].guards| - 1] && s.holder == Some(t) && !s.tasks[t].exiting)
    ensures LockInv(Release(s, t))
  {
    var g := s.tasks[t].guards;
    var closed := s.With(t, s.tasks[t].(guards := g[..|g| - 1]));
    assert LockTask(s, t);
    assert LockTask(closed, t);
    hide LockInv, LockTask, Owned, WakeFirst;
    OneTaskLock(s, closed, t);
    DropExitedInv(closed);
  }

  lemma ReleaseLock(s: State, t: TaskId)
    requires LockInv(s) && Guarded(s, t)
    ensures LockInv(Release(s, t))
  {
    hide LockInv;
    var g := s.tasks[t].guards;
    if g[|g| - 1] && s.holder == Some(t) && !s.tasks[t].exiting {
      ReleaseOwnedLock(s, t);
    } else {
      ReleaseNestedLock(s, t);
    }
  }

  /** Events that the lock does not look at. */
  lemma QuietLock(s: State, r: State)
    requires LockInv(s)
    requires r.holder == s.holder && r.queue == s.queue && r.poisoned == s.poisoned && r.tasks == s.tasks
    ensures LockInv(r)
  {
    forall u | u in r.tasks ensures LockTask(r, u) { assert LockTask(s, u); }
    forall u | u in r.queue ensures Queued(r, u) { assert Queued(s, u); }
    if u :| Waiting(r, u) {
      assert Waiting(s, u);
      if !r.poisoned && r.holder.None? {
        var v :| Woken(s, v);
        assert Woken(r, v);
      }
    }
  }

  lemma OpenGuardLock(s: State, t: TaskId)
    requires LockInv(s) && Idle(s, t)
    ensures LockInv(Apply(s, OpenGuard(t)))
  {
    assert LockTask(s, t);
    if s.tasks[t].guards != [] { OwnedLast(s.tasks[t].guards); }
    OneTaskLock(s, Apply(s, OpenGuard(t)), t);
  }

  lemma TimeoutLock(s: State, t: TaskId)
    requires LockInv(s) && CanResume(s, t)
    ensures LockInv(Apply(s, Timeout(t)))
  {
    assert LockTask(s, t);
    OneTaskLock(s, Apply(s, Timeout(t)), t);
  }

  lemma KillLock(s: State, t: TaskId)
    requires LockInv(s) && t in s.tasks
    ensures LockInv(Apply(s, Kill(t)))
  {
    assert LockTask(s, t);
    OneTaskLock(s, Apply(s, Kill(t)), t);
  }

  lemma EndSaveOneTask(s: State, t: TaskId, ok: bool, landed: bool, implRoute: Option<Route>)
    requires t in s.tasks && s.tasks[t].pc.Saving?
    ensures var r := EndSave(s, t, ok, landed, implRoute);
      && r.holder == s.holder && r.queue == s.queue && r.poisoned == s.poisoned
      && r.tasks == s.tasks[t := s.tasks[t].(pc := Ready)]
  {
  }

  lemma EndSaveLock(s: State, t: TaskId, ok: bool, landed: bool, implRoute: Option<Route>)
    requires LockInv(s) && t in s.tasks && s.tasks[t].pc.Saving?
    ensures LockInv(EndSave(s, t, ok, landed, implRoute))
  {
    assert LockTask(s, t);
    hide LockBut, NoLostWakeup, Owned, EndSave;
    EndSaveOneTask(s, t, ok, landed, implRoute);
    OneTaskLock(s, EndSave(s, t, ok, landed, implRoute), t);
  }

  lemma StepLock(s: State, e: Event)
    requires LockInv(s) && Enabled(s, e)
    ensures LockInv(Apply(s, e))
  {
    match e
    case CloseGuard(t) => ReleaseLock(s, t);
    case CallTake(t) => TakeLock(s, t, Hold);
    case CallSave(t) =>
      if s.Writable() {
        var s1 := IssueNumber(s);
        QuietLock(s, s1);
        TakeLock(s1, t, Save(s1.savingSequence));
      }
    case CallRemove(t, target) => TakeLock(s, t, Remove(target));
    case Resumed(t) => RerunLock(s, t);
    case OpenGuard(t) => OpenGuardLock(s, t);
    case Timeout(t) => TimeoutLock(s, t);
    case Kill(t) => KillLock(s, t);
    case SaveDone(t, ok, landed, implRoute) => EndSaveLock(s, t, ok, landed, implRoute);
    case Mutate => QuietLock(s, Apply(s, e));
    case SetFlags(_, _, _) => QuietLock(s, Apply(s, e));
  }

  lemma InitLock(s: State)
    requires Init(s)
    ensures LockInv(s)
  {
  }
}
