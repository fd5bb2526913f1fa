/** What an acknowledged save means, and what a removal leaves behind. */
module RouterDurability {
  import opened Options
  import opened RouterIo
  import opened RouterSafety

  /** `snapshot` contains every change that was in memory when one of the first
      `covers` numbers was handed out. */
  ghost predicate Covers(issued: seq<nat>, covers: nat, snapshot: nat) {
    covers <= |issued| && forall k :: 0 <= k < covers ==> issued[k] <= snapshot
  }

  ghost predicate SavingPc(s: State, pc: Pc) {
    && (pc.AwaitLock? && pc.call.Save? ==> 1 <= pc.call.number <= s.savingSequence)
    && (pc.Saving? ==>
          && 1 <= pc.number <= pc.covers
          && Covers(s.issued, pc.covers, pc.snapshot) && pc.snapshot <= s.memory
          && (!s.poisoned ==> s.savedSequence < pc.number && s.stored <= pc.snapshot))
  }

  ghost predicate Numbers(s: State) {
    && s.savedSequence <= s.savingSequence == |s.issued|
    && (forall k :: 0 <= k < |s.issued| ==> s.issued[k] <= s.memory)
    && s.stored <= s.memory
    && (!s.poisoned ==> Covers(s.issued, s.savedSequence, s.stored))
  }

  ghost predicate Written(s: State) {
    && (forall w :: w in s.writes ==> Covers(s.issued, w.covers, w.snapshot) && w.covers <= s.savedSequence)
    && (s.savedSequence > 0 ==> exists w :: w in s.writes && w.covers == s.savedSequence)
    && (forall a :: a in s.acked ==> 1 <= a <= s.savedSequence)
  }

  ghost predicate PcsBut(s: State, but: Option<TaskId>) {
    forall t :: t in s.tasks && but != Some(t) ==> SavingPc(s, s.tasks[t].pc)
  }

  ghost predicate SaveInv(s: State) { Numbers(s) && Written(s) && PcsBut(s, None) }

  /** While nobody poisons the lock, the route changes only through finished operations. */
  ghost predicate RouteInv(s: State) {
    !s.poisoned ==>
      if s.holder.Some? && s.holder.value in s.tasks
         && s.tasks[s.holder.value].pc.Saving? && s.tasks[s.holder.value].pc.undo.Some?
      then s.tasks[s.holder.value].pc.undo.value == s.committed
      else s.route == s.committed
  }

  ghost predicate Inv(s: State) { LockInv(s) && SaveInv(s) && RouteInv(s) }

  // ------------------------------------------------------------------ steps

  /** Steps that leave the numbers, the database and the route alone. */
  ghost predicate SameHistory(s: State, r: State) {
    && r.savingSequence == s.savingSequence && r.savedSequence == s.savedSequence && r.issued == s.issued
    && r.stored == s.stored && r.writes == s.writes && r.acked == s.acked
    && r.route == s.route && r.committed == s.committed
    && r.memory >= s.memory && (s.poisoned ==> r.poisoned)
  }

  lemma SameHistorySaves(s: State, r: State, but: Option<TaskId>)
    requires Numbers(s) && Written(s) && PcsBut(s, but) && SameHistory(s, r)
    requires forall t :: t in r.tasks && but != Some(t) ==>
               t in s.tasks && (r.tasks[t].pc == s.tasks[t].pc
                                || (r.tasks[t].pc.AwaitLock? && s.tasks[t].pc.AwaitLock?
                                    && r.tasks[t].pc.call == s.tasks[t].pc.call))
    ensures Numbers(r) && Written(r) && PcsBut(r, but)
  {
  }

  lemma {:induction false} WakeFirstHistory(s: State)
    ensures var r := WakeFirst(s);
      && SameHistory(s, r) && r.holder == s.holder && r.memory == s.memory && r.poisoned == s.poisoned
      && r.tasks.Keys == s.tasks.Keys
      && forall t :: t in r.tasks ==>
           r.tasks[t].pc == s.tasks[t].pc
           || (r.tasks[t].pc.AwaitLock? && s.tasks[t].pc.AwaitLock? && r.tasks[t].pc.call == s.tasks[t].pc.call)
    decreases |s.queue|
  {
    if s.queue != [] && !CanResume(s, s.queue[0]) { WakeFirstHistory(s.(queue := s.queue[1..])); }
  }

  lemma ReturnSaves(s: State, t: TaskId, number: nat, undo: Option<Route>, ok: bool)
    requires t in s.tasks && Numbers(s) && Written(s) && PcsBut(s, Some(t))
    requires ok ==> 1 <= number <= s.savedSequence
    ensures SaveInv(Return(s, t, number, undo, ok))
  {
    var r := Return(s, t, number, undo, ok);
    forall u | u in r.tasks ensures SavingPc(r, r.tasks[u].pc) {
      if u != t { assert SavingPc(s, s.tasks[u].pc); }
    }
  }

  lemma BeginSaveSaves(s: State, t: TaskId, number: nat, undo: Option<Route>)
    requires t in s.tasks && Numbers(s) && Written(s) && PcsBut(s, Some(t))
    requires 1 <= number <= s.savingSequence
    ensures SaveInv(BeginSave(s, t, number, undo))
  {
    if !s.Writable() {
      ReturnSaves(s, t, number, undo, false);
    } else if s.savedSequence >= number {
      ReturnSaves(s, t, number, undo, true);
    } else {
      var r := BeginSave(s, t, number, undo);
      forall u | u in r.tasks ensures SavingPc(r, r.tasks[u].pc) {
        if u != t { assert SavingPc(s, s.tasks[u].pc); }
      }
    }
  }

  lemma IssueSaves(s: State, but: Option<TaskId>)
    requires Numbers(s) && Written(s) && PcsBut(s, but)
    ensures Numbers(IssueNumber(s)) && Written(IssueNumber(s)) && PcsBut(IssueNumber(s), but)
  {
  }

  lemma StartedRemovalSaves(s: State, t: TaskId, before: Route)
    requires t in s.tasks && s.tasks[t].guards != [] && Numbers(s) && Written(s) && PcsBut(s, Some(t))
    ensures var s2 := DropExited(IssueNumber(s));
            var s3 := if s2.holder == Some(t) then s2 else Acquire(s2, t);
            SaveInv(BeginSave(s3, t, s3.savingSequence, Some(before)))
  {
    IssueSaves(s, Some(t));
    var s1 := IssueNumber(s);
    assert s1.savingSequence >= 1;
    hide SavingPc, Numbers, Written, BeginSave, IssueNumber;
    var s2 := DropExited(s1);
    var s3 := if s2.holder == Some(t) then s2 else Acquire(s2, t);
    SameHistorySaves(s1, s3, Some(t));
    BeginSaveSaves(s3, t, s3.savingSequence, Some(before));
  }

  lemma RemovalSaves(s: State, t: TaskId, target: nat)
    requires t in s.tasks && s.tasks[t].guards != [] && Numbers(s) && Written(s) && PcsBut(s, Some(t))
    ensures SaveInv(BeginRemoval(s, t, target))
  {
    if !s.Writable() {
      ReturnSaves(s, t, 0, None, false);
      assert Return(s, t, 0, None, false) == BeginRemoval(s, t, target);
    } else {
      var s1 := if target != s.route.serverId then s.(route := Route(target, s.route.version + 1)) else s;
      RouteSaves(s, s1.route, t);
      hide SaveInv, Numbers, Written, PcsBut, BeginSave, Acquire;
      StartedRemovalSaves(s1, t, s.route);
    }
  }

  lemma RouteSaves(s: State, route: Route, t: TaskId)
    requires Numbers(s) && Written(s) && PcsBut(s, Some(t))
    ensures var r := s.(route := route); Numbers(r) && Written(r) && PcsBut(r, Some(t))
  {
    assert forall u :: u in s.tasks && u != t ==> SavingPc(s, s.tasks[u].pc);
  }

  ghost predicate ValidCall(s: State, call: Call) { call.Save? ==> 1 <= call.number <= s.savingSequence }

  lemma GrantedSaves(s: State, t: TaskId, call: Call)
    requires t in s.tasks && s.tasks[t].guards != [] && Numbers(s) && Written(s) && PcsBut(s, Some(t))
    requires ValidCall(s, call)
    ensures SaveInv(Granted(s, t, call))
  {
    match call
    case Hold => ReturnSaves(s, t, 0, None, false); assert Return(s, t, 0, None, false) == Granted(s, t, call);
    case Save(number) => BeginSaveSaves(s, t, number, None);
    case Remove(target) => RemovalSaves(s, t, target);
  }

  lemma PcsJoin(s: State, t: TaskId)
    requires PcsBut(s, Some(t)) && t in s.tasks && SavingPc(s, s.tasks[t].pc)
    ensures PcsBut(s, None)
  {
  }

  lemma ParkHistory(s: State, t: TaskId, call: Call)
    requires t in s.tasks
    ensures var r := Park(s, t, call);
            && SameHistory(s, r) && t in r.tasks && r.tasks[t].pc.AwaitLock? && r.tasks[t].pc.call == call
            && forall u :: u in r.tasks && u != t ==> u in s.tasks && r.tasks[u].pc == s.tasks[u].pc
  {
  }

  lemma ParkSaves(s: State, t: TaskId, call: Call)
    requires t in s.tasks && Numbers(s) && Written(s) && PcsBut(s, Some(t)) && ValidCall(s, call)
    ensures SaveInv(Park(s, t, call))
  {
    var r := Park(s, t, call);
    ParkHistory(s, t, call);
    hide Park, Numbers, Written, PcsBut;
    SameHistorySaves(s, r, Some(t));
    PcsJoin(r, t);
  }

  lemma OwnSaves(s: State, t: TaskId, call: Call)
    requires t in s.tasks && s.tasks[t].guards != [] && Numbers(s) && Written(s) && PcsBut(s, Some(t))
    requires ValidCall(s, call)
    ensures SaveInv(Granted(Acquire(s, t), t, call))
  {
    hide SavingPc, Numbers, Written, Granted;
    SameHistorySaves(s, Acquire(s, t), Some(t));
    GrantedSaves(Acquire(s, t), t, call);
  }

  lemma TakeSaves(s: State, t: TaskId, call: Call)
    requires SaveInv(s) && t in s.tasks && s.tasks[t].guards != [] && ValidCall(s, call)
    ensures SaveInv(Take(s, t, call))
  {
    hide SavingPc, Numbers, Written, Granted, Acquire, Park;
    var s1 := DropExited(s);
    SameHistorySaves(s, s1, Some(t));
    if s1.holder == Some(t) {
      GrantedSaves(s1, t, call);
    } else if s1.holder.None? {
      OwnSaves(s1, t, call);
    } else {
      ParkSaves(s1, t, call);
    }
  }

  lemma RerunSaves(s: State, t: TaskId)
    requires SaveInv(s) && Enabled(s, Resumed(t))
    ensures SaveInv(Rerun(s, t))
  {
    var call := s.tasks[t].pc.call;
    assert ValidCall(s, call) by { assert SavingPc(s, s.tasks[t].pc); }
    hide SavingPc, Numbers, Written, Granted, Acquire, Park, Without;
    var s1 := DropExited(s.(queue := Without(s.queue, t)));
    SameHistorySaves(s, s1, Some(t));
    if s1.holder.None? || s1.holder == Some(t) {
      OwnSaves(s1, t, call);
    } else {
      ParkSaves(s1, t, call);
    }
  }

  lemma ReleaseSaves(s: State, t: TaskId)
    requires SaveInv(s) && Guarded(s, t)
    ensures SaveInv(Release(s, t))
  {
    hide SavingPc, Numbers, Written, WakeFirst;
    var g := s.tasks[t].guards;
    var closed := s.With(t, s.tasks[t].(guards := g[..|g| - 1]));
    SameHistorySaves(s, closed, None);
    if g[|g| - 1] {
      var s1 := DropExited(closed);
      SameHistorySaves(closed, s1, None);
      if s1.holder == Some(t) {
        WakeFirstHistory(s1.(holder := None));
        SameHistorySaves(s1, Release(s, t), None);
      }
    }
  }

  lemma FinishedNumbers(s: State, pc: Pc, ok: bool, landed: bool, implRoute: Option<Route>)
    requires Numbers(s) && Written(s) && pc.Saving? && SavingPc(s, pc)
    ensures var r := Finished(s, pc, ok, landed, implRoute);
      && Numbers(r) && Written(r)
      && (ok ==> pc.number <= r.savedSequence)
  {
  }

  lemma FinishedOthers(s: State, t: TaskId, ok: bool, landed: bool, implRoute: Option<Route>)
    requires LockInv(s) && SaveInv(s) && t in s.tasks && s.tasks[t].pc.Saving?
    ensures PcsBut(Finished(s, s.tasks[t].pc, ok, landed, implRoute), Some(t))
  {
  }

  /** The end of a save: with no poisoned lock only the holder can be saving, so
      no other save is in flight. */
  lemma EndSaveSaves(s: State, t: TaskId, ok: bool, landed: bool, implRoute: Option<Route>)
    requires LockInv(s) && SaveInv(s) && t in s.tasks && s.tasks[t].pc.Saving?
    ensures SaveInv(EndSave(s, t, ok, landed, implRoute))
  {
    var pc := s.tasks[t].pc;
    assert SavingPc(s, pc);
    var s2 := Finished(s, pc, ok, landed, implRoute);
    FinishedNumbers(s, pc, ok, landed, implRoute);
    FinishedOthers(s, t, ok, landed, implRoute);
    ReturnSaves(s2, t, pc.number, pc.undo, ok);
  }

  lemma StepSaves(s: State, e: Event)
    requires LockInv(s) && SaveInv(s) && Enabled(s, e)
    ensures SaveInv(Apply(s, e))
  {
    match e
    case CloseGuard(t) => ReleaseSaves(s, t);
    case CallTake(t) => TakeSaves(s, t, Hold);
    case CallSave(t) =>
      if s.Writable() {
        IssueSaves(s, None);
        TakeSaves(IssueNumber(s), t, Save(s.savingSequence + 1));
      }
    case CallRemove(t, target) => TakeSaves(s, t, Remove(target));
    case Resumed(t) => RerunSaves(s, t);
    case SaveDone(t, ok, landed, implRoute) => EndSaveSaves(s, t, ok, landed, implRoute);
    case _ => SameHistorySaves(s, Apply(s, e), None);
  }

  // ------------------------------------------------------------------ the route

  lemma BeginSaveRoute(s: State, t: TaskId, number: nat, undo: Option<Route>)
    requires t in s.tasks && s.holder == Some(t)
    requires !s.poisoned ==> if undo.Some? then undo.value == s.committed else s.route == s.committed
    ensures RouteInv(BeginSave(s, t, number, undo))
  {
  }

  lemma GrantedRoute(s: State, t: TaskId, call: Call)
    requires t in s.tasks && s.tasks[t].guards != [] && s.holder == Some(t)
    requires s.tasks[t].exiting ==> s.poisoned
    requires !s.poisoned ==> s.route == s.committed
    ensures RouteInv(Granted(s, t, call))
  {
    match call
    case Hold =>
    case Save(number) => BeginSaveRoute(s, t, number, None);
    case Remove(target) =>
      if s.Writable() {
        var s1 := if target != s.route.serverId then s.(route := Route(target, s.route.version + 1)) else s;
        var s2 := DropExited(IssueNumber(s1));
        var s3 := if s2.holder == Some(t) then s2 else Acquire(s2, t);
        BeginSaveRoute(s3, t, s3.savingSequence, Some(s.route));
      }
  }

  /** Take and Rerun once the task has left the queue. */
  lemma TakenRoute(s: State, t: TaskId, call: Call, again: bool)
    requires t in s.tasks && s.tasks[t].guards != [] && RouteInv(s)
    requires s.holder == Some(t) ==> !s.tasks[t].pc.Saving?
    requires !s.poisoned && s.holder.Some? ==> !s.Exiting(s.holder.value)
    ensures var s1 := DropExited(s);
      RouteInv(if s1.holder == Some(t) && !again then Granted(s1, t, call)
               else if s1.holder.None? || s1.holder == Some(t) then Granted(Acquire(s1, t), t, call)
               else Park(s1, t, call))
  {
    hide Granted;
    var s1 := DropExited(s);
    if s1.holder == Some(t) && !again {
      GrantedRoute(s1, t, call);
    } else if s1.holder.None? || s1.holder == Some(t) {
      GrantedRoute(Acquire(s1, t), t, call);
    }
  }

  lemma ReleaseRoute(s: State, t: TaskId)
    requires LockInv(s) && RouteInv(s) && Guarded(s, t)
    ensures RouteInv(Release(s, t))
  {
    var g := s.tasks[t].guards;
    var closed := s.With(t, s.tasks[t].(guards := g[..|g| - 1]));
    if g[|g| - 1] {
      var s1 := DropExited(closed);
      if s1.holder == Some(t) { WakeFirstHistory(s1.(holder := None)); }
      if s.holder.Some? { assert LockTask(s, s.holder.value); }
    }
  }

  lemma EndSaveRoute(s: State, t: TaskId, ok: bool, landed: bool, implRoute: Option<Route>)
    requires LockInv(s) && RouteInv(s) && t in s.tasks && s.tasks[t].pc.Saving?
    ensures RouteInv(EndSave(s, t, ok, landed, implRoute))
  {
  }

  lemma QuietRoute(s: State, e: Event)
    requires LockInv(s) && RouteInv(s) && Enabled(s, e)
    requires e.OpenGuard? || e.Timeout? || e.Kill? || e.Mutate? || e.SetFlags?
    ensures RouteInv(Apply(s, e))
  {
  }

  lemma StepRoute(s: State, e: Event)
    requires LockInv(s) && RouteInv(s) && Enabled(s, e)
    ensures RouteInv(Apply(s, e))
  {
    if s.holder.Some? { assert LockTask(s, s.holder.value); }
    hide Granted, Release, EndSave, Park, Acquire;
    match e
    case CloseGuard(t) => ReleaseRoute(s, t);
    case CallTake(t) => TakenRoute(s, t, Hold, false);
    case CallSave(t) => if s.Writable() { TakenRoute(IssueNumber(s), t, Save(s.savingSequence + 1), false); }
    case CallRemove(t, target) => TakenRoute(s, t, Remove(target), false);
    case Resumed(t) =>
      assert LockTask(s, t);
      TakenRoute(s.(queue := Without(s.queue, t)), t, s.tasks[t].pc.call, true);
    case SaveDone(t, ok, landed, implRoute) => EndSaveRoute(s, t, ok, landed, implRoute);
    case _ => QuietRoute(s, e);
  }

  // ------------------------------------------------------------------ runs

  lemma StepInv(s: State, e: Event)
    requires Inv(s) && Enabled(s, e)
    ensures Inv(Apply(s, e))
  {
    hide LockInv, SaveInv, RouteInv, Apply, Enabled;
    StepLock(s, e);
    StepSaves(s, e);
    StepRoute(s, e);
  }

  lemma {:induction false} ExecInv(s: State, es: seq<Event>)
    requires Inv(s) && Possible(s, es)
    ensures Inv(Exec(s, es))
    decreases |es|
  {
    hide Inv, Apply, Enabled;
    if es == [] {
    } else {
      StepInv(s, es[0]);
      ExecInv(Apply(s, es[0]), es[1..]);
    }
  }

  ghost predicate Reachable(s: State) {
    exists s0, es :: Init(s0) && Possible(s0, es) && s == Exec(s0, es)
  }

  lemma ReachableInv(s: State)
    requires Reachable(s)
    ensures Inv(s)
  {
    var s0, es :| Init(s0) && Possible(s0, es) && s == Exec(s0, es);
    InitLock(s0);
    ExecInv(s0, es);
  }

  lemma {:induction false} ExecAppend(s: State, es: seq<Event>, rest: seq<Event>)
    requires Possible(s, es) && Possible(Exec(s, es), rest)
    ensures Possible(s, es + rest) && Exec(s, es + rest) == Exec(Exec(s, es), rest)
    decreases |es|
  {
    hide Apply, Enabled;
    if es == [] {
      assert es + rest == rest;
    } else {
      ExecAppend(Apply(s, es[0]), es[1..], rest);
      assert (es + rest)[0] == es[0] && (es + rest)[1..] == es[1..] + rest;
    }
  }

  lemma ReachableStep(s: State, e: Event)
    requires Reachable(s) && Enabled(s, e)
    ensures Reachable(Apply(s, e))
  {
    hide Apply, Enabled, Init;
    var s0, es :| Init(s0) && Possible(s0, es) && s == Exec(s0, es);
    var r := Apply(s, e);
    assert [e][1..] == [] && Possible(r, []) && Exec(r, []) == r;
    assert Possible(s, [e]) && Exec(s, [e]) == r;
    ExecAppend(s0, es, [e]);
  }
}
