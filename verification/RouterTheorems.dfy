/** The promises of the router object's lock and save path, over all runs. */
module RouterTheorems {
  import opened Options
  import opened RouterIo
  import opened RouterSafety
  import opened RouterDurability

  // ------------------------------------------------------------------ exclusion

  /** At most one live task owns the lock, it is the recorded holder, and exactly
      one of its guards will release it; only that task can be saving. */
  lemma LockIsExclusive(s: State, t: TaskId, u: TaskId)
    requires Reachable(s) && t in s.tasks && u in s.tasks
    requires !s.tasks[t].exiting && !s.tasks[u].exiting
    ensures Owned(s.tasks[t].guards) <= 1
    ensures Owned(s.tasks[t].guards) == 1 <==> s.holder == Some(t)
    ensures Owned(s.tasks[t].guards) == 1 && Owned(s.tasks[u].guards) == 1 ==> t == u
    ensures s.tasks[t].pc.Saving? && s.tasks[u].pc.Saving? ==> t == u
  {
    ReachableInv(s);
    assert LockTask(s, t) && LockTask(s, u);
  }

  /** A live holder loses the lock by exactly one event: closing, as its innermost
      guard, the guard that took it.  No other task's guard, no nested guard and no
      message ever takes it away. */
  lemma HeldUntilItsGuardCloses(s: State, e: Event, t: TaskId)
    requires Reachable(s) && Enabled(s, e)
    requires s.holder == Some(t) && !s.Exiting(t)
    ensures Apply(s, e).holder != Some(t) <==>
            e == CloseGuard(t) && s.tasks[t].guards[|s.tasks[t].guards| - 1]
  {
    ReachableInv(s);
    assert LockTask(s, t);
    hide Take, Release, Rerun, EndSave, Reachable, Inv, Owned;
    match e
    case CloseGuard(u) => HeldThroughRelease(s, u, t);
    case CallTake(u) => HeldThroughTake(s, u, Hold, t);
    case CallSave(u) => HeldThroughTake(IssueNumber(s), u, Save(s.savingSequence + 1), t);
    case CallRemove(u, target) => HeldThroughTake(s, u, Remove(target), t);
    case Resumed(u) => HeldThroughRerun(s, u, t);
    case SaveDone(u, ok, landed, implRoute) => EndSaveOneTask(s, u, ok, landed, implRoute);
    case _ =>
  }

  lemma HeldThroughRelease(s: State, u: TaskId, t: TaskId)
    requires s.holder == Some(t) && t in s.tasks && !s.tasks[t].exiting
    requires u in s.tasks && s.tasks[u].guards != []
    ensures Release(s, u).holder != Some(t) <==> u == t && s.tasks[t].guards[|s.tasks[t].guards| - 1]
  {
    if u == t && s.tasks[t].guards[|s.tasks[t].guards| - 1] {
      var g := s.tasks[t].guards;
      WakeFirstHistory(s.With(t, s.tasks[t].(guards := g[..|g| - 1])).(holder := None));
    }
  }

  lemma HeldThroughRerun(s: State, u: TaskId, t: TaskId)
    requires s.holder == Some(t) && t in s.tasks && !s.tasks[t].exiting
    requires u in s.tasks && s.tasks[u].guards != [] && s.tasks[u].pc.AwaitLock? && u != t
    ensures Rerun(s, u).holder == Some(t)
  {
  }

  lemma HeldThroughTake(s: State, u: TaskId, call: Call, t: TaskId)
    requires s.holder == Some(t) && t in s.tasks && !s.tasks[t].exiting
    requires u in s.tasks && s.tasks[u].guards != []
    ensures Take(s, u, call).holder == Some(t)
  {
    if u == t { GrantedKeepsLock(s, t, call); }
  }

  lemma InnerTake(s: State, t: TaskId)
    requires Idle(s, t) && s.holder == Some(t) && !s.tasks[t].exiting
    ensures var o := Apply(s, OpenGuard(t));
            && Guarded(o, t) && o.holder == Some(t) && !o.tasks[t].exiting
            && Apply(o, CallTake(t)) == o && Apply(o, CloseGuard(t)) == s
    ensures Guarded(s, t) ==> Apply(s, CallTake(t)) == s
  {
    var o := Apply(s, OpenGuard(t));
    assert s.tasks[t := s.tasks[t].(pc := Ready)] == s.tasks;
    var g := s.tasks[t].guards;
    assert (g + [false])[..|g|] == g;
    assert o.tasks[t := o.tasks[t].(pc := Ready)] == o.tasks;
    assert o.tasks[t := o.tasks[t].(guards := g)] == s.tasks;
  }

  /** A task opens and takes n nested guards and closes them again. */
  function Nest(t: TaskId, n: nat): seq<Event> {
    if n == 0 then [] else [OpenGuard(t), CallTake(t)] + (Nest(t, n - 1) + [CloseGuard(t)])
  }

  /** Nested takes by the owner, to any depth, are granted at once, and closing them
      neither releases the lock nor changes anything else. */
  lemma {:induction false} NestedTakesChangeNothing(s: State, t: TaskId, n: nat)
    requires Idle(s, t) && s.holder == Some(t) && !s.tasks[t].exiting
    ensures Possible(s, Nest(t, n)) && Exec(s, Nest(t, n)) == s
    decreases n
  {
    hide Apply;
    if n == 0 {
    } else {
      InnerTake(s, t);
      var o := Apply(s, OpenGuard(t));
      NestedTakesChangeNothing(o, t, n - 1);
      var close := [CloseGuard(t)];
      assert close[1..] == [] && Possible(s, []) && Exec(s, []) == s;
      assert Possible(o, close) && Exec(o, close) == s;
      var inner := Nest(t, n - 1) + close;
      ExecAppend(o, Nest(t, n - 1), close);
      var es := Nest(t, n);
      assert es[0] == OpenGuard(t) && es[1..] == [CallTake(t)] + inner && es[1..][1..] == inner;
      assert Possible(o, es[1..]) && Exec(o, es[1..]) == s;
    }
  }

  // ------------------------------------------------------------------ runs without kills

  /** Without kills the lock is never poisoned, so everything stated for an
      unpoisoned lock holds of every kill-free run. */
  ghost predicate KillFree(es: seq<Event>) { forall i :: 0 <= i < |es| ==> !es[i].Kill? }

  ghost predicate AllLive(s: State) { !s.poisoned && forall t :: t in s.tasks ==> !s.tasks[t].exiting }

  lemma {:induction false} WakeFirstLive(s: State)
    requires AllLive(s)
    ensures AllLive(WakeFirst(s))
    decreases |s.queue|
  {
    if s.queue != [] && !CanResume(s, s.queue[0]) { WakeFirstLive(s.(queue := s.queue[1..])); }
  }

  lemma GrantedLive(s: State, t: TaskId, call: Call)
    requires AllLive(s) && t in s.tasks && s.tasks[t].guards != [] && s.holder == Some(t)
    ensures AllLive(Granted(s, t, call))
  {
  }

  lemma StepLive(s: State, e: Event)
    requires AllLive(s) && Enabled(s, e) && !e.Kill?
    ensures AllLive(Apply(s, e))
  {
    hide Granted, Park, WakeFirst, Owned, Release, Take, Rerun, EndSave;
    match e
    case CloseGuard(t) => ReleaseLive(s, t);
    case CallTake(t) => TakeLive(s, t, Hold);
    case CallSave(t) => TakeLive(IssueNumber(s), t, Save(s.savingSequence + 1));
    case CallRemove(t, target) => TakeLive(s, t, Remove(target));
    case Resumed(t) => RerunLive(s, t);
    case SaveDone(t, ok, landed, implRoute) => EndSaveOneTask(s, t, ok, landed, implRoute);
    case _ =>
  }

  lemma ReleaseLive(s: State, t: TaskId)
    requires AllLive(s) && t in s.tasks && s.tasks[t].guards != []
    ensures AllLive(Release(s, t))
  {
    var g := s.tasks[t].guards;
    WakeFirstLive(s.With(t, s.tasks[t].(guards := g[..|g| - 1])).(holder := None));
  }

  lemma RerunLive(s: State, t: TaskId)
    requires AllLive(s) && t in s.tasks && s.tasks[t].guards != [] && s.tasks[t].pc.AwaitLock?
    ensures AllLive(Rerun(s, t))
  {
    var s1 := DropExited(s.(queue := Without(s.queue, t)));
    if s1.holder.None? || s1.holder == Some(t) { GrantedLive(Acquire(s1, t), t, s.tasks[t].pc.call); }
  }

  lemma TakeLive(s: State, t: TaskId, call: Call)
    requires AllLive(s) && t in s.tasks && s.tasks[t].guards != []
    ensures AllLive(Take(s, t, call))
  {
    var s1 := DropExited(s);
    if s1.holder == Some(t) { GrantedLive(s1, t, call); }
    else if s1.holder.None? { GrantedLive(Acquire(s1, t), t, call); }
  }

  lemma {:induction false} KillFreeRunsAreUnpoisoned(s: State, es: seq<Event>)
    requires AllLive(s) && Possible(s, es) && KillFree(es)
    ensures AllLive(Exec(s, es))
    decreases |es|
  {
    if es == [] {
    } else {
      StepLive(s, es[0]);
      KillFreeRunsAreUnpoisoned(Apply(s, es[0]), es[1..]);
    }
  }

  // ------------------------------------------------------------------ saving

  /** A save call that returned OK is covered: a SaveObject that began after the
      call took its number succeeded, with everything that was in memory then; and
      unless the lock was poisoned the database still holds at least that. */
  lemma AcknowledgedSaveIsWritten(s: State, number: nat) returns (w: Write)
    requires Reachable(s) && number in s.acked
    ensures 1 <= number <= |s.issued|
    ensures w in s.writes && number <= w.covers && s.issued[number - 1] <= w.snapshot
    ensures !s.poisoned ==> s.issued[number - 1] <= s.stored
  {
    ReachableInv(s);
    w :| w in s.writes && w.covers == s.savedSequence;
  }

  /** No SaveObject is started for a number that a finished save already covers. */
  lemma NoRedundantSave(s: State, t: TaskId)
    requires Reachable(s) && t in s.tasks && s.tasks[t].pc.Saving? && !s.poisoned
    ensures s.savedSequence < s.tasks[t].pc.number <= s.tasks[t].pc.covers <= s.savingSequence
    ensures s.stored <= s.tasks[t].pc.snapshot <= s.memory
  {
    ReachableInv(s);
    assert SavingPc(s, s.tasks[t].pc);
  }

  // ------------------------------------------------------------------ removal

  function MovedTo(route: Route, target: nat): Route {
    Route(target, if target == route.serverId then route.version else route.version + 1)
  }

  /** A removal to `target` that started in s is at the database. */
  ghost predicate RemovalUnderWay(s: State, r: State, t: TaskId, target: nat) {
    && t in r.tasks
    && r.tasks[t].pc == Saving(s.savingSequence + 1, s.savingSequence + 1, s.memory, Some(s.route))
    && r.holder == Some(t) && r.acked == s.acked
    && r.route == MovedTo(s.route, target)
  }

  /** The event with which a removal by t gets hold of a writable object: the call
      itself, or the end of its wait for the lock. */
  ghost predicate StartsRemoval(s: State, e: Event, t: TaskId, target: nat) {
    && Enabled(s, e) && s.Writable()
    && (s.holder.None? || s.holder == Some(t) || s.Exiting(s.holder.value))
    && (e == CallRemove(t, target) || (e == Resumed(t) && s.tasks[t].pc.call == Remove(target)))
  }

  /** A removal that gets a writable object always writes it itself: the nested
      save is never merged into an earlier one. */
  lemma RemovalIsNeverCoalesced(s: State, e: Event, t: TaskId, target: nat)
    requires Reachable(s) && StartsRemoval(s, e, t, target)
    ensures RemovalUnderWay(s, Apply(s, e), t, target)
  {
    hide Take, Rerun;
    assert s.savedSequence <= s.savingSequence by { ReachableInv(s); }
    if e.CallRemove? {
      CalledRemoval(s, t, target);
    } else {
      GrantedRemoval(s, t, target);
    }
  }

  lemma CalledRemoval(s: State, t: TaskId, target: nat)
    requires s.savedSequence <= s.savingSequence && StartsRemoval(s, CallRemove(t, target), t, target)
    ensures RemovalUnderWay(s, Take(s, t, Remove(target)), t, target)
  {
    hide BeginRemoval;
    var s1 := DropExited(s);
    if s1.holder == Some(t) { FreshRemoval(s1, t, target); } else { FreshRemoval(Acquire(s1, t), t, target); }
  }

  lemma GrantedRemoval(s: State, t: TaskId, target: nat)
    requires s.savedSequence <= s.savingSequence && StartsRemoval(s, Resumed(t), t, target)
    ensures RemovalUnderWay(s, Rerun(s, t), t, target)
  {
    hide BeginRemoval, Without;
    FreshRemoval(Acquire(DropExited(s.(queue := Without(s.queue, t))), t), t, target);
  }

  lemma FreshRemoval(s: State, t: TaskId, target: nat)
    requires t in s.tasks && s.tasks[t].guards != [] && s.holder == Some(t) && s.Writable()
    requires s.savedSequence <= s.savingSequence
    ensures RemovalUnderWay(s, BeginRemoval(s, t, target), t, target)
  {
  }

  /** Between its start and its end nothing touches a save in flight. */
  lemma SavingIsUndisturbed(s: State, e: Event, t: TaskId)
    requires t in s.tasks && s.tasks[t].pc.Saving? && Enabled(s, e) && !(e.SaveDone? && e.t == t)
    ensures t in Apply(s, e).tasks && Apply(s, e).tasks[t].pc == s.tasks[t].pc
  {
    match e
    case CloseGuard(u) => ReleaseOthers(s, u, t);
    case CallTake(u) => TakeOthers(s, u, Hold, t);
    case CallSave(u) => TakeOthers(IssueNumber(s), u, Save(s.savingSequence + 1), t);
    case CallRemove(u, target) => TakeOthers(s, u, Remove(target), t);
    case Resumed(u) => RerunOthers(s, u, t);
    case _ => QuietOthers(s, e, t);
  }

  lemma QuietOthers(s: State, e: Event, t: TaskId)
    requires t in s.tasks && s.tasks[t].pc.Saving? && Enabled(s, e)
    requires e.OpenGuard? || e.Timeout? || e.Kill? || e.Mutate? || e.SetFlags? || (e.SaveDone? && e.t != t)
    ensures t in Apply(s, e).tasks && Apply(s, e).tasks[t].pc == s.tasks[t].pc
  {
    hide EndSave;
    if e.SaveDone? {
      EndSaveOneTask(s, e.t, e.ok, e.landed, e.implRoute);
    }
  }

  lemma ReleaseOthers(s: State, u: TaskId, t: TaskId)
    requires u in s.tasks && s.tasks[u].guards != [] && t in s.tasks && s.tasks[t].pc.Saving?
    ensures t in Release(s, u).tasks && Release(s, u).tasks[t].pc == s.tasks[t].pc
  {
    hide WakeFirst;
    var g := s.tasks[u].guards;
    var s1 := DropExited(s.With(u, s.tasks[u].(guards := g[..|g| - 1])));
    WakeFirstHistory(s1.(holder := None));
  }

  lemma RerunOthers(s: State, u: TaskId, t: TaskId)
    requires u in s.tasks && s.tasks[u].guards != [] && s.tasks[u].pc.AwaitLock? && t in s.tasks && t != u
    ensures t in Rerun(s, u).tasks && Rerun(s, u).tasks[t] == s.tasks[t]
  {
    hide Granted, Without;
    var s1 := DropExited(s.(queue := Without(s.queue, u)));
    if s1.holder.None? || s1.holder == Some(u) { GrantedOthers(Acquire(s1, u), u, s.tasks[u].pc.call, t); }
  }

  lemma GrantedOthers(s: State, u: TaskId, call: Call, t: TaskId)
    requires u in s.tasks && s.tasks[u].guards != [] && t in s.tasks && t != u
    ensures t in Granted(s, u, call).tasks && Granted(s, u, call).tasks[t] == s.tasks[t]
  {
    hide BeginSave;
    match call
    case Hold =>
    case Save(number) => BeginSaveOthers(s, u, number, None, t);
    case Remove(target) =>
      var s1 := if target != s.route.serverId then s.(route := Route(target, s.route.version + 1)) else s;
      var s2 := DropExited(IssueNumber(s1));
      var s3 := if s2.holder == Some(u) then s2 else Acquire(s2, u);
      BeginSaveOthers(s3, u, s3.savingSequence, Some(s.route), t);
  }

  lemma BeginSaveOthers(s: State, u: TaskId, number: nat, undo: Option<Route>, t: TaskId)
    requires u in s.tasks && t in s.tasks && t != u
    ensures t in BeginSave(s, u, number, undo).tasks && BeginSave(s, u, number, undo).tasks[t] == s.tasks[t]
  {
  }

  lemma TakeOthers(s: State, u: TaskId, call: Call, t: TaskId)
    requires u in s.tasks && s.tasks[u].guards != [] && t in s.tasks && t != u
    ensures t in Take(s, u, call).tasks && Take(s, u, call).tasks[t] == s.tasks[t]
  {
    var s1 := DropExited(s);
    if s1.holder == Some(u) { GrantedOthers(s1, u, call, t); }
    else if s1.holder.None? { GrantedOthers(Acquire(s1, u), u, call, t); }
  }

  lemma {:induction false} SavingSurvives(s: State, es: seq<Event>, t: TaskId)
    requires t in s.tasks && s.tasks[t].pc.Saving? && Possible(s, es)
    requires forall i :: 0 <= i < |es| ==> !(es[i].SaveDone? && es[i].t == t)
    ensures t in Exec(s, es).tasks && Exec(s, es).tasks[t].pc == s.tasks[t].pc
    decreases |es|
  {
    if es == [] {
    } else {
      SavingIsUndisturbed(s, es[0], t);
      SavingSurvives(Apply(s, es[0]), es[1..], t);
    }
  }

  lemma GrantedPoison(s: State, t: TaskId, call: Call)
    requires s.poisoned && t in s.tasks && s.tasks[t].guards != []
    ensures Granted(s, t, call).poisoned
  {
  }

  lemma TakePoison(s: State, t: TaskId, call: Call)
    requires s.poisoned && t in s.tasks && s.tasks[t].guards != []
    ensures Take(s, t, call).poisoned
  {
    hide Granted;
    var s1 := DropExited(s);
    if s1.holder == Some(t) {
      GrantedPoison(s1, t, call);
    } else if s1.holder.None? {
      GrantedPoison(Acquire(s1, t), t, call);
    }
  }

  lemma RerunPoison(s: State, t: TaskId)
    requires s.poisoned && t in s.tasks && s.tasks[t].guards != [] && s.tasks[t].pc.AwaitLock?
    ensures Rerun(s, t).poisoned
  {
    hide Granted, Without;
    var s1 := DropExited(s.(queue := Without(s.queue, t)));
    if s1.holder.None? || s1.holder == Some(t) {
      GrantedPoison(Acquire(s1, t), t, s.tasks[t].pc.call);
    }
  }

  lemma ReleaseHistory(s: State, t: TaskId)
    requires t in s.tasks && s.tasks[t].guards != []
    ensures Release(s, t).poisoned == s.poisoned && Release(s, t).route == s.route
  {
    hide WakeFirst;
    var g := s.tasks[t].guards;
    WakeFirstHistory(DropExited(s.With(t, s.tasks[t].(guards := g[..|g| - 1]))).(holder := None));
  }

  /** Once an exiting task has held the lock, that stays on record. */
  lemma PoisonStays(s: State, e: Event)
    requires s.poisoned && Enabled(s, e)
    ensures Apply(s, e).poisoned
  {
    hide Take, Rerun, Release, EndSave;
    match e
    case CloseGuard(t) => ReleaseHistory(s, t);
    case CallTake(t) => TakePoison(s, t, Hold);
    case CallSave(t) => TakePoison(IssueNumber(s), t, Save(s.savingSequence + 1));
    case CallRemove(t, target) => TakePoison(s, t, Remove(target));
    case Resumed(t) => RerunPoison(s, t);
    case SaveDone(t, ok, landed, implRoute) => EndSaveOneTask(s, t, ok, landed, implRoute);
    case _ =>
  }

  /** While t saves on an unpoisoned lock, nobody else gets at the route. */
  lemma SavingKeepsRoute(s: State, e: Event, t: TaskId)
    requires LockBut(s, None) && !s.poisoned && Enabled(s, e)
    requires t in s.tasks && s.tasks[t].pc.Saving? && !(e.SaveDone? && e.t == t)
    ensures Apply(s, e).route == s.route
  {
    assert forall u :: u in s.tasks ==> LockTask(s, u);
    hide LockBut, Granted, Release, EndSave, Without, WakeFirst, Owned;
    if e.CloseGuard? {
      ReleaseHistory(s, e.t);
    }
  }

  lemma {:induction false} PoisonStaysThroughout(s: State, es: seq<Event>)
    requires s.poisoned && Possible(s, es)
    ensures Exec(s, es).poisoned
    decreases |es|
  {
    hide Apply, Enabled;
    if es == [] {
    } else {
      PoisonStays(s, es[0]);
      PoisonStaysThroughout(Apply(s, es[0]), es[1..]);
    }
  }

  lemma {:induction false} SavingKeepsRouteThroughout(s: State, es: seq<Event>, t: TaskId)
    requires Inv(s) && Possible(s, es) && !Exec(s, es).poisoned
    requires t in s.tasks && s.tasks[t].pc.Saving?
    requires forall i :: 0 <= i < |es| ==> !(es[i].SaveDone? && es[i].t == t)
    ensures Exec(s, es).route == s.route
    decreases |es|
  {
    hide Apply, Enabled, LockBut, NoLostWakeup, SaveInv, RouteInv;
    if s.poisoned {
      PoisonStaysThroughout(s, es);
    } else if es == [] {
    } else {
      SavingKeepsRoute(s, es[0], t);
      SavingIsUndisturbed(s, es[0], t);
      StepInv(s, es[0]);
      SavingKeepsRouteThroughout(Apply(s, es[0]), es[1..], t);
    }
  }

  lemma RemovalEnds(s: State, s2: State, t: TaskId, ok: bool, landed: bool, implRoute: Option<Route>)
    requires t in s2.tasks
    requires s2.tasks[t].pc == Saving(s.savingSequence + 1, s.savingSequence + 1, s.memory, Some(s.route))
    ensures var r := Apply(s2, SaveDone(t, ok, landed, implRoute));
      && (ok ==> !r.Writable() && Write(s.savingSequence + 1, s.memory) in r.writes && r.stored == s.memory)
      && (ok ==> r.route == if implRoute.Some? then implRoute.value else s2.route)
      && (!ok ==> r.route == s.route && r.isObject == s2.isObject)
      && r.poisoned == s2.poisoned
  {
  }

  /** RemoveObject is all or nothing.  Start a removal, let anything happen, then
      end its save: on success the object is not writable, the write is there, and
      unless an exiting task has held the lock or the save has set a route of its
      own, the route is the new one; on failure the route is exactly the old one. */
  lemma RemovalIsAllOrNothing(s: State, e: Event, t: TaskId, target: nat, es: seq<Event>, ok: bool, landed: bool,
                              implRoute: Option<Route>)
    requires Reachable(s) && StartsRemoval(s, e, t, target) && Possible(Apply(s, e), es)
    requires forall i :: 0 <= i < |es| ==> !(es[i].SaveDone? && es[i].t == t)
    ensures var s2 := Exec(Apply(s, e), es);
      && Enabled(s2, SaveDone(t, ok, landed, implRoute))
      && var r := Apply(s2, SaveDone(t, ok, landed, implRoute));
         && (ok ==> !r.Writable() && Write(s.savingSequence + 1, s.memory) in r.writes && r.stored == s.memory)
         && (ok && implRoute.None? && !r.poisoned ==> r.route == MovedTo(s.route, target))
         && (!ok ==> r.route == s.route && r.isObject == s2.isObject)
  {
    hide Take, Rerun, Apply, Reachable, Inv;
    RemovalIsNeverCoalesced(s, e, t, target);
    var s1 := Apply(s, e);
    var s2 := Exec(s1, es);
    SavingSurvives(s1, es, t);
    RemovalEnds(s, s2, t, ok, landed, implRoute);
    if !s2.poisoned {
      ReachableInv(s);
      StepInv(s, e);
      SavingKeepsRouteThroughout(s1, es, t);
    }
  }

  /** While the lock is unpoisoned and no removal is being written, the route is
      the one left by the last operation that finished. */
  lemma RouteIsCommitted(s: State)
    requires Reachable(s) && !s.poisoned
    requires forall t :: t in s.tasks && s.tasks[t].pc.Saving? ==> s.tasks[t].pc.undo.None?
    ensures s.route == s.committed
  {
    ReachableInv(s);
  }
}
