/** Lost wake-ups on the router object's lock: exactly which steps of exactly which
    runs leave tasks waiting with no message on its way to any of them.  Such tasks
    go on waiting until an await timer fires or a later release wakes them. */
module RouterStranding {
  import opened Options
  import opened RouterIo
  import opened RouterSafety
  import opened RouterDurability
  import opened RouterTheorems

  /** A holder that is exiting does not count: GetAwaitTaskId drops it. */
  predicate LiveHolder(s: State) {
    s.holder.Some? && !s.Exiting(s.holder.value)
  }

  ghost predicate SomebodyWaits(s: State) {
    exists t :: Waiting(s, t)
  }

  ghost predicate SomebodyWoken(s: State) {
    exists t :: Woken(s, t)
  }

  /** The lock is free for all it matters, a task waits for it, and no message is on
      its way to any waiting task. */
  ghost predicate Stranded(s: State) {
    !LiveHolder(s) && SomebodyWaits(s) && !SomebodyWoken(s)
  }

  /** The two steps that lose a wake-up: the live holder is killed while nobody is
      woken, and the only woken task takes the lock although it is exiting. */
  ghost predicate Strands(s: State, e: Event) {
    && SomebodyWaits(s)
    && match e
       case Kill(t) => s.holder == Some(t) && !s.Exiting(t) && !SomebodyWoken(s)
       case Resumed(t) => s.Exiting(t) && !LiveHolder(s) && forall u :: Woken(s, u) ==> u == t
       case _ => false
  }

  // ------------------------------------------------------------------ one step

  /** Steps that change who waits and who is woken only for the task t. */
  ghost predicate OthersStay(s: State, r: State, t: TaskId) {
    forall u :: u != t ==> (Waiting(r, u) <==> Waiting(s, u)) && (Woken(r, u) <==> Woken(s, u))
  }

  lemma GrantedView(s: State, t: TaskId, call: Call)
    requires t in s.tasks && s.tasks[t].guards != [] && s.holder == Some(t)
    requires s.tasks[t].exiting ==> s.poisoned && s.tasks[t].guards[|s.tasks[t].guards| - 1]
    ensures var r := Granted(s, t, call);
            && r.holder == Some(t) && OthersStay(s, r, t) && !Waiting(r, t) && !Woken(r, t)
            && r.Exiting(t) == s.Exiting(t)
  {
    hide Granted;
    GrantedKeepsLock(s, t, call);
  }

  lemma OwnView(s: State, t: TaskId, call: Call)
    requires t in s.tasks && s.tasks[t].guards != []
    ensures var r := Granted(Acquire(s, t), t, call);
            && r.holder == Some(t) && OthersStay(s, r, t) && !Waiting(r, t) && !Woken(r, t)
            && r.Exiting(t) == s.Exiting(t)
  {
    hide Granted;
    GrantedView(Acquire(s, t), t, call);
  }

  /** Neither the holder's liveness nor the others' waiting got worse. */
  lemma NotWorse(s: State, r: State, t: TaskId)
    requires !Stranded(s) && OthersStay(s, r, t) && !Waiting(s, t) && !Woken(s, t) && !Waiting(r, t)
    requires LiveHolder(s) ==> LiveHolder(r)
    ensures !Stranded(r)
  {
    assert forall u :: Waiting(r, u) ==> Waiting(s, u);
    assert forall u :: Woken(s, u) ==> Woken(r, u);
  }

  lemma TakeNeverStrands(s: State, t: TaskId, call: Call)
    requires Idle(s, t) && s.tasks[t].guards != [] && !Stranded(s)
    ensures !Stranded(Take(s, t, call))
  {
    hide Granted, Stranded;
    var s1 := DropExited(s);
    assert OthersStay(s, s1, t) && LiveHolder(s) == s1.holder.Some?;
    if s1.holder == Some(t) {
      GrantedView(s1, t, call);
      assert OthersStay(s, Granted(s1, t, call), t);
      NotWorse(s, Granted(s1, t, call), t);
    } else if s1.holder.None? {
      OwnView(s1, t, call);
      assert OthersStay(s, Granted(Acquire(s1, t), t, call), t);
      NotWorse(s, Granted(Acquire(s1, t), t, call), t);
    } else {
      HeldIsNotStranded(Park(s1, t, call));
    }
  }

  lemma HeldIsNotStranded(s: State)
    requires LiveHolder(s)
    ensures !Stranded(s)
  {
  }

  lemma ResumedView(s: State, t: TaskId)
    requires LockBut(s, None) && Enabled(s, Resumed(t))
    ensures LiveHolder(s) ==> LiveHolder(Rerun(s, t))
    ensures !LiveHolder(s) ==>
              var r := Rerun(s, t);
              && r.holder == Some(t) && OthersStay(s, r, t) && !Waiting(r, t) && !Woken(r, t)
              && r.Exiting(t) == s.Exiting(t)
  {
    assert LockTask(s, t);
    hide Granted, Without, LockBut, LockTask;
    var s1 := DropExited(s.(queue := Without(s.queue, t)));
    assert OthersStay(s, s1, t) && LiveHolder(s) == s1.holder.Some?;
    if s1.holder.None? {
      OwnView(s1, t, s.tasks[t].pc.call);
    }
  }

  lemma ResumedStrands(s: State, t: TaskId)
    requires LockBut(s, None) && Enabled(s, Resumed(t)) && !Stranded(s)
    ensures Stranded(Rerun(s, t)) <==> Strands(s, Resumed(t))
  {
    hide Rerun, LockBut;
    ResumedView(s, t);
    if !LiveHolder(s) {
      var r := Rerun(s, t);
      assert forall u :: Waiting(s, u) ==> u != t;
      assert SomebodyWaits(r) <==> SomebodyWaits(s);
      assert SomebodyWoken(r) <==> exists u :: Woken(s, u) && u != t;
    }
  }

  lemma {:induction false} WakeFirstWakes(s: State)
    requires forall t :: Waiting(s, t) ==> t in s.queue && !s.tasks[t].exiting
    ensures SomebodyWaits(WakeFirst(s)) ==> SomebodyWoken(WakeFirst(s))
    decreases |s.queue|
  {
    if s.queue == [] {
    } else if CanResume(s, s.queue[0]) {
      assert Woken(WakeFirst(s), s.queue[0]);
    } else {
      WakeFirstWakes(s.(queue := s.queue[1..]));
    }
  }

  lemma ReleaseOwnedNeverStrands(s: State, t: TaskId)
    requires LockBut(s, None) && Guarded(s, t) && s.holder == Some(t) && !s.tasks[t].exiting
    requires s.tasks[t].guards[|s.tasks[t].guards| - 1]
    ensures !Stranded(Release(s, t))
  {
    var g := s.tasks[t].guards;
    var s1 := s.With(t, s.tasks[t].(guards := g[..|g| - 1])).(holder := None);
    forall u | Waiting(s1, u)
      ensures u in s1.queue && !s1.tasks[u].exiting
    {
      assert LockTask(s, u);
    }
    hide WakeFirst, LockBut;
    WakeFirstWakes(s1);
  }

  lemma ReleaseNestedNeverStrands(s: State, t: TaskId)
    requires Guarded(s, t) && !Stranded(s)
    requires !(s.tasks[t].guards[|s.tasks[t].guards| - 1] && s.holder == Some(t) && !s.tasks[t].exiting)
    ensures !Stranded(Release(s, t))
  {
    hide WakeFirst, Stranded;
    var r := Release(s, t);
    assert OthersStay(s, r, t);
    NotWorse(s, r, t);
  }

  lemma ReleaseNeverStrands(s: State, t: TaskId)
    requires LockBut(s, None) && Guarded(s, t) && !Stranded(s)
    ensures !Stranded(Release(s, t))
  {
    hide Release, LockBut, Stranded;
    var g := s.tasks[t].guards;
    if g[|g| - 1] && s.holder == Some(t) && !s.tasks[t].exiting {
      ReleaseOwnedNeverStrands(s, t);
    } else {
      ReleaseNestedNeverStrands(s, t);
    }
  }

  lemma QuietNeverStrands(s: State, e: Event, t: TaskId)
    requires Enabled(s, e) && !Stranded(s) && LockBut(s, None)
    requires (e.OpenGuard? && t == e.t) || e.Mutate? || e.SetFlags?
    ensures !Stranded(Apply(s, e))
  {
    hide LockBut;
    assert OthersStay(s, Apply(s, e), t);
    if t in s.tasks {
      assert Waiting(s, t) == Waiting(Apply(s, e), t) && Woken(s, t) == Woken(Apply(s, e), t);
    }
    assert forall u :: Waiting(Apply(s, e), u) ==> Waiting(s, u);
    assert forall u :: Woken(s, u) ==> Woken(Apply(s, e), u);
  }

  lemma SaveDoneNeverStrands(s: State, e: Event)
    requires Enabled(s, e) && !Stranded(s) && e.SaveDone?
    ensures !Stranded(Apply(s, e))
  {
    hide EndSave;
    EndSaveOneTask(s, e.t, e.ok, e.landed, e.implRoute);
    assert OthersStay(s, Apply(s, e), e.t);
    NotWorse(s, Apply(s, e), e.t);
  }

  lemma TimeoutNeverStrands(s: State, t: TaskId)
    requires Enabled(s, Timeout(t))
    ensures !Stranded(Apply(s, Timeout(t)))
  {
    assert Woken(Apply(s, Timeout(t)), t);
  }

  lemma KillStrands(s: State, t: TaskId)
    requires LockBut(s, None) && t in s.tasks && !Stranded(s)
    ensures Stranded(Apply(s, Kill(t))) <==> Strands(s, Kill(t))
  {
    var r := Apply(s, Kill(t));
    assert LockTask(s, t);
    assert OthersStay(s, r, t);
    if s.tasks[t].pc.AwaitLock? {
      assert Woken(r, t);
    } else {
      assert SomebodyWaits(r) <==> SomebodyWaits(s);
      assert SomebodyWoken(r) <==> SomebodyWoken(s);
    }
  }

  /** From any reachable state in which nobody is stranded, a step strands somebody
      if and only if it is one of the two. */
  lemma StepStrandsExactly(s: State, e: Event)
    requires LockBut(s, None) && Enabled(s, e) && !Stranded(s)
    ensures Stranded(Apply(s, e)) <==> Strands(s, e)
  {
    hide LockBut, Stranded, Take, Release, Rerun, EndSave;
    match e
    case CloseGuard(t) => ReleaseNeverStrands(s, t);
    case CallTake(t) => TakeNeverStrands(s, t, Hold);
    case CallSave(t) => SaveCallNeverStrands(s, t);
    case CallRemove(t, target) => TakeNeverStrands(s, t, Remove(target));
    case Resumed(t) => ResumedStrands(s, t);
    case Timeout(t) => TimeoutNeverStrands(s, t);
    case Kill(t) => KillStrands(s, t);
    case SaveDone(_, _, _, _) => SaveDoneNeverStrands(s, e);
    case OpenGuard(t) => QuietNeverStrands(s, e, t);
    case Mutate => QuietNeverStrands(s, e, 0);
    case SetFlags(_, _, _) => QuietNeverStrands(s, e, 0);
  }

  lemma SaveCallNeverStrands(s: State, t: TaskId)
    requires Guarded(s, t) && !Stranded(s)
    ensures !Stranded(Apply(s, CallSave(t)))
  {
    hide Take;
    if s.Writable() {
      var s1 := IssueNumber(s);
      assert OthersStay(s, s1, t);
      NotWorse(s, s1, t);
      TakeNeverStrands(s1, t, Save(s1.savingSequence));
    }
  }

  // ------------------------------------------------------------------ runs

  /** The run passes through a state in which somebody is stranded. */
  ghost predicate EverStranded(s: State, es: seq<Event>)
    requires Possible(s, es)
    decreases |es|
  {
    Stranded(s) || (es != [] && EverStranded(Apply(s, es[0]), es[1..]))
  }

  /** The run takes one of the two steps. */
  ghost predicate EverStrands(s: State, es: seq<Event>)
    requires Possible(s, es)
    decreases |es|
  {
    es != [] && (Strands(s, es[0]) || EverStrands(Apply(s, es[0]), es[1..]))
  }

  lemma {:induction false} RunStrandsExactly(s: State, es: seq<Event>)
    requires Inv(s) && Possible(s, es) && !Stranded(s)
    ensures EverStranded(s, es) <==> EverStrands(s, es)
    decreases |es|
  {
    hide Stranded, Strands, Apply, Enabled, LockBut, SaveInv, RouteInv, NoLostWakeup;
    if es == [] {
    } else {
      StepStrandsExactly(s, es[0]);
      if !Strands(s, es[0]) {
        StepInv(s, es[0]);
        RunStrandsExactly(Apply(s, es[0]), es[1..]);
      } else {
        StrandedEver(Apply(s, es[0]), es[1..]);
      }
    }
  }

  lemma StrandedEver(s: State, es: seq<Event>)
    requires Possible(s, es) && Stranded(s)
    ensures EverStranded(s, es)
  {
  }

  /** Over all runs: somebody is stranded at some point if and only if the live
      holder was killed, or an exiting task took the lock, while somebody waited and
      nobody (else) was woken. */
  lemma StrandedExactlyByTheTwoSteps(s: State, es: seq<Event>)
    requires Init(s) && Possible(s, es)
    ensures EverStranded(s, es) <==> EverStrands(s, es)
  {
    InitLock(s);
    RunStrandsExactly(s, es);
  }

  lemma {:induction false} EndOfRun(s: State, es: seq<Event>)
    requires Possible(s, es) && Stranded(Exec(s, es))
    ensures EverStranded(s, es)
    decreases |es|
  {
    hide Stranded, Apply, Enabled;
    if es == [] {
    } else {
      EndOfRun(Apply(s, es[0]), es[1..]);
    }
  }

  lemma WokenGetsTheLock(s: State, u: TaskId)
    requires LockBut(s, None) && Woken(s, u) && !LiveHolder(s)
    ensures Enabled(s, Resumed(u)) && Apply(s, Resumed(u)).holder == Some(u)
  {
    hide Granted;
    assert LockTask(s, u);
    OwnView(DropExited(s.(queue := Without(s.queue, u))), u, s.tasks[u].pc.call);
  }

  /** No lost wake-up: in a run without those two steps, whenever there is no live
      holder and somebody waits, a woken task is on its way and gets the lock. */
  lemma SomeWaiterIsOnItsWay(s0: State, es: seq<Event>, t: TaskId) returns (u: TaskId)
    requires Init(s0) && Possible(s0, es) && !EverStrands(s0, es)
    requires !LiveHolder(Exec(s0, es)) && Waiting(Exec(s0, es), t)
    ensures var s := Exec(s0, es);
            Woken(s, u) && Enabled(s, Resumed(u)) && Apply(s, Resumed(u)).holder == Some(u)
  {
    hide LockBut, SaveInv, RouteInv, NoLostWakeup, Apply, Enabled;
    var s := Exec(s0, es);
    StrandedExactlyByTheTwoSteps(s0, es);
    if Stranded(s) {
      EndOfRun(s0, es);
    }
    u :| Woken(s, u);
    assert Reachable(s);
    ReachableInv(s);
    WokenGetsTheLock(s, u);
  }

  /** In particular while no exiting task has ever held the lock. */
  lemma UnpoisonedLockLosesNoWakeup(s: State, t: TaskId) returns (u: TaskId)
    requires Reachable(s) && !s.poisoned && s.holder.None? && Waiting(s, t)
    ensures Woken(s, u) && Enabled(s, Resumed(u)) && Apply(s, Resumed(u)).holder == Some(u)
  {
    ReachableInv(s);
    u :| Woken(s, u);
    hide Granted, LockBut, SaveInv, RouteInv;
    WokenGetsTheLock(s, u);
  }

  lemma {:induction false} LiveTasksNeverStrand(s: State, es: seq<Event>)
    requires AllLive(s) && Possible(s, es) && KillFree(es)
    ensures !EverStrands(s, es)
    decreases |es|
  {
    hide Apply;
    if es == [] {
    } else {
      StepLive(s, es[0]);
      LiveTasksNeverStrand(Apply(s, es[0]), es[1..]);
    }
  }

  /** Without kills nobody is ever stranded. */
  lemma KillFreeRunsNeverStrand(s: State, es: seq<Event>)
    requires Init(s) && Possible(s, es) && KillFree(es)
    ensures !EverStranded(s, es)
  {
    StrandedExactlyByTheTwoSteps(s, es);
    LiveTasksNeverStrand(s, es);
  }

  // ------------------------------------------------------------------ the two steps happen

  /** A task that was killed while it held the lock strands the others: nobody
      holds the lock, task 2 waits, and nothing is on its way to it. */
  lemma KilledHolderStrandsWaiter() returns (s: State)
    ensures Reachable(s)
    ensures Stranded(s) && s.holder.None? && Waiting(s, 2)
  {
    hide Apply, Enabled, Exec, Possible;
    s := Abandoned();
    FirstSteps();
    LastSteps();
    FollowSix([OpenGuard(1), CallTake(1), OpenGuard(2), CallTake(2), Kill(1), CloseGuard(1)],
              Fresh(), FirstOpen(), FirstOwns(), SecondOpen(), SecondParked(), FirstKilled(), s);
    assert Init(Fresh());
    assert Waiting(s, 2) && forall u :: !Woken(s, u);
  }

  ghost predicate Leads(s: State, e: Event, r: State) { Enabled(s, e) && Apply(s, e) == r }

  /** A state of two tasks in which nothing was ever saved. */
  ghost function Two(holder: Option<TaskId>, queue: seq<TaskId>, one: Task, two: Task, poisoned: bool): State {
    State(holder, queue, true, false, false, Route(1, 1), 0, 0, map[1 := one, 2 := two],
          0, 0, [], [], [], Route(1, 1), poisoned)
  }

  // the states of the run above
  ghost function Fresh(): State { Two(None, [], Task(Ready, [], false), Task(Ready, [], false), false) }
  ghost function FirstOpen(): State { Two(None, [], Task(Ready, [false], false), Task(Ready, [], false), false) }
  ghost function FirstOwns(): State { Two(Some(1), [], Task(Ready, [true], false), Task(Ready, [], false), false) }
  ghost function SecondOpen(): State {
    Two(Some(1), [], Task(Ready, [true], false), Task(Ready, [false], false), false)
  }
  ghost function SecondParked(): State {
    Two(Some(1), [2], Task(Ready, [true], false), Task(AwaitLock(Hold, false), [false], false), false)
  }
  ghost function FirstKilled(): State {
    Two(Some(1), [2], Task(Ready, [true], true), Task(AwaitLock(Hold, false), [false], false), true)
  }
  ghost function Abandoned(): State {
    Two(None, [2], Task(Ready, [], true), Task(AwaitLock(Hold, false), [false], false), true)
  }

  lemma FirstSteps()
    ensures Leads(Fresh(), OpenGuard(1), FirstOpen())
    ensures Leads(FirstOpen(), CallTake(1), FirstOwns())
    ensures Leads(FirstOwns(), OpenGuard(2), SecondOpen())
  {
    assert [] + [false] == [false] && [false][0 := true] == [true];
    assert Acquire(FirstOpen(), 1) == FirstOwns();
    assert FirstOwns().At(1, Ready) == FirstOwns();
    assert FirstOwns().tasks[2].guards + [false] == [false];
    assert Fresh().tasks[1].guards + [false] == [false];
  }

  lemma LastSteps()
    ensures Leads(SecondOpen(), CallTake(2), SecondParked())
    ensures Leads(SecondParked(), Kill(1), FirstKilled())
    ensures Leads(FirstKilled(), CloseGuard(1), Abandoned())
  {
    assert Park(SecondOpen(), 2, Hold) == SecondParked();
  }

  lemma FollowSix(es: seq<Event>, a: State, b: State, c: State, d: State, e: State, f: State, g: State)
    requires |es| == 6
    requires Leads(a, es[0], b) && Leads(b, es[1], c) && Leads(c, es[2], d)
    requires Leads(d, es[3], e) && Leads(e, es[4], f) && Leads(f, es[5], g)
    ensures Possible(a, es) && Exec(a, es) == g
  {
    FollowPath([a, b, c, d, e, f, g], es);
  }

  lemma {:induction false} FollowPath(path: seq<State>, es: seq<Event>)
    requires |path| == |es| + 1
    requires forall i :: 0 <= i < |es| ==> Leads(path[i], es[i], path[i + 1])
    ensures Possible(path[0], es) && Exec(path[0], es) == path[|es|]
    decreases |es|
  {
    if es == [] {
    } else {
      assert Leads(path[0], es[0], path[1]);
      FollowPath(path[1..], es[1..]);
    }
  }

  /** A state of three tasks in which nothing was ever saved; each of them is at
      most inside one Take. */
  ghost function Three(holder: Option<TaskId>, queue: seq<TaskId>, one: Task, two: Task, three: Task,
                       poisoned: bool): State {
    State(holder, queue, true, false, false, Route(1, 1), 0, 0, map[1 := one, 2 := two, 3 := three],
          0, 0, [], [], [], Route(1, 1), poisoned)
  }

  const IDLE := Task(Ready, [], false)
  const OPEN := Task(Ready, [false], false)
  const OWNS := Task(Ready, [true], false)
  const PARKED := Task(AwaitLock(Hold, false), [false], false)
  const WOKEN := Task(AwaitLock(Hold, true), [false], false)
  const DYING := Task(AwaitLock(Hold, true), [false], true)

  const RUN := [OpenGuard(1), CallTake(1), OpenGuard(2), CallTake(2), OpenGuard(3), CallTake(3),
                CloseGuard(1), Kill(2), Resumed(2), CloseGuard(2)]

  ghost function Along(k: nat): State
    requires k <= 10
  {
    match k
    case 0 => Three(None, [], IDLE, IDLE, IDLE, false)
    case 1 => Three(None, [], OPEN, IDLE, IDLE, false)
    case 2 => Three(Some(1), [], OWNS, IDLE, IDLE, false)
    case 3 => Three(Some(1), [], OWNS, OPEN, IDLE, false)
    case 4 => Three(Some(1), [2], OWNS, PARKED, IDLE, false)
    case 5 => Three(Some(1), [2], OWNS, PARKED, OPEN, false)
    case 6 => Three(Some(1), [2, 3], OWNS, PARKED, PARKED, false)
    case 7 => Three(None, [2, 3], IDLE, WOKEN, PARKED, false)
    case 8 => Three(None, [2, 3], IDLE, DYING, PARKED, false)
    case 9 => Three(Some(2), [3], IDLE, Task(Ready, [true], true), PARKED, true)
    case _ => Three(None, [3], IDLE, Task(Ready, [], true), PARKED, true)
  }

  lemma AlongStarts(k: nat)
    requires k < 4
    ensures Leads(Along(k), RUN[k], Along(k + 1))
  {
    assert [] + [false] == [false] && [false][0 := true] == [true];
  }

  lemma AlongWaits(k: nat)
    requires 4 <= k < 6
    ensures Leads(Along(k), RUN[k], Along(k + 1))
  {
    assert [] + [false] == [false] && [2] + [3] == [2, 3];
  }

  lemma AlongWakes(k: nat)
    requires 6 <= k < 8
    ensures Leads(Along(k), RUN[k], Along(k + 1))
  {
    if k == 6 {
      assert WakeFirst(Three(None, [2, 3], IDLE, PARKED, PARKED, false)) == Along(7);
    }
  }

  lemma AlongEnds(k: nat)
    requires 8 <= k < 10
    ensures Leads(Along(k), RUN[k], Along(k + 1))
  {
    if k == 8 {
      assert [false][0 := true] == [true];
      assert Without([2, 3], 2) == [3];
    }
  }

  /** No task is killed while it holds the lock: task 2 is killed on its way to the
      lock, takes it nevertheless, and its release wakes nobody. */
  lemma ExitingWaiterStrandsTheNext()
    ensures Init(Along(0)) && Possible(Along(0), RUN)
    ensures Exec(Along(0), RUN) == Along(10)
    ensures Stranded(Along(9)) && Stranded(Along(10)) && Along(10).holder.None? && Waiting(Along(10), 3)
  {
    hide Apply, Enabled, Exec, Possible;
    var path := seq(11, k requires 0 <= k < 11 => Along(k));
    forall k | 0 <= k < 10
      ensures Leads(path[k], RUN[k], path[k + 1])
    {
      if k < 4 {
        AlongStarts(k);
      } else if k < 6 {
        AlongWaits(k);
      } else if k < 8 {
        AlongWakes(k);
      } else {
        AlongEnds(k);
      }
    }
    FollowPath(path, RUN);
    assert Waiting(Along(9), 3) && Waiting(Along(10), 3);
  }
}
