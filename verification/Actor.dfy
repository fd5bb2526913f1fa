/** One actor's pending queue, its runners and its running token
    (task_action_impl.go, actor_executor.go, and the take/release order of
    task_manager.go), as a step system over any number of goroutines.

    Every event is one stretch of code under a lock, or one atomic operation. */
module Actor {
  import opened Options

  type ActionId = nat
  type RunnerId = nat

  datatype Status = Free | Pending | Running

  /** Where an action is.  `Clearing`: the compare-and-swap of
      releaseCurrentRunningAction succeeded, the lock is not yet unlocked.
      `Spawning`: unlocked, about to call appendActorTaskAction(nil, nil). */
  datatype Pc =
    | New | Queued | WantToken | Locked | Holding
    | Clearing(awaits: bool) | Spawning | Awaiting | Finished

  datatype State = State(
    // the ActorExecutor
    current: Option<ActionId>,        // currentRunningAction
    lock: Option<ActionId>,           // who holds currentRunningLock
    runnerCounter: nat,               // actionRunnerCounter
    status: Status,                   // actionStatus
    pending: seq<ActionId>,           // pendingActions
    // goroutines
    scheduled: nat,                   // pushed popRunActorActions not yet started
    loopers: map<RunnerId, nat>,      // runners in their loop, with the loop index
    busy: map<RunnerId, (nat, ActionId)>,  // runners inside a callback
    actions: map<ActionId, Pc>,
    // what the world has seen
    appended: seq<ActionId>,          // queued actions, in order
    started: seq<ActionId>,           // started callbacks, in order
    pushFailures: nat)                // PushAction calls that failed
  {
    function At(a: ActionId, pc: Pc): State { this.(actions := actions[a := pc]) }

    predicate Is(a: ActionId, pc: Pc) { a in actions && actions[a] == pc }
  }

  /** Configured bounds: actor_max_loop_count and actor_max_pending_count. */
  datatype Limits = Limits(maxLoop: nat, maxPending: nat)

  /** The end of appendActorTaskAction. */
  function Push(s: State, pushed: bool): State {
    var st := if s.status.Free? then (if s.runnerCounter > 0 then Running else Pending) else s.status;
    if pushed then s.(status := st, scheduled := s.scheduled + 1)
    else s.(status := st, pushFailures := s.pushFailures + 1)
  }

  /** `Append` queues a task's action.  `StartRunner`, `PopFront`, `Callback...` and
      `EndRunner` are the stretches of popRunActorActions.  `Adopt` is
      TryTakeCurrentRunningAction by an action that was not queued here. */
  datatype Event =
    | Append(a: ActionId, pushed: bool)
    | StartRunner(r: RunnerId)
    | PopFront(r: RunnerId)
    | CallbackDone(r: RunnerId)
    | EndRunner(r: RunnerId, pushed: bool)
    | Adopt(a: ActionId)
    | LockToken(a: ActionId) | StoreToken(a: ActionId)
    | ClearToken(a: ActionId, awaits: bool) | UnlockToken(a: ActionId)
    | Spawn(a: ActionId, pushed: bool)
    | Resume(a: ActionId)

  predicate LoopEnds(s: State, lim: Limits, i: nat) {
    i >= lim.maxLoop || s.pending == [] || s.current.Some?
  }

  predicate Enabled(s: State, lim: Limits, e: Event) {
    match e
    case Append(a, _) => s.Is(a, New)
    case StartRunner(r) => s.scheduled > 0 && r !in s.loopers && r !in s.busy
    case PopFront(r) => r in s.loopers && !LoopEnds(s, lim, s.loopers[r])
    case CallbackDone(r) => r in s.busy && s.Is(s.busy[r].1, Finished)
    case EndRunner(r, _) => r in s.loopers && LoopEnds(s, lim, s.loopers[r])
    case Adopt(a) => s.Is(a, New)
    case LockToken(a) => s.Is(a, WantToken) && s.lock.None?
    case StoreToken(a) => s.Is(a, Locked)
    case ClearToken(a, _) => s.Is(a, Holding)
    case UnlockToken(a) => s.Is(a, Clearing(true)) || s.Is(a, Clearing(false))
    case Spawn(a, _) => s.Is(a, Spawning)
    case Resume(a) => s.Is(a, Awaiting)
  }

  function Apply(s: State, lim: Limits, e: Event): State
    requires Enabled(s, lim, e)
  {
    match e
    case Append(a, pushed) =>
      if |s.pending| > lim.maxPending then s
      else Push(s.At(a, Queued).(pending := s.pending + [a], appended := s.appended + [a]), pushed)
    case StartRunner(r) =>
      s.(scheduled := s.scheduled - 1, runnerCounter := s.runnerCounter + 1, loopers := s.loopers[r := 0])
    case PopFront(r) =>
      var a := s.pending[0];
      s.At(a, WantToken)
       .(pending := s.pending[1..], started := s.started + [a],
         loopers := s.loopers - {r}, busy := s.busy[r := (s.loopers[r], a)])
    case CallbackDone(r) => s.(loopers := s.loopers[r := s.busy[r].0 + 1], busy := s.busy - {r})
    case EndRunner(r, pushed) =>
      var c := if s.runnerCounter > 0 then s.runnerCounter - 1 else 0;
      var s1 := s.(runnerCounter := c, loopers := s.loopers - {r});
      if s.pending == [] then (if c <= 0 then s1.(status := Free) else s1)
      else if pushed then s1.(status := if c <= 0 then Pending else Running, scheduled := s.scheduled + 1)
      else s1.(status := Free, pushFailures := s.pushFailures + 1)
    case Adopt(a) => s.At(a, WantToken)
    case LockToken(a) => s.At(a, Locked).(lock := Some(a))
    case StoreToken(a) => s.At(a, Holding).(current := Some(a))
    case ClearToken(a, awaits) =>
      // releaseCurrentRunningAction returns at once when it is not the current action
      if s.current != Some(a) then s.At(a, if awaits then Awaiting else Finished)
      else s.At(a, Clearing(awaits)).(current := None)
    case UnlockToken(a) => s.At(a, if s.actions[a].awaits then Spawning else Finished).(lock := None)
    case Spawn(a, pushed) => Push(s.At(a, Awaiting), pushed)
    case Resume(a) => s.At(a, WantToken)
  }

  ghost predicate Possible(s: State, lim: Limits, es: seq<Event>)
    decreases |es|
  {
    es == [] || (Enabled(s, lim, es[0]) && Possible(Apply(s, lim, es[0]), lim, es[1..]))
  }

  ghost function Exec(s: State, lim: Limits, es: seq<Event>): State
    requires Possible(s, lim, es)
    decreases |es|
  {
    if es == [] then s else Exec(Apply(s, lim, es[0]), lim, es[1..])
  }

  ghost predicate Init(s: State) {
    && s.current.None? && s.lock.None? && s.runnerCounter == 0 && s.status.Free? && s.pending == []
    && s.scheduled == 0 && s.loopers == map[] && s.busy == map[]
    && s.appended == [] && s.started == [] && s.pushFailures == 0
    && forall a :: a in s.actions ==> s.actions[a] == New
  }

  ghost predicate Reachable(s: State, lim: Limits) {
    exists s0, es :: Init(s0) && Possible(s0, lim, es) && s == Exec(s0, lim, es)
  }

  // ------------------------------------------------------------------ invariants

  predicate InToken(pc: Pc) { pc.Locked? || pc.Holding? || pc.Clearing? }

  /** The recorded running action is the one that has stored itself under the lock. */
  ghost predicate TokenInv(s: State) {
    && (forall a :: a in s.actions ==> (InToken(s.actions[a]) <==> s.lock == Some(a)))
    && (forall a :: a in s.actions ==> (s.actions[a].Holding? <==> s.current == Some(a)))
    && (s.lock.Some? ==> s.lock.value in s.actions)
    && (s.current.Some? ==> s.current.value in s.actions)
  }

  ghost predicate NoDuplicates(q: seq<ActionId>) {
    forall i, j :: 0 <= i < j < |q| ==> q[i] != q[j]
  }

  /** Queue order is start order, and nothing is queued or started twice. */
  ghost predicate QueueInv(s: State) {
    && s.appended == s.started + s.pending
    && NoDuplicates(s.appended)
    && (forall a :: a in s.appended ==> a in s.actions && !s.actions[a].New?)
    && (forall a :: a in s.actions ==> (s.actions[a].Queued? <==> a in s.pending))
  }

  /** Every pending action has a runner of its own that is not inside a callback,
      except for as many as there were failed pushes. */
  ghost predicate RunnerInv(s: State) {
    && s.loopers.Keys !! s.busy.Keys
    && s.runnerCounter == |s.loopers| + |s.busy|
    && |s.pending| <= s.scheduled + |s.loopers| + s.pushFailures
    && (s.pushFailures == 0 && s.pending != [] ==> !s.status.Free?)
    && (s.pushFailures == 0 && s.runnerCounter == 0 && s.scheduled == 0 ==> s.status.Free?)
  }

  /** A runner inside a callback runs an action it popped, and no two runners the same. */
  ghost predicate BusyInv(s: State) {
    && (forall r :: r in s.busy ==> s.busy[r].1 in s.started)
    && (forall r, q :: r in s.busy && q in s.busy && r != q ==> s.busy[r].1 != s.busy[q].1)
  }

  ghost predicate Inv(s: State) { TokenInv(s) && QueueInv(s) && RunnerInv(s) && BusyInv(s) }

  lemma AddKey<V>(m: map<nat, V>, k: nat, v: V)
    requires k !in m
    ensures |m[k := v]| == |m| + 1
  {
  }

  lemma PopFrontToken(s: State, lim: Limits, r: RunnerId)
    requires TokenInv(s) && QueueInv(s) && Enabled(s, lim, PopFront(r))
    ensures TokenInv(Apply(s, lim, PopFront(r)))
  {
    assert s.pending[0] in s.appended;
    assert s.pending[0] in s.pending;
  }

  lemma TokenEventToken(s: State, lim: Limits, e: Event)
    requires TokenInv(s) && Enabled(s, lim, e)
    requires e.LockToken? || e.StoreToken? || e.ClearToken? || e.UnlockToken?
    ensures TokenInv(Apply(s, lim, e))
  {
  }

  lemma QuietToken(s: State, lim: Limits, e: Event)
    requires TokenInv(s) && Enabled(s, lim, e)
    requires e.StartRunner? || e.CallbackDone? || e.EndRunner?
    ensures TokenInv(Apply(s, lim, e))
  {
  }

  lemma MoveToken(s: State, lim: Limits, e: Event)
    requires TokenInv(s) && Enabled(s, lim, e) && (e.Append? || e.Adopt? || e.Spawn? || e.Resume?)
    ensures TokenInv(Apply(s, lim, e))
  {
  }

  lemma StepToken(s: State, lim: Limits, e: Event)
    requires TokenInv(s) && QueueInv(s) && Enabled(s, lim, e)
    ensures TokenInv(Apply(s, lim, e))
  {
    hide QueueInv, TokenInv, Apply;
    if e.PopFront? {
      PopFrontToken(s, lim, e.r);
    } else if e.StartRunner? || e.CallbackDone? || e.EndRunner? {
      QuietToken(s, lim, e);
    } else if e.Append? || e.Adopt? || e.Spawn? || e.Resume? {
      MoveToken(s, lim, e);
    } else {
      TokenEventToken(s, lim, e);
    }
  }

  lemma HeadIsSingle(s: State)
    requires QueueInv(s) && s.pending != []
    ensures s.pending[0] in s.appended && s.pending[0] !in s.started && s.pending[0] !in s.pending[1..]
  {
    var a, n := s.pending[0], |s.started|;
    assert s.appended[n] == a;
    assert forall i :: 0 <= i < n ==> s.started[i] == s.appended[i];
    assert forall i :: 0 < i < |s.pending| ==> s.pending[i] == s.appended[n + i];
  }

  lemma PopFrontQueue(s: State, lim: Limits, r: RunnerId)
    requires QueueInv(s) && Enabled(s, lim, PopFront(r))
    ensures QueueInv(Apply(s, lim, PopFront(r)))
  {
    hide NoDuplicates;
    HeadIsSingle(s);
    var s1 := Apply(s, lim, PopFront(r));
    assert s.pending == [s.pending[0]] + s1.pending;
    assert s1.appended == s1.started + s1.pending;
  }

  lemma AppendQueue(s: State, lim: Limits, a: ActionId, pushed: bool)
    requires QueueInv(s) && Enabled(s, lim, Append(a, pushed))
    ensures QueueInv(Apply(s, lim, Append(a, pushed)))
  {
  }

  lemma QuietQueue(s: State, lim: Limits, e: Event)
    requires QueueInv(s) && Enabled(s, lim, e) && (e.StartRunner? || e.CallbackDone? || e.EndRunner?)
    ensures QueueInv(Apply(s, lim, e))
  {
    hide NoDuplicates;
  }

  lemma TokenEventQueue(s: State, lim: Limits, e: Event)
    requires QueueInv(s) && Enabled(s, lim, e)
    requires e.Adopt? || e.LockToken? || e.StoreToken? || e.ClearToken? || e.UnlockToken? || e.Spawn? || e.Resume?
    ensures QueueInv(Apply(s, lim, e))
  {
    hide NoDuplicates;
  }

  lemma StepQueue(s: State, lim: Limits, e: Event)
    requires QueueInv(s) && Enabled(s, lim, e)
    ensures QueueInv(Apply(s, lim, e))
  {
    hide QueueInv, Apply;
    if e.PopFront? {
      PopFrontQueue(s, lim, e.r);
    } else if e.Append? {
      AppendQueue(s, lim, e.a, e.pushed);
    } else if e.StartRunner? || e.CallbackDone? || e.EndRunner? {
      QuietQueue(s, lim, e);
    } else {
      TokenEventQueue(s, lim, e);
    }
  }

  lemma PopFrontRunner(s: State, lim: Limits, r: RunnerId)
    requires RunnerInv(s) && Enabled(s, lim, PopFront(r))
    ensures RunnerInv(Apply(s, lim, PopFront(r)))
  {
  }

  lemma CallbackDoneRunner(s: State, lim: Limits, r: RunnerId)
    requires RunnerInv(s) && Enabled(s, lim, CallbackDone(r))
    ensures RunnerInv(Apply(s, lim, CallbackDone(r)))
  {
  }

  lemma EndRunnerRunner(s: State, lim: Limits, r: RunnerId, pushed: bool)
    requires RunnerInv(s) && Enabled(s, lim, EndRunner(r, pushed))
    ensures RunnerInv(Apply(s, lim, EndRunner(r, pushed)))
  {
  }

  lemma StepRunner(s: State, lim: Limits, e: Event)
    requires RunnerInv(s) && Enabled(s, lim, e)
    ensures RunnerInv(Apply(s, lim, e))
  {
    match e
    case StartRunner(r) => AddKey(s.loopers, r, 0);
    case PopFront(r) => PopFrontRunner(s, lim, r);
    case CallbackDone(r) => CallbackDoneRunner(s, lim, r);
    case EndRunner(r, pushed) => EndRunnerRunner(s, lim, r, pushed);
    case _ =>
  }

  lemma StepBusy(s: State, lim: Limits, e: Event)
    requires BusyInv(s) && QueueInv(s) && Enabled(s, lim, e)
    ensures BusyInv(Apply(s, lim, e))
  {
    if e.PopFront? {
      HeadIsSingle(s);
    }
    hide QueueInv;
  }

  lemma {:induction false} ExecInv(s: State, lim: Limits, es: seq<Event>)
    requires Inv(s) && Possible(s, lim, es)
    ensures Inv(Exec(s, lim, es))
    decreases |es|
  {
    if es == [] {
    } else {
      StepToken(s, lim, es[0]);
      StepQueue(s, lim, es[0]);
      StepRunner(s, lim, es[0]);
      StepBusy(s, lim, es[0]);
      ExecInv(Apply(s, lim, es[0]), lim, es[1..]);
    }
  }

  lemma ReachableInv(s: State, lim: Limits)
    requires Reachable(s, lim)
    ensures Inv(s)
  {
    var s0, es :| Init(s0) && Possible(s0, lim, es) && s == Exec(s0, lim, es);
    ExecInv(s0, lim, es);
  }

  // ------------------------------------------------------------------ theorems

  /** A set running action always holds the token, no two actions hold it at once,
      and whoever releases it is the current action (the swap cannot miss). */
  lemma TokenIsExclusive(s: State, lim: Limits, a: ActionId, b: ActionId)
    requires Reachable(s, lim) && a in s.actions && b in s.actions
    ensures s.current == Some(a) ==> s.lock == Some(a) && s.actions[a].Holding?
    ensures InToken(s.actions[a]) && InToken(s.actions[b]) ==> a == b
    ensures s.actions[a].Holding? ==> s.current == Some(a)
  {
    ReachableInv(s, lim);
  }

  /** Actions start in the order in which they were queued, each at most once, and
      what has not started is exactly what is still pending. */
  lemma StartedOnceInOrder(s: State, lim: Limits, i: nat, j: nat)
    requires Reachable(s, lim) && i < j < |s.appended|
    ensures s.started <= s.appended && s.pending == s.appended[|s.started|..]
    ensures s.appended[i] != s.appended[j]
    ensures j < |s.started| ==> s.started[i] == s.appended[i] && s.started[j] == s.appended[j]
  {
    ReachableInv(s, lim);
  }

  /** No work is stranded: as long as no push failed, every pending action has a
      runner that is scheduled or in its loop, however many runners are blocked
      inside callbacks (an awaiting action blocks its runner). */
  lemma NoStrandedWork(s: State, lim: Limits)
    requires Reachable(s, lim) && s.pushFailures == 0
    ensures |s.pending| <= s.scheduled + |s.loopers|
    ensures s.pending != [] ==> !s.status.Free?
    ensures s.scheduled == 0 && s.loopers == map[] && s.busy == map[] ==> s.pending == [] && s.status.Free?
  {
    ReachableInv(s, lim);
  }

  /** Hence the head of the queue can always be started when no action is running:
      within three events a fresh runner, or one already in its loop, pops it. */
  lemma HeadCanStart(s: State, lim: Limits, newRunner: RunnerId) returns (es: seq<Event>)
    requires Reachable(s, lim) && s.pushFailures == 0 && lim.maxLoop > 0
    requires s.pending != [] && s.current.None?
    requires newRunner !in s.loopers && newRunner !in s.busy
    ensures Possible(s, lim, es) && |es| <= 3
    ensures Exec(s, lim, es).started == s.started + [s.pending[0]]
  {
    ReachableInv(s, lim);
    if s.scheduled > 0 {
      es := Start(s, lim, newRunner);
    } else {
      assert s.loopers.Keys != {} by { assert |s.loopers.Keys| == |s.loopers|; }
      var r :| r in s.loopers;
      if s.loopers[r] < lim.maxLoop {
        es := [PopFront(r)];
        var s1 := Apply(s, lim, es[0]);
        assert Possible(s1, lim, es[1..]) && Exec(s1, lim, es[1..]) == s1;
      } else {
        // this runner stops, and schedules another one because work is pending
        var e := EndRunner(r, true);
        var s1 := Apply(s, lim, e);
        var rest := Start(s1, lim, newRunner);
        es := [e] + rest;
        assert es[1..] == rest;
      }
    }
  }

  lemma Start(s: State, lim: Limits, r: RunnerId) returns (es: seq<Event>)
    requires s.scheduled > 0 && r !in s.loopers && r !in s.busy && lim.maxLoop > 0
    requires s.pending != [] && s.current.None?
    ensures Possible(s, lim, es) && |es| == 2
    ensures Exec(s, lim, es).started == s.started + [s.pending[0]]
  {
    es := [StartRunner(r), PopFront(r)];
    var s1 := Apply(s, lim, es[0]);
    var s2 := Apply(s1, lim, es[1]);
    assert es[1..][0] == es[1];
    assert es[1..][1..] == [];
    assert Possible(s2, lim, es[1..][1..]) && Exec(s2, lim, es[1..][1..]) == s2;
    assert Possible(s1, lim, es[1..]);
  }

  // ------------------------------------------------------------------ what single events do

  /** An action is queued exactly when it is appended while no more than the configured
      number of others is pending; it then stands last, and a runner is scheduled
      unless the push fails.  A refused append changes nothing. */
  lemma QueuedExactlyWhenThereIsRoom(s: State, lim: Limits, e: Event)
    requires Enabled(s, lim, e)
    ensures var r := Apply(s, lim, e);
            && (r.appended != s.appended <==> e.Append? && |s.pending| <= lim.maxPending)
            && (e.Append? && |s.pending| <= lim.maxPending ==>
                  && r.appended == s.appended + [e.a] && r.pending == s.pending + [e.a] && r.Is(e.a, Queued)
                  && r.scheduled == s.scheduled + (if e.pushed then 1 else 0)
                  && r.pushFailures == s.pushFailures + (if e.pushed then 0 else 1))
            && (e.Append? && |s.pending| > lim.maxPending ==> r == s)
  {
  }

  /** `n` callbacks of this turn of runner r have begun, the one it is in included. */
  ghost predicate HasBegun(s: State, r: RunnerId, n: nat) {
    (r in s.loopers && s.loopers[r] == n) || (r !in s.loopers && r in s.busy && s.busy[r].0 + 1 == n)
  }

  /** How many callbacks runner r begins. */
  ghost function Begins(es: seq<Event>, r: RunnerId): nat {
    if es == [] then 0 else (if es[0] == PopFront(r) then 1 else 0) + Begins(es[1..], r)
  }

  ghost predicate NeitherStartsNorEnds(es: seq<Event>, r: RunnerId) {
    forall i :: 0 <= i < |es| ==> !((es[i].StartRunner? || es[i].EndRunner?) && es[i].r == r)
  }

  lemma BeginsStep(s: State, lim: Limits, e: Event, r: RunnerId, n: nat)
    requires s.loopers.Keys !! s.busy.Keys && Enabled(s, lim, e) && HasBegun(s, r, n) && n <= lim.maxLoop
    requires !((e.StartRunner? || e.EndRunner?) && e.r == r)
    ensures if e == PopFront(r) then HasBegun(Apply(s, lim, e), r, n + 1) && n + 1 <= lim.maxLoop
            else HasBegun(Apply(s, lim, e), r, n)
  {
    if !e.PopFront? && !e.CallbackDone? {
      SameTurn(s, lim, e, r);
      hide Apply;
    } else {
      hide Push;
    }
  }

  lemma SameTurn(s: State, lim: Limits, e: Event, r: RunnerId)
    requires Enabled(s, lim, e) && !e.PopFront? && !e.CallbackDone?
    requires !((e.StartRunner? || e.EndRunner?) && e.r == r)
    ensures var s1 := Apply(s, lim, e);
            && s1.busy == s.busy && (r in s1.loopers <==> r in s.loopers)
            && (r in s.loopers ==> s1.loopers[r] == s.loopers[r])
  {
  }

  lemma {:induction false} BeginsBounded(s: State, lim: Limits, es: seq<Event>, r: RunnerId, n: nat)
    requires RunnerInv(s) && Possible(s, lim, es) && HasBegun(s, r, n) && n <= lim.maxLoop
    requires NeitherStartsNorEnds(es, r)
    ensures n + Begins(es, r) <= lim.maxLoop
    decreases |es|
  {
    assert s.loopers.Keys !! s.busy.Keys;
    hide RunnerInv, HasBegun, Apply, Enabled;
    if es == [] {
    } else {
      StepRunner(s, lim, es[0]);
      BeginsStep(s, lim, es[0], r, n);
      BeginsBounded(Apply(s, lim, es[0]), lim, es[1..], r, if es[0] == PopFront(r) then n + 1 else n);
    }
  }

  /** From its start to its end a runner begins at most the configured number of
      callbacks, whatever else happens meanwhile. */
  lemma RunnerIsBounded(s: State, lim: Limits, r: RunnerId, es: seq<Event>)
    requires Reachable(s, lim) && Enabled(s, lim, StartRunner(r))
    requires Possible(Apply(s, lim, StartRunner(r)), lim, es) && NeitherStartsNorEnds(es, r)
    ensures Begins(es, r) <= lim.maxLoop
  {
    ReachableInv(s, lim);
    StepRunner(s, lim, StartRunner(r));
    BeginsBounded(Apply(s, lim, StartRunner(r)), lim, es, r, 0);
  }

  /** A callback can begin exactly in a runner that has begun fewer than that, when
      something is pending and no action runs; and nothing but a runner begins one. */
  lemma BeginsExactly(s: State, lim: Limits, r: RunnerId, e: Event)
    requires Enabled(s, lim, e)
    ensures Enabled(s, lim, PopFront(r)) <==>
              r in s.loopers && s.loopers[r] < lim.maxLoop && s.pending != [] && s.current.None?
    ensures Apply(s, lim, e).started != s.started <==> e.PopFront?
    ensures Enabled(s, lim, PopFront(r)) && e == PopFront(r) ==>
              Apply(s, lim, e).started == s.started + [s.pending[0]] && Apply(s, lim, e).pending == s.pending[1..]
  {
  }

  /** An action that yields gives the token back and schedules a runner for the others;
      one that ends gives it back and schedules none. */
  lemma ReleasingTheToken(s: State, lim: Limits, a: ActionId, awaits: bool, pushed: bool)
    requires Reachable(s, lim) && s.Is(a, Holding)
    ensures var es := if awaits then [ClearToken(a, true), UnlockToken(a), Spawn(a, pushed)]
                      else [ClearToken(a, false), UnlockToken(a)];
            && Possible(s, lim, es)
            && var r := Exec(s, lim, es);
               && r.current.None? && r.lock.None? && r.Is(a, if awaits then Awaiting else Finished)
               && r.scheduled == s.scheduled + (if awaits && pushed then 1 else 0)
               && r.pending == s.pending && r.loopers == s.loopers
  {
    ReachableInv(s, lim);
    hide Inv, Apply, Enabled, Possible, Exec;
    var e0, e1, e2 := ClearToken(a, awaits), UnlockToken(a), Spawn(a, pushed);
    Clears(s, lim, a, awaits);
    var s1 := Apply(s, lim, e0);
    Unlocks(s1, lim, a, awaits);
    var s2 := Apply(s1, lim, e1);
    if awaits {
      Spawns(s2, lim, a, pushed);
      NoEvent(Apply(s2, lim, e2), lim);
      OneMoreEvent(s2, lim, e2, []);
      OneMoreEvent(s1, lim, e1, [e2]);
      OneMoreEvent(s, lim, e0, [e1, e2]);
      assert [e0] + [e1, e2] == [e0, e1, e2] && [e1] + [e2] == [e1, e2] && [e2] + [] == [e2];
    } else {
      NoEvent(s2, lim);
      OneMoreEvent(s1, lim, e1, []);
      OneMoreEvent(s, lim, e0, [e1]);
      assert [e0] + [e1] == [e0, e1] && [e1] + [] == [e1];
    }
  }

  lemma Clears(s: State, lim: Limits, a: ActionId, awaits: bool)
    requires Inv(s) && s.Is(a, Holding)
    ensures Enabled(s, lim, ClearToken(a, awaits))
    ensures Apply(s, lim, ClearToken(a, awaits)) == s.At(a, Clearing(awaits)).(current := None)
  {
  }

  lemma Unlocks(s: State, lim: Limits, a: ActionId, awaits: bool)
    requires s.Is(a, Clearing(awaits))
    ensures Enabled(s, lim, UnlockToken(a))
    ensures Apply(s, lim, UnlockToken(a)) == s.At(a, if awaits then Spawning else Finished).(lock := None)
  {
  }

  lemma Spawns(s: State, lim: Limits, a: ActionId, pushed: bool)
    requires s.Is(a, Spawning)
    ensures Enabled(s, lim, Spawn(a, pushed))
    ensures var r := Apply(s, lim, Spawn(a, pushed));
            && r.current == s.current && r.lock == s.lock && r.Is(a, Awaiting)
            && r.scheduled == s.scheduled + (if pushed then 1 else 0)
            && r.pending == s.pending && r.loopers == s.loopers
  {
  }

  lemma NoEvent(s: State, lim: Limits)
    ensures Possible(s, lim, []) && Exec(s, lim, []) == s
  {
  }

  lemma OneMoreEvent(s: State, lim: Limits, e: Event, es: seq<Event>)
    requires Enabled(s, lim, e) && Possible(Apply(s, lim, e), lim, es)
    ensures Possible(s, lim, [e] + es) && Exec(s, lim, [e] + es) == Exec(Apply(s, lim, e), lim, es)
  {
    assert ([e] + es)[1..] == es;
  }

  /** An action wants the token when its callback begins, when it takes over an actor, and
      when it resumes; nothing else makes one want it. */
  lemma WantsTheTokenExactly(s: State, lim: Limits, e: Event, a: ActionId)
    requires Enabled(s, lim, e)
    ensures !s.Is(a, WantToken) && Apply(s, lim, e).Is(a, WantToken) <==>
              (e.PopFront? && s.pending[0] == a && !s.Is(a, WantToken)) || e == Adopt(a) || e == Resume(a)
  {
  }

  /** An action that wants the free token gets it in two events and is the running one. */
  lemma FreeTokenCanBeTaken(s: State, lim: Limits, a: ActionId)
    requires s.Is(a, WantToken) && s.lock.None?
    ensures Possible(s, lim, [LockToken(a), StoreToken(a)])
    ensures var r := Exec(s, lim, [LockToken(a), StoreToken(a)]);
            r.lock == Some(a) && r.current == Some(a) && r.Is(a, Holding)
  {
    var e0, e1 := LockToken(a), StoreToken(a);
    assert [e0] + [e1] == [e0, e1] && [e1] + [] == [e1];
    OneMoreEvent(Apply(s, lim, e0), lim, e1, []);
    OneMoreEvent(s, lim, e0, [e1]);
  }
}
