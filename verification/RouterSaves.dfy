/** What a save call on a router object returns, and in which order waiting tasks get
    their turn: exact answers, over all runs. */
module RouterSaves {
  import opened Options
  import opened RouterIo
  import opened RouterSafety
  import opened RouterDurability
  import opened RouterTheorems

  /** Nobody but t holds the lock, apart from an exiting task. */
  predicate Available(s: State, t: TaskId) {
    s.holder.None? || s.holder == Some(t) || s.Exiting(s.holder.value)
  }

  // ------------------------------------------------------------------ the call

  /** A save call on an object that is not writable is refused on the spot. */
  lemma RefusedSaveChangesNothing(s: State, t: TaskId)
    requires Guarded(s, t) && !s.Writable()
    ensures Apply(s, CallSave(t)) == s
  {
  }

  /** Otherwise it takes the next number, which stands for all that is in memory now;
      if the lock is not available it waits with that number. */
  lemma SaveCallTakesANumber(s: State, t: TaskId)
    requires Guarded(s, t) && s.Writable()
    ensures var r := Apply(s, CallSave(t));
            && r.issued == s.issued + [s.memory] && r.savingSequence == s.savingSequence + 1
            && t in r.tasks
            && (!Available(s, t) ==>
                  r.tasks[t].pc == AwaitLock(Save(s.savingSequence + 1), s.tasks[t].exiting)
                  && r.acked == s.acked && r.writes == s.writes)
  {
    hide BeginSave;
    var s1 := DropExited(IssueNumber(s));
    BeginSaveQueue(s1, t, s.savingSequence + 1, None);
    if s1.holder.None? {
      BeginSaveQueue(Acquire(s1, t), t, s.savingSequence + 1, None);
    }
  }

  /** It keeps this call until it gets the lock. */
  lemma WaitingKeepsItsCall(s: State, e: Event, t: TaskId)
    requires Enabled(s, e) && t in s.tasks && s.tasks[t].pc.AwaitLock?
    requires !(e == Resumed(t) && Available(s, t))
    ensures var r := Apply(s, e); t in r.tasks && r.tasks[t].pc.AwaitLock? && r.tasks[t].pc.call == s.tasks[t].pc.call
  {
    hide Take, Release, Rerun, EndSave;
    match e
    case CloseGuard(u) => ReleaseKeepsCalls(s, u, t);
    case CallTake(u) => TakeOthers(s, u, Hold, t);
    case CallSave(u) => if s.Writable() { TakeOthers(IssueNumber(s), u, Save(s.savingSequence + 1), t); }
    case CallRemove(u, target) => TakeOthers(s, u, Remove(target), t);
    case Resumed(u) => if u == t { ParksAgain(s, t); } else { RerunOthers(s, u, t); }
    case SaveDone(u, ok, landed, implRoute) => EndSaveOneTask(s, u, ok, landed, implRoute);
    case _ =>
  }

  lemma ReleaseKeepsCalls(s: State, u: TaskId, t: TaskId)
    requires u in s.tasks && s.tasks[u].guards != [] && t in s.tasks && s.tasks[t].pc.AwaitLock?
    ensures var r := Release(s, u); t in r.tasks && r.tasks[t].pc.AwaitLock? && r.tasks[t].pc.call == s.tasks[t].pc.call
  {
    hide WakeFirst;
    var g := s.tasks[u].guards;
    WakeFirstHistory(DropExited(s.With(u, s.tasks[u].(guards := g[..|g| - 1]))).(holder := None));
  }

  lemma ParksAgain(s: State, t: TaskId)
    requires Enabled(s, Resumed(t)) && !Available(s, t)
    ensures var r := Rerun(s, t); t in r.tasks && r.tasks[t].pc == AwaitLock(s.tasks[t].pc.call, s.tasks[t].exiting)
  {
  }

  // ------------------------------------------------------------------ the answer

  /** With event e the save call with this number gets the lock: at once, or after
      waiting for it. */
  ghost predicate GrantsSave(s: State, e: Event, t: TaskId, number: nat) {
    && Enabled(s, e) && Available(s, t)
    && (|| (e == CallSave(t) && s.Writable() && number == s.savingSequence + 1)
        || (e == Resumed(t) && s.tasks[t].pc.call == Save(number)))
  }

  ghost predicate Covered(s: State, number: nat) {
    exists w :: w in s.writes && w.covers >= number
  }

  /** The three answers: an error, OK without a write of its own, or a write of its
      own that covers every number issued so far and all that is in memory. */
  ghost predicate Answered(s: State, r: State, t: TaskId, number: nat) {
    var writable := s.isObject && !s.forcePull && !s.cacheRemoved;
    && t in r.tasks && r.holder == Some(t) && r.writes == s.writes
    && (!writable ==> r.tasks[t].pc.Ready? && r.acked == s.acked)
    && (writable && Covered(s, number) ==> r.tasks[t].pc.Ready? && r.acked == s.acked + [number])
    && (writable && !Covered(s, number) ==>
          r.tasks[t].pc == Saving(number, |r.issued|, s.memory, None) && r.acked == s.acked)
  }

  lemma GrantedSaveIsAnswered(s: State, t: TaskId, number: nat)
    requires t in s.tasks && s.holder == Some(t) && Numbers(s) && Written(s) && 1 <= number
    ensures Answered(s, BeginSave(s, t, number, None), t, number)
  {
    if number <= s.savedSequence {
      var w :| w in s.writes && w.covers == s.savedSequence;
      assert Covered(s, number);
    }
  }

  /** Answers do not depend on who held the lock or waited for it. */
  lemma AnsweredLike(s: State, s': State, r: State, t: TaskId, number: nat)
    requires Answered(s', r, t, number)
    requires s.isObject == s'.isObject && s.forcePull == s'.forcePull && s.cacheRemoved == s'.cacheRemoved
    requires s.writes == s'.writes && s.acked == s'.acked && s.memory == s'.memory
    ensures Answered(s, r, t, number)
  {
    assert Covered(s, number) == Covered(s', number);
  }

  lemma TakenSaveIsAnswered(s: State, t: TaskId, number: nat)
    requires t in s.tasks && s.tasks[t].guards != [] && Numbers(s) && Written(s) && 1 <= number && Available(s, t)
    ensures Answered(s, Take(s, t, Save(number)), t, number)
  {
    hide BeginSave, Answered, Numbers, Written;
    DropKeepsWritten(s);
    var s1 := DropExited(s);
    OwnedSaveIsAnswered(s1, t, number);
    if s1.holder == Some(t) {
      AnsweredLike(s, s1, Take(s, t, Save(number)), t, number);
    } else {
      AnsweredLike(s, Acquire(s1, t), Take(s, t, Save(number)), t, number);
    }
  }

  lemma RerunSaveIsAnswered(s: State, t: TaskId, number: nat)
    requires Enabled(s, Resumed(t)) && Numbers(s) && Written(s) && 1 <= number && Available(s, t)
    requires s.tasks[t].pc.call == Save(number)
    ensures Answered(s, Rerun(s, t), t, number)
  {
    LeaveKeepsWritten(s, t);
    hide BeginSave, Answered, Without, Numbers, Written, Acquire;
    var s1 := DropExited(s.(queue := Without(s.queue, t)));
    OwnedSaveIsAnswered(s1, t, number);
    assert Rerun(s, t) == BeginSave(Acquire(s1, t), t, number, None);
    AcquireIsLike(s1, t);
    AnsweredLike(s, Acquire(s1, t), Rerun(s, t), t, number);
  }

  lemma AcquireIsLike(s: State, t: TaskId)
    requires t in s.tasks && s.tasks[t].guards != []
    ensures var a := Acquire(s, t);
            && a.isObject == s.isObject && a.forcePull == s.forcePull && a.cacheRemoved == s.cacheRemoved
            && a.writes == s.writes && a.acked == s.acked && a.memory == s.memory
  {
  }

  lemma LeaveKeepsWritten(s: State, t: TaskId)
    requires Numbers(s) && Written(s)
    ensures var s1 := DropExited(s.(queue := Without(s.queue, t))); Numbers(s1) && Written(s1)
  {
    hide Without;
  }

  lemma DropKeepsWritten(s: State)
    requires Numbers(s) && Written(s)
    ensures Numbers(DropExited(s)) && Written(DropExited(s))
  {
  }

  /** Over all runs: a save call that gets the lock of a writable object is answered OK
      at once if and only if a finished write covers its number, and otherwise starts
      its own write; on an object that is not writable it is answered with an error. */
  lemma SaveCallIsAnsweredExactly(s: State, e: Event, t: TaskId, number: nat)
    requires Reachable(s) && GrantsSave(s, e, t, number)
    ensures Answered(s, Apply(s, e), t, number)
  {
    ReachableInv(s);
    hide Take, Rerun, Answered, Reachable, LockInv, RouteInv, PcsBut, Numbers, Written;
    if e.CallSave? {
      IssueKeepsWritten(s);
      TakenSaveIsAnswered(IssueNumber(s), t, number);
      AnsweredLike(s, IssueNumber(s), Apply(s, e), t, number);
    } else {
      WaitingNumber(s, t, number);
      RerunSaveIsAnswered(s, t, number);
    }
  }

  lemma IssueKeepsWritten(s: State)
    requires Numbers(s) && Written(s)
    ensures Numbers(IssueNumber(s)) && Written(IssueNumber(s))
  {
  }

  lemma WaitingNumber(s: State, t: TaskId, number: nat)
    requires PcsBut(s, None) && t in s.tasks && s.tasks[t].pc.AwaitLock? && s.tasks[t].pc.call == Save(number)
    ensures 1 <= number <= s.savingSequence
  {
    assert SavingPc(s, s.tasks[t].pc);
  }

  /** The lock is t's, or free. */
  lemma OwnedSaveIsAnswered(s: State, t: TaskId, number: nat)
    requires t in s.tasks && s.tasks[t].guards != [] && Numbers(s) && Written(s) && 1 <= number
    ensures s.holder == Some(t) ==> Answered(s, BeginSave(s, t, number, None), t, number)
    ensures Answered(Acquire(s, t), BeginSave(Acquire(s, t), t, number, None), t, number)
  {
    hide BeginSave, Answered, Numbers, Written;
    if s.holder == Some(t) {
      GrantedSaveIsAnswered(s, t, number);
    }
    AcquireKeepsWritten(s, t);
    GrantedSaveIsAnswered(Acquire(s, t), t, number);
  }

  lemma AcquireKeepsWritten(s: State, t: TaskId)
    requires t in s.tasks && s.tasks[t].guards != [] && Numbers(s) && Written(s)
    ensures Numbers(Acquire(s, t)) && Written(Acquire(s, t))
    ensures t in Acquire(s, t).tasks && Acquire(s, t).holder == Some(t)
  {
  }

  lemma SaveEnds(s: State, t: TaskId, number: nat, covers: nat, snapshot: nat, ok: bool, landed: bool,
                 implRoute: Option<Route>)
    requires t in s.tasks && s.tasks[t].pc == Saving(number, covers, snapshot, None)
    ensures Enabled(s, SaveDone(t, ok, landed, implRoute))
    ensures var r := Apply(s, SaveDone(t, ok, landed, implRoute));
            && t in r.tasks && r.tasks[t].pc.Ready?
            && r.acked == (if ok then s.acked + [number] else s.acked)
            && r.writes == (if ok then s.writes + [Write(covers, snapshot)] else s.writes)
            && r.stored == (if ok || landed then snapshot else s.stored)
            && r.route == (if implRoute.Some? then implRoute.value else s.route)
            && r.holder == s.holder && r.isObject == s.isObject
  {
  }

  lemma UncoveredIsWritten(s: State, r: State, t: TaskId, number: nat)
    requires Answered(s, r, t, number) && s.Writable() && !Covered(s, number)
    ensures t in r.tasks && r.tasks[t].pc == Saving(number, |r.issued|, s.memory, None)
  {
  }

  /** From the start of its own write on, whatever happens meanwhile, the call is
      answered OK if and only if its SaveObject succeeds, and then the write covers
      all numbers that had been issued when it started. */
  lemma OwnWriteDecides(s: State, e: Event, t: TaskId, number: nat, es: seq<Event>, ok: bool, landed: bool,
                        implRoute: Option<Route>)
    requires Reachable(s) && GrantsSave(s, e, t, number) && s.Writable() && !Covered(s, number)
    requires Possible(Apply(s, e), es)
    requires forall i :: 0 <= i < |es| ==> !(es[i].SaveDone? && es[i].t == t)
    ensures var s2 := Exec(Apply(s, e), es);
            && Enabled(s2, SaveDone(t, ok, landed, implRoute))
            && var r := Apply(s2, SaveDone(t, ok, landed, implRoute));
               && t in r.tasks && r.tasks[t].pc.Ready?
               && r.acked == (if ok then s2.acked + [number] else s2.acked)
               && (ok ==> r.writes == s2.writes + [Write(|Apply(s, e).issued|, s.memory)])
  {
    SaveCallIsAnsweredExactly(s, e, t, number);
    var s1 := Apply(s, e);
    UncoveredIsWritten(s, s1, t, number);
    hide *;
    SavingSurvives(s1, es, t);
    SaveEnds(Exec(s1, es), t, number, |s1.issued|, s.memory, ok, landed, implRoute);
  }

  // ------------------------------------------------------------------ who changes the object

  /** The object in memory and its flags. */
  ghost predicate SameObject(s: State, r: State) {
    && r.memory == s.memory
    && r.isObject == s.isObject && r.forcePull == s.forcePull && r.cacheRemoved == s.cacheRemoved
  }

  lemma GrantedObject(s: State, t: TaskId, call: Call)
    requires t in s.tasks && s.tasks[t].guards != [] && s.savedSequence <= s.savingSequence
    ensures SameObject(s, Granted(s, t, call))
  {
  }

  lemma TakeObject(s: State, t: TaskId, call: Call)
    requires t in s.tasks && s.tasks[t].guards != [] && s.savedSequence <= s.savingSequence
    ensures SameObject(s, Take(s, t, call))
  {
    hide Granted;
    var s1 := DropExited(s);
    if s1.holder == Some(t) {
      GrantedObject(s1, t, call);
    } else if s1.holder.None? {
      GrantedObject(Acquire(s1, t), t, call);
    }
  }

  lemma RerunObject(s: State, t: TaskId)
    requires Enabled(s, Resumed(t)) && s.savedSequence <= s.savingSequence
    ensures SameObject(s, Rerun(s, t))
  {
    hide Granted, Without;
    var s1 := DropExited(s.(queue := Without(s.queue, t)));
    if s1.holder.None? || s1.holder == Some(t) {
      GrantedObject(Acquire(s1, t), t, s.tasks[t].pc.call);
    }
  }

  lemma {:induction false} WakeFirstObject(s: State)
    ensures SameObject(s, WakeFirst(s))
    decreases |s.queue|
  {
    if s.queue == [] || CanResume(s, s.queue[0]) {
    } else {
      WakeFirstObject(s.(queue := s.queue[1..]));
    }
  }

  lemma ReleaseObject(s: State, t: TaskId)
    requires t in s.tasks && s.tasks[t].guards != []
    ensures SameObject(s, Release(s, t))
  {
    hide WakeFirst;
    var g := s.tasks[t].guards;
    WakeFirstObject(DropExited(s.With(t, s.tasks[t].(guards := g[..|g| - 1]))).(holder := None));
  }

  /** Memory counts the mutations.  The flags change by outside code only, except that a
      removal whose save succeeds makes the object a cache; no save, wait or refused
      call touches either. */
  lemma WhoChangesTheObject(s: State, e: Event)
    requires Reachable(s) && Enabled(s, e)
    ensures var r := Apply(s, e);
            && r.memory == s.memory + (if e.Mutate? then 1 else 0)
            && (e.SetFlags? ==> r.isObject == e.isObject && r.forcePull == e.forcePull
                                && r.cacheRemoved == e.cacheRemoved)
            && (!e.SetFlags? ==>
                  && r.forcePull == s.forcePull && r.cacheRemoved == s.cacheRemoved
                  && r.isObject == (s.isObject && !(e.SaveDone? && e.ok && s.tasks[e.t].pc.undo.Some?)))
  {
    ReachableInv(s);
    hide Take, Release, Rerun, Reachable, Inv;
    if e.CloseGuard? || e.CallTake? || e.CallSave? || e.CallRemove? || e.Resumed? {
      SavedIsIssued(s);
      LockEventsKeepTheObject(s, e);
      hide Apply;
    } else if e.SaveDone? {
      SaveDoneObject(s, e);
      hide Apply;
    } else {
      hide EndSave;
    }
  }

  lemma SaveDoneObject(s: State, e: Event)
    requires e.SaveDone? && Enabled(s, e)
    ensures var r := Apply(s, e);
            && r.memory == s.memory && r.forcePull == s.forcePull && r.cacheRemoved == s.cacheRemoved
            && r.isObject == (s.isObject && !(e.ok && s.tasks[e.t].pc.undo.Some?))
  {
    EndSaveObject(s, e.t, e.ok, e.landed, e.implRoute);
    hide EndSave, Take, Release, Rerun;
  }

  lemma EndSaveObject(s: State, t: TaskId, ok: bool, landed: bool, implRoute: Option<Route>)
    requires t in s.tasks && s.tasks[t].pc.Saving?
    ensures var r := EndSave(s, t, ok, landed, implRoute);
            && r.memory == s.memory && r.forcePull == s.forcePull && r.cacheRemoved == s.cacheRemoved
            && r.isObject == (s.isObject && !(ok && s.tasks[t].pc.undo.Some?))
  {
    var pc := s.tasks[t].pc;
    var s1 := Finished(s, pc, ok, landed, implRoute);
    assert s1.tasks == s.tasks && SameObject(s, s1);
    hide Finished;
  }

  lemma SavedIsIssued(s: State)
    requires Inv(s)
    ensures s.savedSequence <= s.savingSequence
  {
  }

  lemma LockEventsKeepTheObject(s: State, e: Event)
    requires Enabled(s, e) && s.savedSequence <= s.savingSequence
    requires e.CloseGuard? || e.CallTake? || e.CallSave? || e.CallRemove? || e.Resumed?
    ensures SameObject(s, Apply(s, e))
  {
    hide Take, Release, Rerun;
    match e
    case CloseGuard(t) => ReleaseObject(s, t);
    case CallTake(t) => TakeObject(s, t, Hold);
    case CallSave(t) => TakeObject(IssueNumber(s), t, Save(s.savingSequence + 1));
    case CallRemove(t, target) => TakeObject(s, t, Remove(target));
    case Resumed(t) => RerunObject(s, t);
  }

  // ------------------------------------------------------------------ removals that come too late

  /** The object as a removal that comes too late leaves it. */
  ghost predicate NothingRemoved(s: State, r: State, t: TaskId) {
    && t in r.tasks && r.tasks[t].pc.Ready? && r.holder == Some(t) && r.route == s.route
    && r.issued == s.issued && r.acked == s.acked && r.writes == s.writes && r.isObject == s.isObject
  }

  lemma OwnedLateRemoval(s: State, t: TaskId, target: nat)
    requires t in s.tasks && s.tasks[t].guards != [] && !s.Writable()
    ensures s.holder == Some(t) ==> NothingRemoved(s, BeginRemoval(s, t, target), t)
    ensures NothingRemoved(s, BeginRemoval(Acquire(s, t), t, target), t)
  {
    assert BeginRemoval(s, t, target) == s.At(t, Ready);
    assert BeginRemoval(Acquire(s, t), t, target) == Acquire(s, t).At(t, Ready);
  }

  lemma TakenLateRemoval(s: State, t: TaskId, target: nat)
    requires t in s.tasks && s.tasks[t].guards != [] && Available(s, t) && !s.Writable()
    ensures NothingRemoved(s, Take(s, t, Remove(target)), t)
  {
    hide BeginRemoval;
    OwnedLateRemoval(DropExited(s), t, target);
  }

  lemma RerunLateRemoval(s: State, t: TaskId, target: nat)
    requires Enabled(s, Resumed(t)) && Available(s, t) && !s.Writable() && s.tasks[t].pc.call == Remove(target)
    ensures NothingRemoved(s, Rerun(s, t), t)
  {
    hide BeginRemoval, Without;
    OwnedLateRemoval(DropExited(s.(queue := Without(s.queue, t))), t, target);
  }

  /** A removal that gets hold of an object which is not writable any more succeeds
      without a save and without touching the route. */
  lemma LateRemovalDoesNothing(s: State, e: Event, t: TaskId, target: nat)
    requires Enabled(s, e) && Available(s, t) && !s.Writable()
    requires e == CallRemove(t, target) || (e == Resumed(t) && s.tasks[t].pc.call == Remove(target))
    ensures NothingRemoved(s, Apply(s, e), t)
  {
    hide Take, Rerun, NothingRemoved;
    if e.CallRemove? {
      TakenLateRemoval(s, t, target);
    } else {
      RerunLateRemoval(s, t, target);
    }
  }

  // ------------------------------------------------------------------ the order of waiting

  /** a stands before b. */
  ghost predicate InOrder(q: seq<TaskId>, a: TaskId, b: TaskId) {
    exists i, j :: 0 <= i < j < |q| && q[i] == a && q[j] == b
  }

  lemma {:induction false} WithoutOrder(q: seq<TaskId>, t: TaskId, a: TaskId, b: TaskId)
    requires InOrder(q, a, b) && a != t && b != t
    ensures InOrder(Without(q, t), a, b)
    decreases |q|
  {
    var i, j :| 0 <= i < j < |q| && q[i] == a && q[j] == b;
    if q[0] == t {
      assert q[1..][i - 1] == a && q[1..][j - 1] == b;
      WithoutOrder(q[1..], t, a, b);
    } else if i > 0 {
      assert q[1..][i - 1] == a && q[1..][j - 1] == b;
      WithoutOrder(q[1..], t, a, b);
      var w := Without(q[1..], t);
      var k, l :| 0 <= k < l < |w| && w[k] == a && w[l] == b;
      assert ([q[0]] + w)[k + 1] == a && ([q[0]] + w)[l + 1] == b;
    } else {
      assert q[1..][j - 1] == b;
      WithoutKeeps(q[1..], t, b);
      var w := Without(q[1..], t);
      var l :| 0 <= l < |w| && w[l] == b;
      assert ([q[0]] + w)[0] == a && ([q[0]] + w)[l + 1] == b;
    }
  }

  lemma {:induction false} WithoutKeeps(q: seq<TaskId>, t: TaskId, b: TaskId)
    requires b in q && b != t
    ensures b in Without(q, t)
  {
    if q[0] == b {
    } else {
      WithoutKeeps(q[1..], t, b);
    }
  }

  /** A release wakes the first task in the list that waits, and nobody else. */
  lemma {:induction false} WakesTheFirst(s: State, i: nat)
    requires i < |s.queue| && CanResume(s, s.queue[i])
    requires forall j :: 0 <= j < i ==> !CanResume(s, s.queue[j])
    ensures var r := WakeFirst(s);
            && Woken(r, s.queue[i]) && r.queue == s.queue[i..] && r.holder == s.holder
            && forall u :: u != s.queue[i] ==>
                 (u in r.tasks <==> u in s.tasks) && (u in s.tasks ==> r.tasks[u] == s.tasks[u])
    decreases i
  {
    if i == 0 {
    } else {
      var s1 := s.(queue := s.queue[1..]);
      assert forall j :: 0 <= j < i - 1 ==> s1.queue[j] == s.queue[j + 1];
      WakesTheFirst(s1, i - 1);
    }
  }

  lemma ReleaseWakesTheFirst(s: State, t: TaskId, i: nat)
    requires Reachable(s) && Guarded(s, t) && s.holder == Some(t) && !s.Exiting(t)
    requires s.tasks[t].guards[|s.tasks[t].guards| - 1]
    requires i < |s.queue| && Waiting(s, s.queue[i])
    requires forall j :: 0 <= j < i ==> !Waiting(s, s.queue[j])
    ensures var r := Apply(s, CloseGuard(t));
            && r.holder.None? && Woken(r, s.queue[i]) && r.queue == s.queue[i..]
            && forall u :: u != s.queue[i] ==> (Waiting(r, u) <==> Waiting(s, u)) && (Woken(r, u) <==> Woken(s, u))
  {
    ReachableInv(s);
    WaitersCanResume(s);
    hide WakeFirst, Reachable, Inv;
    var g := s.tasks[t].guards;
    var s1 := s.With(t, s.tasks[t].(guards := g[..|g| - 1])).(holder := None);
    assert forall u :: CanResume(s1, u) <==> CanResume(s, u);
    WakesTheFirst(s1, i);
  }

  lemma WaitersCanResume(s: State)
    requires LockBut(s, None)
    ensures forall u :: Waiting(s, u) <==> CanResume(s, u)
  {
    assert forall u :: u in s.tasks ==> LockTask(s, u);
  }

  /** A live task that has to wait, or to wait again, stands last. */
  lemma NewcomersStandLast(s: State, e: Event, t: TaskId)
    requires Enabled(s, e) && t in s.tasks && !s.Exiting(t) && !Available(s, t)
    requires e == CallTake(t) || (e == CallSave(t) && s.Writable()) || (e.CallRemove? && e.t == t) || e == Resumed(t)
    ensures Waiting(Apply(s, e), t)
    ensures Apply(s, e).queue == (if e.Resumed? then Without(s.queue, t) else s.queue) + [t]
  {
    hide Granted, Without;
  }

  lemma BeginSaveQueue(s: State, t: TaskId, number: nat, undo: Option<Route>)
    requires t in s.tasks
    ensures BeginSave(s, t, number, undo).queue == s.queue && BeginSave(s, t, number, undo).issued == s.issued
    ensures BeginSave(s, t, number, undo).savingSequence == s.savingSequence && t in BeginSave(s, t, number, undo).tasks
  {
  }

  lemma GrantedQueue(s: State, t: TaskId, call: Call)
    requires t in s.tasks && s.tasks[t].guards != []
    ensures Granted(s, t, call).queue == s.queue
  {
    hide BeginSave;
    match call
    case Hold =>
    case Save(number) => BeginSaveQueue(s, t, number, None);
    case Remove(target) =>
      var s1 := if target != s.route.serverId then s.(route := Route(target, s.route.version + 1)) else s;
      var s2 := DropExited(IssueNumber(s1));
      var s3 := if s2.holder == Some(t) then s2 else Acquire(s2, t);
      BeginSaveQueue(s3, t, s3.savingSequence, Some(s.route));
  }

  lemma TakeQueue(s: State, t: TaskId, call: Call)
    requires t in s.tasks && s.tasks[t].guards != []
    ensures Take(s, t, call).queue == s.queue || Take(s, t, call).queue == s.queue + [t]
  {
    hide Granted;
    var s1 := DropExited(s);
    if s1.holder == Some(t) {
      GrantedQueue(s1, t, call);
    } else if s1.holder.None? {
      GrantedQueue(Acquire(s1, t), t, call);
    }
  }

  lemma RerunQueue(s: State, t: TaskId)
    requires Enabled(s, Resumed(t))
    ensures var left := Without(s.queue, t); Rerun(s, t).queue == left || Rerun(s, t).queue == left + [t]
  {
    hide Granted, Without;
    var s1 := DropExited(s.(queue := Without(s.queue, t)));
    if s1.holder.None? || s1.holder == Some(t) {
      GrantedQueue(Acquire(s1, t), t, s.tasks[t].pc.call);
    }
  }

  lemma {:induction false} WakeFirstSuffix(s: State) returns (k: nat)
    ensures k <= |s.queue| && WakeFirst(s).queue == s.queue[k..]
    decreases |s.queue|
  {
    if s.queue == [] || CanResume(s, s.queue[0]) {
      k := 0;
    } else {
      k := WakeFirstSuffix(s.(queue := s.queue[1..]));
      k := k + 1;
    }
  }

  lemma ReleaseQueue(s: State, t: TaskId) returns (k: nat)
    requires t in s.tasks && s.tasks[t].guards != []
    ensures k <= |s.queue| && Release(s, t).queue == s.queue[k..]
  {
    hide WakeFirst;
    var g := s.tasks[t].guards;
    var s1 := DropExited(s.With(t, s.tasks[t].(guards := g[..|g| - 1])));
    k := 0;
    if g[|g| - 1] && s1.holder == Some(t) {
      k := WakeFirstSuffix(s1.(holder := None));
    }
  }

  lemma SuffixOrder(q: seq<TaskId>, k: nat, a: TaskId, b: TaskId)
    requires NoDuplicates(q) && k <= |q| && InOrder(q, a, b) && a in q[k..]
    ensures InOrder(q[k..], a, b)
  {
    var i, j :| 0 <= i < j < |q| && q[i] == a && q[j] == b;
    var m :| 0 <= m < |q[k..]| && q[k..][m] == a;
    assert q[k + m] == a && k + m == i;
    assert q[k..][j - k] == b;
  }

  lemma AppendOrder(q: seq<TaskId>, t: TaskId, a: TaskId, b: TaskId)
    requires InOrder(q, a, b)
    ensures InOrder(q + [t], a, b)
  {
    var i, j :| 0 <= i < j < |q| && q[i] == a && q[j] == b;
    assert (q + [t])[i] == a && (q + [t])[j] == b;
  }

  /** Nobody overtakes: no event brings two tasks that stay in the list, other than
      the one it is about, into another order. */
  lemma NobodyOvertakes(s: State, e: Event, a: TaskId, b: TaskId)
    requires LockBut(s, None) && Enabled(s, e) && InOrder(s.queue, a, b)
    requires e.Resumed? ==> a != e.t && b != e.t
    requires a in Apply(s, e).queue
    ensures InOrder(Apply(s, e).queue, a, b)
  {
    hide Take, Release, Rerun, EndSave, InOrder, Without;
    match e
    case CloseGuard(t) => var k := ReleaseQueue(s, t); SuffixOrder(s.queue, k, a, b);
    case CallTake(t) => TakeQueue(s, t, Hold); AppendOrder(s.queue, t, a, b);
    case CallSave(t) => TakeQueue(IssueNumber(s), t, Save(s.savingSequence + 1)); AppendOrder(s.queue, t, a, b);
    case CallRemove(t, target) => TakeQueue(s, t, Remove(target)); AppendOrder(s.queue, t, a, b);
    case Resumed(t) =>
      RerunQueue(s, t);
      WithoutOrder(s.queue, t, a, b);
      AppendOrder(Without(s.queue, t), t, a, b);
    case SaveDone(t, ok, landed, implRoute) => EndSaveOneTask(s, t, ok, landed, implRoute);
    case _ =>
  }
}
