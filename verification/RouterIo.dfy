/** The router object's IO lock and save coalescing (router_object_base.go), as a
    step system.

    Tasks of one object run cooperatively: a task gives up control only while it
    waits for the lock and while its SaveObject call is at the database.  Each
    event below is one stretch of code between two such points. */
module RouterIo {
  import opened Options

  type TaskId = nat

  datatype Route = Route(serverId: nat, version: nat)

  /** What a task does once the lock is granted to it. */
  datatype Call = Hold | Save(number: nat) | Remove(target: nat)

  /** `AwaitLock(call, woken)`: inside AwaitIOTask; `woken` says that a message
      (resume, timeout or kill) is already in its await slot.
      `Saving`: inside SaveObject; `undo` is the route a removal puts back on error. */
  datatype Pc =
    | Ready
    | AwaitLock(call: Call, woken: bool)
    | Saving(number: nat, covers: nat, snapshot: nat, undo: Option<Route>)

  /** `guards` are the task's open IoTaskGuards, innermost last; true means that
      this guard took the lock (its awaitTaskId is set). */
  datatype Task = Task(pc: Pc, guards: seq<bool>, exiting: bool)

  /** A successful SaveObject: it began after `covers` numbers had been handed out
      and wrote the memory version `snapshot`. */
  datatype Write = Write(covers: nat, snapshot: nat)

  datatype State = State(
    // the object's fields
    holder: Option<TaskId>,
    queue: seq<TaskId>,
    isObject: bool, forcePull: bool, cacheRemoved: bool,
    route: Route,
    savingSequence: nat,
    savedSequence: nat,
    // the tasks
    tasks: map<TaskId, Task>,
    // what the world has seen
    memory: nat,            // version of the object in memory
    stored: nat,            // version in the database
    issued: seq<nat>,       // issued[k]: memory version when number k+1 was handed out
    writes: seq<Write>,     // successful saves
    acked: seq<nat>,        // numbers of the save calls that returned OK
    committed: Route,       // route as of the last finished operation
    poisoned: bool)         // an exiting task has held the lock
  {
    predicate Writable() { isObject && !forcePull && !cacheRemoved }

    predicate Exiting(t: TaskId) { t in tasks && tasks[t].exiting }

    function With(t: TaskId, task: Task): State { this.(tasks := tasks[t := task]) }

    function At(t: TaskId, pc: Pc): State
      requires t in tasks
    {
      With(t, tasks[t].(pc := pc))
    }
  }

  // ------------------------------------------------------------------ the lock

  /** GetAwaitTaskId drops a holder that is exiting. */
  function DropExited(s: State): State {
    if s.holder.Some? && s.Exiting(s.holder.value) then s.(holder := None) else s
  }

  function Without(q: seq<TaskId>, t: TaskId): seq<TaskId> {
    if q == [] then [] else if q[0] == t then Without(q[1..], t) else [q[0]] + Without(q[1..], t)
  }

  /** The tail of Take: the innermost guard becomes the owner. */
  function Acquire(s: State, t: TaskId): State
    requires t in s.tasks && s.tasks[t].guards != []
  {
    var g := s.tasks[t].guards;
    s.With(t, s.tasks[t].(guards := g[|g| - 1 := true]))
     .(holder := Some(t), poisoned := s.poisoned || s.tasks[t].exiting)
  }

  /** One turn of the waiting loop that finds the lock taken.  An exiting task
      cannot yield: it drops out of the queue again at once and keeps looping. */
  function Park(s: State, t: TaskId, call: Call): State
    requires t in s.tasks
  {
    var stays := s.tasks[t].exiting;
    s.At(t, AwaitLock(call, stays)).(queue := if stays then s.queue else s.queue + [t])
  }

  predicate CanResume(s: State, t: TaskId) {
    t in s.tasks && !s.tasks[t].exiting && s.tasks[t].pc.AwaitLock? && !s.tasks[t].pc.woken
  }

  /** ResumeAwaitTask on a free lock: tasks that cannot be resumed leave the queue,
      the first one that can is woken (and stays queued until it runs). */
  function WakeFirst(s: State): State
    decreases |s.queue|
  {
    if s.queue == [] then s
    else if CanResume(s, s.queue[0]) then s.At(s.queue[0], AwaitLock(s.tasks[s.queue[0]].pc.call, true))
    else WakeFirst(s.(queue := s.queue[1..]))
  }

  /** IoTaskGuard.ResumeAwaitTask of the innermost guard, which then goes away. */
  function Release(s: State, t: TaskId): State
    requires t in s.tasks && s.tasks[t].guards != []
  {
    var g := s.tasks[t].guards;
    var closed := s.With(t, s.tasks[t].(guards := g[..|g| - 1]));
    if !g[|g| - 1] then closed
    else
      var s1 := DropExited(closed);
      if s1.holder != Some(t) then s1 else WakeFirst(s1.(holder := None))
  }

  // ------------------------------------------------------------------ saving

  /** A save call hands its result to its caller: the task itself, or RemoveObject. */
  function Return(s: State, t: TaskId, number: nat, undo: Option<Route>, ok: bool): State
    requires t in s.tasks
  {
    var s1 := s.At(t, Ready).(acked := if ok then s.acked + [number] else s.acked);
    if undo.None? then s1
    else if ok then s1.(isObject := false, committed := s1.route)
    else s1.(route := undo.value)
  }

  /** InternalSaveObject after its Take. */
  function BeginSave(s: State, t: TaskId, number: nat, undo: Option<Route>): State
    requires t in s.tasks
  {
    if !s.Writable() then Return(s, t, number, undo, false)
    else if s.savedSequence >= number then Return(s, t, number, undo, true)
    else s.At(t, Saving(number, s.savingSequence, s.memory, undo))
  }

  function IssueNumber(s: State): State {
    s.(savingSequence := s.savingSequence + 1, issued := s.issued + [s.memory])
  }

  /** RemoveObject after its Take: new route, then a nested InternalSaveObject. */
  function BeginRemoval(s: State, t: TaskId, target: nat): State
    requires t in s.tasks && s.tasks[t].guards != []
  {
    if !s.Writable() then s.At(t, Ready)
    else
      var before := s.route;
      var s1 := if target != before.serverId then s.(route := Route(target, before.version + 1)) else s;
      var s2 := DropExited(IssueNumber(s1));
      var s3 := if s2.holder == Some(t) then s2 else Acquire(s2, t);
      BeginSave(s3, t, s3.savingSequence, Some(before))
  }

  function Granted(s: State, t: TaskId, call: Call): State
    requires t in s.tasks && s.tasks[t].guards != []
  {
    match call
    case Hold => s.At(t, Ready)
    case Save(number) => BeginSave(s, t, number, None)
    case Remove(target) => BeginRemoval(s, t, target)
  }

  /** IoTaskGuard.Take with the innermost guard, and the call behind it. */
  function Take(s: State, t: TaskId, call: Call): State
    requires t in s.tasks && s.tasks[t].guards != []
  {
    var s1 := DropExited(s);
    if s1.holder == Some(t) then Granted(s1, t, call)
    else if s1.holder.None? then Granted(Acquire(s1, t), t, call)
    else Park(s1, t, call)
  }

  /** A woken task runs again: it leaves the queue and tests the loop condition. */
  function Rerun(s: State, t: TaskId): State
    requires t in s.tasks && s.tasks[t].guards != [] && s.tasks[t].pc.AwaitLock?
  {
    var call := s.tasks[t].pc.call;
    var s1 := DropExited(s.(queue := Without(s.queue, t)));
    if s1.holder.None? || s1.holder == Some(t) then Granted(Acquire(s1, t), t, call)
    else Park(s1, t, call)
  }

  /** The effects of a finished SaveObject call, before its caller learns of them. */
  function Finished(s: State, pc: Pc, ok: bool, landed: bool, implRoute: Option<Route>): State
    requires pc.Saving?
  {
    var s1 := match implRoute
      case None => s
      case Some(r) => s.(route := r, committed := if pc.undo.None? then r else s.committed);
    if ok then
      s1.(savedSequence := if pc.covers > s1.savedSequence then pc.covers else s1.savedSequence,
          stored := pc.snapshot, writes := s1.writes + [Write(pc.covers, pc.snapshot)])
    else if landed then s1.(stored := pc.snapshot)
    else s1
  }

  function EndSave(s: State, t: TaskId, ok: bool, landed: bool, implRoute: Option<Route>): State
    requires t in s.tasks && s.tasks[t].pc.Saving?
  {
    var pc := s.tasks[t].pc;
    Return(Finished(s, pc, ok, landed, implRoute), t, pc.number, pc.undo, ok)
  }

  // ------------------------------------------------------------------ events

  /** `CallSave` and `CallRemove` start InternalSaveObject and RemoveObject with the
      innermost guard.  `Timeout` is the await timer, `Kill` a kill of the task.
      In `SaveDone`, `landed` says whether a failed save still reached the database
      and `implRoute` is a route set by the SaveObject implementation.
      `SetFlags` stands for every other code that flips the object's flags. */
  datatype Event =
    | OpenGuard(t: TaskId) | CloseGuard(t: TaskId)
    | CallTake(t: TaskId) | CallSave(t: TaskId) | CallRemove(t: TaskId, target: nat)
    | Resumed(t: TaskId) | Timeout(t: TaskId) | Kill(t: TaskId)
    | SaveDone(t: TaskId, ok: bool, landed: bool, implRoute: Option<Route>)
    | Mutate
    | SetFlags(isObject: bool, forcePull: bool, cacheRemoved: bool)

  predicate Idle(s: State, t: TaskId) { t in s.tasks && s.tasks[t].pc.Ready? }

  predicate Guarded(s: State, t: TaskId) { Idle(s, t) && s.tasks[t].guards != [] }

  predicate Enabled(s: State, e: Event) {
    match e
    case OpenGuard(t) => Idle(s, t)
    case CloseGuard(t) => Guarded(s, t)
    case CallTake(t) => Guarded(s, t)
    case CallSave(t) => Guarded(s, t)
    case CallRemove(t, _) => Guarded(s, t)
    case Resumed(t) => t in s.tasks && s.tasks[t].guards != [] && s.tasks[t].pc.AwaitLock? && s.tasks[t].pc.woken
    case Timeout(t) => CanResume(s, t)
    case Kill(t) => t in s.tasks
    case SaveDone(t, _, _, _) => t in s.tasks && s.tasks[t].pc.Saving?
    case Mutate => true
    case SetFlags(_, _, _) => true
  }

  function Apply(s: State, e: Event): State
    requires Enabled(s, e)
  {
    match e
    case OpenGuard(t) => s.With(t, s.tasks[t].(guards := s.tasks[t].guards + [false]))
    case CloseGuard(t) => Release(s, t)
    case CallTake(t) => Take(s, t, Hold)
    case CallSave(t) =>
      if !s.Writable() then s
      else var s1 := IssueNumber(s); Take(s1, t, Save(s1.savingSequence))
    case CallRemove(t, target) => Take(s, t, Remove(target))
    case Resumed(t) => Rerun(s, t)
    case Timeout(t) => s.At(t, AwaitLock(s.tasks[t].pc.call, true))
    case Kill(t) =>
      var pc := if s.tasks[t].pc.AwaitLock? then AwaitLock(s.tasks[t].pc.call, true) else s.tasks[t].pc;
      s.With(t, s.tasks[t].(pc := pc, exiting := true)).(poisoned := s.poisoned || s.holder == Some(t))
    case SaveDone(t, ok, landed, implRoute) => EndSave(s, t, ok, landed, implRoute)
    case Mutate => s.(memory := s.memory + 1)
    case SetFlags(o, f, c) => s.(isObject := o, forcePull := f, cacheRemoved := c)
  }

  ghost predicate Possible(s: State, es: seq<Event>)
    decreases |es|
  {
    es == [] || (Enabled(s, es[0]) && Possible(Apply(s, es[0]), es[1..]))
  }

  ghost function Exec(s: State, es: seq<Event>): State
    requires Possible(s, es)
    decreases |es|
  {
    if es == [] then s else Exec(Apply(s, es[0]), es[1..])
  }

  /** Any number of fresh tasks, a free lock, nothing saved yet. */
  ghost predicate Init(s: State) {
    && s.holder.None? && s.queue == []
    && s.savingSequence == 0 && s.savedSequence == 0 && s.issued == [] && s.writes == [] && s.acked == []
    && s.stored <= s.memory && s.committed == s.route && !s.poisoned
    && forall t :: t in s.tasks ==> s.tasks[t] == Task(Ready, [], false)
  }
}
