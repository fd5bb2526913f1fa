/** The one-slot await protocol of a task (task_action_base.go), and how
    YieldTaskAction uses it (task_manager.go). */
module AwaitSlot {
  import opened Options

  /** What an await is waiting for: DispatcherAwaitOptions' Type and Sequence. */
  datatype Key = Key(kind: nat, sequence: nat)

  datatype Message = Resume(key: Key, data: int) | Killed(data: int)

  /** currentAwaiting: the option, the channel's one-element buffer, and whether
      the channel exists. */
  datatype Slot = Slot(option: Option<Key>, buffer: Option<Message>, open: bool)

  // ------------------------------------------------------------------ the slot's operations

  function Setup(s: Slot, key: Key, otherRuns: bool): (r: (Slot, bool))
    ensures r.1 <==> !otherRuns && (s.option.None? || s.option.value == key)
    ensures !r.1 ==> r.0 == s
  {
    if otherRuns then (s, false)
    else if s.option.Some? && s.option.value != key then (s, false)
    else (s.(option := Some(key), open := true), true)
  }

  /** TryFinishAwait; without `notify` it only gives the await up. */
  function Finish(s: Slot, key: Key, data: int, notify: bool): (r: (Slot, bool))
    ensures !r.1 ==> r.0 == s
  {
    if s.option != Some(key) then (s, false)
    else if !notify then (s.(option := None), true)
    else if !s.open || s.buffer.Some? then (s, false)
    else (s.(option := None, buffer := Some(Resume(key, data))), true)
  }

  /** TryKillAwait looks at neither type nor sequence.  No await is not an error. */
  function KillAwait(s: Slot, data: int): (r: (Slot, bool))
    ensures !r.1 ==> r.0 == s
  {
    if s.option.None? then (s, true)
    else if !s.open || s.buffer.Some? then (s, false)
    else (s.(option := None, buffer := Some(Killed(data))), true)
  }

  class TaskAwait {
    var option: Option<Key>
    var channel: Option<Option<Message>>   // None: not made yet

    ghost function View(): Slot
      reads this
    {
      Slot(option, if channel.Some? then channel.value else None, channel.Some?)
    }

    constructor ()
      ensures View() == Slot(None, None, false)
    {
      option, channel := None, None;
    }

    method TrySetupAwait(key: Key, otherRuns: bool) returns (ok: bool)
      modifies this
      ensures (View(), ok) == Setup(old(View()), key, otherRuns)
    {
      if otherRuns { return false; }
      if option.Some? {
        if option.value != key { return false; }
      } else {
        option := Some(key);
      }
      if channel.None? { channel := Some(None); }
      return true;
    }

    method TryFinishAwait(key: Key, data: int, notify: bool) returns (ok: bool)
      modifies this
      ensures (View(), ok) == Finish(old(View()), key, data, notify)
    {
      if option.None? { return false; }
      if option.value.kind != key.kind || option.value.sequence != key.sequence { return false; }
      if !notify {
        option := None;
      } else {
        if channel.None? { return false; }
        if channel.value.Some? { return false; }   // the channel is full
        channel := Some(Some(Resume(key, data)));
        option := None;
      }
      return true;
    }

    method TryKillAwait(data: int) returns (ok: bool)
      modifies this
      ensures (View(), ok) == KillAwait(old(View()), data)
    {
      if option.None? { return true; }
      if channel.None? { return false; }
      if channel.value.Some? { return false; }
      channel := Some(Some(Killed(data)));
      option := None;
      return true;
    }

    /** The receive of YieldTaskAction, once the channel has something. */
    method Receive() returns (m: Message)
      requires View().buffer.Some?
      modifies this
      ensures m == old(View()).buffer.value && View() == old(View()).(buffer := None)
    {
      m := channel.value.value;
      channel := Some(None);
    }
  }

  // ------------------------------------------------------------------ runs

  /** A message and the await (counted from 0) that it was accepted for or received by. */
  datatype Delivery = Delivery(await: nat, message: Message)

  /** `keys[i]` is what await number i waits for; while `waiting` the task is inside
      await number |keys| - 1. */
  datatype Protocol = Protocol(
    slot: Slot, waiting: bool, keys: seq<Key>, accepted: seq<Delivery>, received: seq<Delivery>)

  /** `Yield` is the task calling YieldTaskAction, `HookFails` its PreYield hook
      failing, `Receive` the task taking its message; the others come from anywhere. */
  datatype Event =
    | Yield(key: Key, otherRuns: bool) | HookFails | Receive
    | TryResume(key: Key, data: int) | TryKill(data: int)

  predicate Enabled(p: Protocol, e: Event) {
    match e
    case Yield(_, _) => !p.waiting
    case HookFails => p.waiting && p.keys != []
    case Receive => p.waiting && p.slot.buffer.Some? && p.keys != []
    case TryResume(_, _) => true
    case TryKill(_) => true
  }

  /** What the slot gained through one operation, credited to the current await. */
  function Accept(p: Protocol, slot: Slot): Protocol {
    if slot.buffer.Some? && p.slot.buffer.None? && p.keys != [] then
      p.(slot := slot, accepted := p.accepted + [Delivery(|p.keys| - 1, slot.buffer.value)])
    else p.(slot := slot)
  }

  function Apply(p: Protocol, e: Event): Protocol
    requires Enabled(p, e)
  {
    match e
    case Yield(key, otherRuns) =>
      var (slot, ok) := Setup(p.slot, key, otherRuns);
      if ok then p.(slot := slot, waiting := true, keys := p.keys + [key]) else p
    case HookFails =>
      p.(slot := Finish(p.slot, p.keys[|p.keys| - 1], 0, false).0, waiting := false)
    case Receive =>
      p.(slot := p.slot.(buffer := None), waiting := false,
         received := p.received + [Delivery(|p.keys| - 1, p.slot.buffer.value)])
    case TryResume(key, data) => Accept(p, Finish(p.slot, key, data, true).0)
    case TryKill(data) => Accept(p, KillAwait(p.slot, data).0)
  }

  ghost predicate Possible(p: Protocol, es: seq<Event>)
    decreases |es|
  {
    es == [] || (Enabled(p, es[0]) && Possible(Apply(p, es[0]), es[1..]))
  }

  ghost function Exec(p: Protocol, es: seq<Event>): Protocol
    requires Possible(p, es)
    decreases |es|
  {
    if es == [] then p else Exec(Apply(p, es[0]), es[1..])
  }

  /** Whenever a hook fails on the way, the await is still open. */
  ghost predicate HooksBehave(p: Protocol, es: seq<Event>)
    requires Possible(p, es)
    decreases |es|
  {
    es == [] || ((es[0].HookFails? ==> p.slot.option.Some?) && HooksBehave(Apply(p, es[0]), es[1..]))
  }

  const START := Protocol(Slot(None, None, false), false, [], [], [])

  /** An idle task has a clean slot; a waiting one has an open await or one message, not both. */
  ghost predicate Clean(p: Protocol) {
    && (!p.waiting ==> p.slot.option.None? && p.slot.buffer.None?)
    && (p.waiting ==>
          && p.keys != [] && p.slot.open
          && (p.slot.option == Some(p.keys[|p.keys| - 1]) <==> p.slot.buffer.None?)
          && (p.slot.option.None? <==> p.slot.buffer.Some?))
  }

  ghost predicate Matches(p: Protocol, d: Delivery) {
    d.await < |p.keys| && (d.message.Resume? ==> d.message.key == p.keys[d.await])
  }

  ghost predicate Inv(p: Protocol) {
    && Clean(p)
    && p.accepted == p.received + (if p.slot.buffer.Some? then [Delivery(|p.keys| - 1, p.slot.buffer.value)] else [])
    && (forall i :: 0 <= i < |p.accepted| ==> Matches(p, p.accepted[i]))
    && (forall i, j :: 0 <= i < j < |p.accepted| ==> p.accepted[i].await < p.accepted[j].await)
    && (p.waiting && p.slot.buffer.None? ==> forall i :: 0 <= i < |p.accepted| ==> p.accepted[i].await < |p.keys| - 1)
  }

  lemma StepInv(p: Protocol, e: Event)
    requires Inv(p) && Enabled(p, e) && (e.HookFails? ==> p.slot.option.Some?)
    ensures Inv(Apply(p, e))
  {
    var q := Apply(p, e);
    assert forall i :: 0 <= i < |p.accepted| ==> Matches(p, p.accepted[i]);
    assert q.received + [] == q.received;
  }

  lemma {:induction false} ExecInv(p: Protocol, es: seq<Event>)
    requires Inv(p) && Possible(p, es) && HooksBehave(p, es)
    ensures Inv(Exec(p, es))
    decreases |es|
  {
    if es == [] {
    } else {
      StepInv(p, es[0]);
      ExecInv(Apply(p, es[0]), es[1..]);
    }
  }

  /** Every accepted message is received by exactly the await it was accepted for,
      in order and once, except that the last may still be in the slot of the
      current await; no await accepts two; and a resume only ever reaches the await
      with its own type and sequence. */
  lemma DeliveredExactlyOnce(es: seq<Event>)
    requires Possible(START, es) && HooksBehave(START, es)
    ensures var p := Exec(START, es);
      && p.received <= p.accepted && |p.accepted| <= |p.received| + 1
      && (p.accepted == p.received <==> p.slot.buffer.None?)
      && (!p.waiting ==> p.accepted == p.received)
      && (forall i, j :: 0 <= i < j < |p.accepted| ==> p.accepted[i].await < p.accepted[j].await)
      && (forall i :: 0 <= i < |p.accepted| ==> Matches(p, p.accepted[i]))
  {
    ExecInv(START, es);
  }

  /** The task waits and nothing was accepted yet for the await it is in. */
  ghost predicate Unanswered(p: Protocol) {
    && p.waiting && p.keys != []
    && (p.accepted == [] || p.accepted[|p.accepted| - 1].await < |p.keys| - 1)
  }

  /** The message reaches the current await: no later one is accepted for it, and
      receiving it is what the task does next. */
  ghost predicate Delivers(p: Protocol, q: Protocol, m: Message) {
    && p.keys != []
    && q.accepted == p.accepted + [Delivery(|p.keys| - 1, m)]
    && q.slot.option.None? && q.waiting && q.keys == p.keys && q.received == p.received
    && Enabled(q, Receive)
    && Apply(q, Receive).received == p.received + [Delivery(|p.keys| - 1, m)] && !Apply(q, Receive).waiting
  }

  lemma UnansweredIsOpen(p: Protocol)
    requires Inv(p)
    ensures Unanswered(p) <==> p.slot.option.Some?
    ensures Unanswered(p) ==> p.slot == Slot(Some(p.keys[|p.keys| - 1]), None, true)
  {
    assert forall i :: 0 <= i < |p.accepted| ==> Matches(p, p.accepted[i]);
  }

  lemma ResumeAt(p: Protocol, key: Key, data: int)
    requires Inv(p)
    ensures var q := Apply(p, TryResume(key, data));
      && (Finish(p.slot, key, data, true).1 <==> Unanswered(p) && key == p.keys[|p.keys| - 1])
      && (Finish(p.slot, key, data, true).1 ==> Delivers(p, q, Resume(key, data)))
      && (!Finish(p.slot, key, data, true).1 ==> q == p)
  {
    UnansweredIsOpen(p);
    hide Inv, Unanswered, Matches;
  }

  /** A resume is accepted exactly when it names the open await, and a rejected
      one changes nothing, at any point of such a run. */
  lemma ResumeAcceptedExactlyWhenOpen(es: seq<Event>, key: Key, data: int)
    requires Possible(START, es) && HooksBehave(START, es)
    ensures var p := Exec(START, es); var q := Apply(p, TryResume(key, data));
      && (Finish(p.slot, key, data, true).1 <==> Unanswered(p) && key == p.keys[|p.keys| - 1])
      && (Finish(p.slot, key, data, true).1 ==> Delivers(p, q, Resume(key, data)))
      && (!Finish(p.slot, key, data, true).1 ==> q == p)
  {
    ExecInv(START, es);
    hide *;
    ResumeAt(Exec(START, es), key, data);
  }

  lemma KillAt(p: Protocol, data: int)
    requires Inv(p)
    ensures var q := Apply(p, TryKill(data));
      && (Unanswered(p) ==> Delivers(p, q, Killed(data)))
      && (!Unanswered(p) ==> q == p)
      && KillAwait(p.slot, data).1
  {
    UnansweredIsOpen(p);
    hide Inv, Unanswered, Matches;
  }

  /** A kill or timeout is delivered exactly when the task waits and nothing was
      accepted for its await yet; otherwise it changes nothing, and in either case it
      is no error. */
  lemma KillDeliveredExactlyWhenOpen(es: seq<Event>, data: int)
    requires Possible(START, es) && HooksBehave(START, es)
    ensures var p := Exec(START, es); var q := Apply(p, TryKill(data));
      && (Unanswered(p) ==> Delivers(p, q, Killed(data)))
      && (!Unanswered(p) ==> q == p)
      && KillAwait(p.slot, data).1
  {
    ExecInv(START, es);
    hide *;
    KillAt(Exec(START, es), data);
  }

  /** An idle task can always start to wait, for anything, unless another action of
      its actor runs; and nothing is accepted for the new await yet. */
  lemma YieldAlwaysStarts(es: seq<Event>, key: Key, otherRuns: bool)
    requires Possible(START, es) && HooksBehave(START, es) && !Exec(START, es).waiting
    ensures var p := Exec(START, es); var q := Apply(p, Yield(key, otherRuns));
      && q.accepted == p.accepted && q.received == p.received
      && (!otherRuns ==> Unanswered(q) && q.keys == p.keys + [key])
      && (otherRuns ==> q == p)
  {
    ExecInv(START, es);
  }

  // ------------------------------------------------------------------ all runs

  /** What holds even where hooks fail at the wrong moment. */
  ghost predicate SlotInv(p: Protocol) {
    && (p.slot.option.Some? ==> p.slot.open && p.keys != [])
    && (p.waiting ==> p.slot.open && p.keys != [])
    && (p.slot.buffer.Some? ==> p.slot.open && p.keys != [])
    && |p.accepted| == |p.received| + (if p.slot.buffer.Some? then 1 else 0)
  }

  lemma {:induction false} SlotInvExec(p: Protocol, es: seq<Event>)
    requires SlotInv(p) && Possible(p, es)
    ensures SlotInv(Exec(p, es))
    decreases |es|
  {
    if es == [] {
    } else {
      SlotInvExec(Apply(p, es[0]), es[1..]);
    }
  }

  /** Over all runs, a kill is refused if and only if there is an await but its channel
      still holds a message nobody received; otherwise a kill of an await closes it
      and is the message accepted for it. */
  lemma KillRefusedExactlyByUnreadMessage(es: seq<Event>, data: int)
    requires Possible(START, es)
    ensures var p := Exec(START, es); var q := Apply(p, TryKill(data));
      && (!KillAwait(p.slot, data).1 <==> p.slot.option.Some? && |p.received| < |p.accepted|)
      && (p.slot.option.Some? && |p.received| == |p.accepted| ==>
            && p.keys != [] && q.accepted == p.accepted + [Delivery(|p.keys| - 1, Killed(data))]
            && q.slot.option.None? && q.slot.buffer == Some(Killed(data)))
      && (p.slot.option.None? || |p.received| < |p.accepted| ==> q == p)
  {
    SlotInvExec(START, es);
  }

  // ------------------------------------------------------------------ failing hooks

  /** A failing hook leaves the slot clean if and only if nothing was accepted for
      the await before it failed. */
  lemma HookFailureIsCleanIffStillOpen(p: Protocol)
    requires Inv(p) && p.waiting
    ensures Clean(Apply(p, HookFails)) <==> p.slot.option.Some?
    ensures !Clean(Apply(p, HookFails)) ==> Apply(p, HookFails).slot.buffer == p.slot.buffer
  {
  }

  /** Otherwise the stale message goes to the next await, whatever that waits for. */
  lemma StaleMessageReachesNextAwait() returns (es: seq<Event>)
    ensures Possible(START, es)
    ensures var p := Exec(START, es);
      p.accepted == [Delivery(0, Resume(Key(1, 1), 7))] && p.received == [Delivery(1, Resume(Key(1, 1), 7))]
      && p.keys == [Key(1, 1), Key(2, 2)]
  {
    es := [Yield(Key(1, 1), false), TryResume(Key(1, 1), 7), HookFails, Yield(Key(2, 2), false), Receive];
    var p1 := Apply(START, es[0]);
    var p2 := Apply(p1, es[1]);
    var p3 := Apply(p2, es[2]);
    var p4 := Apply(p3, es[3]);
    var p5 := Apply(p4, es[4]);
    Prepend(p4, es[4..], p5);
    Prepend(p3, es[3..], p5);
    Prepend(p2, es[2..], p5);
    Prepend(p1, es[1..], p5);
    Prepend(START, es, p5);
  }

  lemma Prepend(p: Protocol, es: seq<Event>, q: Protocol)
    requires es != [] && Enabled(p, es[0])
    requires Possible(Apply(p, es[0]), es[1..]) && Exec(Apply(p, es[0]), es[1..]) == q
    ensures Possible(p, es) && Exec(p, es) == q
  {
  }
}
