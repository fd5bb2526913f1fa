/** Per-user request limiting (the frequency block of HookRun in
    task_action_cs_base.go, and the ring buffer of user_cache.go). */
module RateLimit {
  import opened Options

  /** The guard of the code's reset: the ring is full and the clock is behind its
      oldest entry. */
  predicate Resets(held: seq<int>, cap: nat, now: int)
    requires 0 < cap
  {
    |held| == cap && now < held[0]
  }

  /** The ring's contents, oldest first, after a request at `now`; and whether the
      request may go on. */
  function Request(held: seq<int>, cap: nat, window: int, now: int): (r: (seq<int>, bool))
    requires 0 < cap && |held| <= cap
    ensures |r.0| <= cap
    ensures !r.1 ==> r.0 == held
  {
    if |held| < cap then (held + [now], true)
    else if Resets(held, cap, now) then ([now], true)
    else if now - held[0] >= window then (held[1..] + [now], true)
    else (held, false)
  }

  /** Position index + i of a ring of length n. */
  function Around(index: nat, i: nat, n: nat): (k: nat)
    requires index < n && i <= n
    ensures k < n
  {
    if index + i < n then index + i else index + i - n
  }

  function Unrolled(a: seq<int>, index: nat, count: nat): (s: seq<int>)
    requires index < |a| && count <= |a|
    ensures |s| == count
  {
    seq(count, i requires 0 <= i < count => a[Around(index, i, |a|)])
  }

  lemma Appended(a: seq<int>, index: nat, count: nat, x: int)
    requires index < |a| && count < |a|
    ensures Unrolled(a[Around(index, count, |a|) := x], index, count + 1) == Unrolled(a, index, count) + [x]
  {
  }

  lemma Overwritten(a: seq<int>, index: nat, x: int)
    requires index < |a|
    ensures Unrolled(a[index := x], Around(index, 1, |a|), |a|) == Unrolled(a, index, |a|)[1..] + [x]
  {
  }

  lemma Restarted(a: seq<int>, index: nat, x: int)
    requires index < |a|
    ensures Unrolled(a[0 := x], 0, 1) == [x]
    ensures Unrolled(a, index, |a|)[0] == a[index]
  {
  }

  lemma WrapsAround(index: nat, i: nat, n: nat)
    requires index < n && i <= n
    ensures (index + i) % n == Around(index, i, n)
  {
    if index + i < n { SmallRest(index + i, 0, n); } else { SmallRest(index + i - n, 1, n); }
  }

  lemma SmallRest(r: nat, q: nat, n: nat)
    requires r < n && q <= 1
    ensures (q * n + r) % n == r
  {
  }

  // ------------------------------------------------------------------ the ring

  /** The ring's fields.  The array has the length of the limit it was made for, and
      the limit is fixed by the options of the method's descriptor, so every request
      to a ring comes with the limit that is its length. */
  datatype Cells = Cells(timestamps: seq<int>, index: nat, count: nat)

  /** The invariant: index and count stay within the array. */
  predicate Regular(c: Cells) {
    c.index < |c.timestamps| && c.count <= |c.timestamps|
  }

  /** The request reads or writes outside the array. */
  predicate Fails(c: Cells, limit: nat)
    requires 0 < limit
  {
    if c.count < limit then (c.index + c.count) % limit >= |c.timestamps| else c.index >= |c.timestamps|
  }

  /** The fields after a request, and whether it may go on. */
  function Step(c: Cells, limit: nat, window: int, now: int): (Cells, bool)
    requires 0 < limit && 0 < |c.timestamps| && !Fails(c, limit)
  {
    if c.count < limit then
      (Cells(c.timestamps[(c.index + c.count) % limit := now], c.index, c.count + 1), true)
    else if now < c.timestamps[c.index] then (Cells(c.timestamps[0 := now], 0, 1), true)
    else if now - c.timestamps[c.index] >= window then
      (Cells(c.timestamps[c.index := now], (c.index + 1) % limit, c.count), true)
    else (c, false)
  }

  /** While the limit is the array's length the ring never fails, stays regular, and
      does to its contents, oldest first, what Request says. */
  lemma RegularStep(c: Cells, window: int, now: int)
    requires Regular(c)
    ensures var cap := |c.timestamps|;
            && !Fails(c, cap)
            && var (c', ok) := Step(c, cap, window, now);
               && Regular(c') && |c'.timestamps| == cap
               && (Unrolled(c'.timestamps, c'.index, c'.count), ok)
                  == Request(Unrolled(c.timestamps, c.index, c.count), cap, window, now)
  {
    var a, cap := c.timestamps, |c.timestamps|;
    WrapsAround(c.index, c.count, cap);
    WrapsAround(c.index, 1, cap);
    if c.count < cap {
      Appended(a, c.index, c.count, now);
    } else {
      Restarted(a, c.index, now);
      Overwritten(a, c.index, now);
    }
  }

  /** No limit up to the array's length makes a regular ring fail or irregular. */
  lemma SmallLimitStep(c: Cells, limit: nat, window: int, now: int)
    requires Regular(c) && 0 < limit <= |c.timestamps|
    ensures !Fails(c, limit) && Regular(Step(c, limit, window, now).0)
    ensures |Step(c, limit, window, now).0.timestamps| == |c.timestamps|
  {
  }

  /** Requests at these times, with the same limit, lead to one that fails. */
  predicate FailsAlong(c: Cells, limit: nat, window: int, times: seq<int>)
    requires 0 < limit && 0 < |c.timestamps|
    decreases |times|
  {
    Fails(c, limit) || (times != [] && FailsAlong(Step(c, limit, window, times[0]).0, limit, window, times[1..]))
  }

  lemma {:induction false} SmallLimitNeverFails(c: Cells, limit: nat, window: int, times: seq<int>)
    requires Regular(c) && 0 < limit <= |c.timestamps|
    ensures !FailsAlong(c, limit, window, times)
    decreases |times|
  {
    hide Step, Fails, Regular;
    assert 0 < |c.timestamps|;
    if times == [] {
      SmallLimitStep(c, limit, window, 0);
    } else {
      SmallLimitStep(c, limit, window, times[0]);
      SmallLimitNeverFails(Step(c, limit, window, times[0]).0, limit, window, times[1..]);
    }
  }

  /** With a larger limit some requests fail: the ring fills up beyond its length,
      or its index is pushed off the end. */
  lemma {:induction false} LargeLimitFails(c: Cells, limit: nat, window: int) returns (times: seq<int>)
    requires 0 < |c.timestamps| < limit && c.index <= |c.timestamps| && c.count <= limit
    ensures FailsAlong(c, limit, window, times)
    decreases limit - c.count, |c.timestamps| - c.index
  {
    if Fails(c, limit) {
      times := [];
    } else {
      var now := if c.count < limit then 0 else c.timestamps[c.index] + if window < 0 then 0 else window;
      var next := Step(c, limit, window, now).0;
      var rest := LargeLimitFails(next, limit, window);
      times := [now] + rest;
      assert times[1..] == rest;
    }
  }

  /** Whatever the requests, a regular ring never leaves its array if and only if
      the limit is at most the array's length. */
  lemma SafeExactlyUpToItsLength(c: Cells, limit: nat, window: int)
    requires Regular(c) && 0 < limit
    ensures (forall times :: !FailsAlong(c, limit, window, times)) <==> limit <= |c.timestamps|
  {
    hide Fails, Step;
    if limit <= |c.timestamps| {
      forall times
        ensures !FailsAlong(c, limit, window, times)
      {
        SmallLimitNeverFails(c, limit, window, times);
      }
    } else {
      var times := LargeLimitFails(c, limit, window);
      assert !(forall ts :: !FailsAlong(c, limit, window, ts)) by {
        assert FailsAlong(c, limit, window, times);
      }
    }
  }

  class Ring {
    const timestamps: array<int>
    var index: nat
    var count: nat

    ghost function View(): Cells
      reads this, timestamps
    {
      Cells(timestamps[..], index, count)
    }

    ghost predicate Valid()
      reads this, timestamps
    {
      Regular(View())
    }

    ghost function Contents(): seq<int>
      requires Valid()
      reads this, timestamps
    {
      Unrolled(timestamps[..], index, count)
    }

    constructor (cap: nat)
      requires cap > 0
      ensures Valid() && Contents() == [] && timestamps.Length == cap && fresh(timestamps)
    {
      timestamps := new int[cap];
      index, count := 0, 0;
    }

    /** One request.  None stands for the panic of an access outside the array. */
    method Check(limit: nat, window: int, now: int) returns (allowed: Option<bool>)
      requires 0 < limit && 0 < timestamps.Length
      modifies this, timestamps
      ensures allowed.None? <==> Fails(old(View()), limit)
      ensures if allowed.None? then View() == old(View())
              else (View(), allowed.value) == Step(old(View()), limit, window, now)
      ensures limit == timestamps.Length && old(Valid()) ==>
                && Valid() && allowed.Some?
                && (Contents(), allowed.value) == Request(old(Contents()), limit, window, now)
    {
      if limit == timestamps.Length && index < limit && count <= limit {
        RegularStep(View(), window, now);
      }
      hide Request, Unrolled, Around;
      ghost var a := timestamps[..];
      if count < limit {
        var pos := (index + count) % limit;
        if pos >= timestamps.Length { return None; }
        timestamps[pos] := now;
        assert timestamps[..] == a[pos := now];
        count := count + 1;
        return Some(true);
      }
      if index >= timestamps.Length { return None; }
      var oldest := timestamps[index];
      if now - oldest < 0 {
        timestamps[0] := now;
        index, count := 0, 1;
        assert timestamps[..] == a[0 := now];
        return Some(true);
      } else if now - oldest >= window {
        timestamps[index] := now;
        assert timestamps[..] == a[index := now];
        index := (index + 1) % limit;
        return Some(true);
      } else {
        return Some(false);
      }
    }
  }

  /** HookRun's decision for one user and one protocol.  A missing user or option,
      a window or a count of 0 or less let every request through. */
  datatype Limit = NoLimit | Disabled | Frequency(windowMs: int, count: int)

  method Admit(limit: Limit, ring: Ring?, now: int) returns (allowed: Option<bool>, kept: Ring?)
    requires ring != null ==> 0 < ring.timestamps.Length
    modifies ring, if ring != null then {ring.timestamps} else {}
    ensures !(limit.Frequency? && limit.windowMs > 0 && limit.count > 0) ==>
              && allowed == Some(!limit.Disabled?) && kept == ring
              && (ring != null ==> ring.View() == old(ring.View()))
    ensures limit.Frequency? && limit.windowMs > 0 && limit.count > 0 && ring != null ==>
              && kept == ring && (allowed.None? <==> Fails(old(ring.View()), limit.count))
              && if allowed.None? then kept.View() == old(ring.View())
                 else (kept.View(), allowed.value) == Step(old(ring.View()), limit.count, limit.windowMs, now)
    ensures limit.Frequency? && limit.windowMs > 0 && limit.count > 0
            && (ring == null || (old(ring.Valid()) && ring.timestamps.Length == limit.count)) ==>
              && kept != null && kept.Valid() && kept.timestamps.Length == limit.count && allowed.Some?
              && (kept.Contents(), allowed.value)
                 == Request(if ring == null then [] else old(ring.Contents()), limit.count, limit.windowMs, now)
  {
    kept := ring;
    match limit
    case NoLimit => allowed := Some(true);
    case Disabled => allowed := Some(false);
    case Frequency(windowMs, count) =>
      if windowMs <= 0 || count <= 0 { return Some(true), ring; }
      if kept == null { kept := new Ring(count); }
      hide Step, Request, Fails;
      allowed := kept.Check(count, windowMs, now);
  }

  // ------------------------------------------------------------------ histories

  /** What a history of requests leads to: the times let through, those among them
      since the clock last went back on a full ring, and the ring's contents. */
  datatype History = History(accepted: seq<int>, since: seq<int>, held: seq<int>)

  function Run(times: seq<int>, cap: nat, window: int): (h: History)
    requires 0 < cap
    ensures |h.held| <= cap
  {
    if times == [] then History([], [], [])
    else
      var now, h := times[|times| - 1], Run(times[..|times| - 1], cap, window);
      var (held, ok) := Request(h.held, cap, window, now);
      if !ok then h
      else History(h.accepted + [now], if Resets(h.held, cap, now) then [now] else h.since + [now], held)
  }

  ghost predicate NonDecreasing(s: seq<int>) { forall i, j :: 0 <= i <= j < |s| ==> s[i] <= s[j] }

  function Last(s: seq<int>, n: nat): seq<int> { if |s| <= n then s else s[|s| - n..] }

  /** How many of the times lie in [from, to). */
  function CountIn(s: seq<int>, from: int, to: int): nat {
    if s == [] then 0
    else CountIn(s[..|s| - 1], from, to) + if from <= s[|s| - 1] < to then 1 else 0
  }

  /** The sliding-window limiter: a request passes iff fewer than cap requests have
      passed in the window (now - window, now]. */
  function Reference(times: seq<int>, cap: nat, window: int): seq<int> {
    if times == [] then []
    else
      var now, accepted := times[|times| - 1], Reference(times[..|times| - 1], cap, window);
      if CountIn(accepted, now - window + 1, now + 1) < cap then accepted + [now] else accepted
  }

  ghost predicate Spaced(s: seq<int>, cap: nat, window: int) {
    forall i :: 0 <= i && i + cap < |s| ==> s[i + cap] - s[i] >= window
  }

  lemma LastAppend(s: seq<int>, cap: nat, x: int)
    requires 0 < cap
    ensures Last(s + [x], cap) == if |s| < cap then Last(s, cap) + [x] else Last(s, cap)[1..] + [x]
  {
  }

  /** With any clock: the ring holds the latest accepted times in order, and since
      the last reset the (i + cap)-th accepted time is a window after the i-th. */
  lemma {:induction false} RingHoldsTheLatest(times: seq<int>, cap: nat, window: int)
    requires 0 < cap
    ensures var h := Run(times, cap, window);
      h.held == Last(h.since, cap) && Spaced(h.since, cap, window) && Last(h.accepted, |h.since|) == h.since
  {
    if times == [] {
    } else {
      var before, now := times[..|times| - 1], times[|times| - 1];
      RingHoldsTheLatest(before, cap, window);
      var h := Run(before, cap, window);
      if Request(h.held, cap, window, now).1 { RingStep(h, cap, window, now); }
    }
  }

  lemma RingStep(h: History, cap: nat, window: int, now: int)
    requires 0 < cap && h.held == Last(h.since, cap) && Spaced(h.since, cap, window)
    requires Last(h.accepted, |h.since|) == h.since && Request(h.held, cap, window, now).1
    ensures var since := if Resets(h.held, cap, now) then [now] else h.since + [now];
      && Request(h.held, cap, window, now).0 == Last(since, cap)
      && Spaced(since, cap, window) && Last(h.accepted + [now], |since|) == since
  {
    LastAppend(h.since, cap, now);
  }

  lemma {:induction false} SteadyClock(times: seq<int>, cap: nat, window: int)
    requires 0 < cap && NonDecreasing(times)
    ensures var h := Run(times, cap, window);
      && h.since == h.accepted && NonDecreasing(h.accepted)
      && (h.accepted != [] ==> times != [] && h.accepted[|h.accepted| - 1] <= times[|times| - 1])
  {
    if times == [] {
    } else {
      var before, now := times[..|times| - 1], times[|times| - 1];
      SteadyClock(before, cap, window);
      RingHoldsTheLatest(before, cap, window);
      var h := Run(before, cap, window);
      if h.accepted != [] {
        assert h.accepted[|h.accepted| - 1] <= before[|before| - 1] <= now;
        if |h.held| == cap { assert h.held[0] == h.accepted[|h.accepted| - cap]; }
      }
    }
  }

  /** The counted times of an ordered sequence are one stretch [low, high) of it. */
  lemma {:induction false} Stretch(s: seq<int>, from: int, to: int) returns (low: nat, high: nat)
    requires NonDecreasing(s)
    ensures low <= high <= |s| && CountIn(s, from, to) == high - low
    ensures forall i :: low <= i < high ==> from <= s[i] < to
    ensures forall i :: 0 <= i < |s| && (i < low || high <= i) ==> !(from <= s[i] < to)
  {
    low, high := 0, 0;
    if s == [] {
    } else {
      var front, last := s[..|s| - 1], s[|s| - 1];
      low, high := Stretch(front, from, to);
      assert forall i :: 0 <= i < |front| ==> front[i] == s[i];
      if from <= last < to {
        if low == high {
          low, high := |s| - 1, |s|;
        } else {
          assert front[high - 1] <= last;
          assert high == |s| - 1;
          high := |s|;
        }
      }
    }
  }

  // ------------------------------------------------------------------ the cap

  /** The requests of the history that find the ring full and the clock behind. */
  ghost predicate ResetFree(times: seq<int>, cap: nat, window: int)
    requires 0 < cap
  {
    forall k :: 0 <= k < |times| ==> !Resets(Run(times[..k], cap, window).held, cap, times[k])
  }

  lemma {:induction false} ResetFreeKeepsAll(times: seq<int>, cap: nat, window: int)
    requires 0 < cap && ResetFree(times, cap, window)
    ensures Run(times, cap, window).since == Run(times, cap, window).accepted
    decreases |times|
  {
    if times == [] {
    } else {
      var n := |times| - 1;
      assert times[..n] + [times[n]] == times;
      ResetFreePrefix(times, n, cap, window);
      ResetFreeKeepsAll(times[..n], cap, window);
    }
  }

  lemma ResetFreePrefix(times: seq<int>, n: nat, cap: nat, window: int)
    requires 0 < cap && n <= |times| && ResetFree(times, cap, window)
    ensures ResetFree(times[..n], cap, window)
  {
    hide Run;
    forall k | 0 <= k < n
      ensures !Resets(Run(times[..n][..k], cap, window).held, cap, times[..n][k])
    {
      assert times[..n][..k] == times[..k];
    }
  }

  /** Positions of one ring slot are a window apart. */
  lemma {:induction false} SlotMatesApart(s: seq<int>, cap: nat, window: nat, i: nat, m: nat)
    requires 0 < cap && 0 < m && Spaced(s, cap, window) && i + m * cap < |s|
    ensures s[i + m * cap] - s[i] >= window
    decreases m
  {
    var j := i + (m - 1) * cap;
    assert j + cap == i + m * cap && i <= j;
    assert s[j + cap] - s[j] >= window;
    if m == 1 {
    } else {
      SlotMatesApart(s, cap, window, i, m - 1);
    }
  }

  /** The ring slots of the counted positions. */
  function Slots(s: seq<int>, cap: nat, from: int, to: int): set<nat>
    requires 0 < cap
  {
    if s == [] then {}
    else
      var rest := Slots(s[..|s| - 1], cap, from, to);
      if from <= s[|s| - 1] < to then rest + {(|s| - 1) % cap} else rest
  }

  lemma {:induction false} SlotIsCounted(s: seq<int>, cap: nat, from: int, to: int, slot: nat) returns (i: nat)
    requires 0 < cap && slot in Slots(s, cap, from, to)
    ensures i < |s| && i % cap == slot && from <= s[i] < to
  {
    var n := |s| - 1;
    if slot in Slots(s[..n], cap, from, to) {
      i := SlotIsCounted(s[..n], cap, from, to, slot);
    } else {
      i := n;
    }
  }

  lemma SameSlot(i: nat, j: nat, cap: nat) returns (m: nat)
    requires 0 < cap && i < j && i % cap == j % cap
    ensures 0 < m && j == i + m * cap
  {
    m := j / cap - i / cap;
    assert i == i / cap * cap + i % cap && j == j / cap * cap + j % cap;
    assert j - i == m * cap;
  }

  /** Each slot is counted at most once, so as many are counted as there are slots. */
  lemma {:induction false} OneCountPerSlot(s: seq<int>, cap: nat, window: nat, from: int)
    requires 0 < cap && Spaced(s, cap, window)
    ensures CountIn(s, from, from + window) == |Slots(s, cap, from, from + window)|
  {
    if s == [] {
    } else {
      var n := |s| - 1;
      var front := s[..n];
      assert Spaced(front, cap, window);
      OneCountPerSlot(front, cap, window, from);
      if from <= s[n] < from + window && n % cap in Slots(front, cap, from, from + window) {
        var i := SlotIsCounted(front, cap, from, from + window, n % cap);
        var m := SameSlot(i, n, cap);
        SlotMatesApart(s, cap, window, i, m);
        assert false;
      }
    }
  }

  lemma {:induction false} SlotsAreFew(s: seq<int>, cap: nat, from: int, to: int)
    requires 0 < cap
    ensures forall k :: k in Slots(s, cap, from, to) ==> k < cap
    ensures |Slots(s, cap, from, to)| <= cap
  {
    if s == [] {
    } else {
      SlotsAreFew(s[..|s| - 1], cap, from, to);
    }
    SmallSet(Slots(s, cap, from, to), cap);
  }

  lemma {:induction false} SmallSet(a: set<nat>, n: nat)
    requires forall k :: k in a ==> k < n
    ensures |a| <= n
  {
    if n == 0 {
      assert a == {};
    } else {
      SmallSet(a - {n - 1}, n - 1);
    }
  }

  lemma {:induction false} EmptyWindow(s: seq<int>, from: int, to: int)
    requires to <= from
    ensures CountIn(s, from, to) == 0
  {
    if s == [] {
    } else {
      EmptyWindow(s[..|s| - 1], from, to);
    }
  }

  lemma WindowBound(s: seq<int>, cap: nat, window: int, from: int)
    requires 0 < cap && Spaced(s, cap, window)
    ensures CountIn(s, from, from + window) <= cap
  {
    hide CountIn, Slots, Spaced;
    if window <= 0 {
      EmptyWindow(s, from, from + window);
    } else {
      OneCountPerSlot(s, cap, window, from);
      SlotsAreFew(s, cap, from, from + window);
    }
  }

  /** With any clock: until the ring is reset, no window of that length, wherever it
      starts, sees more than cap acceptances. */
  lemma NoWindowExceedsTheCap(times: seq<int>, cap: nat, window: int, from: int)
    requires 0 < cap && ResetFree(times, cap, window)
    ensures CountIn(Run(times, cap, window).accepted, from, from + window) <= cap
  {
    hide Run, CountIn, Last, ResetFree;
    ResetFreeKeepsAll(times, cap, window);
    RingHoldsTheLatest(times, cap, window);
    WindowBound(Run(times, cap, window).accepted, cap, window, from);
  }

  lemma SteadyIsResetFree(times: seq<int>, cap: nat, window: int)
    requires 0 < cap && NonDecreasing(times)
    ensures ResetFree(times, cap, window)
  {
    hide Run, Last;
    forall k | 0 <= k < |times|
      ensures !Resets(Run(times[..k], cap, window).held, cap, times[k])
    {
      SteadyClock(times[..k], cap, window);
      RingHoldsTheLatest(times[..k], cap, window);
      var h := Run(times[..k], cap, window);
      if |h.held| == cap {
        OldestHeld(h, cap);
        assert times[..k][|times[..k]| - 1] == times[k - 1];
      }
    }
  }

  lemma OldestHeld(h: History, cap: nat)
    requires 0 < cap == |h.held| && h.held == Last(h.since, cap) && Last(h.accepted, |h.since|) == h.since
    ensures h.accepted != [] && h.held[0] in h.accepted
    ensures NonDecreasing(h.accepted) ==> h.held[0] <= h.accepted[|h.accepted| - 1]
  {
    assert h.held[0] == h.since[|h.since| - cap];
    assert forall i :: 0 <= i < |h.since| ==> h.since[i] == h.accepted[|h.accepted| - |h.since| + i];
  }

  /** In particular with a clock that does not go back. */
  lemma SteadyClockKeepsTheCap(times: seq<int>, cap: nat, window: int, from: int)
    requires 0 < cap && NonDecreasing(times)
    ensures CountIn(Run(times, cap, window).accepted, from, from + window) <= cap
  {
    SteadyIsResetFree(times, cap, window);
    NoWindowExceedsTheCap(times, cap, window, from);
  }

  // ------------------------------------------------------------------ a reset breaks the cap

  function Copies(t: int, k: nat): seq<int> {
    if k == 0 then [] else Copies(t, k - 1) + [t]
  }

  /** None of the requests `more`, coming after `before`, resets the ring. */
  ghost predicate NoMoreResets(before: seq<int>, more: seq<int>, cap: nat, window: int)
    requires 0 < cap
  {
    forall k :: 0 <= k < |more| ==> !Resets(Run(before + more[..k], cap, window).held, cap, more[k])
  }

  lemma NoMoreResetsSnoc(before: seq<int>, more: seq<int>, t: int, cap: nat, window: int)
    requires 0 < cap && NoMoreResets(before, more, cap, window)
    requires !Resets(Run(before + more, cap, window).held, cap, t)
    ensures NoMoreResets(before, more + [t], cap, window)
  {
    hide Run;
    var all := more + [t];
    forall k | 0 <= k < |all|
      ensures !Resets(Run(before + all[..k], cap, window).held, cap, all[k])
    {
      assert all[..k] == more[..k];
      if k == |more| {
        assert more[..k] == more;
      }
    }
  }

  lemma RunTakes(before: seq<int>, t: int, cap: nat, window: int)
    requires 0 < cap && |Run(before, cap, window).held| < cap
    ensures var h, h' := Run(before, cap, window), Run(before + [t], cap, window);
            h'.accepted == h.accepted + [t] && h'.held == h.held + [t]
  {
    RunAppend(before, t, cap, window);
  }

  lemma RunResets(before: seq<int>, t: int, cap: nat, window: int)
    requires 0 < cap && Resets(Run(before, cap, window).held, cap, t)
    ensures var h, h' := Run(before, cap, window), Run(before + [t], cap, window);
            h'.accepted == h.accepted + [t] && h'.held == [t]
  {
    RunAppend(before, t, cap, window);
  }

  lemma RunExpires(before: seq<int>, t: int, cap: nat, window: int)
    requires 0 < cap && 0 < window && |Run(before, cap, window).held| == cap
    requires t - Run(before, cap, window).held[0] >= window
    ensures Run(before + [t], cap, window).accepted == Run(before, cap, window).accepted + [t]
  {
    RunAppend(before, t, cap, window);
  }

  lemma NoMoreRequests(before: seq<int>, cap: nat, window: int)
    requires 0 < cap
    ensures NoMoreResets(before, [], cap, window)
  {
  }

  /** A ring that holds one entry takes cap - 1 requests at any time. */
  lemma {:induction false} FillUp(before: seq<int>, t: int, k: nat, cap: nat, window: int)
    requires 0 < cap && k < cap && |Run(before, cap, window).held| == 1
    ensures var h, h' := Run(before, cap, window), Run(before + Copies(t, k), cap, window);
            h'.accepted == h.accepted + Copies(t, k) && h'.held == h.held + Copies(t, k)
    ensures NoMoreResets(before, Copies(t, k), cap, window) && |Copies(t, k)| == k
  {
    hide Run, NoMoreResets;
    if k == 0 {
      assert before + [] == before;
      var h := Run(before, cap, window);
      assert h.accepted + [] == h.accepted && h.held + [] == h.held;
      NoMoreRequests(before, cap, window);
    } else {
      FillUp(before, t, k - 1, cap, window);
      var all := before + Copies(t, k - 1);
      RunTakes(all, t, cap, window);
      assert before + Copies(t, k) == all + [t];
      NoMoreResetsSnoc(before, Copies(t, k - 1), t, cap, window);
      var h := Run(before, cap, window);
      assert (h.accepted + Copies(t, k - 1)) + [t] == h.accepted + Copies(t, k);
      assert (h.held + Copies(t, k - 1)) + [t] == h.held + Copies(t, k);
    }
  }

  lemma {:induction false} CountConcat(a: seq<int>, b: seq<int>, from: int, to: int)
    ensures CountIn(a + b, from, to) == CountIn(a, from, to) + CountIn(b, from, to)
  {
    if b == [] {
      assert a + b == a;
    } else {
      var n := |b| - 1;
      CountConcat(a, b[..n], from, to);
      assert (a + b)[..|a| + n] == a + b[..n];
    }
  }

  lemma {:induction false} CountCopies(t: int, k: nat, from: int, to: int)
    requires from <= t < to
    ensures CountIn(Copies(t, k), from, to) == k
  {
    if k == 0 {
    } else {
      CountCopies(t, k - 1, from, to);
      assert Copies(t, k)[..|Copies(t, k)| - 1] == Copies(t, k - 1);
    }
  }

  lemma {:induction false} CountMember(s: seq<int>, t: int, from: int, to: int)
    requires t in s && from <= t < to
    ensures CountIn(s, from, to) >= 1
  {
    var n := |s| - 1;
    if t in s[..n] {
      CountMember(s[..n], t, from, to);
    } else {
      assert s[n] == t;
    }
  }

  /** Requests `more` after times and now, without a reset among them, put more
      than cap acceptances into the window that starts at `from`. */
  ghost predicate Breach(times: seq<int>, now: int, more: seq<int>, from: int, cap: nat, window: int)
    requires 0 < cap
  {
    && NoMoreResets(times + [now], more, cap, window)
    && CountIn(Run(times + [now] + more, cap, window).accepted, from, from + window) > cap
  }

  /** The oldest entry t lies within a window after now. */
  lemma NearBreach(times: seq<int>, now: int, t: int, cap: nat, window: int)
    requires 0 < cap && Resets(Run(times, cap, window).held, cap, now) && now < t < now + window
    requires t in Run(times, cap, window).accepted
    ensures Breach(times, now, Copies(t, cap - 1), now, cap, window)
  {
    hide Run, CountIn, Copies, NoMoreResets, Resets;
    var more := Copies(t, cap - 1);
    RunResets(times, now, cap, window);
    FillUp(times + [now], t, cap - 1, cap, window);
    CountBreach(Run(times, cap, window).accepted, now, more, t, now, window);
    CountCopies(t, cap - 1, now, now + window);
    CountOne(now, now, now + window);
  }

  /** It lies a window or more after now. */
  lemma FarBreach(times: seq<int>, now: int, t: int, cap: nat, window: int)
    requires 0 < cap && 0 < window && Resets(Run(times, cap, window).held, cap, now) && t - now >= window
    requires t in Run(times, cap, window).accepted
    ensures Breach(times, now, Copies(t, cap - 1) + [t], t, cap, window)
  {
    hide Run, CountIn, Copies, NoMoreResets;
    var more, accepted := Copies(t, cap - 1), Run(times, cap, window).accepted;
    RunResets(times, now, cap, window);
    FillUp(times + [now], t, cap - 1, cap, window);
    var all := times + [now] + more;
    assert Run(all, cap, window).held[0] == now;
    RunExpires(all, t, cap, window);
    NoMoreResetsSnoc(times + [now], more, t, cap, window);
    assert all + [t] == times + [now] + (more + [t]);
    assert accepted + [now] + more + [t] == accepted + [now] + (more + [t]);
    CountBreach(accepted, now, more + [t], t, t, window);
    CountConcat(more, [t], t, t + window);
    CountOne(t, t, t + window);
    CountCopies(t, cap - 1, t, t + window);
  }

  /** After a reset, cap - 1 or cap requests at the time of the entry that was the
      oldest put more than cap acceptances into one window. */
  lemma ResetOpensABreach(times: seq<int>, now: int, cap: nat, window: int) returns (more: seq<int>, from: int)
    requires 0 < cap && 0 < window && Resets(Run(times, cap, window).held, cap, now)
    ensures Breach(times, now, more, from, cap, window)
  {
    hide Run, CountIn, Copies, Last, Breach;
    var t := Run(times, cap, window).held[0];
    RingHoldsTheLatest(times, cap, window);
    OldestHeld(Run(times, cap, window), cap);
    if t - now < window {
      more, from := Copies(t, cap - 1), now;
      NearBreach(times, now, t, cap, window);
    } else {
      more, from := Copies(t, cap - 1) + [t], t;
      FarBreach(times, now, t, cap, window);
    }
  }

  lemma CountOne(t: int, from: int, to: int)
    requires from <= t < to
    ensures CountIn([t], from, to) == 1
  {
    assert [t][..0] == [];
  }

  lemma CountBreach(earlier: seq<int>, now: int, more: seq<int>, t: int, from: int, window: int)
    requires t in earlier && from <= t < from + window
    ensures CountIn(earlier + [now] + more, from, from + window)
         >= 1 + CountIn([now], from, from + window) + CountIn(more, from, from + window)
  {
    hide CountIn;
    CountMember(earlier, t, from, from + window);
    CountConcat(earlier + [now], more, from, from + window);
    CountConcat(earlier, [now], from, from + window);
  }

  lemma ResetFreeConcat(times: seq<int>, now: int, more: seq<int>, cap: nat, window: int)
    requires 0 < cap && ResetFree(times, cap, window) && NoMoreResets(times + [now], more, cap, window)
    requires !Resets(Run(times, cap, window).held, cap, now)
    ensures ResetFree(times + [now] + more, cap, window)
  {
    hide Run;
    var n, all := |times|, times + [now] + more;
    forall k | 0 <= k < |all|
      ensures !Resets(Run(all[..k], cap, window).held, cap, all[k])
    {
      if k < n {
        assert all[..k] == times[..k];
      } else if k == n {
        assert all[..k] == times;
      } else {
        assert all[..k] == times + [now] + more[..k - n - 1];
        assert all[k] == more[k - n - 1];
      }
    }
  }

  /** The exact condition, checkable before the request: from a history without
      resets a request makes more than cap acceptances in one window possible,
      without any reset after it, if and only if it resets the ring. */
  lemma BreachOpensExactlyWithAReset(times: seq<int>, now: int, cap: nat, window: int)
    requires 0 < cap && 0 < window && ResetFree(times, cap, window)
    ensures Resets(Run(times, cap, window).held, cap, now) <==>
            exists more, from :: Breach(times, now, more, from, cap, window)
  {
    hide Run, CountIn, NoMoreResets, ResetFree;
    if Resets(Run(times, cap, window).held, cap, now) {
      var more, from := ResetOpensABreach(times, now, cap, window);
    } else {
      forall more, from
        ensures !Breach(times, now, more, from, cap, window)
      {
        if NoMoreResets(times + [now], more, cap, window) {
          ResetFreeConcat(times, now, more, cap, window);
          NoWindowExceedsTheCap(times + [now] + more, cap, window, from);
        }
      }
    }
  }

  lemma WindowFull(s: seq<int>, cap: nat, window: int, now: int)
    requires 0 < cap <= |s| && NonDecreasing(s) && s[|s| - 1] <= now
    requires CountIn(s, now - window + 1, now + 1) <= cap
    ensures CountIn(s, now - window + 1, now + 1) == cap <==> now - s[|s| - cap] < window
  {
    var low, high := Stretch(s, now - window + 1, now + 1);
    var oldest := s[|s| - cap];
    assert oldest <= s[|s| - 1];
    assert forall i :: |s| - cap <= i < |s| ==> oldest <= s[i] <= now;
    assert forall i :: 0 <= i <= |s| - cap ==> s[i] <= oldest;
    if now - oldest < window {
      assert low <= |s| - cap && high == |s| by {
        assert now - window + 1 <= s[|s| - 1] < now + 1;
        assert now - window + 1 <= s[|s| - cap] < now + 1;
      }
    } else {
      assert low < high ==> s[low] > oldest;
    }
  }

  /** A request is denied exactly when cap accepted requests lie in the window that
      ends with it. */
  lemma DeniedExactlyWhenFull(times: seq<int>, now: int, cap: nat, window: int)
    requires 0 < cap && 0 < window && NonDecreasing(times + [now])
    ensures var h := Run(times, cap, window);
      !Request(h.held, cap, window, now).1 <==> CountIn(h.accepted, now - window + 1, now + 1) == cap
    ensures CountIn(Run(times, cap, window).accepted, now - window + 1, now + 1) <= cap
  {
    hide Run, CountIn;
    assert times == (times + [now])[..|times|];
    SteadyClock(times, cap, window);
    RingHoldsTheLatest(times, cap, window);
    var s := Run(times, cap, window).accepted;
    WindowBound(s, cap, window, now - window + 1);
    if |s| >= cap {
      var all := times + [now];
      assert all[|times| - 1] <= all[|times|];
      WindowFull(s, cap, window, now);
    } else {
      var low, high := Stretch(s, now - window + 1, now + 1);
    }
  }

  /** So with a clock that does not go back the ring is the sliding-window limiter. */
  lemma {:induction false} RingIsSlidingWindow(times: seq<int>, cap: nat, window: int)
    requires 0 < cap && 0 < window && NonDecreasing(times)
    ensures Run(times, cap, window).accepted == Reference(times, cap, window)
  {
    hide CountIn;
    if times == [] {
    } else {
      var before, now := times[..|times| - 1], times[|times| - 1];
      RingIsSlidingWindow(before, cap, window);
      assert before + [now] == times;
      DeniedExactlyWhenFull(before, now, cap, window);
    }
  }

  /** A clock that goes back resets a full ring, and then more than cap requests can
      pass within one window: limit 2 per 10, times 5, 6, 4, 6. */
  lemma BackwardClockExceedsTheCap()
    ensures CountIn(Run([5, 6, 4, 6], 2, 10).accepted, 0, 10) == 4
  {
    RunAppend([], 5, 2, 10);
    RunAppend([5], 6, 2, 10);
    RunAppend([5, 6], 4, 2, 10);
    RunAppend([5, 6, 4], 6, 2, 10);
    assert [] + [5] == [5] && [5] + [6] == [5, 6] && [5, 6] + [4] == [5, 6, 4] && [5, 6, 4] + [6] == [5, 6, 4, 6];
    CountAppend([], 5);
    CountAppend([5], 6);
    CountAppend([5, 6], 4);
    CountAppend([5, 6, 4], 6);
  }

  lemma RunAppend(times: seq<int>, now: int, cap: nat, window: int)
    requires 0 < cap
    ensures var h := Run(times, cap, window);
      var (held, ok) := Request(h.held, cap, window, now);
      Run(times + [now], cap, window) ==
        (if !ok then h
         else History(h.accepted + [now], if Resets(h.held, cap, now) then [now] else h.since + [now], held))
  {
  }

  lemma CountAppend(s: seq<int>, x: int)
    requires 0 <= x < 10
    ensures CountIn(s + [x], 0, 10) == CountIn(s, 0, 10) + 1
  {
  }
}
