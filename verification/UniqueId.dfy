/** Global unique ids (uuid.go): nodes that share an atomic counter in the
    database, each handing out the indexes of the block it fetched last. */
module UniqueId {
  import opened Options
  import opened Positions

  const WORD: nat := 0x1_0000_0000_0000_0000

  datatype MajorType = Account | Guild | Other

  function BitsOff(major: MajorType): nat {
    if major.Account? || major.Guild? then 5 else 13
  }

  function Pow2(n: nat): (p: nat)
    ensures p > 0
  {
    if n == 0 then 1 else 2 * Pow2(n - 1)
  }

  // ------------------------------------------------------------------ packing

  /** Bitwise or of two words. */
  function BitOr(x: nat, y: nat): nat
    decreases x + y
  {
    if x == 0 then y else if y == 0 then x
    else (if x % 2 == 1 || y % 2 == 1 then 1 else 0) + 2 * BitOr(x / 2, y / 2)
  }

  function ShiftLeft(x: nat, bits: nat): nat { x * Pow2(bits) % WORD }

  /** ((base << bitsOff) | index) + 1000000 in uint64 arithmetic. */
  function Pack(major: MajorType, base: nat, index: nat): nat {
    (BitOr(ShiftLeft(base, BitsOff(major)), index) + 1000000) % WORD
  }

  lemma BitOrDouble(h: nat, y: nat)
    requires h > 0
    ensures BitOr(2 * h, y) == y % 2 + 2 * BitOr(h, y / 2)
  {
    assert 2 * h / 2 == h && 2 * h % 2 == 0;
  }

  lemma {:induction false} BitOrDisjoint(x: nat, bits: nat, y: nat)
    requires y < Pow2(bits)
    ensures BitOr(x * Pow2(bits), y) == x * Pow2(bits) + y
    decreases bits
  {
    if bits == 0 {
    } else if x == 0 {
      assert x * Pow2(bits) == 0;
    } else {
      var h := x * Pow2(bits - 1);
      assert x * Pow2(bits) == 2 * h && h > 0;
      BitOrDisjoint(x, bits - 1, y / 2);
      hide BitOr, Pow2;
      BitOrDouble(h, y);
    }
  }

  /** How many blocks there are before the packed value wraps. */
  function Blocks(major: MajorType): nat { if BitsOff(major) == 5 then 0x800_0000_0000_0000 else 0x8_0000_0000_0000 }

  lemma PowValues()
    ensures Pow2(5) == 32 && Pow2(13) == 8192
  {
  }

  lemma ShiftWraps(major: MajorType, base: nat)
    ensures Blocks(major) * Pow2(BitsOff(major)) == WORD
    ensures ShiftLeft(base, BitsOff(major)) == base % Blocks(major) * Pow2(BitsOff(major))
  {
    PowValues();
    var b, p := Blocks(major), Pow2(BitsOff(major));
    var q, r := base / b, base % b;
    assert base == q * b + r;
    assert base * p == q * WORD + r * p by {
      assert base * p == q * b * p + r * p;
      assert q * b * p == q * (b * p);
    }
    assert 0 <= r * p < WORD;
    assert (q * WORD + r * p) % WORD == r * p;
  }

  /** The or never carries: before the offset an id is block times range plus index. */
  lemma PackValue(major: MajorType, base: nat, index: nat)
    requires index < Pow2(BitsOff(major))
    ensures var x := base % Blocks(major) * Pow2(BitsOff(major)) + index;
      x < WORD && Pack(major, base, index) == (x + 1000000) % WORD
  {
    var m := Blocks(major);
    ShiftWraps(major, base);
    BitOrDisjoint(base % m, BitsOff(major), index);
    PowValues();
  }

  /** Two packed ids agree exactly when their indexes agree and their blocks agree
      modulo the number of blocks a word has room for. */
  lemma PackCollides(major: MajorType, b1: nat, i1: nat, b2: nat, i2: nat)
    requires i1 < Pow2(BitsOff(major)) && i2 < Pow2(BitsOff(major))
    ensures Pack(major, b1, i1) == Pack(major, b2, i2) <==>
            i1 == i2 && b1 % Blocks(major) == b2 % Blocks(major)
  {
    PackValue(major, b1, i1);
    PackValue(major, b2, i2);
    PowValues();
    SameWord(b1 % Blocks(major), i1, b2 % Blocks(major), i2, Pow2(BitsOff(major)));
  }

  lemma SameWord(r1: nat, i1: nat, r2: nat, i2: nat, p: nat)
    requires p == 32 || p == 8192
    requires i1 < p && i2 < p && r1 * p + i1 < WORD && r2 * p + i2 < WORD
    ensures (r1 * p + i1 + 1000000) % WORD == (r2 * p + i2 + 1000000) % WORD <==> r1 == r2 && i1 == i2
  {
  }

  // ------------------------------------------------------------------ the allocation protocol

  type NodeId = nat
  type TaskId = nat

  /** uniqueIDPool of one node: base 0 means that nothing was fetched yet. */
  datatype Pool = Pool(base: nat, index: nat, ioTask: Option<TaskId>)

  /** `Fetching`: the database call is on its way; `Fetched`: it answered. */
  datatype Pc = Ready | Fetching | Fetched(value: nat)

  datatype Task = Task(node: NodeId, pc: Pc, exiting: bool)

  datatype Issue = Issue(base: nat, index: nat)

  datatype State = State(
    counter: nat,                  // the database's counter for one key
    pools: map<NodeId, Pool>,
    tasks: map<TaskId, Task>,
    installed: set<nat>,           // blocks that some pool has started on
    issues: seq<Issue>)            // what was handed out

  /** `Allocate`, `StartFetch` and `Install` are the locked stretches of
      GenerateGlobalUniqueID; `FetchFails` may still have bumped the counter.
      `Done` is the end of the fetching call. */
  datatype Event =
    | Allocate(t: TaskId) | StartFetch(t: TaskId)
    | FetchAnswers(t: TaskId) | FetchFails(t: TaskId, bumped: bool)
    | Install(t: TaskId) | Done(t: TaskId) | Kill(t: TaskId)

  predicate Present(s: State, t: TaskId) { t in s.tasks && s.tasks[t].node in s.pools }

  /** Nobody else is at the database for this pool; an exiting task does not count. */
  predicate MayProceed(s: State, t: TaskId)
    requires Present(s, t)
  {
    var io := s.pools[s.tasks[t].node].ioTask;
    io.None? || io == Some(t) || (io.value in s.tasks && s.tasks[io.value].exiting)
  }

  predicate NeedsBlock(major: MajorType, p: Pool) { p.base == 0 || p.index >= Pow2(BitsOff(major)) }

  predicate Enabled(s: State, major: MajorType, e: Event) {
    Present(s, e.t) && var task := s.tasks[e.t];
    match e
    case Allocate(t) =>
      task.pc.Ready? && !task.exiting && MayProceed(s, t) && !NeedsBlock(major, s.pools[task.node])
    case StartFetch(t) =>
      task.pc.Ready? && !task.exiting && MayProceed(s, t) && NeedsBlock(major, s.pools[task.node])
    case FetchAnswers(_) => task.pc.Fetching?
    case FetchFails(_, _) => task.pc.Fetching?
    case Install(_) => task.pc.Fetched?
    case Done(_) => task.pc.Ready?
    case Kill(_) => true
  }

  function HandOut(s: State, n: NodeId): State
    requires n in s.pools
  {
    var p := s.pools[n];
    s.(pools := s.pools[n := p.(index := p.index + 1)], issues := s.issues + [Issue(p.base, p.index)])
  }

  function Apply(s: State, major: MajorType, e: Event): State
    requires Enabled(s, major, e)
  {
    var t, task := e.t, s.tasks[e.t];
    var pool := s.pools[task.node];
    match e
    case Allocate(_) => HandOut(s, task.node)
    case StartFetch(_) =>
      s.(pools := s.pools[task.node := pool.(ioTask := Some(t))], tasks := s.tasks[t := task.(pc := Fetching)])
    case FetchAnswers(_) =>
      s.(counter := s.counter + 1, tasks := s.tasks[t := task.(pc := Fetched(s.counter + 1))])
    case FetchFails(_, bumped) =>
      s.(counter := if bumped then s.counter + 1 else s.counter, tasks := s.tasks[t := task.(pc := Ready)])
    case Install(_) =>
      var s1 := s.(pools := s.pools[task.node := pool.(base := task.pc.value, index := 0)],
                   tasks := s.tasks[t := task.(pc := Ready)],
                   installed := s.installed + {task.pc.value});
      HandOut(s1, task.node)
    case Done(_) =>
      if pool.ioTask == Some(t) then s.(pools := s.pools[task.node := pool.(ioTask := None)]) else s
    case Kill(_) => s.(tasks := s.tasks[t := task.(exiting := true)])
  }

  ghost predicate Possible(s: State, major: MajorType, es: seq<Event>)
    decreases |es|
  {
    es == [] || (Enabled(s, major, es[0]) && Possible(Apply(s, major, es[0]), major, es[1..]))
  }

  ghost function Exec(s: State, major: MajorType, es: seq<Event>): State
    requires Possible(s, major, es)
    decreases |es|
  {
    if es == [] then s else Exec(Apply(s, major, es[0]), major, es[1..])
  }

  /** Any set of nodes and tasks; the counter may already have been used. */
  ghost predicate Init(s: State) {
    && s.installed == {} && s.issues == []
    && (forall n :: n in s.pools ==> s.pools[n] == Pool(0, 0, None))
    && (forall t :: t in s.tasks ==> s.tasks[t].pc.Ready?)
  }

  // ------------------------------------------------------------------ invariants

  ghost predicate FetchInv(s: State) {
    && (forall b :: b in s.installed ==> 0 < b <= s.counter)
    && (forall t :: t in s.tasks && s.tasks[t].pc.Fetched? ==>
          0 < s.tasks[t].pc.value <= s.counter && s.tasks[t].pc.value !in s.installed)
    && (forall t, u :: t in s.tasks && u in s.tasks && t != u && s.tasks[t].pc.Fetched? && s.tasks[u].pc.Fetched? ==>
          s.tasks[t].pc.value != s.tasks[u].pc.value)
  }

  ghost predicate PoolInv(s: State, major: MajorType) {
    && (forall n :: n in s.pools && s.pools[n].base != 0 ==>
          s.pools[n].base in s.installed && 1 <= s.pools[n].index <= Pow2(BitsOff(major)))
    && (forall n, m :: n in s.pools && m in s.pools && n != m && s.pools[n].base != 0 ==>
          s.pools[n].base != s.pools[m].base)
  }

  ghost predicate IssueInv(s: State, major: MajorType) {
    && (forall i :: 0 <= i < |s.issues| ==>
          s.issues[i].base in s.installed && s.issues[i].index < Pow2(BitsOff(major)))
    && (forall i, n :: 0 <= i < |s.issues| && n in s.pools && s.pools[n].base == s.issues[i].base ==>
          s.issues[i].index < s.pools[n].index)
    && (forall i, j :: 0 <= i < j < |s.issues| ==> s.issues[i] != s.issues[j])
  }

  ghost predicate Inv(s: State, major: MajorType) {
    FetchInv(s) && PoolInv(s, major) && IssueInv(s, major) && 0 !in s.installed
  }

  lemma HandOutInv(s: State, major: MajorType, n: NodeId)
    requires FetchInv(s) && IssueInv(s, major) && 0 !in s.installed
    requires n in s.pools && s.pools[n].base in s.installed && s.pools[n].index < Pow2(BitsOff(major))
    requires forall m :: m in s.pools && s.pools[m].base != 0 ==> s.pools[m].base in s.installed
    requires forall m :: m in s.pools && m != n && s.pools[m].base != 0 ==>
               1 <= s.pools[m].index <= Pow2(BitsOff(major))
    requires forall m, k :: m in s.pools && k in s.pools && m != k && s.pools[m].base != 0 ==>
               s.pools[m].base != s.pools[k].base
    ensures Inv(HandOut(s, n), major)
  {
    var r := HandOut(s, n);
    assert IssueInv(r, major) by {
      forall i, m | 0 <= i < |r.issues| && m in r.pools && r.pools[m].base == r.issues[i].base
        ensures r.issues[i].index < r.pools[m].index
      {
        if i < |s.issues| { assert r.issues[i] == s.issues[i]; }
      }
    }
  }

  /** A block is started once: fetched values are new, and one that was installed
      is gone from its task. */
  lemma InstallInv(s: State, major: MajorType, t: TaskId)
    requires Inv(s, major) && Enabled(s, major, Install(t))
    ensures Inv(Apply(s, major, Install(t)), major)
  {
    var task := s.tasks[t];
    var pool := s.pools[task.node];
    var s1 := s.(pools := s.pools[task.node := pool.(base := task.pc.value, index := 0)],
                 tasks := s.tasks[t := task.(pc := Ready)],
                 installed := s.installed + {task.pc.value});
    assert FetchInv(s1);
    assert IssueInv(s1, major);
    HandOutInv(s1, major, task.node);
  }

  lemma AllocateInv(s: State, major: MajorType, t: TaskId)
    requires Inv(s, major) && Enabled(s, major, Allocate(t))
    ensures Inv(Apply(s, major, Allocate(t)), major)
  {
    HandOutInv(s, major, s.tasks[t].node);
  }

  lemma FetchAnswersInv(s: State, major: MajorType, t: TaskId)
    requires Inv(s, major) && Enabled(s, major, FetchAnswers(t))
    ensures Inv(Apply(s, major, FetchAnswers(t)), major)
  {
  }

  lemma FetchFailsInv(s: State, major: MajorType, t: TaskId, bumped: bool)
    requires Inv(s, major) && Enabled(s, major, FetchFails(t, bumped))
    ensures Inv(Apply(s, major, FetchFails(t, bumped)), major)
  {
  }

  /** Events that hand nothing out and fetch nothing. */
  lemma QuietInv(s: State, major: MajorType, e: Event)
    requires Inv(s, major) && Enabled(s, major, e) && (e.StartFetch? || e.Done? || e.Kill?)
    ensures Inv(Apply(s, major, e), major)
  {
  }

  lemma StepInv(s: State, major: MajorType, e: Event)
    requires Inv(s, major) && Enabled(s, major, e)
    ensures Inv(Apply(s, major, e), major)
  {
    hide Inv, Apply, HandOut;
    match e
    case Install(t) => InstallInv(s, major, t);
    case Allocate(t) => AllocateInv(s, major, t);
    case FetchAnswers(t) => FetchAnswersInv(s, major, t);
    case FetchFails(t, bumped) => FetchFailsInv(s, major, t, bumped);
    case StartFetch(_) => QuietInv(s, major, e);
    case Done(_) => QuietInv(s, major, e);
    case Kill(_) => QuietInv(s, major, e);
  }

  lemma {:induction false} ExecInv(s: State, major: MajorType, es: seq<Event>)
    requires Inv(s, major) && Possible(s, major, es)
    ensures Inv(Exec(s, major, es), major)
    decreases |es|
  {
    if es == [] {
    } else {
      StepInv(s, major, es[0]);
      ExecInv(Apply(s, major, es[0]), major, es[1..]);
    }
  }

  // ------------------------------------------------------------------ theorems

  /** The ids that a run returned, in order. */
  ghost function Ids(s: State, major: MajorType): seq<nat> {
    seq(|s.issues|, i requires 0 <= i < |s.issues| => Pack(major, s.issues[i].base, s.issues[i].index))
  }

  /** Two ids of a run are equal exactly when their indexes agree and their blocks,
      which differ, agree modulo the number of blocks. */
  lemma IdsCollideExactlyOnWrap(s0: State, major: MajorType, es: seq<Event>, i: nat, j: nat)
    requires Init(s0) && Possible(s0, major, es)
    requires i < j < |Exec(s0, major, es).issues|
    ensures var s := Exec(s0, major, es);
      Ids(s, major)[i] == Ids(s, major)[j] <==>
        && s.issues[i].index == s.issues[j].index && s.issues[i].base != s.issues[j].base
        && s.issues[i].base % Blocks(major) == s.issues[j].base % Blocks(major)
  {
    ExecInv(s0, major, es);
    var s := Exec(s0, major, es);
    PackCollides(major, s.issues[i].base, s.issues[i].index, s.issues[j].base, s.issues[j].index);
  }

  /** No two ids of one run are equal, whichever nodes and tasks they come from and
      however late a block is installed, as long as the counter fits the id. */
  lemma IdsAreUnique(s0: State, major: MajorType, es: seq<Event>, i: nat, j: nat)
    requires Init(s0) && Possible(s0, major, es)
    requires Exec(s0, major, es).counter < Blocks(major)
    requires i < j < |Exec(s0, major, es).issues|
    ensures Ids(Exec(s0, major, es), major)[i] != Ids(Exec(s0, major, es), major)[j]
  {
    IdsCollideExactlyOnWrap(s0, major, es, i, j);
    ExecInv(s0, major, es);
    var s := Exec(s0, major, es);
    assert s.issues[i].base in s.installed && s.issues[j].base in s.installed;
    SmallMod(s.issues[i].base, Blocks(major));
    SmallMod(s.issues[j].base, Blocks(major));
  }

  lemma SmallMod(x: nat, m: nat)
    requires x < m
    ensures x % m == x
  {
  }

  // ------------------------------------------------------------------ how blocks are used

  /** A live task at the database is the one its pool names. */
  ghost predicate NamedInv(s: State) {
    forall t :: t in s.tasks && !s.tasks[t].exiting && !s.tasks[t].pc.Ready? && s.tasks[t].node in s.pools ==>
      s.pools[s.tasks[t].node].ioTask == Some(t)
  }

  /** Of a pool's block everything below the index was handed out. */
  ghost predicate UsedInv(s: State, n: NodeId) {
    n in s.pools && s.pools[n].base != 0 ==>
      forall k: nat :: k < s.pools[n].index ==> Issue(s.pools[n].base, k) in s.issues
  }

  lemma NamedStep(s: State, major: MajorType, e: Event)
    requires NamedInv(s) && Enabled(s, major, e)
    ensures NamedInv(Apply(s, major, e))
  {
    hide Pow2;
  }

  lemma UsedStep(s: State, major: MajorType, e: Event, n: NodeId)
    requires UsedInv(s, n) && Enabled(s, major, e)
    ensures UsedInv(Apply(s, major, e), n)
  {
    hide Pow2;
    var r := Apply(s, major, e);
    if n in r.pools && r.pools[n].base != 0 {
      forall k: nat | k < r.pools[n].index
        ensures Issue(r.pools[n].base, k) in r.issues
      {
        if r.issues != s.issues && s.tasks[e.t].node == n && k == r.pools[n].index - 1 {
          assert r.issues[|s.issues|] == Issue(r.pools[n].base, k);
        } else {
          assert Issue(r.pools[n].base, k) in s.issues;
          KeepsIssue(s, major, e, Issue(r.pools[n].base, k));
        }
      }
    }
  }

  lemma KeepsIssue(s: State, major: MajorType, e: Event, issue: Issue)
    requires Enabled(s, major, e) && issue in s.issues
    ensures issue in Apply(s, major, e).issues
  {
    hide Pow2;
    var i: nat :| i < |s.issues| && s.issues[i] == issue;
    assert Apply(s, major, e).issues[i] == issue;
  }

  lemma {:induction false} UseExec(s: State, major: MajorType, es: seq<Event>, n: NodeId)
    requires NamedInv(s) && UsedInv(s, n) && Possible(s, major, es)
    ensures NamedInv(Exec(s, major, es)) && UsedInv(Exec(s, major, es), n)
    decreases |es|
  {
    hide NamedInv, UsedInv, Apply, Enabled;
    if es == [] {
    } else {
      NamedStep(s, major, es[0]);
      UsedStep(s, major, es[0], n);
      UseExec(Apply(s, major, es[0]), major, es[1..], n);
    }
  }

  /** At most one live task of a node is at the database at a time. */
  lemma OneFetchAtATime(s0: State, major: MajorType, es: seq<Event>, t: TaskId, u: TaskId)
    requires Init(s0) && Possible(s0, major, es)
    requires var s := Exec(s0, major, es);
             && Present(s, t) && !s.tasks[t].exiting && !s.tasks[t].pc.Ready?
             && Present(s, u) && !s.tasks[u].exiting && !s.tasks[u].pc.Ready?
             && s.tasks[t].node == s.tasks[u].node
    ensures t == u
  {
    UseExec(s0, major, es, 0);
  }

  /** When the call that asked ends, nobody is named any more, so every task of the node
      may proceed; another name stays. */
  lemma DoneLetsOthersProceed(s: State, major: MajorType, t: TaskId, u: TaskId)
    requires Enabled(s, major, Done(t)) && Present(s, u) && s.tasks[u].node == s.tasks[t].node
    ensures var r := Apply(s, major, Done(t));
            && Present(r, u)
            && if s.pools[s.tasks[t].node].ioTask == Some(t) then MayProceed(r, u) else r == s
  {
  }

  /** How often the database bumped the counter. */
  ghost function Bumps(es: seq<Event>): nat {
    if es == [] then 0
    else (if es[0].FetchAnswers? || (es[0].FetchFails? && es[0].bumped) then 1 else 0) + Bumps(es[1..])
  }

  /** The counter counts the calls that reached the database, answered or not. */
  lemma {:induction false} CounterCountsBumps(s: State, major: MajorType, es: seq<Event>)
    requires Possible(s, major, es)
    ensures Exec(s, major, es).counter == s.counter + Bumps(es)
    decreases |es|
  {
    hide Pow2;
    if es == [] {
    } else {
      CounterCountsBumps(Apply(s, major, es[0]), major, es[1..]);
    }
  }

  /** A node asks for a block only when it has none, or has handed out every index of
      the one it has: 32 for accounts and guilds, 8192 for all else. */
  lemma BlocksAreUsedUp(s0: State, major: MajorType, es: seq<Event>, t: TaskId, k: nat)
    requires Init(s0) && Possible(s0, major, es) && Enabled(Exec(s0, major, es), major, StartFetch(t))
    requires k < if major.Other? then 8192 else 32
    ensures var s := Exec(s0, major, es);
            var p := s.pools[s.tasks[t].node];
            p.base == 0 || Issue(p.base, k) in s.issues
  {
    PowValues();
    var s := Exec(s0, major, es);
    UseExec(s0, major, es, s.tasks[t].node);
    hide Pow2, Exec, Possible;
  }

  // ------------------------------------------------------------------ one call

  const MAX_RETRY: nat := 5

  /** What one turn of the retry loop finds: whether the calling task is exiting, the
      pool as others left it, the tasks that are alive, the database's answer if it
      is asked, and the pool's ioTask when the lock is taken again after that. */
  datatype Turn = Turn(exiting: bool, found: Pool, live: set<TaskId>, answer: Option<nat>, ioAfter: Option<TaskId>)

  datatype Result = Exits | Waits | Fails | Gives(base: nat, index: nat)

  /** Another live task is at the database. */
  predicate Busy(turn: Turn, t: TaskId) {
    turn.found.ioTask.Some? && turn.found.ioTask.value in turn.live && turn.found.ioTask != Some(t)
  }

  function ResultOf(turn: Turn, t: TaskId, major: MajorType): Result {
    if turn.exiting then Exits
    else if Busy(turn, t) then Waits
    else if !NeedsBlock(major, turn.found) then Gives(turn.found.base, turn.found.index)
    else if turn.answer.None? then Fails
    else Gives(turn.answer.value, 0)
  }

  /** The turn asks the database. */
  predicate Asks(turn: Turn, t: TaskId, major: MajorType) {
    !turn.exiting && !Busy(turn, t) && NeedsBlock(major, turn.found)
  }

  /** The first turn that ends the call. */
  function LastTurn(turns: seq<Turn>, t: TaskId, major: MajorType): (k: nat)
    ensures k <= |turns|
    ensures k < |turns| ==> ResultOf(turns[k], t, major).Exits? || ResultOf(turns[k], t, major).Gives?
    ensures forall i :: 0 <= i < k ==> ResultOf(turns[i], t, major).Waits? || ResultOf(turns[i], t, major).Fails?
  {
    if turns == [] || ResultOf(turns[0], t, major).Exits? || ResultOf(turns[0], t, major).Gives? then 0
    else 1 + LastTurn(turns[1..], t, major)
  }

  lemma {:induction false} LastTurnIs(turns: seq<Turn>, t: TaskId, major: MajorType, k: nat)
    requires k <= |turns|
    requires forall i :: 0 <= i < k ==> ResultOf(turns[i], t, major).Waits? || ResultOf(turns[i], t, major).Fails?
    requires k < |turns| ==> ResultOf(turns[k], t, major).Exits? || ResultOf(turns[k], t, major).Gives?
    ensures LastTurn(turns, t, major) == k
  {
    if k == 0 {
    } else {
      LastTurnIs(turns[1..], t, major, k - 1);
    }
  }

  /** The id a call returns, 0 for none. */
  function UuidOf(turns: seq<Turn>, t: TaskId, major: MajorType): nat {
    var k := LastTurn(turns, t, major);
    if k < |turns| && ResultOf(turns[k], t, major).Gives? then
      Pack(major, ResultOf(turns[k], t, major).base, ResultOf(turns[k], t, major).index)
    else 0
  }

  /** The call reports an error: it returns no id, or an earlier fetch failed. */
  predicate CallFails(turns: seq<Turn>, t: TaskId, major: MajorType) {
    UuidOf(turns, t, major) == 0
    || exists i :: 0 <= i < LastTurn(turns, t, major) && ResultOf(turns[i], t, major).Fails?
  }

  /** The pool as a turn leaves it. */
  function AfterTurn(turn: Turn, t: TaskId, major: MajorType): Pool {
    match ResultOf(turn, t, major)
    case Gives(base, index) =>
      Pool(base, index + 1, if Asks(turn, t, major) then turn.ioAfter else turn.found.ioTask)
    case Fails => turn.found.(ioTask := Some(t))
    case _ => turn.found
  }

  /** The pool as a call leaves it, before it wakes the waiters; an exiting task does
      not look at the pool any more. */
  function AfterCall(start: Pool, turns: seq<Turn>, t: TaskId, major: MajorType): Pool {
    var k := LastTurn(turns, t, major);
    if k < |turns| && ResultOf(turns[k], t, major).Gives? then AfterTurn(turns[k], t, major)
    else if k == 0 then start
    else AfterTurn(turns[k - 1], t, major)
  }

  /** Turn k ends the call with this block and index: the task is alive and no other live
      task is at the database, and the pool it finds has an index left, or it has not
      and the database answers with a new block. */
  ghost predicate Succeeds(turn: Turn, t: TaskId, major: MajorType, base: nat, index: nat) {
    && !turn.exiting
    && (turn.found.ioTask.None? || turn.found.ioTask == Some(t) || turn.found.ioTask.value !in turn.live)
    && var size := if major.Other? then 8192 else 32;
       if turn.found.base != 0 && turn.found.index < size then base == turn.found.base && index == turn.found.index
       else turn.answer == Some(base) && index == 0
  }

  ghost predicate GoesOn(turn: Turn, t: TaskId, major: MajorType) {
    !turn.exiting && forall base, index :: !Succeeds(turn, t, major, base, index)
  }

  lemma SucceedsIsGives(turn: Turn, t: TaskId, major: MajorType, base: nat, index: nat)
    ensures Succeeds(turn, t, major, base, index) <==> ResultOf(turn, t, major) == Gives(base, index)
  {
    PowValues();
    hide Pow2;
  }

  /** The call returns the id of its first turn that succeeds, unless the task is exiting
      before that, and 0 if there is none. */
  lemma CallReturnsItsFirstSuccess(turns: seq<Turn>, t: TaskId, major: MajorType, k: nat, base: nat, index: nat)
    requires k < |turns| && Succeeds(turns[k], t, major, base, index)
    requires forall i :: 0 <= i < k ==> GoesOn(turns[i], t, major)
    ensures UuidOf(turns, t, major) == Pack(major, base, index)
    ensures AfterCall(turns[0].found, turns, t, major).base == base
    ensures AfterCall(turns[0].found, turns, t, major).index == index + 1
  {
    hide Pack, Succeeds;
    SucceedsIsGives(turns[k], t, major, base, index);
    forall i | 0 <= i < k
      ensures ResultOf(turns[i], t, major).Waits? || ResultOf(turns[i], t, major).Fails?
    {
      NoSuccess(turns[i], t, major);
    }
    LastTurnIs(turns, t, major, k);
  }

  lemma NoSuccess(turn: Turn, t: TaskId, major: MajorType)
    requires GoesOn(turn, t, major)
    ensures ResultOf(turn, t, major).Waits? || ResultOf(turn, t, major).Fails?
  {
    hide Succeeds;
    var r := ResultOf(turn, t, major);
    if r.Gives? {
      SucceedsIsGives(turn, t, major, r.base, r.index);
    }
  }

  lemma CallWithoutSuccessReturnsNothing(turns: seq<Turn>, t: TaskId, major: MajorType, k: nat)
    requires k <= |turns| && (k < |turns| ==> turns[k].exiting)
    requires forall i :: 0 <= i < k ==> GoesOn(turns[i], t, major)
    ensures UuidOf(turns, t, major) == 0 && CallFails(turns, t, major)
  {
    hide Pack, Succeeds;
    forall i | 0 <= i < k
      ensures ResultOf(turns[i], t, major).Waits? || ResultOf(turns[i], t, major).Fails?
    {
      NoSuccess(turns[i], t, major);
    }
    LastTurnIs(turns, t, major, k);
  }

  /** While nobody else uses the pool and it needs a block, the first answer ends the call. */
  lemma UndisturbedCall(turns: seq<Turn>, t: TaskId, major: MajorType, k: nat)
    requires forall i :: 0 <= i < |turns| ==> Asks(turns[i], t, major)
    requires k <= |turns| && (forall i :: 0 <= i < k ==> turns[i].answer.None?)
    requires k < |turns| ==> turns[k].answer.Some?
    ensures LastTurn(turns, t, major) == k
    ensures k < |turns| ==> ResultOf(turns[k], t, major) == Gives(turns[k].answer.value, 0)
    ensures forall i :: 0 <= i < k ==> ResultOf(turns[i], t, major).Fails?
  {
    assert forall i :: 0 <= i < |turns| ==> Asks(turns[i], t, major);
    LastTurnIs(turns, t, major, k);
  }

  /** A good id together with an error: the first fetch fails, the second gets block 1. */
  lemma GoodIdWithAnError(major: MajorType, t: TaskId, rest: seq<Turn>)
    requires forall i :: 0 <= i < |rest| ==> Asks(rest[i], t, major)
    ensures var first := Turn(false, Pool(0, 0, None), {t}, None, None);
            var second := Turn(false, Pool(0, 0, Some(t)), {t}, Some(1), Some(t));
            var turns := [first, second] + rest;
            && UuidOf(turns, t, major) == Pack(major, 1, 0) == Pow2(BitsOff(major)) + 1000000
            && CallFails(turns, t, major)
            && AfterCall(Pool(0, 0, None), turns, t, major) == Pool(1, 1, Some(t))
  {
    var first := Turn(false, Pool(0, 0, None), {t}, None, None);
    var second := Turn(false, Pool(0, 0, Some(t)), {t}, Some(1), Some(t));
    var turns := [first, second] + rest;
    PackValue(major, 1, 0);
    PowValues();
    SmallMod(1, Blocks(major));
    hide Pack, Pow2, LastTurn;
    assert forall i :: 0 <= i < |turns| ==> Asks(turns[i], t, major);
    UndisturbedCall(turns, t, major, 1);
    assert ResultOf(turns[0], t, major).Fails?;
  }

  function LiveOf(waiters: seq<TaskId>, live: set<TaskId>): seq<TaskId> {
    if waiters == [] then []
    else (if waiters[0] in live then [waiters[0]] else []) + LiveOf(waiters[1..], live)
  }

  /** These are exactly the live ones, in their order. */
  lemma {:induction false} LiveInOrder(waiters: seq<TaskId>, live: set<TaskId>, n: nat) returns (ps: seq<nat>)
    requires n <= |waiters|
    ensures Ascending(ps, n) && |ps| == |LiveOf(waiters[..n], live)|
    ensures forall k :: 0 <= k < |ps| ==> LiveOf(waiters[..n], live)[k] == waiters[ps[k]]
    ensures forall i: nat | i < n :: i in ps <==> waiters[i] in live
  {
    hide Ascending;
    ps := [];
    if n == 0 {
      EmptyAscends();
    } else {
      ps := LiveInOrder(waiters, live, n - 1);
      AscendingNext(ps, n - 1);
      assert waiters[..n] == waiters[..n - 1] + [waiters[n - 1]];
      LiveSnoc(waiters[..n - 1], waiters[n - 1], live);
      if waiters[n - 1] in live {
        ps := ps + [n - 1];
      }
    }
  }

  lemma {:induction false} LiveSnoc(waiters: seq<TaskId>, t: TaskId, live: set<TaskId>)
    ensures LiveOf(waiters + [t], live) == LiveOf(waiters, live) + if t in live then [t] else []
  {
    if waiters == [] {
    } else {
      LiveSnoc(waiters[1..], t, live);
      assert (waiters + [t])[1..] == waiters[1..] + [t];
    }
  }

  class UniqueIdPool {
    var base: nat
    var index: nat
    var ioTask: Option<TaskId>
    var awaitList: seq<TaskId>

    ghost function View(): Pool
      reads this
    {
      Pool(base, index, ioTask)
    }

    constructor ()
      ensures View() == Pool(0, 0, None) && awaitList == []
    {
      base, index, ioTask, awaitList := 0, 0, None, [];
    }

    /** One turn of the loop, for a task that is not exiting. */
    method TakeTurn(major: MajorType, t: TaskId, turn: Turn) returns (result: Result)
      requires !turn.exiting
      modifies `base, `index, `ioTask
      ensures result == ResultOf(turn, t, major) && View() == AfterTurn(turn, t, major)
    {
      hide Pow2;
      // what other tasks did meanwhile
      base, index, ioTask := turn.found.base, turn.found.index, turn.found.ioTask;
      if ioTask.Some? && ioTask.value in turn.live && ioTask != Some(t) {
        return Waits;
      }
      if base == 0 || index >= Pow2(BitsOff(major)) {
        ioTask := Some(t);
        if turn.answer.None? {
          return Fails;
        }
        ioTask, base, index := turn.ioAfter, turn.answer.value, 0;
      }
      result := Gives(base, index);
      index := index + 1;
    }

    /** The retry loop of GenerateGlobalUniqueID among other tasks that change the
        pool between its turns.  CallFails is exact: the error of an earlier fetch
        is not cleared when a later turn succeeds, so such a call reports failure
        and returns a good id. */
    method Generate(major: MajorType, t: TaskId, turns: seq<Turn>)
        returns (uuid: nat, failed: bool, shouldWake: bool)
      requires |turns| == MAX_RETRY
      modifies `base, `index, `ioTask
      ensures uuid == UuidOf(turns, t, major) && (failed <==> CallFails(turns, t, major))
      ensures shouldWake <==>
                exists i :: 0 <= i <= LastTurn(turns, t, major) && i < |turns| && Asks(turns[i], t, major)
      ensures View() == AfterCall(old(View()), turns, t, major)
    {
      hide Pack, Pow2, LastTurn, AfterTurn;
      uuid, failed, shouldWake := 0, false, false;
      var i := 0;
      while i < MAX_RETRY
        invariant i <= MAX_RETRY && uuid == 0
        invariant View() == if i == 0 then old(View()) else AfterTurn(turns[i - 1], t, major)
        invariant forall j :: 0 <= j < i ==> ResultOf(turns[j], t, major).Waits? || ResultOf(turns[j], t, major).Fails?
        invariant shouldWake <==> exists j :: 0 <= j < i && Asks(turns[j], t, major)
        invariant failed <==> exists j :: 0 <= j < i && ResultOf(turns[j], t, major).Fails?
      {
        if turns[i].exiting {
          failed := true;
          break;
        }
        var result := TakeTurn(major, t, turns[i]);
        shouldWake := shouldWake || Asks(turns[i], t, major);
        if result.Gives? {
          uuid := Pack(major, result.base, result.index);
          break;
        }
        failed := failed || result.Fails?;
        i := i + 1;
      }
      LastTurnIs(turns, t, major, i);
      if uuid == 0 && !failed {
        failed := true;
      }
    }

    /** The end of a call that asked the database: if the pool still names it, every
        live waiter is resumed, in order. */
    method WakeAll(t: TaskId, live: set<TaskId>) returns (woken: seq<TaskId>)
      modifies this
      ensures base == old(base) && index == old(index)
      ensures if old(ioTask) == Some(t)
              then ioTask.None? && awaitList == [] && woken == LiveOf(old(awaitList), live)
              else ioTask == old(ioTask) && awaitList == old(awaitList) && woken == []
    {
      woken := [];
      if ioTask == Some(t) {
        ioTask := None;
        while |awaitList| > 0
          invariant ioTask.None? && base == old(base) && index == old(index)
          invariant LiveOf(old(awaitList), live) == woken + LiveOf(awaitList, live)
          decreases |awaitList|
        {
          var task := awaitList[0];
          awaitList := awaitList[1..];
          if task !in live {
            continue;
          }
          woken := woken + [task];
        }
      }
    }
  }

  // ------------------------------------------------------------------ turns are steps

  /** A turn that finds what the state says. */
  ghost predicate Sees(s: State, t: TaskId, turn: Turn) {
    && Present(s, t) && s.tasks[t].pc.Ready? && turn.exiting == s.tasks[t].exiting
    && turn.found == s.pools[s.tasks[t].node]
    && (turn.found.ioTask.Some? ==>
          (turn.found.ioTask.value in turn.live
           <==> !(turn.found.ioTask.value in s.tasks && s.tasks[turn.found.ioTask.value].exiting)))
  }

  /** The turn hands out an id at once exactly when Allocate is possible, asks the
      database exactly when StartFetch is, and otherwise takes no step. */
  lemma TurnChoosesItsStep(s: State, major: MajorType, t: TaskId, turn: Turn)
    requires Sees(s, t, turn)
    ensures Enabled(s, major, Allocate(t)) <==> ResultOf(turn, t, major).Gives? && !Asks(turn, t, major)
    ensures Enabled(s, major, StartFetch(t)) <==> Asks(turn, t, major)
  {
    hide Pow2;
  }

  /** An id from the pool's block is an Allocate step. */
  lemma TurnAllocates(s: State, major: MajorType, t: TaskId, turn: Turn)
    requires Sees(s, t, turn) && ResultOf(turn, t, major).Gives? && !Asks(turn, t, major)
    ensures Enabled(s, major, Allocate(t))
    ensures var r, given := Apply(s, major, Allocate(t)), ResultOf(turn, t, major);
            && r.issues == s.issues + [Issue(given.base, given.index)]
            && r.pools[s.tasks[t].node] == AfterTurn(turn, t, major)
  {
    hide Pow2;
  }

  /** No event of another task touches what t is doing. */
  ghost predicate Others(es: seq<Event>, t: TaskId) {
    forall i :: 0 <= i < |es| ==> es[i].t != t
  }

  lemma {:induction false} OthersKeepTask(s: State, major: MajorType, es: seq<Event>, t: TaskId)
    requires Present(s, t) && Possible(s, major, es) && Others(es, t)
    ensures Present(Exec(s, major, es), t) && Exec(s, major, es).tasks[t] == s.tasks[t]
    decreases |es|
  {
    if es == [] {
    } else {
      OthersKeepTask(Apply(s, major, es[0]), major, es[1..], t);
    }
  }

  /** From a to b only other tasks act. */
  ghost predicate Meanwhile(a: State, major: MajorType, es: seq<Event>, b: State, t: TaskId) {
    Possible(a, major, es) && Exec(a, major, es) == b && Others(es, t)
  }

  /** A turn that asks is a StartFetch step, which leaves the pool as a failed turn
      does.  Whatever other tasks do meanwhile, the answer or the error is next. */
  lemma TurnAsks(s: State, major: MajorType, t: TaskId, turn: Turn, es: seq<Event>, asked: State, bumped: bool)
    requires Sees(s, t, turn) && Asks(turn, t, major)
    requires Enabled(s, major, StartFetch(t)) ==> Meanwhile(Apply(s, major, StartFetch(t)), major, es, asked, t)
    ensures Enabled(s, major, StartFetch(t))
    ensures Apply(s, major, StartFetch(t)).pools[s.tasks[t].node] == turn.found.(ioTask := Some(t))
    ensures Enabled(asked, major, FetchAnswers(t)) && Enabled(asked, major, FetchFails(t, bumped))
    ensures asked.tasks[t].node == s.tasks[t].node
    ensures turn.answer.None? ==>
              && AfterTurn(turn, t, major) == turn.found.(ioTask := Some(t))
              && Apply(asked, major, FetchFails(t, bumped)).issues == asked.issues
              && Apply(asked, major, FetchFails(t, bumped)).tasks[t].pc.Ready?
  {
    hide Pow2;
    TurnChoosesItsStep(s, major, t, turn);
    OthersKeepTask(Apply(s, major, StartFetch(t)), major, es, t);
  }

  /** An answered turn goes on with FetchAnswers and, once the lock is taken again, an
      Install step that issues its id and leaves the pool as the turn does. */
  lemma TurnInstalls(asked: State, major: MajorType, t: TaskId, turn: Turn, es: seq<Event>, locked: State)
    requires Asks(turn, t, major) && Enabled(asked, major, FetchAnswers(t))
    requires turn.answer == Some(asked.counter + 1)
    requires Meanwhile(Apply(asked, major, FetchAnswers(t)), major, es, locked, t)
    requires asked.tasks[t].node in locked.pools ==> turn.ioAfter == locked.pools[asked.tasks[t].node].ioTask
    ensures Enabled(locked, major, Install(t))
    ensures var r, given := Apply(locked, major, Install(t)), ResultOf(turn, t, major);
            && given.Gives? && r.issues == locked.issues + [Issue(given.base, given.index)]
            && r.pools[locked.tasks[t].node] == AfterTurn(turn, t, major)
  {
    hide Pow2;
    OthersKeepTask(Apply(asked, major, FetchAnswers(t)), major, es, t);
  }
}
