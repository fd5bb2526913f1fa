/** Random pools as the configuration index holds them (excel_random_pool.go), and
    the depth-first pass that accepts a pool graph and caches, for each pool, which
    item types can come out of it. */
module RandomPools {
  import opened Options

  type int32 = x: int | -0x8000_0000 <= x < 0x8000_0000
  type int64 = x: int | -0x8000_0000_0000_0000 <= x < 0x8000_0000_0000_0000

  const POOL_BEGIN: int32 := 590000
  const POOL_END: int32 := 600000

  datatype Elem = Elem(typeId: int32, minCount: int64, maxCount: int64, weight: int32)

  datatype Kind = All | Independent | Exclusive | Custom | Other

  datatype Pool = Pool(times: int32, kind: Kind, elems: seq<Elem>)

  type Config = map<int32, Pool>

  /** An element whose type id lies in this range stands for another pool. */
  predicate IsRandomPool(id: int32) {
    POOL_BEGIN <= id < POOL_END
  }

  // ------------------------------------------------------------------ the pool graph

  /** Element i of pool p stands for pool q. */
  ghost predicate RefersAt(cfg: Config, p: int32, i: nat, q: int32) {
    p in cfg && i < |cfg[p].elems| && cfg[p].elems[i].typeId == q && IsRandomPool(q)
  }

  ghost predicate Refers(cfg: Config, p: int32, q: int32) {
    exists i: nat :: RefersAt(cfg, p, i, q)
  }

  ghost predicate IsPath(cfg: Config, path: seq<int32>) {
    forall k :: 0 <= k < |path| - 1 ==> Refers(cfg, path[k], path[k + 1])
  }

  ghost predicate HasLeaf(cfg: Config, p: int32, t: int32) {
    p in cfg && !IsRandomPool(t) && exists e :: e in cfg[p].elems && e.typeId == t
  }

  /** Item type t is an element of a pool that p leads to. */
  ghost predicate Leads(cfg: Config, p: int32, path: seq<int32>, t: int32) {
    |path| > 0 && path[0] == p && IsPath(cfg, path) && HasLeaf(cfg, path[|path| - 1], t)
  }

  // ------------------------------------------------------------------ what the pass promises

  type Obtained = map<int32, set<int32>>

  function Gives(e: Elem, obtained: Obtained): set<int32> {
    if !IsRandomPool(e.typeId) then {e.typeId}
    else if e.typeId in obtained then obtained[e.typeId] else {}
  }

  function Contents(elems: seq<Elem>, obtained: Obtained): set<int32> {
    if elems == [] then {}
    else Contents(elems[..|elems| - 1], obtained) + Gives(elems[|elems| - 1], obtained)
  }

  /** Element e of a pool with rank r is fine: a leaf, or an existing pool of
      smaller rank that is not a custom one. */
  ghost predicate ElemSettled(cfg: Config, rank: map<int32, nat>, e: Elem, r: nat) {
    IsRandomPool(e.typeId) ==>
      e.typeId in rank && rank[e.typeId] < r && e.typeId in cfg && !cfg[e.typeId].kind.Custom?
  }

  ghost predicate PoolSettled(cfg: Config, obtained: Obtained, rank: map<int32, nat>, p: int32)
    requires p in rank
  {
    && p in cfg && p in obtained
    && obtained[p] == Contents(cfg[p].elems, obtained)
    && forall i :: 0 <= i < |cfg[p].elems| ==> ElemSettled(cfg, rank, cfg[p].elems[i], rank[p])
  }

  ghost predicate Settled(cfg: Config, obtained: Obtained, rank: map<int32, nat>) {
    forall p :: p in rank ==> PoolSettled(cfg, obtained, rank, p)
  }

  /** Every pool of the configuration is settled. */
  ghost predicate Ready(cfg: Config, obtained: Obtained, rank: map<int32, nat>) {
    rank.Keys == cfg.Keys && Settled(cfg, obtained, rank)
  }

  // ------------------------------------------------------------------ consequences of Ready

  lemma {:induction false} ContentsHas(elems: seq<Elem>, obtained: Obtained, t: int32)
    ensures t in Contents(elems, obtained) <==> exists e :: e in elems && t in Gives(e, obtained)
  {
    if elems == [] {
    } else {
      var n := |elems| - 1;
      ContentsHas(elems[..n], obtained, t);
      assert elems == elems[..n] + [elems[n]];
    }
  }

  /** Ranks fall along every reference. */
  lemma RankFalls(cfg: Config, obtained: Obtained, rank: map<int32, nat>, p: int32, q: int32)
    requires Ready(cfg, obtained, rank) && Refers(cfg, p, q)
    ensures p in rank && q in rank && rank[q] < rank[p] && q in cfg && !cfg[q].kind.Custom?
  {
  }

  lemma {:induction false} RankFallsAlongPath(cfg: Config, obtained: Obtained, rank: map<int32, nat>, path: seq<int32>)
    requires Ready(cfg, obtained, rank) && IsPath(cfg, path) && |path| >= 2
    ensures path[0] in rank && path[|path| - 1] in rank && rank[path[|path| - 1]] < rank[path[0]]
    decreases |path|
  {
    var n := |path| - 1;
    RankFalls(cfg, obtained, rank, path[n - 1], path[n]);
    if n >= 2 {
      RankFallsAlongPath(cfg, obtained, rank, path[..n]);
    }
  }

  /** An accepted pool graph has no cycles, every pool it refers to exists, and a
      custom pool stands only at the start of a path. */
  lemma AcceptedGraphIsAcyclic(cfg: Config, obtained: Obtained, rank: map<int32, nat>, path: seq<int32>)
    requires Ready(cfg, obtained, rank) && IsPath(cfg, path) && |path| >= 2
    ensures path[0] != path[|path| - 1]
    ensures forall k :: 1 <= k < |path| ==> path[k] in cfg && !cfg[path[k]].kind.Custom?
  {
    RankFallsAlongPath(cfg, obtained, rank, path);
    forall k | 1 <= k < |path|
      ensures path[k] in cfg && !cfg[path[k]].kind.Custom?
    {
      RankFalls(cfg, obtained, rank, path[k - 1], path[k]);
    }
  }

  lemma ObtainedHasPath(cfg: Config, obtained: Obtained, rank: map<int32, nat>, p: int32, t: int32)
      returns (path: seq<int32>)
    requires Ready(cfg, obtained, rank) && p in cfg && t in obtained[p]
    ensures Leads(cfg, p, path, t)
    decreases rank[p]
  {
    assert PoolSettled(cfg, obtained, rank, p);
    ContentsHas(cfg[p].elems, obtained, t);
    var e :| e in cfg[p].elems && t in Gives(e, obtained);
    var i :| 0 <= i < |cfg[p].elems| && cfg[p].elems[i] == e;
    assert ElemSettled(cfg, rank, cfg[p].elems[i], rank[p]);
    if IsRandomPool(e.typeId) {
      var rest := ObtainedHasPath(cfg, obtained, rank, e.typeId, t);
      assert RefersAt(cfg, p, i, e.typeId);
      path := [p] + rest;
      assert forall k :: 0 < k < |path| ==> path[k] == rest[k - 1];
    } else {
      path := [p];
    }
  }

  lemma {:induction false} PathIsObtained(cfg: Config, obtained: Obtained, rank: map<int32, nat>, p: int32,
                                          path: seq<int32>, t: int32)
    requires Ready(cfg, obtained, rank) && Leads(cfg, p, path, t)
    ensures p in obtained && t in obtained[p]
    decreases |path|
  {
    if |path| == 1 {
      assert PoolSettled(cfg, obtained, rank, p);
      ContentsHas(cfg[p].elems, obtained, t);
      var e :| e in cfg[p].elems && e.typeId == t;
      assert t in Gives(e, obtained);
    } else {
      var q := path[1];
      assert Refers(cfg, path[0], path[1]);
      var rest := path[1..];
      forall k | 0 <= k < |rest| - 1
        ensures Refers(cfg, rest[k], rest[k + 1])
      {
        assert Refers(cfg, path[k + 1], path[k + 2]);
      }
      PathIsObtained(cfg, obtained, rank, q, rest, t);
      var i: nat :| RefersAt(cfg, p, i, q);
      assert PoolSettled(cfg, obtained, rank, p);
      ContentsHas(cfg[p].elems, obtained, t);
      assert t in Gives(cfg[p].elems[i], obtained);
    }
  }

  /** The cached set of a pool is exactly the set of item types some path from that
      pool leads to. */
  lemma ObtainedIsWhatPathsLeadTo(cfg: Config, obtained: Obtained, rank: map<int32, nat>, p: int32, t: int32)
    requires Ready(cfg, obtained, rank) && p in cfg
    ensures p in obtained
    ensures t in obtained[p] <==> exists path :: Leads(cfg, p, path, t)
  {
    assert PoolSettled(cfg, obtained, rank, p);
    if t in obtained[p] {
      var path := ObtainedHasPath(cfg, obtained, rank, p, t);
    }
    if path :| Leads(cfg, p, path, t) {
      PathIsObtained(cfg, obtained, rank, p, path, t);
    }
  }

  // ------------------------------------------------------------------ the pass

  datatype InitError = Recursive | NestedCustom | NotFound

  /** What is wrong with a configuration for which the pass reports an error.
      Sharing a pool counts: the pass may take it for recursion. */
  ghost predicate Flawed(cfg: Config, error: InitError) {
    match error
    case NotFound => exists p, i: nat, q :: RefersAt(cfg, p, i, q) && q !in cfg
    case NestedCustom => exists p, i: nat, q :: RefersAt(cfg, p, i, q) && q in cfg && cfg[q].kind.Custom?
    case Recursive => Shared(cfg) || Cyclic(cfg)
  }

  /** Two elements stand for the same pool. */
  ghost predicate Shared(cfg: Config) {
    exists p, i: nat, p', i': nat, q ::
      RefersAt(cfg, p, i, q) && RefersAt(cfg, p', i', q) && (p, i) != (p', i')
  }

  ghost predicate Cyclic(cfg: Config) {
    exists path :: IsCycle(cfg, path)
  }

  ghost predicate IsCycle(cfg: Config, path: seq<int32>) {
    |path| >= 2 && IsPath(cfg, path) && path[0] == path[|path| - 1]
  }

  /** Sharing a pool is the only flaw an accepted configuration can have. */
  lemma AcceptedOnlyShares(cfg: Config, obtained: Obtained, rank: map<int32, nat>, error: InitError)
    requires Ready(cfg, obtained, rank) && Flawed(cfg, error)
    ensures error == Recursive && Shared(cfg)
  {
    forall p, i: nat, q | RefersAt(cfg, p, i, q)
      ensures q in cfg && !cfg[q].kind.Custom?
    {
      RankFalls(cfg, obtained, rank, p, q);
    }
    forall path | |path| >= 2 && IsPath(cfg, path)
      ensures !IsCycle(cfg, path)
    {
      AcceptedGraphIsAcyclic(cfg, obtained, rank, path);
    }
  }

  lemma {:induction false} ContentsStable(elems: seq<Elem>, a: Obtained, b: Obtained, known: set<int32>)
    requires forall e :: e in elems && IsRandomPool(e.typeId) ==> e.typeId in known
    requires forall p :: p in known ==> p in a && p in b && a[p] == b[p]
    ensures Contents(elems, a) == Contents(elems, b)
  {
    if elems == [] {
    } else {
      ContentsStable(elems[..|elems| - 1], a, b, known);
    }
  }

  lemma SettledStable(cfg: Config, a: Obtained, b: Obtained, rank: map<int32, nat>)
    requires Settled(cfg, a, rank)
    requires forall p :: p in rank ==> p in a && p in b && a[p] == b[p]
    ensures Settled(cfg, b, rank)
  {
    forall p | p in rank
      ensures PoolSettled(cfg, b, rank, p)
    {
      assert PoolSettled(cfg, a, rank, p);
      forall e | e in cfg[p].elems && IsRandomPool(e.typeId)
        ensures e.typeId in rank.Keys
      {
        var i :| 0 <= i < |cfg[p].elems| && cfg[p].elems[i] == e;
        assert ElemSettled(cfg, rank, cfg[p].elems[i], rank[p]);
      }
      ContentsStable(cfg[p].elems, a, b, rank.Keys);
    }
  }

  lemma SettledNext(cfg: Config, obtained: Obtained, rank: map<int32, nat>, p: int32, r: nat)
    requires Settled(cfg, obtained, rank) && p !in rank && p in cfg && p in obtained
    requires obtained[p] == Contents(cfg[p].elems, obtained)
    requires forall i :: 0 <= i < |cfg[p].elems| ==> ElemSettled(cfg, rank, cfg[p].elems[i], r)
    ensures Settled(cfg, obtained, rank[p := r])
  {
  }

  /** `a` is kept in `b`. */
  ghost predicate Kept<V(!new)>(a: map<int32, V>, b: map<int32, V>) {
    forall p :: p in a ==> p in b && b[p] == a[p]
  }

  /** A moment of the pass: the filled pools, the pools entered since the root,
      the finished pools numbered in the order in which they were finished, and the
      element through which each entered pool was come to. */
  datatype Pass = Pass(obtained: Obtained, used: set<int32>, rank: map<int32, nat>, clock: nat,
                       via: map<int32, (int32, nat)>, root: int32)

  /** Pool p is being filled. */
  ghost predicate Open(v: Pass, p: int32) {
    p in v.obtained && p !in v.rank
  }

  /** Pools that are being filled are in `used`, all other filled ones are settled. */
  ghost predicate Valid(cfg: Config, v: Pass) {
    && Settled(cfg, v.obtained, v.rank)
    && (forall p :: Open(v, p) ==> p in v.used)
    && (forall p :: p in v.rank ==> p in v.obtained && v.rank[p] < v.clock)
    && (forall q :: q in v.used && q != v.root ==> q in v.via && RefersAt(cfg, v.via[q].0, v.via[q].1, q))
    && (forall q :: q in v.via ==> v.via[q].0 in v.used)
  }

  /** The pass stands at element `at` of the last pool of `stack`, which stands for
      pool `id`, and has not come through this element before. */
  ghost predicate Enters(cfg: Config, v: Pass, id: int32, stack: seq<int32>, at: nat) {
    id in cfg &&
    if stack == [] then v.used == {} && v.root == id
    else
      var parent := stack[|stack| - 1];
      && IsPath(cfg, stack) && stack[0] == v.root && v.root in v.used && parent in v.used
      && RefersAt(cfg, parent, at, id)
      && forall q :: q in v.via ==> v.via[q] != (parent, at)
  }

  /** Since `a`, only this element and elements of newly entered pools were come through. */
  ghost predicate ViaGrown(a: Pass, b: Pass, stack: seq<int32>, at: nat) {
    forall q :: q in b.via ==>
      || (q in a.via && b.via[q] == a.via[q])
      || (stack != [] && b.via[q] == (stack[|stack| - 1], at))
      || b.via[q].0 !in a.used
  }

  /** What a whole visit leaves alone: finished and half-filled pools. */
  ghost predicate Grown(a: Pass, b: Pass, extra: set<int32>) {
    && a.used <= b.used && a.root == b.root && a.clock <= b.clock
    && (forall p :: Open(b, p) <==> Open(a, p) || p in extra)
    && Kept(a.obtained, b.obtained) && Kept(a.rank, b.rank)
  }

  /** A successful visit of pool `id`. */
  ghost predicate Visited(cfg: Config, a: Pass, b: Pass, id: int32, stack: seq<int32>, at: nat) {
    && Valid(cfg, b) && Grown(a, b, {}) && ViaGrown(a, b, stack, at)
    && id in b.rank && id in b.used && id in cfg && (cfg[id].kind.Custom? ==> stack == [])
  }

  /** The first i elements of pool `id` are dealt with. */
  ghost predicate Filled(cfg: Config, v: Pass, id: int32, i: nat) {
    && id in cfg && i <= |cfg[id].elems| && id in v.obtained && id !in v.rank
    && v.obtained[id] == Contents(cfg[id].elems[..i], v.obtained)
    && forall j :: 0 <= j < i ==> ElemSettled(cfg, v.rank, cfg[id].elems[j], v.clock)
  }

  /** Pool `id` has been entered, and Filled says how far its elements are dealt with. */
  ghost predicate Filling(cfg: Config, a: Pass, b: Pass, id: int32, stack: seq<int32>, at: nat, i: nat) {
    && id in cfg && id in b.obtained && Filled(cfg, b, id, i)
    && Valid(cfg, b) && Grown(a, b, {id}) && ViaGrown(a, b, stack, at)
    && id in b.used && id !in a.used && id !in a.obtained
    && Enters(cfg, a, id, stack, at) && (cfg[id].kind.Custom? ==> stack == [])
    && b.root in b.used
    && (forall q :: q in b.via && b.via[q].0 == id ==> b.via[q].1 < i)
  }

  lemma RevisitIsFlawed(cfg: Config, v: Pass, id: int32, stack: seq<int32>, at: nat)
    requires Valid(cfg, v) && Enters(cfg, v, id, stack, at) && id in v.used
    ensures Flawed(cfg, Recursive)
  {
    var parent := stack[|stack| - 1];
    assert RefersAt(cfg, parent, at, id);
    if id == v.root {
      var path := stack + [id];
      forall k | 0 <= k < |path| - 1
        ensures Refers(cfg, path[k], path[k + 1])
      {
        if k < |stack| - 1 {
          assert Refers(cfg, stack[k], stack[k + 1]);
        }
      }
      assert IsCycle(cfg, path);
    } else {
      assert v.via[id] != (parent, at);
      assert RefersAt(cfg, v.via[id].0, v.via[id].1, id);
    }
  }

  lemma NestedCustomIsFlawed(cfg: Config, v: Pass, id: int32, stack: seq<int32>, at: nat)
    requires Enters(cfg, v, id, stack, at) && stack != [] && cfg[id].kind.Custom?
    ensures Flawed(cfg, NestedCustom)
  {
  }

  lemma MissingIsFlawed(cfg: Config, id: int32, i: nat)
    requires id in cfg && i < |cfg[id].elems|
    requires IsRandomPool(cfg[id].elems[i].typeId) && cfg[id].elems[i].typeId !in cfg
    ensures Flawed(cfg, NotFound)
  {
    assert RefersAt(cfg, id, i, cfg[id].elems[i].typeId);
  }

  function EnterPool(v: Pass, id: int32, stack: seq<int32>, at: nat): Pass {
    v.(used := v.used + {id}, via := if stack == [] then v.via else v.via[id := (stack[|stack| - 1], at)])
  }

  function Add(v: Pass, id: int32, ts: set<int32>): Pass
    requires id in v.obtained
  {
    v.(obtained := v.obtained[id := v.obtained[id] + ts])
  }

  lemma VisitFilled(cfg: Config, a: Pass, id: int32, stack: seq<int32>, at: nat)
    requires Valid(cfg, a) && Enters(cfg, a, id, stack, at) && id !in a.used && id in a.obtained
    requires cfg[id].kind.Custom? ==> stack == []
    ensures Visited(cfg, a, EnterPool(a, id, stack, at), id, stack, at)
  {
  }

  lemma StartValid(cfg: Config, a: Pass, id: int32, stack: seq<int32>, at: nat)
    requires Valid(cfg, a) && Enters(cfg, a, id, stack, at) && id !in a.used && id !in a.obtained
    ensures Valid(cfg, EnterPool(a, id, stack, at).(obtained := a.obtained[id := {}]))
  {
    hide Contents, Settled, IsPath;
    SettledStable(cfg, a.obtained, a.obtained[id := {}], a.rank);
  }

  lemma StartGrown(cfg: Config, a: Pass, id: int32, stack: seq<int32>, at: nat)
    requires Valid(cfg, a) && Enters(cfg, a, id, stack, at) && id !in a.used && id !in a.obtained
    ensures var b := EnterPool(a, id, stack, at).(obtained := a.obtained[id := {}]);
            Grown(a, b, {id}) && ViaGrown(a, b, stack, at) && Filled(cfg, b, id, 0)
    ensures forall q :: q in EnterPool(a, id, stack, at).via ==> EnterPool(a, id, stack, at).via[q].0 != id
  {
  }

  lemma StartFilling(cfg: Config, a: Pass, id: int32, stack: seq<int32>, at: nat)
    requires Valid(cfg, a) && Enters(cfg, a, id, stack, at) && id !in a.used && id !in a.obtained
    requires cfg[id].kind.Custom? ==> stack == []
    ensures Filling(cfg, a, EnterPool(a, id, stack, at).(obtained := a.obtained[id := {}]), id, stack, at, 0)
  {
    hide Valid, Grown, ViaGrown, Filled, IsPath;
    StartValid(cfg, a, id, stack, at);
    StartGrown(cfg, a, id, stack, at);
  }

  /** Element i gives `ts`. */
  lemma FillSet(cfg: Config, v: Pass, id: int32, i: nat, ts: set<int32>)
    requires Filled(cfg, v, id, i) && i < |cfg[id].elems| && Settled(cfg, v.obtained, v.rank)
    requires forall p :: p in v.rank ==> p in v.obtained
    requires ElemSettled(cfg, v.rank, cfg[id].elems[i], v.clock) && ts == Gives(cfg[id].elems[i], v.obtained)
    ensures Filled(cfg, Add(v, id, ts), id, i + 1)
    ensures Settled(cfg, Add(v, id, ts).obtained, v.rank)
  {
    hide Settled;
    var elems, c := cfg[id].elems, Add(v, id, ts);
    SettledStable(cfg, v.obtained, c.obtained, v.rank);
    forall e | e in elems[..i] && IsRandomPool(e.typeId)
      ensures e.typeId in v.rank.Keys
    {
      var j :| 0 <= j < i && elems[j] == e;
      assert ElemSettled(cfg, v.rank, elems[j], v.clock);
    }
    ContentsStable(elems[..i], v.obtained, c.obtained, v.rank.Keys);
    assert elems[..i + 1][..i] == elems[..i];
  }

  lemma FillLeaf(cfg: Config, a: Pass, b: Pass, id: int32, stack: seq<int32>, at: nat, i: nat)
    requires Filling(cfg, a, b, id, stack, at, i) && i < |cfg[id].elems|
    requires !IsRandomPool(cfg[id].elems[i].typeId)
    ensures Filling(cfg, a, Add(b, id, {cfg[id].elems[i].typeId}), id, stack, at, i + 1)
  {
    hide Filled, Settled, IsPath, Enters;
    var ts := {cfg[id].elems[i].typeId};
    FillSet(cfg, b, id, i, ts);
  }

  lemma FillEnters(cfg: Config, a: Pass, b: Pass, id: int32, stack: seq<int32>, at: nat, i: nat)
    requires Filling(cfg, a, b, id, stack, at, i) && i < |cfg[id].elems|
    requires IsRandomPool(cfg[id].elems[i].typeId) && cfg[id].elems[i].typeId in cfg
    ensures Enters(cfg, b, cfg[id].elems[i].typeId, stack + [id], i)
  {
  }

  lemma ViaTransitive(a: Pass, b: Pass, c: Pass, id: int32, stack: seq<int32>, at: nat, i: nat)
    requires ViaGrown(a, b, stack, at) && ViaGrown(b, c, stack + [id], i)
    requires a.used <= b.used && id !in a.used
    ensures ViaGrown(a, c, stack, at)
    ensures forall q :: q in c.via && c.via[q].0 == id && id in b.used ==>
              c.via[q].1 == i || (q in b.via && c.via[q] == b.via[q])
  {
  }

  lemma ViaSame(a: Pass, c: Pass, d: Pass, stack: seq<int32>, at: nat)
    requires ViaGrown(a, c, stack, at) && c.via == d.via
    ensures ViaGrown(a, d, stack, at)
  {
  }

  lemma FillVisited(cfg: Config, a: Pass, b: Pass, c: Pass, id: int32, stack: seq<int32>, at: nat, i: nat)
    requires Filling(cfg, a, b, id, stack, at, i) && i < |cfg[id].elems|
    requires IsRandomPool(cfg[id].elems[i].typeId)
    requires Visited(cfg, b, c, cfg[id].elems[i].typeId, stack + [id], i)
    ensures Filled(cfg, c, id, i) && ElemSettled(cfg, c.rank, cfg[id].elems[i], c.clock)
    ensures id in c.obtained && id !in c.rank
  {
    hide Settled, IsPath, Enters, ViaGrown;
    assert Open(b, id) && Open(c, id);
    var elems := cfg[id].elems;
    forall j | 0 <= j < i
      ensures ElemSettled(cfg, c.rank, elems[j], c.clock)
    {
      assert ElemSettled(cfg, b.rank, elems[j], b.clock);
    }
    forall e | e in elems[..i] && IsRandomPool(e.typeId)
      ensures e.typeId in b.rank.Keys
    {
      var j :| 0 <= j < i && elems[j] == e;
      assert ElemSettled(cfg, b.rank, elems[j], b.clock);
    }
    ContentsStable(elems[..i], b.obtained, c.obtained, b.rank.Keys);
  }

  lemma GrownTransitive(a: Pass, b: Pass, c: Pass, id: int32)
    requires Grown(a, b, {id}) && Grown(b, c, {})
    ensures Grown(a, c, {id})
  {
  }

  lemma GrownAdd(a: Pass, b: Pass, id: int32, ts: set<int32>)
    requires Grown(a, b, {id}) && id in b.obtained && id !in a.obtained
    ensures Grown(a, Add(b, id, ts), {id})
  {
  }

  lemma AddValid(cfg: Config, v: Pass, id: int32, ts: set<int32>)
    requires Valid(cfg, v) && id in v.obtained && id !in v.rank && Settled(cfg, Add(v, id, ts).obtained, v.rank)
    ensures Valid(cfg, Add(v, id, ts))
  {
  }

  lemma VisitedFacts(cfg: Config, b: Pass, c: Pass, q: int32, stack: seq<int32>, at: nat)
    requires Visited(cfg, b, c, q, stack, at)
    ensures Valid(cfg, c) && Grown(b, c, {}) && ViaGrown(b, c, stack, at) && Settled(cfg, c.obtained, c.rank)
    ensures q in c.obtained && b.used <= c.used && b.root == c.root
    ensures forall p :: p in c.rank ==> p in c.obtained
  {
  }

  lemma FillPool(cfg: Config, a: Pass, b: Pass, c: Pass, id: int32, stack: seq<int32>, at: nat, i: nat)
    requires Filling(cfg, a, b, id, stack, at, i) && i < |cfg[id].elems|
    requires IsRandomPool(cfg[id].elems[i].typeId)
    requires Visited(cfg, b, c, cfg[id].elems[i].typeId, stack + [id], i)
    ensures id in c.obtained && cfg[id].elems[i].typeId in c.obtained
    ensures Filling(cfg, a, Add(c, id, c.obtained[cfg[id].elems[i].typeId]), id, stack, at, i + 1)
  {
    hide Filled, Settled, IsPath, Enters, Grown, ViaGrown, Visited, Valid;
    VisitedFacts(cfg, b, c, cfg[id].elems[i].typeId, stack + [id], i);
    UsedGrows(a, b, {id});
    FillVisited(cfg, a, b, c, id, stack, at, i);
    ViaTransitive(a, b, c, id, stack, at, i);
    var ts := c.obtained[cfg[id].elems[i].typeId];
    FillSet(cfg, c, id, i, ts);
    AddValid(cfg, c, id, ts);
    GrownTransitive(a, b, c, id);
    GrownAdd(a, c, id, ts);
    ViaSame(a, c, Add(c, id, ts), stack, at);
  }

  lemma FillDone(cfg: Config, a: Pass, b: Pass, id: int32, stack: seq<int32>, at: nat)
    requires id in cfg && Filling(cfg, a, b, id, stack, at, |cfg[id].elems|)
    ensures Visited(cfg, a, b.(rank := b.rank[id := b.clock], clock := b.clock + 1), id, stack, at)
  {
    hide Settled, IsPath, Enters, ViaGrown, Contents;
    var c := b.(rank := b.rank[id := b.clock], clock := b.clock + 1);
    assert cfg[id].elems[..|cfg[id].elems|] == cfg[id].elems;
    SettledNext(cfg, b.obtained, b.rank, id, b.clock);
    ViaSame(a, b, c, stack, at);
    assert Open(b, id);
  }

  lemma FillKeeps(cfg: Config, a: Pass, b: Pass, id: int32, stack: seq<int32>, at: nat, i: nat)
    requires Filling(cfg, a, b, id, stack, at, i)
    ensures Valid(cfg, b) && id in b.obtained && id in b.used && id !in a.used && a.used <= b.used
  {
  }

  lemma UsedGrows(a: Pass, b: Pass, extra: set<int32>)
    requires Grown(a, b, extra)
    ensures a.used <= b.used
  {
  }

  /** No pool is being filled. */
  ghost predicate BetweenRoots(cfg: Config, v: Pass) {
    && Settled(cfg, v.obtained, v.rank)
    && (forall p :: p in v.obtained ==> p in v.rank)
    && (forall p :: p in v.rank ==> p in v.obtained && v.rank[p] < v.clock)
  }

  lemma StartsSettled(cfg: Config, v: Pass)
    requires v.rank == map[] && v.obtained == map[]
    ensures BetweenRoots(cfg, v)
  {
  }

  lemma RootEnters(cfg: Config, v: Pass, w: Pass, id: int32)
    requires BetweenRoots(cfg, w) && id in cfg && v == w.(used := {}, via := map[], root := id)
    ensures Valid(cfg, v) && Enters(cfg, v, id, [], 0)
  {
  }

  lemma VisitedRoot(cfg: Config, a: Pass, b: Pass, w: Pass, id: int32)
    requires BetweenRoots(cfg, w) && a == w.(used := {}, via := map[], root := id)
    requires Visited(cfg, a, b, id, [], 0)
    ensures BetweenRoots(cfg, b) && id in b.rank
    ensures forall p :: p in a.rank ==> p in b.rank
  {
    hide Settled, ViaGrown;
    assert forall p :: p in b.obtained && p !in b.rank ==> Open(b, p) && !Open(a, p);
  }

  lemma FilledIsFinished(cfg: Config, v: Pass, id: int32)
    requires BetweenRoots(cfg, v) && id in v.obtained
    ensures id in v.rank
  {
  }

  lemma AllSettled(cfg: Config, v: Pass)
    requires BetweenRoots(cfg, v) && forall p :: p in cfg ==> p in v.rank
    ensures Ready(cfg, v.obtained, v.rank)
  {
  }

  /** The index under construction. */
  class PoolIndex {
    const cfg: Config
    var obtained: Obtained
    var used: set<int32>
    ghost var rank: map<int32, nat>
    ghost var clock: nat
    ghost var via: map<int32, (int32, nat)>
    ghost var root: int32

    constructor (cfg: Config)
      ensures this.cfg == cfg && obtained == map[] && used == {} && rank == map[] && via == map[]
    {
      this.cfg := cfg;
      obtained, used, rank, via := map[], {}, map[], map[];
    }

    ghost function View(): Pass
      reads this
    {
      Pass(obtained, used, rank, clock, via, root)
    }

    method InitPool(id: int32, first: bool, ghost stack: seq<int32>, ghost at: nat)
        returns (error: Option<InitError>)
      requires id in cfg && (first <==> stack == [])
      requires Valid(cfg, View()) && Enters(cfg, View(), id, stack, at)
      modifies `obtained, `used, `rank, `clock, `via
      ensures if error.Some? then Flawed(cfg, error.value)
              else Visited(cfg, old(View()), View(), id, stack, at)
      decreases cfg.Keys - used
    {
      hide Valid, Enters, Visited, Filling, Filled, Grown, ViaGrown, Contents, Settled, Flawed;
      ghost var start := View();
      if id in used {
        RevisitIsFlawed(cfg, View(), id, stack, at);
        return Some(Recursive);
      }
      if !first && cfg[id].kind.Custom? {
        NestedCustomIsFlawed(cfg, View(), id, stack, at);
        return Some(NestedCustom);
      }
      used := used + {id};
      if !first {
        via := via[id := (stack[|stack| - 1], at)];
      }
      if id in obtained {
        VisitFilled(cfg, start, id, stack, at);
        return None;
      }
      obtained := obtained[id := {}];
      StartFilling(cfg, start, id, stack, at);
      var elems := cfg[id].elems;
      for i := 0 to |elems|
        invariant Filling(cfg, start, View(), id, stack, at, i)
      {
        FillKeeps(cfg, start, View(), id, stack, at, i);
        var t := elems[i].typeId;
        if IsRandomPool(t) {
          if t !in cfg {
            MissingIsFlawed(cfg, id, i);
            return Some(NotFound);
          }
          ghost var b := View();
          FillEnters(cfg, start, b, id, stack, at, i);
          error := InitPool(t, false, stack + [id], i);
          if error.Some? {
            return;
          }
          FillPool(cfg, start, b, View(), id, stack, at, i);
          obtained := obtained[id := obtained[id] + obtained[t]];
        } else {
          FillLeaf(cfg, start, View(), id, stack, at, i);
          obtained := obtained[id := obtained[id] + {t}];
        }
      }
      FillDone(cfg, start, View(), id, stack, at);
      rank, clock := rank[id := clock], clock + 1;
      return None;
    }

    /** The pools are taken as roots in any order. */
    method InitAll() returns (error: Option<InitError>)
      requires obtained == map[] && rank == map[]
      modifies this
      ensures if error.Some? then Flawed(cfg, error.value) else Ready(cfg, obtained, rank)
    {
      hide Valid, Enters, Visited, Settled, BetweenRoots, Flawed;
      StartsSettled(cfg, View());
      var todo := cfg.Keys;
      while todo != {}
        invariant forall p :: p in todo ==> p in cfg
        invariant forall p :: p in cfg ==> p in todo || p in rank
        invariant BetweenRoots(cfg, View())
        decreases |todo|
      {
        var id :| id in todo;
        todo := todo - {id};
        if id !in obtained {
          ghost var before := View();
          used, via, root := {}, map[], id;
          ghost var start := View();
          RootEnters(cfg, start, before, id);
          error := InitPool(id, true, [], 0);
          if error.Some? {
            return;
          }
          VisitedRoot(cfg, start, View(), before, id);
        } else {
          FilledIsFinished(cfg, View(), id);
        }
      }
      AllSettled(cfg, View());
      return None;
    }
  }
}
