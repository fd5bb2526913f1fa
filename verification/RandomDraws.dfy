/** Drawing from random pools (excel_random_pool.go): what one draw may return, as
    a tree of the numbers it drew and the elements it picked, and the methods that
    perform it. */
module RandomDraws {
  import opened RandomPools

  /** Conversion to a 32-bit integer, which drops the upper bits. */
  function Int32(x: int): (r: int32)
    ensures -0x8000_0000 <= x < 0x8000_0000 ==> r == x
    ensures 0 <= x ==> r <= x
  {
    (x + 0x8000_0000) % 0x1_0000_0000 - 0x8000_0000
  }

  predicate ValidElem(e: Elem) {
    e.typeId != 0 && e.minCount > 0 && e.weight > 0
  }

  /** An element that can be drawn. */
  type Choice = e: Elem | ValidElem(e) witness Elem(1, 1, 1, 1)

  function ValidOf(elems: seq<Elem>): seq<Choice> {
    if elems == [] then []
    else
      var rest := ValidOf(elems[..|elems| - 1]);
      if ValidElem(elems[|elems| - 1]) then rest + [elems[|elems| - 1]] else rest
  }

  function Total(es: seq<Choice>): nat {
    if es == [] then 0 else Total(es[..|es| - 1]) + es[|es| - 1].weight
  }

  // ------------------------------------------------------------------ weighted selection

  /** Scanning es from the front and taking weights off r, the scan stops at i. */
  ghost predicate Hits(es: seq<Choice>, r: nat, i: nat) {
    i < |es| && Total(es[..i]) <= r < Total(es[..i + 1])
  }

  ghost function Select(es: seq<Choice>, r: nat): (i: nat)
    requires r < Total(es)
    ensures i < |es|
  {
    var n := |es| - 1;
    if r < Total(es[..n]) then Select(es[..n], r) else n
  }

  lemma {:induction false} TotalMonotone(es: seq<Choice>, i: nat, j: nat)
    requires i <= j <= |es|
    ensures Total(es[..i]) <= Total(es[..j])
    ensures i < j ==> Total(es[..i]) < Total(es[..j])
    decreases j
  {
    if i < j {
      TotalMonotone(es, i, j - 1);
      assert es[..j][..j - 1] == es[..j - 1];
    }
  }

  lemma {:induction false} SelectHits(es: seq<Choice>, r: nat)
    requires r < Total(es)
    ensures Hits(es, r, Select(es, r))
  {
    var n := |es| - 1;
    if r < Total(es[..n]) {
      SelectHits(es[..n], r);
      HitsPrefix(es, n, r, Select(es[..n], r));
    } else {
      assert es[..n + 1] == es;
    }
  }

  lemma HitsPrefix(es: seq<Choice>, n: nat, r: nat, i: nat)
    requires n <= |es| && Hits(es[..n], r, i)
    ensures Hits(es, r, i)
  {
    hide Total;
    assert es[..n][..i] == es[..i] && es[..n][..i + 1] == es[..i + 1];
  }

  lemma HitsOnce(es: seq<Choice>, r: nat, i: nat, j: nat)
    requires Hits(es, r, i) && Hits(es, r, j)
    ensures i == j
  {
    if i < j {
      TotalMonotone(es, i + 1, j);
    } else if j < i {
      TotalMonotone(es, j + 1, i);
    }
  }

  /** Element i is selected for exactly es[i].weight consecutive numbers, of the
      Total(es) possible ones. */
  lemma SelectedByItsWeight(es: seq<Choice>, r: nat, i: nat)
    requires r < Total(es) && i < |es|
    ensures Select(es, r) == i <==> Total(es[..i]) <= r < Total(es[..i]) + es[i].weight
  {
    hide Select;
    assert Total(es[..i + 1]) == Total(es[..i]) + es[i].weight by {
      assert es[..i + 1][..i] == es[..i];
    }
    hide Total;
    SelectHits(es, r);
    if Hits(es, r, i) {
      HitsOnce(es, r, i, Select(es, r));
    }
  }

  // ------------------------------------------------------------------ drawing without replacement

  /** The last element takes the place of the removed one. */
  function SwapRemove(es: seq<Choice>, i: nat): seq<Choice>
    requires i < |es|
  {
    es[i := es[|es| - 1]][..|es| - 1]
  }

  ghost function AfterRoll(es: seq<Choice>, r: nat): seq<Choice> {
    if r < Total(es) then SwapRemove(es, Select(es, r)) else es
  }

  ghost function Remaining(es: seq<Choice>, rolls: seq<nat>): seq<Choice> {
    if rolls == [] then es else AfterRoll(Remaining(es, rolls[..|rolls| - 1]), rolls[|rolls| - 1])
  }

  /** Each number was drawn below the remaining weight, as a 32-bit integer. */
  ghost predicate RollsFit(es: seq<Choice>, rolls: seq<nat>) {
    forall k :: 0 <= k < |rolls| ==> rolls[k] < Int32(Total(Remaining(es, rolls[..k])))
  }

  ghost function Chosen(es: seq<Choice>, rolls: seq<nat>): seq<Choice>
    requires RollsFit(es, rolls)
  {
    if rolls == [] then []
    else
      var n := |rolls| - 1;
      RollsFitPrefix(es, rolls, n);
      var left := Remaining(es, rolls[..n]);
      Chosen(es, rolls[..n]) + [left[Select(left, rolls[n])]]
  }

  lemma RollsFitPrefix(es: seq<Choice>, rolls: seq<nat>, n: nat)
    requires RollsFit(es, rolls) && n <= |rolls|
    ensures RollsFit(es, rolls[..n])
  {
    forall k | 0 <= k < n
      ensures rolls[..n][k] < Int32(Total(Remaining(es, rolls[..n][..k])))
    {
      assert rolls[..n][..k] == rolls[..k];
    }
  }

  lemma SwapMultiset(a: seq<Choice>, x: Choice, b: seq<Choice>, y: Choice)
    ensures multiset(a + [y] + b) + multiset{x} == multiset(a + [x] + b + [y])
  {
  }

  lemma SwapRemoveSplit(es: seq<Choice>, i: nat)
    requires i < |es| - 1
    ensures var n := |es| - 1;
            && SwapRemove(es, i) == es[..i] + [es[n]] + es[i + 1..n]
            && es == es[..i] + [es[i]] + es[i + 1..n] + [es[n]]
  {
  }

  lemma SwapRemoveMultiset(es: seq<Choice>, i: nat)
    requires i < |es|
    ensures multiset(SwapRemove(es, i)) + multiset{es[i]} == multiset(es)
  {
    var n := |es| - 1;
    if i == n {
      assert SwapRemove(es, i) == es[..n];
      assert es == es[..n] + [es[n]];
    } else {
      SwapRemoveSplit(es, i);
      SwapMultiset(es[..i], es[i], es[i + 1..n], es[n]);
    }
  }

  lemma {:induction false} TotalCons(es: seq<Choice>)
    requires es != []
    ensures Total(es) == es[0].weight + Total(es[1..])
  {
    var n := |es| - 1;
    if n == 0 {
    } else {
      TotalCons(es[..n]);
      assert es[..n][1..] == es[1..][..n - 1] && es[1..][n - 1] == es[n];
    }
  }

  lemma {:induction false} TotalUpdate(es: seq<Choice>, i: nat, e: Choice)
    requires i < |es|
    ensures Total(es[i := e]) == Total(es) - es[i].weight + e.weight
  {
    var n := |es| - 1;
    if i == n {
      assert es[i := e][..n] == es[..n];
    } else {
      TotalUpdate(es[..n], i, e);
      assert es[i := e][..n] == es[..n][i := e];
    }
  }

  lemma SwapRemoveSnoc(es: seq<Choice>, i: nat)
    requires i < |es|
    ensures es[i := es[|es| - 1]] == SwapRemove(es, i) + [es[|es| - 1]]
  {
  }

  lemma SwapRemoveTotal(es: seq<Choice>, i: nat)
    requires i < |es|
    ensures Total(SwapRemove(es, i)) == Total(es) - es[i].weight
  {
    hide Total;
    var n := |es| - 1;
    TotalUpdate(es, i, es[n]);
    TotalNext(SwapRemove(es, i), es[n]);
    SwapRemoveSnoc(es, i);
  }

  /** Drawing without replacement conserves the elements: after any numbers that
      fit, what was chosen and what remains are together the start, one element was
      chosen per number, and the weights split accordingly. */
  lemma {:induction false} DrawingConserves(es: seq<Choice>, rolls: seq<nat>)
    requires RollsFit(es, rolls)
    ensures |Chosen(es, rolls)| == |rolls| && |Chosen(es, rolls)| + |Remaining(es, rolls)| == |es|
    ensures multiset(Chosen(es, rolls)) + multiset(Remaining(es, rolls)) == multiset(es)
    ensures Total(Chosen(es, rolls)) + Total(Remaining(es, rolls)) == Total(es)
  {
    if rolls == [] {
    } else {
      var n := |rolls| - 1;
      RollsFitPrefix(es, rolls, n);
      DrawingConserves(es, rolls[..n]);
      var left := Remaining(es, rolls[..n]);
      var i := Select(left, rolls[n]);
      SwapRemoveMultiset(left, i);
      SwapRemoveTotal(left, i);
      var c := Chosen(es, rolls);
      assert c[..n] == Chosen(es, rolls[..n]);
    }
  }

  // ------------------------------------------------------------------ draws as trees

  datatype Item = Item(typeId: int32, count: int64)

  /** One element that was picked, with the count drawn for it and, if it stands for
      a pool, the draws from that pool. */
  datatype Pick = Pick(elem: Choice, count: int64, draws: seq<Draw>)

  /** One draw from a pool: the selecting numbers and the picks they led to. */
  datatype Draw = Draw(id: int32, rolls: seq<nat>, picks: seq<Pick>)

  function Rounds(count: int64): nat {
    if Int32(count) > 0 then Int32(count) else 0
  }

  predicate CountFits(e: Elem, count: int64) {
    e.minCount <= count && (count <= e.maxCount || count == e.minCount)
  }

  function Elems(picks: seq<Pick>): seq<Choice> {
    seq(|picks|, i requires 0 <= i < |picks| => picks[i].elem)
  }

  function Repeated(es: seq<Choice>, times: nat): seq<Choice> {
    if times == 0 then [] else Repeated(es, times - 1) + es
  }

  predicate CustomsFit(n: nat, times: int32, customs: seq<int32>) {
    && |customs| == times
    && (forall i :: 0 <= i < |customs| ==> 0 <= customs[i] < n)
    && (forall i, j :: 0 <= i < j < |customs| ==> customs[i] != customs[j])
  }

  function CustomChosen(elems: seq<Elem>, customs: seq<int32>): seq<Choice>
    requires forall i :: 0 <= i < |customs| ==> 0 <= customs[i] < |elems|
  {
    if customs == [] then []
    else
      var n := |customs| - 1;
      var rest := CustomChosen(elems, customs[..n]);
      if ValidElem(elems[customs[n]]) then rest + [elems[customs[n]]] else rest
  }

  /** Each number below the total weight, as a 32-bit integer, selects one element. */
  ghost predicate SelectedBy(valid: seq<Choice>, rolls: seq<nat>, chosen: seq<Choice>) {
    && |rolls| == |chosen|
    && forall k :: 0 <= k < |rolls| ==>
         rolls[k] < Int32(Total(valid)) && chosen[k] == valid[Select(valid, rolls[k])]
  }

  /** The elements a pool yields for given numbers and, for a custom pool, given
      positions. */
  ghost predicate Yields(pool: Pool, rolls: seq<nat>, customs: seq<int32>, chosen: seq<Choice>) {
    var valid := ValidOf(pool.elems);
    if pool.times <= 0 then rolls == [] && chosen == []
    else match pool.kind
      case All => rolls == [] && chosen == Repeated(valid, pool.times)
      case Independent =>
        if Int32(Total(valid)) <= 0 then rolls == [] && chosen == []
        else |rolls| == pool.times && SelectedBy(valid, rolls, chosen)
      case Exclusive =>
        if pool.times >= |valid| then rolls == [] && chosen == valid
        else |rolls| == pool.times && RollsFit(valid, rolls) && chosen == Chosen(valid, rolls)
      case Custom =>
        rolls == [] && CustomsFit(|pool.elems|, pool.times, customs) && chosen == CustomChosen(pool.elems, customs)
      case Other => false
  }

  /** A draw the configuration allows; only the outermost one is given positions. */
  ghost predicate ValidDraw(cfg: Config, d: Draw, customs: seq<int32>)
    decreases d
  {
    && d.id in cfg
    && Yields(cfg[d.id], d.rolls, customs, Elems(d.picks))
    && forall i :: 0 <= i < |d.picks| ==> ValidPick(cfg, d.picks[i])
  }

  ghost predicate ValidPick(cfg: Config, p: Pick)
    decreases p
  {
    && CountFits(p.elem, p.count)
    && |p.draws| == (if IsRandomPool(p.elem.typeId) then Rounds(p.count) else 0)
    && forall i :: 0 <= i < |p.draws| ==> p.draws[i].id == p.elem.typeId && ValidDraw(cfg, p.draws[i], [])
  }

  /** The items of a draw, in the order of its picks. */
  function ItemsOf(d: Draw): seq<Item>
    decreases d
  {
    ItemsOfPicks(d.picks)
  }

  function ItemsOfPicks(picks: seq<Pick>): seq<Item>
    decreases picks
  {
    if picks == [] then []
    else ItemsOfPicks(picks[..|picks| - 1]) + ItemsOfPick(picks[|picks| - 1])
  }

  function ItemsOfPick(p: Pick): seq<Item>
    decreases p
  {
    if IsRandomPool(p.elem.typeId) then ItemsOfDraws(p.draws) else [Item(p.elem.typeId, p.count)]
  }

  function ItemsOfDraws(draws: seq<Draw>): seq<Item>
    decreases draws
  {
    if draws == [] then []
    else ItemsOfDraws(draws[..|draws| - 1]) + ItemsOf(draws[|draws| - 1])
  }

  // ------------------------------------------------------------------ the numbers behind a draw

  /** One call of the random generator: it returned this value below the bound. */
  datatype Call = Call(bound: int, value: int)

  /** The bound of selecting number k. */
  ghost function Bound(pool: Pool, rolls: seq<nat>, k: nat): int
    requires k <= |rolls|
  {
    var valid := ValidOf(pool.elems);
    Int32(Total(if pool.kind.Exclusive? then Remaining(valid, rolls[..k]) else valid))
  }

  /** The generator's calls for a draw, in the order in which they are made. */
  ghost function CallsOf(cfg: Config, d: Draw): seq<Call>
    decreases d
  {
    if d.id in cfg then CallsOfPicks(cfg, cfg[d.id], d.rolls, d.picks) else []
  }

  /** Each pick comes after the number that selected it, if there is one. */
  ghost function CallsOfPicks(cfg: Config, pool: Pool, rolls: seq<nat>, picks: seq<Pick>): seq<Call>
    decreases picks
  {
    if picks == [] then []
    else
      var n := |picks| - 1;
      CallsOfPicks(cfg, pool, if n < |rolls| then rolls[..n] else rolls, picks[..n])
      + (if n < |rolls| then [Call(Bound(pool, rolls, n), rolls[n])] else [])
      + CallsOfPick(cfg, picks[n])
  }

  ghost function CallsOfPick(cfg: Config, p: Pick): seq<Call>
    decreases p
  {
    (if p.elem.minCount < p.elem.maxCount
     then [Call(p.elem.maxCount - p.elem.minCount + 1, p.count - p.elem.minCount)] else [])
    + CallsOfDraws(cfg, p.draws)
  }

  ghost function CallsOfDraws(cfg: Config, draws: seq<Draw>): seq<Call>
    decreases draws
  {
    if draws == [] then []
    else CallsOfDraws(cfg, draws[..|draws| - 1]) + CallsOf(cfg, draws[|draws| - 1])
  }

  // ------------------------------------------------------------------ why a draw fails

  datatype DrawError =
    | NotRandomPool | NotFound | Recursive | TypeNotSupport | TimesNotMatch | IndexNotMatch | IndexRepeat
    | Panic // the random generator refuses a sum of weights that is not positive

  datatype Outcome = Done(items: seq<Item>) | Fail(error: DrawError)

  /** Faults of the pool itself, given the positions asked for. */
  ghost predicate PoolFault(pool: Pool, customs: seq<int32>, error: DrawError) {
    match error
    case TypeNotSupport => pool.kind.Other?
    case TimesNotMatch => pool.kind.Custom? && |customs| != pool.times
    case IndexNotMatch => pool.kind.Custom? && exists i :: 0 <= i < |customs| && !(0 <= customs[i] < |pool.elems|)
    case IndexRepeat => pool.kind.Custom? && exists i, j :: 0 <= i < j < |customs| && customs[i] == customs[j]
    case Panic => pool.kind.Exclusive? && Total(ValidOf(pool.elems)) >= 0x8000_0000
    case _ => false
  }

  ghost predicate Stands(elems: seq<Elem>, q: int32) {
    IsRandomPool(q) && exists e :: e in elems && e.typeId == q
  }

  /** `path` is the chain of pools that were being drawn from when the error arose
      in its last one; `used` holds the pools being drawn from before it. */
  ghost predicate Cause(cfg: Config, used: set<int32>, path: seq<int32>, customs: seq<int32>, error: DrawError)
    decreases |path|, 0
  {
    path != [] &&
    var p := path[0];
    if p !in cfg then |path| == 1 && error.NotFound?
    else
      cfg[p].times > 0 &&
      if p in used then |path| == 1 && error.Recursive?
      else if |path| == 1 then PoolFault(cfg[p], customs, error)
      else SubCause(cfg, used + {p}, cfg[p].elems, path[1..], error)
  }

  ghost predicate SubCause(cfg: Config, used: set<int32>, elems: seq<Elem>, path: seq<int32>, error: DrawError)
    decreases |path|, 1
  {
    path != [] && Stands(elems, path[0]) && Cause(cfg, used, path, [], error)
  }

  /** The set of pools being drawn from is restored, except that a pool of an
      unknown type stays in it. */
  ghost predicate Restored(before: set<int32>, after: set<int32>, path: seq<int32>, error: DrawError) {
    if error.TypeNotSupport? then path != [] && path[|path| - 1] !in before && after == before + {path[|path| - 1]}
    else after == before
  }

  ghost predicate PicksValid(cfg: Config, picks: seq<Pick>) {
    forall i :: 0 <= i < |picks| ==> ValidPick(cfg, picks[i])
  }

  ghost predicate DrawsValid(cfg: Config, id: int32, draws: seq<Draw>, customs: seq<int32>) {
    forall i :: 0 <= i < |draws| ==> draws[i].id == id && ValidDraw(cfg, draws[i], customs)
  }

  /** What the handler of one kind of pool promises. */
  ghost predicate Handled(cfg: Config, before: set<int32>, after: set<int32>, pool: Pool, customs: seq<int32>,
                          out: Outcome, rolls: seq<nat>, picks: seq<Pick>, path: seq<int32>) {
    match out
    case Done(items) =>
      && before == after && items == ItemsOfPicks(picks) && PicksValid(cfg, picks)
      && Yields(pool, rolls, customs, Elems(picks))
    case Fail(error) =>
      if path == [] then before == after && !error.TypeNotSupport? && PoolFault(pool, customs, error)
      else Restored(before, after, path, error) && SubCause(cfg, before, pool.elems, path, error)
  }

  ghost predicate Drawn(cfg: Config, before: set<int32>, after: set<int32>, id: int32, customs: seq<int32>,
                        out: Outcome, d: Draw, path: seq<int32>) {
    match out
    case Done(items) => before == after && d.id == id && ValidDraw(cfg, d, customs) && items == ItemsOf(d)
    case Fail(error) =>
      path != [] && path[0] == id && Cause(cfg, before, path, customs, error) && Restored(before, after, path, error)
  }

  ghost predicate Picked(cfg: Config, before: set<int32>, after: set<int32>, e: Choice, out: Outcome, p: Pick,
                         path: seq<int32>) {
    match out
    case Done(items) => before == after && p.elem == e && ValidPick(cfg, p) && items == ItemsOfPick(p)
    case Fail(error) =>
      && path != [] && path[0] == e.typeId && IsRandomPool(e.typeId)
      && Cause(cfg, before, path, [], error) && Restored(before, after, path, error)
  }

  ghost predicate WholeDraw(cfg: Config, id: int32, count: int64, customs: seq<int32>, out: Outcome, draws: seq<Draw>,
                            path: seq<int32>) {
    match out
    case Done(items) =>
      && IsRandomPool(id) && |draws| == (if count < 0 then 0 else count)
      && DrawsValid(cfg, id, draws, customs) && items == ItemsOfDraws(draws)
    case Fail(error) =>
      if IsRandomPool(id) then path != [] && path[0] == id && Cause(cfg, {}, path, customs, error)
      else error.NotRandomPool?
  }

  // ------------------------------------------------------------------ lemmas for the loops

  lemma PicksGrow(cfg: Config, picks: seq<Pick>, p: Pick)
    ensures ItemsOfPicks(picks + [p]) == ItemsOfPicks(picks) + ItemsOfPick(p)
    ensures Elems(picks + [p]) == Elems(picks) + [p.elem]
    ensures PicksValid(cfg, picks) && ValidPick(cfg, p) ==> PicksValid(cfg, picks + [p])
  {
  }

  lemma DrawsGrow(cfg: Config, id: int32, draws: seq<Draw>, d: Draw, customs: seq<int32>)
    ensures ItemsOfDraws(draws + [d]) == ItemsOfDraws(draws) + ItemsOf(d)
    ensures DrawsValid(cfg, id, draws, customs) && d.id == id && ValidDraw(cfg, d, customs) ==>
              DrawsValid(cfg, id, draws + [d], customs)
  {
  }

  /** One more pick that no number selected. */
  lemma CallsGrow(cfg: Config, pool: Pool, before: seq<Call>, picks: seq<Pick>, p: Pick)
    ensures before + CallsOfPicks(cfg, pool, [], picks + [p])
         == before + CallsOfPicks(cfg, pool, [], picks) + CallsOfPick(cfg, p)
  {
    assert (picks + [p])[..|picks|] == picks;
  }

  lemma RolledCallsGrow(cfg: Config, pool: Pool, before: seq<Call>, rolls: seq<nat>, roll: nat, picks: seq<Pick>,
                        p: Pick)
    requires |rolls| == |picks|
    ensures before + CallsOfPicks(cfg, pool, rolls + [roll], picks + [p])
         == before + CallsOfPicks(cfg, pool, rolls, picks) + [Call(Bound(pool, rolls, |rolls|), roll)]
            + CallsOfPick(cfg, p)
  {
    assert (picks + [p])[..|picks|] == picks && (rolls + [roll])[..|rolls|] == rolls;
    assert rolls[..|rolls|] == rolls;
  }

  lemma DrawCallsGrow(cfg: Config, before: seq<Call>, draws: seq<Draw>, d: Draw)
    ensures before + CallsOfDraws(cfg, draws + [d]) == before + CallsOfDraws(cfg, draws) + CallsOf(cfg, d)
  {
    assert (draws + [d])[..|draws|] == draws;
  }

  lemma NextBound(pool: Pool, rolls: seq<nat>)
    ensures pool.kind.Exclusive? ==> Bound(pool, rolls, |rolls|) == Int32(Total(Remaining(ValidOf(pool.elems), rolls)))
    ensures pool.kind.Independent? ==> Bound(pool, rolls, |rolls|) == Int32(Total(ValidOf(pool.elems)))
  {
    assert rolls[..|rolls|] == rolls;
  }

  lemma NothingCalled(cfg: Config, pool: Pool, before: seq<Call>)
    ensures before + CallsOfPicks(cfg, pool, [], []) == before
    ensures before + CallsOfDraws(cfg, []) == before
  {
  }

  lemma Int32Adds(a: int, b: int)
    ensures Int32(Int32(a) + b) == Int32(a + b)
  {
  }

  lemma TotalNext(es: seq<Choice>, e: Choice)
    ensures Total(es + [e]) == Total(es) + e.weight
  {
  }

  lemma ValidOfNext(elems: seq<Elem>, i: nat)
    requires i < |elems|
    ensures ValidOf(elems[..i + 1])
         == if ValidElem(elems[i]) then ValidOf(elems[..i]) + [elems[i]] else ValidOf(elems[..i])
    ensures Total(ValidOf(elems[..i + 1]))
         == Total(ValidOf(elems[..i])) + if ValidElem(elems[i]) then elems[i].weight else 0
  {
    assert elems[..i + 1][..i] == elems[..i];
    if ValidElem(elems[i]) {
      TotalNext(ValidOf(elems[..i]), elems[i]);
    }
  }

  lemma NothingPicked(cfg: Config)
    ensures ItemsOfPicks([]) == [] && Elems([]) == [] && PicksValid(cfg, [])
  {
  }

  lemma PickDone(cfg: Config, before: set<int32>, after: set<int32>, e: Choice, out: Outcome, p: Pick, path: seq<int32>)
    requires out.Done? && Picked(cfg, before, after, e, out, p, path)
    ensures before == after && p.elem == e && ValidPick(cfg, p) && out.items == ItemsOfPick(p)
  {
  }

  lemma PanicHandled(cfg: Config, used: set<int32>, pool: Pool, rolls: seq<nat>, picks: seq<Pick>)
    requires pool.kind.Exclusive? && Total(ValidOf(pool.elems)) >= 0x8000_0000
    ensures Handled(cfg, used, used, pool, [], Fail(Panic), rolls, picks, [])
  {
  }

  lemma ExclusiveHandled(cfg: Config, used: set<int32>, pool: Pool, items: seq<Item>, rolls: seq<nat>, picks: seq<Pick>,
                         path: seq<int32>)
    requires pool.kind.Exclusive? && 0 < pool.times == |rolls| && |rolls| < |ValidOf(pool.elems)|
    requires RollsFit(ValidOf(pool.elems), rolls) && Elems(picks) == Chosen(ValidOf(pool.elems), rolls)
    requires items == ItemsOfPicks(picks) && PicksValid(cfg, picks)
    ensures Handled(cfg, used, used, pool, [], Done(items), rolls, picks, path)
  {
  }

  lemma PositionsOnlyMatterToCustomPools(cfg: Config, before: set<int32>, after: set<int32>, pool: Pool,
                                         customs: seq<int32>, out: Outcome, rolls: seq<nat>, picks: seq<Pick>,
                                         path: seq<int32>)
    requires !pool.kind.Custom? && Handled(cfg, before, after, pool, [], out, rolls, picks, path)
    ensures Handled(cfg, before, after, pool, customs, out, rolls, picks, path)
  {
  }

  lemma DrawnFrom(cfg: Config, before: set<int32>, middle: set<int32>, id: int32, customs: seq<int32>, out: Outcome,
                  rolls: seq<nat>, picks: seq<Pick>, path: seq<int32>)
    requires id in cfg && id !in before && cfg[id].times > 0
    requires Handled(cfg, before + {id}, middle, cfg[id], customs, out, rolls, picks, path)
    ensures Drawn(cfg, before, middle - {id}, id, customs, out, Draw(id, rolls, picks), [id] + path)
  {
  }

  lemma PickFails(cfg: Config, before: set<int32>, after: set<int32>, pool: Pool, customs: seq<int32>, e: Choice,
                  out: Outcome, rolls: seq<nat>, picks: seq<Pick>, p: Pick, path: seq<int32>)
    requires e in pool.elems && out.Fail? && Picked(cfg, before, after, e, out, p, path)
    ensures Handled(cfg, before, after, pool, customs, out, rolls, picks, path)
  {
  }

  lemma {:induction false} ValidOfKeeps(elems: seq<Elem>, e: Choice)
    requires e in ValidOf(elems)
    ensures e in elems
  {
    var n := |elems| - 1;
    if e in ValidOf(elems[..n]) {
      ValidOfKeeps(elems[..n], e);
    }
  }

  lemma {:induction false} ValidOfPrefix(elems: seq<Elem>, i: nat)
    requires i <= |elems|
    ensures ValidOf(elems[..i]) <= ValidOf(elems)
    decreases |elems|
  {
    var n := |elems| - 1;
    if i <= n {
      ValidOfPrefix(elems[..n], i);
      assert elems[..n][..i] == elems[..i];
    } else {
      assert elems[..i] == elems;
    }
  }

  /** The scan over all elements that skips the invalid ones, where it stops. */
  lemma ScanStopsAt(elems: seq<Elem>, roll: nat, j: nat)
    requires roll < Total(ValidOf(elems)) && j <= |elems| && Total(ValidOf(elems[..j])) <= roll
    requires j < |elems| ==> ValidElem(elems[j]) && roll - Total(ValidOf(elems[..j])) < elems[j].weight
    ensures j < |elems|
    ensures elems[j] == ValidOf(elems)[Select(ValidOf(elems), roll)]
  {
    hide Select;
    assert elems[..|elems|] == elems;
    var valid := ValidOf(elems);
    var i := |ValidOf(elems[..j])|;
    ValidOfNext(elems, j);
    ValidOfPrefix(elems, j + 1);
    assert valid[..i] == ValidOf(elems[..j]) && valid[i] == elems[j];
    SelectedByItsWeight(valid, roll, i);
  }

  lemma IndexStopsAt(es: seq<Choice>, roll: nat, i: nat)
    requires roll < Total(es) && i < |es| && Total(es[..i]) <= roll < Total(es[..i]) + es[i].weight
    ensures i == Select(es, roll)
  {
    SelectedByItsWeight(es, roll, i);
  }

  lemma NothingRolled(es: seq<Choice>)
    ensures RollsFit(es, []) && Chosen(es, []) == [] && Remaining(es, []) == es
  {
  }

  lemma SwapRemoveIs(es: seq<Choice>, i: nat)
    requires i < |es|
    ensures SwapRemove(es, i) == es[i := es[|es| - 1]][..|es| - 1]
  {
  }

  lemma NothingSelected(valid: seq<Choice>)
    ensures SelectedBy(valid, [], [])
  {
  }

  lemma SelectedGrows(valid: seq<Choice>, rolls: seq<nat>, chosen: seq<Choice>, roll: nat)
    requires SelectedBy(valid, rolls, chosen) && roll < Int32(Total(valid))
    ensures SelectedBy(valid, rolls + [roll], chosen + [valid[Select(valid, roll)]])
  {
  }

  lemma PanicMeansHeavy(es: seq<Choice>, rolls: seq<nat>)
    requires RollsFit(es, rolls) && |rolls| < |es| && Int32(Total(Remaining(es, rolls))) <= 0
    ensures Total(es) >= 0x8000_0000
  {
    hide Chosen, Remaining;
    DrawingConserves(es, rolls);
  }

  lemma RemainingKeeps(elems: seq<Elem>, rolls: seq<nat>, e: Choice)
    requires RollsFit(ValidOf(elems), rolls) && e in Remaining(ValidOf(elems), rolls)
    ensures e in elems
  {
    hide Chosen, Remaining, ValidOf;
    DrawingConserves(ValidOf(elems), rolls);
    assert e in multiset(Remaining(ValidOf(elems), rolls)) && e in multiset(ValidOf(elems));
    ValidOfKeeps(elems, e);
  }

  lemma RollAppended(es: seq<Choice>, rolls: seq<nat>, roll: nat)
    requires RollsFit(es, rolls) && roll < Int32(Total(Remaining(es, rolls)))
    ensures RollsFit(es, rolls + [roll])
    ensures var left := Remaining(es, rolls);
            && Chosen(es, rolls + [roll]) == Chosen(es, rolls) + [left[Select(left, roll)]]
            && Remaining(es, rolls + [roll]) == SwapRemove(left, Select(left, roll))
  {
    var grown := rolls + [roll];
    assert grown[..|rolls|] == rolls;
    forall k | 0 <= k < |grown|
      ensures grown[k] < Int32(Total(Remaining(es, grown[..k])))
    {
      if k < |rolls| {
        assert grown[..k] == rolls[..k];
      }
    }
  }

  /** One configuration, the pools being drawn from, and all that the random
      generator has returned so far. */
  class Drawing {
    const cfg: Config
    var used: set<int32>
    ghost var log: seq<Call>

    constructor (cfg: Config)
      ensures this.cfg == cfg && used == {} && log == []
    {
      this.cfg := cfg;
      used, log := {}, [];
    }

    /** Int32N and Int64N of the random generator. */
    method Below(n: int) returns (value: nat)
      requires n > 0
      modifies this`log
      ensures value < n && log == old(log) + [Call(n, value)]
    {
      value :| value < n;
      log := log + [Call(n, value)];
    }

    method AddRandomResult(e: Choice) returns (out: Outcome, ghost p: Pick, ghost path: seq<int32>)
      modifies this
      ensures Picked(cfg, old(used), used, e, out, p, path)
      ensures out.Done? ==> log == old(log) + CallsOfPick(cfg, p)
      decreases cfg.Keys - used, 1
    {
      hide ValidDraw, Cause, ItemsOf, Restored, CallsOf, CallsOfDraws;
      var count := e.minCount;
      if e.minCount < e.maxCount {
        var above := Below(e.maxCount - e.minCount + 1);
        count := above + e.minCount;
      }
      ghost var counted := log;
      NothingCalled(cfg, Pool(0, All, []), log);
      if IsRandomPool(e.typeId) {
        var items := [];
        ghost var draws := [];
        for i := 0 to Rounds(count)
          invariant used == old(used) && |draws| == i
          invariant DrawsValid(cfg, e.typeId, draws, [])
          invariant items == ItemsOfDraws(draws) && log == counted + CallsOfDraws(cfg, draws)
        {
          ghost var d;
          out, d, path := DrawPool(e.typeId, []);
          if out.Fail? {
            return out, Pick(e, count, []), path;
          }
          DrawsGrow(cfg, e.typeId, draws, d, []);
          DrawCallsGrow(cfg, counted, draws, d);
          items, draws := items + out.items, draws + [d];
        }
        return Done(items), Pick(e, count, draws), [];
      }
      return Done([Item(e.typeId, count)]), Pick(e, count, []), [];
    }

    method DrawPool(id: int32, customs: seq<int32>) returns (out: Outcome, ghost d: Draw, ghost path: seq<int32>)
      modifies this
      ensures Drawn(cfg, old(used), used, id, customs, out, d, path)
      ensures out.Done? ==> log == old(log) + CallsOf(cfg, d)
      decreases cfg.Keys - used, 0
    {
      hide ValidPick, Handled, CallsOfPicks;
      path, d := [id], Draw(id, [], []);
      NothingPicked(cfg);
      NothingCalled(cfg, Pool(0, All, []), log);
      if id !in cfg {
        return Fail(DrawError.NotFound), d, path;
      }
      var pool := cfg[id];
      if pool.times <= 0 {
        NothingCalled(cfg, pool, log);
        return Done([]), d, path;
      }
      if id in used {
        return Fail(DrawError.Recursive), d, path;
      }
      used := used + {id};
      ghost var rolls, picks, rest;
      match pool.kind {
        case All => out, rolls, picks, rest := HandleAll(pool.elems, pool.times);
        case Independent => out, rolls, picks, rest := HandleIndependent(pool.elems, pool.times);
        case Exclusive => out, rolls, picks, rest := HandleExclusive(pool.elems, pool.times);
        case Custom => out, rolls, picks, rest := HandleCustom(pool.elems, pool.times, customs);
        case Other => return Fail(TypeNotSupport), d, path;
      }
      if !pool.kind.Custom? {
        PositionsOnlyMatterToCustomPools(cfg, old(used) + {id}, used, pool, customs, out, rolls, picks, rest);
      }
      DrawnFrom(cfg, old(used), used, id, customs, out, rolls, picks, rest);
      used := used - {id};
      d, path := Draw(id, rolls, picks), [id] + rest;
    }

    method HandleAll(elems: seq<Elem>, times: int32)
        returns (out: Outcome, ghost rolls: seq<nat>, ghost picks: seq<Pick>, ghost path: seq<int32>)
      requires times > 0
      modifies this
      ensures Handled(cfg, old(used), used, Pool(times, All, elems), [], out, rolls, picks, path)
      ensures out.Done? ==> log == old(log) + CallsOfPicks(cfg, Pool(times, All, elems), rolls, picks)
      decreases cfg.Keys - used, 2
    {
      hide ValidPick, ItemsOfPicks, ItemsOfPick, Cause, Restored, PicksValid, Elems, Picked, CallsOfPicks, CallsOfPick;
      rolls, picks, path := [], [], [];
      NothingPicked(cfg);
      ghost var valid, pool, before := ValidOf(elems), Pool(times, All, elems), log;
      NothingCalled(cfg, pool, before);
      var items := [];
      for i := 0 to times
        invariant used == old(used) && items == ItemsOfPicks(picks) && PicksValid(cfg, picks)
        invariant log == before + CallsOfPicks(cfg, pool, [], picks)
        invariant Elems(picks) == Repeated(valid, i)
      {
        for j := 0 to |elems|
          invariant used == old(used) && items == ItemsOfPicks(picks) && PicksValid(cfg, picks)
          invariant log == before + CallsOfPicks(cfg, pool, [], picks)
          invariant Elems(picks) == Repeated(valid, i) + ValidOf(elems[..j])
        {
          ValidOfNext(elems, j);
          if ValidElem(elems[j]) {
            ghost var p;
            out, p, path := AddRandomResult(elems[j]);
            if out.Fail? {
              PickFails(cfg, old(used), used, pool, [], elems[j], out, rolls, picks, p, path);
              return;
            }
            PickDone(cfg, old(used), used, elems[j], out, p, path);
            PicksGrow(cfg, picks, p);
            CallsGrow(cfg, pool, before, picks, p);
            items, picks := items + out.items, picks + [p];
          }
        }
        assert elems[..|elems|] == elems;
      }
      return Done(items), rolls, picks, path;
    }

    /** The inner loop of handleIndependent, which skips the invalid elements. */
    static method Scan(elems: seq<Elem>, roll: nat) returns (j: nat)
      requires roll < Total(ValidOf(elems))
      ensures j < |elems| && ValidElem(elems[j])
      ensures elems[j] == ValidOf(elems)[Select(ValidOf(elems), roll)]
    {
      hide Select;
      var selectWeight := roll;
      j := 0;
      while j < |elems| && !(ValidElem(elems[j]) && selectWeight < elems[j].weight)
        invariant j <= |elems| && 0 <= selectWeight == roll - Total(ValidOf(elems[..j]))
      {
        ValidOfNext(elems, j);
        if ValidElem(elems[j]) {
          selectWeight := selectWeight - elems[j].weight;
        }
        j := j + 1;
      }
      ScanStopsAt(elems, roll, j);
    }

    method HandleIndependent(elems: seq<Elem>, times: int32)
        returns (out: Outcome, ghost rolls: seq<nat>, ghost picks: seq<Pick>, ghost path: seq<int32>)
      requires times > 0
      modifies this
      ensures Handled(cfg, old(used), used, Pool(times, Independent, elems), [], out, rolls, picks, path)
      ensures out.Done? ==> log == old(log) + CallsOfPicks(cfg, Pool(times, Independent, elems), rolls, picks)
      decreases cfg.Keys - used, 2
    {
      hide ValidPick, ItemsOfPicks, ItemsOfPick, Cause, Restored, PicksValid, Elems, Picked, Select, SelectedBy;
      hide CallsOfPicks, CallsOfPick, Bound;
      rolls, picks, path := [], [], [];
      NothingPicked(cfg);
      ghost var valid, pool, before := ValidOf(elems), Pool(times, Independent, elems), log;
      NothingCalled(cfg, pool, before);
      var sumWeight := 0;
      for j := 0 to |elems|
        invariant used == old(used) && log == before && sumWeight == Int32(Total(ValidOf(elems[..j])))
      {
        ValidOfNext(elems, j);
        if ValidElem(elems[j]) {
          Int32Adds(Total(ValidOf(elems[..j])), elems[j].weight);
          sumWeight := Int32(sumWeight + elems[j].weight);
        }
      }
      assert elems[..|elems|] == elems;
      if sumWeight <= 0 {
        return Done([]), rolls, picks, path;
      }
      var items := [];
      assert SelectedBy(valid, rolls, Elems(picks)) by { NothingSelected(valid); }
      for i := 0 to times
        invariant used == old(used) && items == ItemsOfPicks(picks) && PicksValid(cfg, picks)
        invariant |rolls| == |picks| == i && SelectedBy(valid, rolls, Elems(picks))
        invariant log == before + CallsOfPicks(cfg, pool, rolls, picks)
      {
        var roll := Below(sumWeight);
        var j := Scan(elems, roll);
        ghost var p;
        out, p, path := AddRandomResult(elems[j]);
        if out.Fail? {
          PickFails(cfg, old(used), used, pool, [], elems[j], out, rolls, picks, p, path);
          return;
        }
        PickDone(cfg, old(used), used, elems[j], out, p, path);
        PicksGrow(cfg, picks, p);
        NextBound(pool, rolls);
        RolledCallsGrow(cfg, pool, before, rolls, roll, picks, p);
        SelectedGrows(valid, rolls, Elems(picks), roll);
        items, picks, rolls := items + out.items, picks + [p], rolls + [roll];
      }
      return Done(items), rolls, picks, path;
    }

    method HandleExclusive(elems: seq<Elem>, times: int32)
        returns (out: Outcome, ghost rolls: seq<nat>, ghost picks: seq<Pick>, ghost path: seq<int32>)
      requires times > 0
      modifies this
      ensures Handled(cfg, old(used), used, Pool(times, Exclusive, elems), [], out, rolls, picks, path)
      ensures out.Done? ==> log == old(log) + CallsOfPicks(cfg, Pool(times, Exclusive, elems), rolls, picks)
      decreases cfg.Keys - used, 3
    {
      hide ValidPick, ItemsOfPicks, ItemsOfPick, Cause, Restored, PicksValid, Elems, Picked, Chosen, RollsFit, Select;
      hide CallsOfPicks, CallsOfPick;
      rolls, picks, path := [], [], [];
      NothingPicked(cfg);
      ghost var pool, before := Pool(times, Exclusive, elems), log;
      NothingCalled(cfg, pool, before);
      var valid: seq<Choice> := [];
      var sumWeight := 0;
      for j := 0 to |elems|
        invariant used == old(used) && log == before
        invariant valid == ValidOf(elems[..j]) && sumWeight == Int32(Total(valid))
      {
        ValidOfNext(elems, j);
        if ValidElem(elems[j]) {
          Int32Adds(Total(valid), elems[j].weight);
          TotalNext(valid, elems[j]);
          valid := valid + [elems[j]];
          sumWeight := Int32(sumWeight + elems[j].weight);
        }
      }
      assert elems[..|elems|] == elems;
      var items := [];
      if times >= |valid| {
        for j := 0 to |valid|
          invariant used == old(used) && items == ItemsOfPicks(picks) && PicksValid(cfg, picks)
          invariant log == before + CallsOfPicks(cfg, pool, [], picks) && Elems(picks) == valid[..j]
        {
          ghost var p;
          out, p, path := AddRandomResult(valid[j]);
          if out.Fail? {
            ValidOfKeeps(elems, valid[j]);
            PickFails(cfg, old(used), used, pool, [], valid[j], out, rolls, picks, p, path);
            return;
          }
          PickDone(cfg, old(used), used, valid[j], out, p, path);
          PicksGrow(cfg, picks, p);
          CallsGrow(cfg, pool, before, picks, p);
          items, picks := items + out.items, picks + [p];
        }
        return Done(items), rolls, picks, path;
      }
      out, rolls, picks, path := DrawExclusively(elems, times, valid, sumWeight);
    }

    /** The scan of handleExclusive over what is left. */
    method Roll(es: seq<Choice>, sumWeight: int32) returns (idx: nat, roll: nat)
      requires 0 < sumWeight == Int32(Total(es))
      modifies this`log
      ensures roll < sumWeight && roll < Total(es) && idx == Select(es, roll)
      ensures log == old(log) + [Call(sumWeight, roll)]
    {
      hide Select;
      roll := Below(sumWeight);
      var selectWeight := roll;
      idx := 0;
      assert es[..|es|] == es;
      while idx < |es| && selectWeight >= es[idx].weight
        invariant idx <= |es| && 0 <= selectWeight == roll - Total(es[..idx])
      {
        assert es[..idx + 1][..idx] == es[..idx];
        selectWeight := selectWeight - es[idx].weight;
        idx := idx + 1;
      }
      // the roll is below the total, so the scan never runs off the end
      assert idx < |es|;
      IndexStopsAt(es, roll, idx);
    }

    /** The second half of handleExclusive: fewer draws than valid elements. */
    method DrawExclusively(elems: seq<Elem>, times: int32, start: seq<Choice>, startWeight: int32)
        returns (out: Outcome, ghost rolls: seq<nat>, ghost picks: seq<Pick>, ghost path: seq<int32>)
      requires 0 < times < |start| && start == ValidOf(elems) && startWeight == Int32(Total(start))
      modifies this
      ensures Handled(cfg, old(used), used, Pool(times, Exclusive, elems), [], out, rolls, picks, path)
      ensures out.Done? ==> log == old(log) + CallsOfPicks(cfg, Pool(times, Exclusive, elems), rolls, picks)
      decreases cfg.Keys - used, 2
    {
      hide ValidPick, ItemsOfPicks, ItemsOfPick, Cause, Restored, Handled, Yields, Select, Remaining, Chosen, RollsFit;
      hide SwapRemove, PicksValid, Elems, Total, ValidOf, Picked, CallsOfPicks, CallsOfPick, Bound;
      rolls, picks, path := [], [], [];
      ghost var pool, before := Pool(times, Exclusive, elems), log;
      NothingCalled(cfg, pool, before);
      var items := [];
      var valid, sumWeight := start, startWeight;
      NothingRolled(start);
      NothingPicked(cfg);
      for i := 0 to times
        invariant used == old(used) && items == ItemsOfPicks(picks) && PicksValid(cfg, picks)
        invariant |rolls| == |picks| == i && RollsFit(start, rolls) && Elems(picks) == Chosen(start, rolls)
        invariant log == before + CallsOfPicks(cfg, pool, rolls, picks)
        invariant valid == Remaining(start, rolls) && |valid| == |start| - i && sumWeight == Int32(Total(valid))
      {
        if sumWeight <= 0 {
          PanicMeansHeavy(start, rolls);
          PanicHandled(cfg, used, pool, rolls, picks);
          return Fail(Panic), rolls, picks, [];
        }
        var idx, roll := Roll(valid, sumWeight);
        var opt := valid[idx];
        ghost var p;
        out, p, path := AddRandomResult(opt);
        if out.Fail? {
          RemainingKeeps(elems, rolls, opt);
          PickFails(cfg, old(used), used, pool, [], opt, out, rolls, picks, p, path);
          return;
        }
        PickDone(cfg, old(used), used, opt, out, p, path);
        PicksGrow(cfg, picks, p);
        NextBound(pool, rolls);
        RolledCallsGrow(cfg, pool, before, rolls, roll, picks, p);
        SwapRemoveTotal(valid, idx);
        Int32Adds(Total(valid), -opt.weight);
        RollAppended(start, rolls, roll);
        items, picks, rolls := items + out.items, picks + [p], rolls + [roll];
        sumWeight := Int32(sumWeight - opt.weight);
        SwapRemoveIs(valid, idx);
        valid := valid[idx := valid[|valid| - 1]];
        valid := valid[..|valid| - 1];
      }
      ExclusiveHandled(cfg, used, pool, items, rolls, picks, path);
      return Done(items), rolls, picks, path;
    }

    method HandleCustom(elems: seq<Elem>, times: int32, customs: seq<int32>)
        returns (out: Outcome, ghost rolls: seq<nat>, ghost picks: seq<Pick>, ghost path: seq<int32>)
      requires times > 0
      modifies this
      ensures Handled(cfg, old(used), used, Pool(times, Custom, elems), customs, out, rolls, picks, path)
      ensures out.Done? ==> log == old(log) + CallsOfPicks(cfg, Pool(times, Custom, elems), rolls, picks)
      decreases cfg.Keys - used, 2
    {
      hide ValidPick, ItemsOfPicks, ItemsOfPick, Cause, Restored, PicksValid, Elems, Picked;
      hide Total, ValidOf, Repeated, Chosen, RollsFit, SelectedBy, SubCause, ItemsOf, ItemsOfDraws, ValidDraw;
      hide CallsOfPicks, CallsOfPick;
      rolls, picks, path := [], [], [];
      NothingPicked(cfg);
      ghost var pool, before := Pool(times, Custom, elems), log;
      NothingCalled(cfg, pool, before);
      if |customs| != times {
        return Fail(TimesNotMatch), rolls, picks, path;
      }
      var usedIndex := {};
      var items := [];
      for i := 0 to times
        invariant used == old(used) && items == ItemsOfPicks(picks) && PicksValid(cfg, picks)
        invariant log == before + CallsOfPicks(cfg, pool, [], picks)
        invariant CustomsFit(|elems|, i, customs[..i]) && Elems(picks) == CustomChosen(elems, customs[..i])
        invariant times > 1 ==> usedIndex == set k | 0 <= k < i :: customs[k]
      {
        if customs[i] >= |elems| || customs[i] < 0 {
          assert !(0 <= customs[i] < |elems|);
          return Fail(IndexNotMatch), rolls, picks, [];
        }
        if times > 1 {
          if customs[i] in usedIndex {
            return Fail(IndexRepeat), rolls, picks, [];
          }
          usedIndex := usedIndex + {customs[i]};
        }
        assert customs[..i + 1][..i] == customs[..i];
        var e := elems[customs[i]];
        if ValidElem(e) {
          ghost var p;
          out, p, path := AddRandomResult(e);
          if out.Fail? {
            PickFails(cfg, old(used), used, pool, customs, e, out, rolls, picks, p, path);
            return;
          }
          PickDone(cfg, old(used), used, e, out, p, path);
          PicksGrow(cfg, picks, p);
          CallsGrow(cfg, pool, before, picks, p);
          items, picks := items + out.items, picks + [p];
        }
      }
      assert customs[..times] == customs;
      return Done(items), rolls, picks, path;
    }

    /** The entry point: `count` independent draws, each with a fresh set. */
    method RandomWithPool(id: int32, count: int64, customs: seq<int32>)
        returns (out: Outcome, ghost draws: seq<Draw>, ghost path: seq<int32>)
      modifies this
      ensures WholeDraw(cfg, id, count, customs, out, draws, path)
      ensures out.Done? ==> log == old(log) + CallsOfDraws(cfg, draws)
    {
      hide ValidDraw, Cause, ItemsOf, Restored, CallsOf, CallsOfDraws;
      draws, path := [], [];
      ghost var before := log;
      NothingCalled(cfg, Pool(0, All, []), before);
      if !IsRandomPool(id) {
        return Fail(NotRandomPool), draws, path;
      }
      ghost var d;
      if count == 1 {
        used := {};
        out, d, path := DrawPool(id, customs);
        DrawsGrow(cfg, id, [], d, customs);
        DrawCallsGrow(cfg, before, [], d);
        return out, [d], path;
      }
      var items := [];
      for i := 0 to if count < 0 then 0 else count
        invariant |draws| == i && DrawsValid(cfg, id, draws, customs) && items == ItemsOfDraws(draws)
        invariant log == before + CallsOfDraws(cfg, draws)
      {
        used := {};
        out, d, path := DrawPool(id, customs);
        if out.Fail? {
          return;
        }
        DrawsGrow(cfg, id, draws, d, customs);
        DrawCallsGrow(cfg, before, draws, d);
        items, draws := items + out.items, draws + [d];
      }
      return Done(items), draws, path;
    }
  }
}
