/** What a draw hands out, described without the functions that compute it: which
    elements a pool yields, how many of each item, and that nothing but the numbers
    of the random generator decides. */
module RandomItems {
  import opened Positions
  import opened RandomPools
  import opened RandomDraws
  import opened RandomTheorems

  // ------------------------------------------------------------------ the elements of a pool

  /** The elements that can be drawn are those with a type, a least count and a weight,
      in their order. */
  lemma {:induction false} ValidElementsInOrder(elems: seq<Elem>) returns (ps: seq<nat>)
    ensures Ascending(ps, |elems|) && |ps| == |ValidOf(elems)|
    ensures forall k :: 0 <= k < |ps| ==> ValidOf(elems)[k] == elems[ps[k]]
    ensures forall i: nat | i < |elems| ::
              i in ps <==> elems[i].typeId != 0 && elems[i].minCount > 0 && elems[i].weight > 0
  {
    hide Ascending;
    ps := [];
    if elems == [] {
      assert Ascending([], 0) by { EmptyAscends(); }
    } else {
      var n := |elems| - 1;
      ps := ValidElementsInOrder(elems[..n]);
      AscendingNext(ps, n);
      if ValidElem(elems[n]) {
        ps := ps + [n];
      }
    }
  }

  lemma {:induction false} RepeatedAt(es: seq<Choice>, times: nat, k: nat)
    requires es != [] && 0 < times && k < times * |es|
    ensures |Repeated(es, times)| == times * |es|
    ensures Repeated(es, times)[k] == es[k % |es|]
  {
    RepeatedSize(es, times);
    RepeatedSize(es, times - 1);
    var n := (times - 1) * |es|;
    assert times * |es| == n + |es|;
    if k < n {
      assert times - 1 > 0 by { assert times == 1 ==> n == 0; }
      RepeatedAt(es, times - 1, k);
    } else {
      Residue(k - n, times - 1, |es|);
    }
  }

  lemma Residue(a: nat, q: nat, m: nat)
    requires a < m
    ensures (q * m + a) % m == a
  {
    var x: int := q * m + a;
    var off: int := x / m - q;
    assert off * m == a - x % m;
  }

  lemma {:induction false} RepeatedSize(es: seq<Choice>, times: nat)
    ensures |Repeated(es, times)| == times * |es|
  {
    if times == 0 {
    } else {
      RepeatedSize(es, times - 1);
      assert times * |es| == (times - 1) * |es| + |es|;
    }
  }

  /** A pool of kind All yields its valid elements in order, as often as it says. */
  lemma AllYieldsEverything(pool: Pool, rolls: seq<nat>, customs: seq<int32>, chosen: seq<Choice>)
    requires pool.kind.All? && pool.times > 0 && Yields(pool, rolls, customs, chosen)
    ensures rolls == [] && |chosen| == pool.times * |ValidOf(pool.elems)|
    ensures forall k :: 0 <= k < |chosen| ==>
              ValidOf(pool.elems) != [] && chosen[k] == ValidOf(pool.elems)[k % |ValidOf(pool.elems)|]
  {
    hide ValidOf, Repeated;
    var valid := ValidOf(pool.elems);
    RepeatedSize(valid, pool.times);
    if valid == [] {
      assert pool.times * 0 == 0;
    } else {
      forall k: nat | k < |chosen|
        ensures chosen[k] == valid[k % |valid|]
      {
        RepeatedAt(valid, pool.times, k);
      }
    }
  }

  /** An independent pool draws as many numbers as it says, each below the 32-bit sum of
      the weights, and every number selects by weight among all valid elements.
      Without a positive sum it yields nothing. */
  lemma IndependentSelectsByWeight(pool: Pool, rolls: seq<nat>, customs: seq<int32>, chosen: seq<Choice>, k: nat)
    requires pool.kind.Independent? && pool.times > 0 && Yields(pool, rolls, customs, chosen)
    ensures var valid := ValidOf(pool.elems);
            if Int32(Total(valid)) <= 0 then chosen == [] && rolls == []
            else
              && |chosen| == |rolls| == pool.times
              && (k < pool.times ==>
                    rolls[k] < Int32(Total(valid))
                    && exists i: nat :: i < |valid| && chosen[k] == valid[i]
                                        && Total(valid[..i]) <= rolls[k] < Total(valid[..i]) + valid[i].weight)
  {
    hide ValidOf, Total, Select;
    var valid := ValidOf(pool.elems);
    if Int32(Total(valid)) > 0 && k < pool.times {
      SelectedByItsWeight(valid, rolls[k], Select(valid, rolls[k]));
    }
  }

  /** Each number of an exclusive pool selects by weight among what is left, and the
      last element left takes the place of the selected one. */
  lemma EachNumberChooses(es: seq<Choice>, rolls: seq<nat>, k: nat) returns (i: nat)
    requires RollsFit(es, rolls) && k < |rolls|
    ensures var left, then0 := Remaining(es, rolls[..k]), Remaining(es, rolls[..k + 1]);
            && |Chosen(es, rolls)| == |rolls| && |left| == |es| - k && i < |left|
            && rolls[k] < Total(left) && Total(left[..i]) <= rolls[k] < Total(left[..i]) + left[i].weight
            && Chosen(es, rolls)[k] == left[i]
            && |then0| == |left| - 1
            && forall j :: 0 <= j < |then0| ==> then0[j] == if j == i then left[|left| - 1] else left[j]
  {
    hide Total, Select, Remaining, Chosen, RollsFit;
    var left := Remaining(es, rolls[..k]);
    RollsFitPrefix(es, rolls, k);
    DrawingConserves(es, rolls[..k]);
    DrawingConserves(es, rolls);
    FitsAt(es, rolls, k);
    i := Select(left, rolls[k]);
    SelectedByItsWeight(left, rolls[k], i);
    RemainingAt(es, rolls, k);
    ChosenAt(es, rolls, k);
  }

  lemma FitsAt(es: seq<Choice>, rolls: seq<nat>, k: nat)
    requires RollsFit(es, rolls) && k < |rolls|
    ensures rolls[k] < Int32(Total(Remaining(es, rolls[..k])))
  {
  }

  lemma RemainingAt(es: seq<Choice>, rolls: seq<nat>, k: nat)
    requires k < |rolls|
    ensures Remaining(es, rolls[..k + 1]) == AfterRoll(Remaining(es, rolls[..k]), rolls[k])
  {
    assert rolls[..k + 1][..k] == rolls[..k];
  }

  lemma {:induction false} ChosenAt(es: seq<Choice>, rolls: seq<nat>, k: nat)
    requires RollsFit(es, rolls) && k < |rolls| && rolls[k] < Total(Remaining(es, rolls[..k]))
    ensures k < |Chosen(es, rolls)| == |rolls|
    ensures var left := Remaining(es, rolls[..k]); Chosen(es, rolls)[k] == left[Select(left, rolls[k])]
    decreases |rolls|
  {
    hide Total, Select, Remaining, RollsFit;
    var n := |rolls| - 1;
    DrawingConserves(es, rolls);
    if k < n {
      RollsFitPrefix(es, rolls, n);
      assert rolls[..n][..k] == rolls[..k];
      ChosenAt(es, rolls[..n], k);
    } else {
      RollsFitPrefix(es, rolls, n);
      DrawingConserves(es, rolls[..n]);
    }
  }

  /** A custom pool yields the valid ones among the elements at the given positions, in
      the order asked for. */
  lemma {:induction false} CustomYieldsThePositions(elems: seq<Elem>, customs: seq<int32>) returns (ps: seq<nat>)
    requires forall i :: 0 <= i < |customs| ==> 0 <= customs[i] < |elems|
    ensures Ascending(ps, |customs|) && |ps| == |CustomChosen(elems, customs)|
    ensures forall k :: 0 <= k < |ps| ==> CustomChosen(elems, customs)[k] == elems[customs[ps[k]]]
    ensures forall i: nat | i < |customs| ::
              i in ps <==> var e := elems[customs[i]]; e.typeId != 0 && e.minCount > 0 && e.weight > 0
    decreases |customs|
  {
    hide Ascending;
    ps := [];
    if customs == [] {
      assert Ascending([], 0) by { EmptyAscends(); }
    } else {
      var n := |customs| - 1;
      ps := CustomYieldsThePositions(elems, customs[..n]);
      AscendingNext(ps, n);
      if ValidElem(elems[customs[n]]) {
        ps := ps + [n];
      }
    }
  }

  /** A custom pool yields something exactly for as many positions as it says, all of
      them positions of elements and no two the same; each other request is at
      fault in the way its error says. */
  lemma PositionsDecide(pool: Pool, customs: seq<int32>)
    requires pool.kind.Custom? && pool.times > 0
    ensures (exists rolls, chosen :: Yields(pool, rolls, customs, chosen)) <==>
              && |customs| == pool.times
              && (forall i :: 0 <= i < |customs| ==> 0 <= customs[i] < |pool.elems|)
              && (forall i, j :: 0 <= i < j < |customs| ==> customs[i] != customs[j])
    ensures PoolFault(pool, customs, TimesNotMatch) <==> |customs| != pool.times
    ensures PoolFault(pool, customs, IndexNotMatch) <==>
              exists i :: 0 <= i < |customs| && (customs[i] < 0 || customs[i] >= |pool.elems|)
    ensures PoolFault(pool, customs, IndexRepeat) <==>
              exists i, j :: 0 <= i < j < |customs| && customs[i] == customs[j]
    ensures !PoolFault(pool, customs, TypeNotSupport) && !PoolFault(pool, customs, Panic)
  {
    hide CustomChosen;
    if CustomsFit(|pool.elems|, pool.times, customs) {
      assert Yields(pool, [], customs, CustomChosen(pool.elems, customs));
    }
  }

  // ------------------------------------------------------------------ counts

  /** How many of this item type a list of items holds. */
  ghost function Amount(items: seq<Item>, t: int32): int {
    if items == [] then 0
    else Amount(items[..|items| - 1], t) + (if items[|items| - 1].typeId == t then items[|items| - 1].count else 0)
  }

  /** The counts drawn for the picks of this item type, at any depth. */
  ghost function Counted(d: Draw, t: int32): int
    decreases d
  {
    CountedInPicks(d.picks, t)
  }

  ghost function CountedInPicks(picks: seq<Pick>, t: int32): int
    decreases picks
  {
    if picks == [] then 0 else CountedInPicks(picks[..|picks| - 1], t) + CountedInPick(picks[|picks| - 1], t)
  }

  ghost function CountedInPick(p: Pick, t: int32): int
    decreases p
  {
    if IsRandomPool(p.elem.typeId) then CountedInDraws(p.draws, t) else if p.elem.typeId == t then p.count else 0
  }

  ghost function CountedInDraws(draws: seq<Draw>, t: int32): int
    decreases draws
  {
    if draws == [] then 0 else CountedInDraws(draws[..|draws| - 1], t) + Counted(draws[|draws| - 1], t)
  }

  lemma {:induction false} AmountAdds(a: seq<Item>, b: seq<Item>, t: int32)
    ensures Amount(a + b, t) == Amount(a, t) + Amount(b, t)
    decreases |b|
  {
    if b == [] {
      assert a + b == a;
    } else {
      var n := |b| - 1;
      AmountAdds(a, b[..n], t);
      assert (a + b)[..|a + b| - 1] == a + b[..n];
    }
  }

  /** Nothing is lost or added on the way from the picks to the items: of each type a
      draw hands out exactly what was drawn for it, at any depth. */
  lemma {:induction false} CountsAddUp(d: Draw, t: int32)
    ensures Amount(ItemsOf(d), t) == Counted(d, t)
    decreases d
  {
    CountsOfPicks(d.picks, t);
  }

  lemma {:induction false} CountsOfPicks(picks: seq<Pick>, t: int32)
    ensures Amount(ItemsOfPicks(picks), t) == CountedInPicks(picks, t)
    decreases picks
  {
    if picks == [] {
    } else {
      var n := |picks| - 1;
      CountsOfPicks(picks[..n], t);
      CountsOfPick(picks[n], t);
      AmountAdds(ItemsOfPicks(picks[..n]), ItemsOfPick(picks[n]), t);
    }
  }

  lemma {:induction false} CountsOfPick(p: Pick, t: int32)
    ensures Amount(ItemsOfPick(p), t) == CountedInPick(p, t)
    decreases p
  {
    if IsRandomPool(p.elem.typeId) {
      CountsOfDraws(p.draws, t);
    } else {
      assert ItemsOfPick(p)[..0] == [];
    }
  }

  lemma {:induction false} CountsOfDraws(draws: seq<Draw>, t: int32)
    ensures Amount(ItemsOfDraws(draws), t) == CountedInDraws(draws, t)
    decreases draws
  {
    if draws == [] {
    } else {
      var n := |draws| - 1;
      CountsOfDraws(draws[..n], t);
      CountsAddUp(draws[n], t);
      AmountAdds(ItemsOfDraws(draws[..n]), ItemsOf(draws[n]), t);
    }
  }

  /** A draw without nested pools hands out one item per pick, in the order of the picks. */
  lemma {:induction false} PlainItemsInOrder(picks: seq<Pick>)
    requires forall k :: 0 <= k < |picks| ==> !IsRandomPool(picks[k].elem.typeId)
    ensures |ItemsOfPicks(picks)| == |picks|
    ensures forall k :: 0 <= k < |picks| ==> ItemsOfPicks(picks)[k] == Item(picks[k].elem.typeId, picks[k].count)
    decreases picks
  {
    if picks == [] {
    } else {
      PlainItemsInOrder(picks[..|picks| - 1]);
    }
  }

  /** At any depth a pick that stands for a pool carries one draw from that pool per
      unit of its count, as long as the count fits 32 bits, and no other pick
      carries any. */
  ghost predicate Nested(d: Draw)
    decreases d
  {
    forall i :: 0 <= i < |d.picks| ==>
      var p := d.picks[i];
      var stands := 590000 <= p.elem.typeId < 600000;
      && (!stands ==> p.draws == [])
      && (stands && p.count < 0x8000_0000 ==> |p.draws| == p.count)
      && forall j :: 0 <= j < |p.draws| ==> p.draws[j].id == p.elem.typeId && Nested(p.draws[j])
  }

  lemma {:induction false} OneNestedDrawPerUnit(cfg: Config, d: Draw, customs: seq<int32>)
    requires ValidDraw(cfg, d, customs)
    ensures Nested(d)
    decreases d
  {
    hide Yields;
    forall i | 0 <= i < |d.picks|
      ensures var p := d.picks[i];
        var stands := 590000 <= p.elem.typeId < 600000;
        && (!stands ==> p.draws == [])
        && (stands && p.count < 0x8000_0000 ==> |p.draws| == p.count)
        && forall j :: 0 <= j < |p.draws| ==> p.draws[j].id == p.elem.typeId && Nested(p.draws[j])
    {
      var p := d.picks[i];
      assert ValidPick(cfg, p);
      forall j | 0 <= j < |p.draws|
        ensures p.draws[j].id == p.elem.typeId && Nested(p.draws[j])
      {
        OneNestedDrawPerUnit(cfg, p.draws[j], []);
      }
    }
  }

  /** `path` leads from pool p to a pool whose element number i is of the item's type
      and allows the item's count. */
  ghost predicate Explains(cfg: Config, p: int32, path: seq<int32>, i: nat, item: Item) {
    && path != [] && path[0] == p && IsPath(cfg, path)
    && path[|path| - 1] in cfg && i < |cfg[path[|path| - 1]].elems|
    && var e := cfg[path[|path| - 1]].elems[i];
       && e.typeId == item.typeId && !IsRandomPool(item.typeId)
       && 1 <= e.minCount <= item.count
       && item.count <= (if e.maxCount > e.minCount then e.maxCount else e.minCount)
  }

  /** Every item comes from an element of its type in a pool that some path leads to, and
      its count lies between the element's bounds. */
  lemma {:induction false} CountsWithinBounds(cfg: Config, d: Draw, customs: seq<int32>, item: Item)
      returns (path: seq<int32>, i: nat)
    requires ValidDraw(cfg, d, customs) && item in ItemsOf(d)
    ensures Explains(cfg, d.id, path, i, item)
    decreases d
  {
    hide Yields, ItemsOfPicks, ItemsOfDraws;
    var k := ItemFromPick(d.picks, item);
    var p := d.picks[k];
    YieldsFrom(cfg[d.id], d.rolls, customs, Elems(d.picks));
    assert Elems(d.picks)[k] == p.elem;
    assert ValidPick(cfg, p);
    var elems := cfg[d.id].elems;
    assert p.elem in Elems(d.picks) && p.elem in elems;
    i :| i < |elems| && elems[i] == p.elem;
    if IsRandomPool(p.elem.typeId) {
      assert RefersAt(cfg, d.id, i, p.elem.typeId);
      var j := ItemFromDraw(p.draws, item);
      path, i := CountsWithinBounds(cfg, p.draws[j], [], item);
      LongerPath(cfg, d.id, path);
      path := [d.id] + path;
    } else {
      path := [d.id];
    }
  }

  /** Between its element's bounds every count can come out, each for one number of the
      generator. */
  lemma EveryCountCanBeDrawn(cfg: Config, e: Choice, count: int64)
    requires !IsRandomPool(e.typeId) && e.minCount <= count <= e.maxCount
    ensures ValidPick(cfg, Pick(e, count, []))
    ensures ItemsOfPick(Pick(e, count, [])) == [Item(e.typeId, count)]
    ensures CallsOfPick(cfg, Pick(e, count, []))
         == if e.minCount == e.maxCount then [] else [Call(e.maxCount - e.minCount + 1, count - e.minCount)]
  {
    assert CallsOfDraws(cfg, []) == [];
  }

  lemma LongerPath(cfg: Config, p: int32, path: seq<int32>)
    requires path != [] && IsPath(cfg, path) && Refers(cfg, p, path[0])
    ensures IsPath(cfg, [p] + path)
  {
    var longer := [p] + path;
    forall k | 0 <= k < |longer| - 1
      ensures Refers(cfg, longer[k], longer[k + 1])
    {
      if k > 0 {
        assert Refers(cfg, path[k - 1], path[k]);
      }
    }
  }

  // ------------------------------------------------------------------ nothing but the numbers decides

  /** The selecting numbers of the first n picks. */
  ghost function Cut(rolls: seq<nat>, n: nat): seq<nat> {
    if n < |rolls| then rolls[..n] else rolls
  }

  /** Without numbers, the kind of pool alone decides; otherwise there is one number
      per pick. */
  lemma YieldsSizes(pool: Pool, rolls: seq<nat>, customs: seq<int32>, chosen: seq<Choice>)
    requires Yields(pool, rolls, customs, chosen)
    ensures rolls == [] || |rolls| == |chosen|
  {
    hide ValidOf, Repeated, CustomChosen, Select;
    if pool.times > 0 && pool.kind.Exclusive? && pool.times < |ValidOf(pool.elems)| {
      DrawingConserves(ValidOf(pool.elems), rolls);
    }
  }

  lemma YieldsAgree(pool: Pool, rolls: seq<nat>, customs: seq<int32>, chosen: seq<Choice>, rolls': seq<nat>,
                    chosen': seq<Choice>)
    requires Yields(pool, rolls, customs, chosen) && Yields(pool, rolls', customs, chosen')
    ensures |rolls| == |rolls'| && |chosen| == |chosen'|
    ensures rolls == [] ==> chosen == chosen'
  {
    hide ValidOf, Repeated, CustomChosen, Select;
    if pool.times > 0 && pool.kind.Exclusive? && pool.times < |ValidOf(pool.elems)| {
      DrawingConserves(ValidOf(pool.elems), rolls);
      DrawingConserves(ValidOf(pool.elems), rolls');
    }
  }

  /** The numbers so far and the next one determine the next element. */
  lemma ChosenAgree(pool: Pool, rolls: seq<nat>, customs: seq<int32>, chosen: seq<Choice>, rolls': seq<nat>,
                    chosen': seq<Choice>, k: nat)
    requires Yields(pool, rolls, customs, chosen) && Yields(pool, rolls', customs, chosen')
    requires k < |chosen| && k < |chosen'|
    requires Cut(rolls, k + 1) == Cut(rolls', k + 1)
    ensures chosen[k] == chosen'[k]
  {
    YieldsAgree(pool, rolls, customs, chosen, rolls', chosen');
    YieldsSizes(pool, rolls, customs, chosen);
    if rolls != [] {
      assert rolls[..k + 1] == rolls'[..k + 1];
      assert rolls[k] == rolls[..k + 1][k] == rolls'[k];
      assert rolls[..k] == rolls[..k + 1][..k] == rolls'[..k];
      hide ValidOf, Repeated, CustomChosen, Select, Total, Chosen, Remaining, RollsFit;
      if pool.kind.Exclusive? {
        var valid := ValidOf(pool.elems);
        FitsAt(valid, rolls, k);
        FitsAt(valid, rolls', k);
        ChosenAt(valid, rolls, k);
        ChosenAt(valid, rolls', k);
      }
    }
  }

  lemma SplitCalls(cfg: Config, pool: Pool, rolls: seq<nat>, picks: seq<Pick>, n: nat, rest: seq<Call>)
    requires n < |picks| && (rolls == [] || |rolls| == |picks|)
    ensures CallsOfPicks(cfg, pool, Cut(rolls, n + 1), picks[..n + 1]) + rest
         == CallsOfPicks(cfg, pool, Cut(rolls, n), picks[..n])
            + ((if rolls == [] then [] else [Call(Bound(pool, Cut(rolls, n), n), rolls[n])])
               + (CallsOfPick(cfg, picks[n]) + rest))
  {
    hide Bound;
    assert picks[..n + 1][..n] == picks[..n];
    if rolls != [] {
      assert Cut(rolls, n + 1)[..n] == rolls[..n];
      BoundOfPrefix(pool, Cut(rolls, n + 1), n);
      assert Cut(rolls, n) == rolls[..n];
    }
  }

  lemma BoundOfPrefix(pool: Pool, rolls: seq<nat>, n: nat)
    requires n <= |rolls|
    ensures Bound(pool, rolls, n) == Bound(pool, rolls[..n], n)
  {
    assert rolls[..n][..n] == rolls[..n];
  }

  /** Everything random comes from the generator, and every part of a draw can be read
      off the numbers: two draws from a pool whose numbers agree are the same, and
      no draw's numbers are the beginning of another's. */
  lemma {:induction false} NumbersDetermineTheDraw(cfg: Config, d: Draw, d': Draw, customs: seq<int32>,
                                                rest: seq<Call>, rest': seq<Call>)
    requires ValidDraw(cfg, d, customs) && ValidDraw(cfg, d', customs) && d.id == d'.id
    requires CallsOf(cfg, d) + rest == CallsOf(cfg, d') + rest'
    ensures d == d' && rest == rest'
    decreases d, 2, 0
  {
    hide ValidPick, Yields, CallsOfPicks;
    var n := |d.picks|;
    YieldsAgree(cfg[d.id], d.rolls, customs, Elems(d.picks), d'.rolls, Elems(d'.picks));
    YieldsSizes(cfg[d.id], d.rolls, customs, Elems(d.picks));
    YieldsSizes(cfg[d.id], d'.rolls, customs, Elems(d'.picks));
    assert d.picks[..n] == d.picks && d'.picks[..n] == d'.picks;
    assert Cut(d.rolls, n) == d.rolls && Cut(d'.rolls, n) == d'.rolls;
    NumbersDetermineThePicks(cfg, d, d', customs, n, rest, rest');
  }

  lemma {:induction false} NumbersDetermineThePicks(cfg: Config, d: Draw, d': Draw, customs: seq<int32>, n: nat,
                                                 rest: seq<Call>, rest': seq<Call>)
    requires ValidDraw(cfg, d, customs) && ValidDraw(cfg, d', customs) && d.id == d'.id
    requires n <= |d.picks| == |d'.picks|
    requires CallsOfPicks(cfg, cfg[d.id], Cut(d.rolls, n), d.picks[..n]) + rest
          == CallsOfPicks(cfg, cfg[d.id], Cut(d'.rolls, n), d'.picks[..n]) + rest'
    ensures d.picks[..n] == d'.picks[..n] && Cut(d.rolls, n) == Cut(d'.rolls, n) && rest == rest'
    decreases d, 1, n
  {
    hide ValidPick, Yields, CallsOfPicks, CallsOfPick, Bound;
    var pool := cfg[d.id];
    YieldsAgree(pool, d.rolls, customs, Elems(d.picks), d'.rolls, Elems(d'.picks));
    YieldsSizes(pool, d.rolls, customs, Elems(d.picks));
    if n == 0 {
      NothingCalled(cfg, pool, []);
      assert d.picks[..0] == [] && d'.picks[..0] == [];
      NoCalls(cfg, pool, d.rolls, rest);
      NoCalls(cfg, pool, d'.rolls, rest');
    } else {
      var m := n - 1;
      SplitCalls(cfg, pool, d.rolls, d.picks, m, rest);
      SplitCalls(cfg, pool, d'.rolls, d'.picks, m, rest');
      var r := if d.rolls == [] then [] else [Call(Bound(pool, Cut(d.rolls, m), m), d.rolls[m])];
      var r' := if d'.rolls == [] then [] else [Call(Bound(pool, Cut(d'.rolls, m), m), d'.rolls[m])];
      var s, s' := CallsOfPick(cfg, d.picks[m]) + rest, CallsOfPick(cfg, d'.picks[m]) + rest';
      NumbersDetermineThePicks(cfg, d, d', customs, m, r + s, r' + s');
      assert s == (r + s)[|r|..] && s' == (r' + s')[|r'|..];
      if d.rolls != [] {
        assert (r + s)[0] == r[0] && (r' + s')[0] == r'[0];
        assert d.rolls[..n] == d.rolls[..m] + [d.rolls[m]] && d'.rolls[..n] == d'.rolls[..m] + [d'.rolls[m]];
      }
      ChosenAgree(pool, d.rolls, customs, Elems(d.picks), d'.rolls, Elems(d'.picks), m);
      assert Elems(d.picks)[m] == d.picks[m].elem && Elems(d'.picks)[m] == d'.picks[m].elem;
      NumbersDetermineThePick(cfg, d.picks[m], d'.picks[m], rest, rest');
      assert d.picks[..n] == d.picks[..m] + [d.picks[m]] && d'.picks[..n] == d'.picks[..m] + [d'.picks[m]];
    }
  }

  lemma NoCalls(cfg: Config, pool: Pool, rolls: seq<nat>, rest: seq<Call>)
    ensures CallsOfPicks(cfg, pool, Cut(rolls, 0), []) + rest == rest
  {
  }

  lemma NoDrawCalls(cfg: Config, draws: seq<Draw>, rest: seq<Call>)
    ensures CallsOfDraws(cfg, draws[..0]) + rest == rest
  {
  }

  lemma SplitDrawCalls(cfg: Config, draws: seq<Draw>, n: nat, rest: seq<Call>)
    requires n < |draws|
    ensures CallsOfDraws(cfg, draws[..n + 1]) + rest == CallsOfDraws(cfg, draws[..n]) + (CallsOf(cfg, draws[n]) + rest)
  {
    assert draws[..n + 1][..n] == draws[..n];
  }

  lemma {:induction false} NumbersDetermineThePick(cfg: Config, p: Pick, p': Pick, rest: seq<Call>, rest': seq<Call>)
    requires ValidPick(cfg, p) && ValidPick(cfg, p') && p.elem == p'.elem
    requires CallsOfPick(cfg, p) + rest == CallsOfPick(cfg, p') + rest'
    ensures p == p' && rest == rest'
    decreases p, 1, 0
  {
    hide ValidDraw, CallsOfDraws;
    var c, c' := CallsOfDraws(cfg, p.draws), CallsOfDraws(cfg, p'.draws);
    if p.elem.minCount < p.elem.maxCount {
      var h := Call(p.elem.maxCount - p.elem.minCount + 1, p.count - p.elem.minCount);
      var h' := Call(p.elem.maxCount - p.elem.minCount + 1, p'.count - p.elem.minCount);
      assert [h] + c + rest == [h] + (c + rest) && [h'] + c' + rest' == [h'] + (c' + rest');
      assert h == ([h] + (c + rest))[0] == ([h'] + (c' + rest'))[0] == h';
      assert c + rest == ([h] + (c + rest))[1..] && c' + rest' == ([h'] + (c' + rest'))[1..];
    } else {
      assert [] + c == c && [] + c' == c';
    }
    assert p.draws[..|p.draws|] == p.draws && p'.draws[..|p.draws|] == p'.draws;
    NumbersDetermineTheDraws(cfg, p, p', |p.draws|, rest, rest');
  }

  lemma {:induction false} NumbersDetermineTheDraws(cfg: Config, p: Pick, p': Pick, n: nat, rest: seq<Call>,
                                                 rest': seq<Call>)
    requires ValidPick(cfg, p) && ValidPick(cfg, p') && p.elem == p'.elem && n <= |p.draws| == |p'.draws|
    requires CallsOfDraws(cfg, p.draws[..n]) + rest == CallsOfDraws(cfg, p'.draws[..n]) + rest'
    ensures p.draws[..n] == p'.draws[..n] && rest == rest'
    decreases p, 0, n
  {
    hide ValidDraw, CallsOf, CallsOfDraws;
    if n == 0 {
      NoDrawCalls(cfg, p.draws, rest);
      NoDrawCalls(cfg, p'.draws, rest');
    } else {
      var m := n - 1;
      SplitDrawCalls(cfg, p.draws, m, rest);
      SplitDrawCalls(cfg, p'.draws, m, rest');
      var c, c' := CallsOf(cfg, p.draws[m]) + rest, CallsOf(cfg, p'.draws[m]) + rest';
      NumbersDetermineTheDraws(cfg, p, p', m, c, c');
      NumbersDetermineTheDraw(cfg, p.draws[m], p'.draws[m], [], rest, rest');
      assert p.draws[..n] == p.draws[..m] + [p.draws[m]] && p'.draws[..n] == p'.draws[..m] + [p'.draws[m]];
    }
  }

  lemma {:induction false} NumbersDetermineAllDraws(cfg: Config, id: int32, customs: seq<int32>, draws: seq<Draw>,
                                                 draws': seq<Draw>, n: nat, rest: seq<Call>, rest': seq<Call>)
    requires DrawsValid(cfg, id, draws, customs) && DrawsValid(cfg, id, draws', customs) && n <= |draws| == |draws'|
    requires CallsOfDraws(cfg, draws[..n]) + rest == CallsOfDraws(cfg, draws'[..n]) + rest'
    ensures draws[..n] == draws'[..n]
    decreases n
  {
    hide ValidDraw, CallsOf, CallsOfDraws;
    if n == 0 {
    } else {
      var m := n - 1;
      SplitDrawCalls(cfg, draws, m, rest);
      SplitDrawCalls(cfg, draws', m, rest');
      var c, c' := CallsOf(cfg, draws[m]) + rest, CallsOf(cfg, draws'[m]) + rest';
      NumbersDetermineAllDraws(cfg, id, customs, draws, draws', m, c, c');
      AllDrawsRest(cfg, id, customs, draws, draws', m, c, c');
      NumbersDetermineTheDraw(cfg, draws[m], draws'[m], customs, rest, rest');
      assert draws[..n] == draws[..m] + [draws[m]] && draws'[..n] == draws'[..m] + [draws'[m]];
    }
  }

  lemma AllDrawsRest(cfg: Config, id: int32, customs: seq<int32>, draws: seq<Draw>, draws': seq<Draw>, m: nat,
                     c: seq<Call>, c': seq<Call>)
    requires m <= |draws| == |draws'| && draws[..m] == draws'[..m]
    requires CallsOfDraws(cfg, draws[..m]) + c == CallsOfDraws(cfg, draws'[..m]) + c'
    ensures c == c'
  {
    hide CallsOfDraws;
    var a := CallsOfDraws(cfg, draws[..m]);
    assert c == (a + c)[|a|..] && c' == (a + c')[|a|..];
  }

  /** The same request answered from the same numbers gives the same items in the same
      order: RandomWithPool adds nothing of its own and ignores no number. */
  lemma SameNumbersSameItems(cfg: Config, id: int32, count: int64, customs: seq<int32>, out: Outcome, draws: seq<Draw>,
                             out': Outcome, draws': seq<Draw>)
    requires WholeDraw(cfg, id, count, customs, out, draws, []) && WholeDraw(cfg, id, count, customs, out', draws', [])
    requires out.Done? && out'.Done? && CallsOfDraws(cfg, draws) == CallsOfDraws(cfg, draws')
    ensures draws == draws' && out == out'
  {
    hide CallsOfDraws, DrawsValid, ItemsOfDraws;
    var n := |draws|;
    assert draws[..n] == draws && draws'[..n] == draws';
    NumbersDetermineAllDraws(cfg, id, customs, draws, draws', n, [], []);
  }

  // ------------------------------------------------------------------ errors

  /** Where an error comes from: along pools that are drawn from and refer to one another,
      a pool that is missing, one that is already being drawn from, or one with a
      fault of its own. */
  lemma {:induction false} CauseExplained(cfg: Config, used: set<int32>, path: seq<int32>, customs: seq<int32>,
                                       error: DrawError)
    requires Cause(cfg, used, path, customs, error)
    ensures path != []
    ensures var last := path[|path| - 1];
            && (error.NotFound? <==> last !in cfg)
            && (error.Recursive? <==> last in cfg && (last in used || last in path[..|path| - 1]))
            && (last in cfg ==> cfg[last].times > 0)
            && (!error.NotFound? && !error.Recursive? ==>
                  last in cfg && PoolFault(cfg[last], if |path| == 1 then customs else [], error))
    ensures forall k :: 0 <= k < |path| - 1 ==>
              path[k] in cfg && cfg[path[k]].times > 0 && Refers(cfg, path[k], path[k + 1])
    decreases |path|
  {
    hide PoolFault;
    var p := path[0];
    if p in cfg && p !in used && |path| > 1 {
      var rest := path[1..];
      assert SubCause(cfg, used + {p}, cfg[p].elems, rest, error);
      CauseExplained(cfg, used + {p}, rest, [], error);
      var e :| e in cfg[p].elems && e.typeId == rest[0];
      var i: nat :| i < |cfg[p].elems| && cfg[p].elems[i] == e;
      assert RefersAt(cfg, p, i, rest[0]);
      assert path[..|path| - 1] == [p] + rest[..|rest| - 1];
      assert forall k :: 0 < k < |path| ==> path[k] == rest[k - 1];
    } else {
      OwnFault(cfg, used, path, customs, error);
    }
  }

  lemma OwnFault(cfg: Config, used: set<int32>, path: seq<int32>, customs: seq<int32>, error: DrawError)
    requires Cause(cfg, used, path, customs, error)
    requires path != [] && (path[0] !in cfg || path[0] in used || |path| == 1)
    ensures |path| == 1 && (error.NotFound? <==> path[0] !in cfg)
    ensures error.Recursive? <==> path[0] in cfg && path[0] in used
    ensures path[0] in cfg ==> cfg[path[0]].times > 0
    ensures !error.NotFound? && !error.Recursive? ==> path[0] in cfg && PoolFault(cfg[path[0]], customs, error)
  {
  }

  /** Conversion to 32 bits wraps around. */
  lemma Int32Wraps(x: int)
    ensures (x - Int32(x)) % 0x1_0000_0000 == 0
  {
    var y := x + 0x8000_0000;
    assert x - Int32(x) == y - y % 0x1_0000_0000;
    assert y - y % 0x1_0000_0000 == (y / 0x1_0000_0000) * 0x1_0000_0000;
  }
}
