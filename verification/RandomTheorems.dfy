/** What an accepted configuration guarantees for every draw. */
module RandomTheorems {
  import opened RandomPools
  import opened RandomDraws

  // ------------------------------------------------------------------ elements come from the pool

  lemma {:induction false} ValidOfFrom(elems: seq<Elem>)
    ensures forall e :: e in ValidOf(elems) ==> e in elems
  {
    if elems == [] {
    } else {
      ValidOfFrom(elems[..|elems| - 1]);
    }
  }

  lemma {:induction false} RepeatedFrom(es: seq<Choice>, times: nat)
    ensures forall e :: e in Repeated(es, times) ==> e in es
  {
    if times == 0 {
    } else {
      RepeatedFrom(es, times - 1);
    }
  }

  lemma {:induction false} CustomFrom(elems: seq<Elem>, customs: seq<int32>)
    requires forall i :: 0 <= i < |customs| ==> 0 <= customs[i] < |elems|
    ensures forall e :: e in CustomChosen(elems, customs) ==> e in elems
  {
    if customs == [] {
    } else {
      CustomFrom(elems, customs[..|customs| - 1]);
    }
  }

  /** An exclusive pool yields min(times, valid) elements, no valid one more often
      than it is configured. */
  lemma ExclusiveTakesDistinct(pool: Pool, rolls: seq<nat>, customs: seq<int32>, chosen: seq<Choice>)
    requires pool.kind.Exclusive? && pool.times > 0 && Yields(pool, rolls, customs, chosen)
    ensures |chosen| == if pool.times < |ValidOf(pool.elems)| then pool.times else |ValidOf(pool.elems)|
    ensures multiset(chosen) <= multiset(ValidOf(pool.elems))
  {
    hide Chosen, ValidOf;
    if pool.times < |ValidOf(pool.elems)| {
      DrawingConserves(ValidOf(pool.elems), rolls);
    }
  }

  lemma YieldsFrom(pool: Pool, rolls: seq<nat>, customs: seq<int32>, chosen: seq<Choice>)
    requires Yields(pool, rolls, customs, chosen)
    ensures forall e :: e in chosen ==> e in pool.elems
  {
    hide Chosen, ValidOf, Repeated, CustomChosen, Select, RollsFit;
    ValidOfFrom(pool.elems);
    if pool.times > 0 {
      match pool.kind {
        case All => RepeatedFrom(ValidOf(pool.elems), pool.times);
        case Independent =>
        case Exclusive =>
          ExclusiveTakesDistinct(pool, rolls, customs, chosen);
          assert forall e :: e in chosen ==> e in multiset(chosen) && e in multiset(ValidOf(pool.elems));
        case Custom => CustomFrom(pool.elems, customs);
        case Other =>
      }
    }
  }

  // ------------------------------------------------------------------ draws are covered

  lemma {:induction false} ItemFromPick(picks: seq<Pick>, item: Item) returns (i: nat)
    requires item in ItemsOfPicks(picks)
    ensures i < |picks| && item in ItemsOfPick(picks[i])
  {
    var n := |picks| - 1;
    if item in ItemsOfPicks(picks[..n]) {
      i := ItemFromPick(picks[..n], item);
    } else {
      i := n;
    }
  }

  lemma {:induction false} ItemFromDraw(draws: seq<Draw>, item: Item) returns (i: nat)
    requires item in ItemsOfDraws(draws)
    ensures i < |draws| && item in ItemsOf(draws[i])
  {
    var n := |draws| - 1;
    if item in ItemsOfDraws(draws[..n]) {
      i := ItemFromDraw(draws[..n], item);
    } else {
      i := n;
    }
  }

  /** Every item of a draw is of a type the pass cached for the pool, whatever
      numbers were drawn. */
  lemma {:induction false} DrawnItemsAreObtainable(cfg: Config, obtained: Obtained, rank: map<int32, nat>, d: Draw,
                                                 customs: seq<int32>, item: Item)
    requires Ready(cfg, obtained, rank) && ValidDraw(cfg, d, customs) && item in ItemsOf(d)
    ensures d.id in obtained && item.typeId in obtained[d.id]
    decreases d
  {
    var i := ItemFromPick(d.picks, item);
    var p := d.picks[i];
    YieldsFrom(cfg[d.id], d.rolls, customs, Elems(d.picks));
    assert Elems(d.picks)[i] == p.elem;
    assert ValidPick(cfg, p);
    if IsRandomPool(p.elem.typeId) {
      var j := ItemFromDraw(p.draws, item);
      assert p.draws[j].id == p.elem.typeId && ValidDraw(cfg, p.draws[j], []);
      DrawnItemsAreObtainable(cfg, obtained, rank, p.draws[j], [], item);
    }
    assert item.typeId in Gives(p.elem, obtained);
    assert PoolSettled(cfg, obtained, rank, d.id);
    ContentsHas(cfg[d.id].elems, obtained, item.typeId);
  }

  // ------------------------------------------------------------------ errors after the pass

  /** The errors that can still happen, and the pool responsible. */
  ghost predicate StillPossible(cfg: Config, id: int32, path: seq<int32>, error: DrawError) {
    path != [] &&
    var last := path[|path| - 1];
    && last in cfg && cfg[last].times > 0
    && (match error
        case TypeNotSupport => cfg[last].kind.Other?
        case Panic => cfg[last].kind.Exclusive? && Total(ValidOf(cfg[last].elems)) >= 0x8000_0000
        case TimesNotMatch => last == id && cfg[id].kind.Custom?
        case IndexNotMatch => last == id && cfg[id].kind.Custom?
        case IndexRepeat => last == id && cfg[id].kind.Custom?
        case _ => false)
  }

  lemma {:induction false} CauseAfterPass(cfg: Config, obtained: Obtained, rank: map<int32, nat>, used: set<int32>,
                                          path: seq<int32>, customs: seq<int32>, error: DrawError)
    requires Ready(cfg, obtained, rank) && Cause(cfg, used, path, customs, error) && path[0] in cfg
    requires forall u :: u in used ==> u in rank && rank[path[0]] < rank[u]
    ensures StillPossible(cfg, path[0], path, error)
    ensures |path| > 1 ==> error.TypeNotSupport? || error.Panic?
    decreases |path|
  {
    hide Total, ValidOf, Contents;
    var p := path[0];
    if |path| > 1 {
      var rest := path[1..];
      assert SubCause(cfg, used + {p}, cfg[p].elems, rest, error);
      var e :| e in cfg[p].elems && e.typeId == rest[0];
      var i: nat :| i < |cfg[p].elems| && cfg[p].elems[i] == e;
      assert RefersAt(cfg, p, i, rest[0]);
      RankFalls(cfg, obtained, rank, p, rest[0]);
      CauseAfterPass(cfg, obtained, rank, used + {p}, rest, [], error);
      assert rest[|rest| - 1] == path[|path| - 1];
      if |rest| == 1 {
        assert PoolFault(cfg[rest[0]], [], error);
      }
    }
  }

  /** After a successful pass a draw from an existing pool never reports a missing
      or a recursive pool.  It fails only on a pool of unknown type, on an exclusive
      pool whose weights exceed 32 bits, or on wrong positions for the outermost
      pool, when that is a custom one. */
  lemma ErrorsAfterPass(cfg: Config, obtained: Obtained, rank: map<int32, nat>, id: int32, path: seq<int32>,
                        customs: seq<int32>, error: DrawError)
    requires Ready(cfg, obtained, rank) && id in cfg
    requires path != [] && path[0] == id && Cause(cfg, {}, path, customs, error)
    ensures !error.NotFound? && !error.Recursive? && StillPossible(cfg, id, path, error)
  {
    CauseAfterPass(cfg, obtained, rank, {}, path, customs, error);
  }

  /** With plain pools and 32-bit weights, nothing fails. */
  lemma PlainPoolsNeverFail(cfg: Config, obtained: Obtained, rank: map<int32, nat>, id: int32, path: seq<int32>,
                            customs: seq<int32>, error: DrawError)
    requires Ready(cfg, obtained, rank) && id in cfg && path != [] && path[0] == id
    requires forall p :: p in cfg ==>
               (cfg[p].kind.All? || cfg[p].kind.Independent?
                || (cfg[p].kind.Exclusive? && Total(ValidOf(cfg[p].elems)) < 0x8000_0000))
    ensures !Cause(cfg, {}, path, customs, error)
  {
    if Cause(cfg, {}, path, customs, error) {
      CauseAfterPass(cfg, obtained, rank, {}, path, customs, error);
    }
  }

  // ------------------------------------------------------------------ heavy exclusive pools

  function Zeros(k: nat): (zs: seq<nat>)
    ensures |zs| == k
  {
    if k == 0 then [] else Zeros(k - 1) + [0]
  }

  lemma TotalIsPositive(es: seq<Choice>)
    requires es != []
    ensures Total(es) > 0
  {
  }

  /** Below 31 bits the generator never refuses: the least number can always be drawn. */
  lemma {:induction false} ZerosFit(es: seq<Choice>, k: nat)
    requires k <= |es| && Total(es) < 0x8000_0000
    ensures RollsFit(es, Zeros(k))
  {
    hide Total, Remaining, Chosen, RollsFit;
    if k == 0 {
      NothingRolled(es);
    } else {
      var rolls := Zeros(k - 1);
      ZerosFit(es, k - 1);
      DrawingConserves(es, rolls);
      TotalIsPositive(Remaining(es, rolls));
      RollAppended(es, rolls, 0);
    }
  }

  /** An exclusive pool that has to choose, with weights that sum up to less than
      2^32, yields anything if and only if they sum up to less than 2^31; otherwise
      every draw from it panics at its first number. */
  lemma HeavyPoolsYieldNothing(pool: Pool, customs: seq<int32>)
    requires pool.kind.Exclusive? && 0 < pool.times < |ValidOf(pool.elems)|
    requires Total(ValidOf(pool.elems)) < 0x1_0000_0000
    ensures (exists rolls, chosen :: Yields(pool, rolls, customs, chosen)) <==> Total(ValidOf(pool.elems)) < 0x8000_0000
  {
    var valid := ValidOf(pool.elems);
    if Total(valid) < 0x8000_0000 {
      ZerosFit(valid, pool.times);
      var rolls := Zeros(pool.times);
      assert Yields(pool, rolls, customs, Chosen(valid, rolls));
    } else {
      forall rolls, chosen
        ensures !Yields(pool, rolls, customs, chosen)
      {
        NoFirstNumber(valid, rolls);
      }
    }
  }

  lemma NoFirstNumber(es: seq<Choice>, rolls: seq<nat>)
    requires 0x8000_0000 <= Total(es) < 0x1_0000_0000
    ensures rolls != [] ==> !RollsFit(es, rolls)
  {
    if rolls != [] {
      assert rolls[..0] == [] && Remaining(es, rolls[..0]) == es;
      assert Int32(Total(es)) < 0;
    }
  }
}
