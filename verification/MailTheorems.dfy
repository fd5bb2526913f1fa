/** What compaction leaves of a mail list, said by positions alone: which mails stay,
    which go, and in what order they are marked. */
module MailTheorems {
  import opened Options
  import opened Positions
  import opened Mail

  // ------------------------------------------------------------------ what is promised

  /** The mail is not marked as removed, and neither of its end times has come. */
  ghost predicate Stays(now: int, r: Record) {
    && 2 !in r.status
    && (r.expiredTime <= 0 || now < r.expiredTime)
    && (r.removeTime <= 0 || now < r.removeTime)
  }

  /** t is the start time, or the nearer end of the `offset` seconds that begin with the
      delivery. */
  ghost predicate ClampedTo(offset: int, r: Record, t: int) {
    && r.deliveryTime <= t <= r.deliveryTime + offset
    && (r.deliveryTime <= r.startTime <= r.deliveryTime + offset ==> t == r.startTime)
    && (r.startTime < r.deliveryTime ==> t == r.deliveryTime)
    && (r.startTime > r.deliveryTime + offset ==> t == r.deliveryTime + offset)
  }

  /** Mail i is older than mail j: by clamped time, then by position. */
  ghost predicate Older(offset: int, rs: seq<Record>, i: nat, j: nat)
    requires i < |rs| && j < |rs|
  {
    exists ti, tj :: ClampedTo(offset, rs[i], ti) && ClampedTo(offset, rs[j], tj) && (ti < tj || (ti == tj && i < j))
  }

  /** The copy on the pending-remove list: the removed bit set, and both end times no
      later than a week from now. */
  ghost predicate MarkedAs(now: int, r: Record, m: Record) {
    && m.mailId == r.mailId && m.startTime == r.startTime && m.deliveryTime == r.deliveryTime
    && m.status == r.status + {2}
    && m.expiredTime == (if r.expiredTime < now + 604800 then r.expiredTime else now + 604800)
    && m.removeTime == (if r.removeTime < now + 604800 then r.removeTime else now + 604800)
  }

  /** The mails at positions `kept` remain, in their order.  All that must not stay go,
      and no more than the capacity forces; those that are forced out are older than
      all that stay. */
  ghost predicate Remains(now: int, cap: int, offset: int, rs: seq<Record>, records: seq<Record>, kept: seq<nat>) {
    && Ascending(kept, |rs|) && |records| == |kept| <= cap
    && (forall k :: 0 <= k < |kept| ==> records[k] == rs[kept[k]] && Stays(now, rs[kept[k]]))
    && (|kept| < cap ==> forall i: nat :: i < |rs| && Stays(now, rs[i]) ==> i in kept)
    && (forall i: nat, j: nat :: i < |rs| && j in kept && i !in kept && Stays(now, rs[i]) ==> Older(offset, rs, i, j))
  }

  /** All others, at the positions `gone`, are in the pending-remove list, each once and
      marked, behind those that were there before. */
  ghost predicate Pending(now: int, rs: seq<Record>, before: seq<Record>, pending: seq<Record>, kept: seq<nat>,
                          gone: seq<nat>) {
    && |gone| + |kept| == |rs| && (forall k :: 0 <= k < |gone| ==> gone[k] < |rs| && gone[k] !in kept)
    && (forall j, k :: 0 <= j < k < |gone| ==> gone[j] != gone[k])
    && |pending| == |before| + |gone| && pending[..|before|] == before
    && forall k :: 0 <= k < |gone| ==> MarkedAs(now, rs[gone[k]], pending[|before| + k])
  }

  /** How many of these positions there are is what the capacity is made of: the
      configured count, and a reserve of at most one for each mail of the future. */
  lemma {:induction false} FuturePositions(now: int, rs: seq<Record>, n: nat) returns (future: seq<nat>)
    requires n <= |rs|
    ensures Ascending(future, n) && |future| == FutureCount(now, rs, n)
    ensures forall i: nat | i < n :: i in future <==> now < rs[i].startTime
  {
    hide Ascending;
    future := [];
    if n == 0 {
      EmptyAscends();
    } else {
      future := FuturePositions(now, rs, n - 1);
      AscendingNext(future, n - 1);
      if rs[n - 1].startTime > now {
        future := future + [n - 1];
      }
    }
  }

  lemma CapacityIsCountPlusReserve(now: int, cfg: Config, rs: seq<Record>) returns (future: seq<nat>)
    ensures Ascending(future, |rs|)
    ensures forall i: nat | i < |rs| :: i in future <==> now < rs[i].startTime
    ensures cfg.futureReserve <= 0 ==> Cap(now, cfg, rs) == cfg.maxCount
    ensures 0 <= cfg.futureReserve <= |future| ==> Cap(now, cfg, rs) == cfg.maxCount + cfg.futureReserve
    ensures |future| <= cfg.futureReserve ==> Cap(now, cfg, rs) == cfg.maxCount + |future|
  {
    future := FuturePositions(now, rs, |rs|);
  }

  // ------------------------------------------------------------------ times

  lemma ClampedTime(offset: int, r: Record)
    requires offset >= 0
    ensures ClampedTo(offset, r, CompactTime(offset, r))
    ensures forall t :: ClampedTo(offset, r, t) ==> t == CompactTime(offset, r)
  {
  }

  lemma BeforeIsOlder(offset: int, rs: seq<Record>, i: nat, j: nat)
    requires offset >= 0 && i < |rs| && j < |rs|
    ensures Before(offset, rs, i, j) <==> Older(offset, rs, i, j)
  {
    ClampedTime(offset, rs[i]);
    ClampedTime(offset, rs[j]);
    hide ClampedTo, CompactTime;
  }

  // ------------------------------------------------------------------ ranks

  lemma {:induction false} RankMonotone(offset: int, rs: seq<Record>, i: nat, j: nat, n: nat)
    requires i < |rs| && j < |rs| && n <= |rs| && Before(offset, rs, i, j)
    ensures Rank(offset, rs, i, n) <= Rank(offset, rs, j, n)
    ensures i < n ==> Rank(offset, rs, i, n) < Rank(offset, rs, j, n)
  {
    hide CompactTime;
    if n == 0 {
    } else {
      RankMonotone(offset, rs, i, j, n - 1);
    }
  }

  lemma RankDecides(offset: int, rs: seq<Record>, i: nat, j: nat)
    requires i < |rs| && j < |rs| && Rank(offset, rs, i, |rs|) < Rank(offset, rs, j, |rs|)
    ensures Before(offset, rs, i, j)
  {
    if Before(offset, rs, j, i) {
      RankMonotone(offset, rs, j, i, |rs|);
    }
  }

  lemma RankIsUnique(offset: int, rs: seq<Record>, i: nat, j: nat)
    requires i < |rs| && j < |rs| && Rank(offset, rs, i, |rs|) == Rank(offset, rs, j, |rs|)
    ensures i == j
  {
    if i != j {
      if Before(offset, rs, i, j) {
        RankMonotone(offset, rs, i, j, |rs|);
      } else {
        RankMonotone(offset, rs, j, i, |rs|);
      }
    }
  }

  // ------------------------------------------------------------------ positions

  lemma {:induction false} KeptPositions(now: int, rs: seq<Record>, n: nat) returns (ks: seq<nat>)
    requires n <= |rs|
    ensures Ascending(ks, n) && |ks| == |KeptIn(now, rs, n)|
    ensures forall k :: 0 <= k < |ks| ==> KeptIn(now, rs, n)[k] == rs[ks[k]]
    ensures forall i: nat | i < n :: i in ks <==> Stays(now, rs[i])
  {
    hide Ascending;
    ks := [];
    if n == 0 {
      EmptyAscends();
    } else {
      ks := KeptPositions(now, rs, n - 1);
      AscendingNext(ks, n - 1);
      StaysUnlessRemovable(now, rs[n - 1]);
      hide Stays, IsHistoryRemovable;
      if !IsHistoryRemovable(now, rs[n - 1]) {
        ks := ks + [n - 1];
      }
    }
  }

  lemma StaysUnlessRemovable(now: int, r: Record)
    ensures Stays(now, r) <==> !IsHistoryRemovable(now, r)
  {
  }

  lemma {:induction false} DroppedPositions(now: int, rs: seq<Record>, n: nat) returns (ds: seq<nat>)
    requires n <= |rs|
    ensures Ascending(ds, n) && |ds| == |DroppedIn(now, rs, n)|
    ensures forall k :: 0 <= k < |ds| ==> DroppedIn(now, rs, n)[k] == rs[ds[k]]
    ensures forall i: nat | i < n :: i in ds <==> !Stays(now, rs[i])
  {
    hide Ascending;
    ds := [];
    if n == 0 {
      EmptyAscends();
    } else {
      ds := DroppedPositions(now, rs, n - 1);
      AscendingNext(ds, n - 1);
      StaysUnlessRemovable(now, rs[n - 1]);
      hide Stays, IsHistoryRemovable;
      if IsHistoryRemovable(now, rs[n - 1]) {
        ds := ds + [n - 1];
      }
    }
  }

  lemma {:induction false} SurvivorPositions(offset: int, rs: seq<Record>, k: nat, n: nat) returns (ss: seq<nat>)
    requires n <= |rs|
    ensures Ascending(ss, n) && |ss| == |Survivors(offset, rs, k, n)|
    ensures forall j :: 0 <= j < |ss| ==> Survivors(offset, rs, k, n)[j] == rs[ss[j]]
    ensures forall i: nat | i < n :: i in ss <==> Rank(offset, rs, i, |rs|) >= k
  {
    hide Ascending, Rank;
    ss := [];
    if n == 0 {
      EmptyAscends();
    } else {
      ss := SurvivorPositions(offset, rs, k, n - 1);
      AscendingNext(ss, n - 1);
      if Rank(offset, rs, n - 1, |rs|) >= k {
        ss := ss + [n - 1];
      }
    }
  }

  lemma {:induction false} GoneFromTheFront(offset: int, rs: seq<Record>, k: nat)
    requires 0 < k <= |rs|
    ensures var m := First(offset, rs); Gone(offset, rs, k) == [rs[m]] + Gone(offset, Without(rs, m), k - 1)
  {
    hide Without, First;
    if k == 1 {
      assert Gone(offset, rs, 0) == [] && Left(offset, rs, 0) == rs;
    } else {
      GoneFromTheFront(offset, rs, k - 1);
      LeftFromTheFront(offset, rs, k - 1);
    }
  }

  /** The evicted mails have the ranks 0, 1, 2, ... in this order. */
  lemma {:induction false} GonePositions(offset: int, rs: seq<Record>, k: nat) returns (gs: seq<nat>)
    requires k <= |rs|
    ensures |gs| == k
    ensures forall j :: 0 <= j < k ==>
              gs[j] < |rs| && Gone(offset, rs, k)[j] == rs[gs[j]] && Rank(offset, rs, gs[j], |rs|) == j
    decreases k
  {
    hide Without, First, Rank, Gone;
    gs := [];
    if k > 0 {
      var m := First(offset, rs);
      var left := Without(rs, m);
      var later := GonePositions(offset, left, k - 1);
      GoneFromTheFront(offset, rs, k);
      FirstHasRankZero(offset, rs, |rs|);
      gs := [m] + seq(k - 1, j requires 0 <= j < k - 1 => Unshifted(m, later[j]));
      forall j | 0 < j < k
        ensures gs[j] < |rs| && Gone(offset, rs, k)[j] == rs[gs[j]] && Rank(offset, rs, gs[j], |rs|) == j
      {
        var i := later[j - 1];
        assert gs[j] == Unshifted(m, i);
        UnshiftedRank(offset, rs, i);
      }
    }
  }

  /** Position before mail m went. */
  function Unshifted(m: nat, i: nat): nat { if i < m then i else i + 1 }

  lemma UnshiftedRank(offset: int, rs: seq<Record>, i: nat)
    requires rs != [] && i < |rs| - 1
    ensures var m := First(offset, rs); var u := Unshifted(m, i);
            && u < |rs| && Without(rs, m)[i] == rs[u]
            && Rank(offset, rs, u, |rs|) == Rank(offset, Without(rs, m), i, |rs| - 1) + 1
  {
    hide Without, Rank;
    var m := First(offset, rs);
    var u := Unshifted(m, i);
    assert Shifted(m, u) == i && Shifted(m, |rs|) == |rs| - 1;
    WithoutAt(rs, m, u);
    RankShift(offset, rs, u, |rs|);
  }

  // ------------------------------------------------------------------ compaction

  /** The positions at the positions. */
  function At(ks: seq<nat>, ss: seq<nat>): (r: seq<nat>)
    requires forall j :: 0 <= j < |ss| ==> ss[j] < |ks|
    ensures |r| == |ss| && forall j :: 0 <= j < |ss| ==> r[j] == ks[ss[j]]
  {
    seq(|ss|, j requires 0 <= j < |ss| => ks[ss[j]])
  }

  lemma AtAscends(ks: seq<nat>, n: nat, ss: seq<nat>)
    requires Ascending(ks, n) && Ascending(ss, |ks|)
    ensures Ascending(At(ks, ss), n)
  {
    var r := At(ks, ss);
    forall i, j | 0 <= i < j < |r|
      ensures r[i] < r[j]
    {
      assert ss[i] < ss[j];
    }
  }

  lemma InAt(ks: seq<nat>, n: nat, ss: seq<nat>, a: nat)
    requires Ascending(ks, n) && a < |ks| && forall j :: 0 <= j < |ss| ==> ss[j] < |ks|
    ensures ks[a] in At(ks, ss) <==> a in ss
  {
    if a in ss {
      var j: nat :| j < |ss| && ss[j] == a;
      assert At(ks, ss)[j] == ks[a];
    }
  }

  /** The positions behind one compaction: `ks` of the mails that may stay, `ss` and `gs`
      of the survivors and the evicted among these, `ds` of the others. */
  ghost predicate Sorted(now: int, offset: int, rs: seq<Record>, k: nat, ks: seq<nat>, ss: seq<nat>, gs: seq<nat>,
                         ds: seq<nat>) {
    var mails := Kept(now, rs);
    && k <= |mails|
    && Ascending(ks, |rs|) && |ks| == |mails|
    && (forall a :: 0 <= a < |ks| ==> mails[a] == rs[ks[a]])
    && (forall i: nat | i < |rs| :: i in ks <==> Stays(now, rs[i]))
    && Ascending(ss, |ks|) && |ss| == |ks| - k
    && (forall a: nat | a < |ks| :: a in ss <==> Rank(offset, mails, a, |mails|) >= k)
    && |gs| == k && (forall j :: 0 <= j < k ==> gs[j] < |mails| && Rank(offset, mails, gs[j], |mails|) == j)
    && Ascending(ds, |rs|) && |ds| + |ks| == |rs|
    && (forall i: nat | i < |rs| :: i in ds <==> !Stays(now, rs[i]))
  }

  /** Who is forced out is older than who stays. */
  lemma ForcedOutAreOlder(now: int, offset: int, rs: seq<Record>, k: nat, ks: seq<nat>, ss: seq<nat>, gs: seq<nat>,
                          ds: seq<nat>, i: nat, j: nat)
    requires Sorted(now, offset, rs, k, ks, ss, gs, ds) && offset >= 0
    requires i < |rs| && j in At(ks, ss) && i !in At(ks, ss) && Stays(now, rs[i])
    ensures j < |rs| && Older(offset, rs, i, j)
  {
    hide Stays, Rank, CompactTime, Older;
    var mails := Kept(now, rs);
    var a: nat :| a < |ks| && ks[a] == i;
    var c: nat :| c < |ss| && At(ks, ss)[c] == j;
    var b := ss[c];
    InAt(ks, |rs|, ss, a);
    assert b in ss;
    RankDecides(offset, mails, a, b);
    BeforeIsOlder(offset, rs, i, j);
  }

  /** The evicted mails are staying ones that do not stay. */
  lemma EvictedAreOthers(now: int, offset: int, rs: seq<Record>, k: nat, ks: seq<nat>, ss: seq<nat>, gs: seq<nat>,
                         ds: seq<nat>)
    requires Sorted(now, offset, rs, k, ks, ss, gs, ds)
    ensures var gone := At(ks, gs);
            && (forall j :: 0 <= j < k ==> gone[j] < |rs| && gone[j] in ks && gone[j] !in At(ks, ss))
            && (forall i, j :: 0 <= i < j < k ==> gone[i] != gone[j])
  {
    hide Stays, Rank;
    forall j | 0 <= j < k
      ensures ks[gs[j]] !in At(ks, ss)
    {
      InAt(ks, |rs|, ss, gs[j]);
    }
    forall i, j | 0 <= i < j < k
      ensures ks[gs[i]] != ks[gs[j]]
    {
      assert gs[i] < gs[j] || gs[j] < gs[i];
    }
  }

  lemma GoneAreTheOthers(now: int, offset: int, rs: seq<Record>, k: nat, ks: seq<nat>, ss: seq<nat>, gs: seq<nat>,
                         ds: seq<nat>)
    requires Sorted(now, offset, rs, k, ks, ss, gs, ds)
    ensures var kept, gone := At(ks, ss), ds + At(ks, gs);
            && |gone| + |kept| == |rs|
            && (forall j :: 0 <= j < |gone| ==> gone[j] < |rs| && gone[j] !in kept)
            && (forall i, j :: 0 <= i < j < |gone| ==> gone[i] != gone[j])
  {
    EvictedAreOthers(now, offset, rs, k, ks, ss, gs, ds);
    hide Stays, Rank;
    var kept, evicted := At(ks, ss), At(ks, gs);
    forall j | 0 <= j < |ds|
      ensures ds[j] !in kept && ds[j] !in evicted
    {
      assert ds[j] in ds && ds[j] !in ks;
    }
  }

  lemma PendingIsMarked(now: int, rs: seq<Record>, pending0: seq<Record>, lost: seq<Record>, gone: seq<nat>)
    requires |gone| == |lost| && forall j :: 0 <= j < |gone| ==> gone[j] < |rs| && lost[j] == rs[gone[j]]
    ensures var pending := pending0 + MarkedAll(now, lost);
            && |pending| == |pending0| + |gone| && pending[..|pending0|] == pending0
            && forall j :: 0 <= j < |gone| ==> MarkedAs(now, rs[gone[j]], pending[|pending0| + j])
  {
    hide Marked;
    forall j | 0 <= j < |gone|
      ensures MarkedAs(now, rs[gone[j]], MarkedAll(now, lost)[j])
    {
      MarkedIsMarkedAs(now, lost[j]);
    }
  }

  lemma MarkedIsMarkedAs(now: int, r: Record)
    ensures MarkedAs(now, r, Marked(now, r))
  {
  }

  lemma FindPositions(now: int, offset: int, rs: seq<Record>, k: nat)
      returns (ks: seq<nat>, ss: seq<nat>, gs: seq<nat>, ds: seq<nat>)
    requires k <= |Kept(now, rs)|
    ensures Sorted(now, offset, rs, k, ks, ss, gs, ds)
    ensures (forall j :: 0 <= j < |ss| ==> ss[j] < |ks|) && forall j :: 0 <= j < |gs| ==> gs[j] < |ks|
    ensures forall j :: 0 <= j < |ss| ==> Left(offset, Kept(now, rs), k)[j] == rs[ks[ss[j]]]
    ensures forall j :: 0 <= j < k ==> Gone(offset, Kept(now, rs), k)[j] == rs[ks[gs[j]]]
    ensures |ds| == |Dropped(now, rs)| && forall j :: 0 <= j < |ds| ==> Dropped(now, rs)[j] == rs[ds[j]]
  {
    hide Stays, Rank, Ascending, Gone, Left, Survivors, KeptIn, DroppedIn;
    var mails := Kept(now, rs);
    ks := KeptPositions(now, rs, |rs|);
    ss := SurvivorPositions(offset, mails, k, |mails|);
    gs := GonePositions(offset, mails, k);
    ds := DroppedPositions(now, rs, |rs|);
    EvictionKeepsTheLatest(offset, mails, k);
    KeptLength(now, rs);
    assert forall j :: 0 <= j < |ss| ==> ss[j] < |ks| by { assert Ascending(ss, |ks|); AscendingBelow(ss, |ks|); }
  }

  lemma AscendingBelow(ps: seq<nat>, n: nat)
    requires Ascending(ps, n)
    ensures forall j :: 0 <= j < |ps| ==> ps[j] < n
  {
  }

  lemma KeptAreCompacted(now: int, cap: int, offset: int, rs: seq<Record>, k: nat, ks: seq<nat>, ss: seq<nat>,
                         gs: seq<nat>, ds: seq<nat>)
    requires Sorted(now, offset, rs, k, ks, ss, gs, ds) && offset >= 0 && cap >= 0 && k == Over(now, cap, rs)
    ensures var kept := At(ks, ss);
      && Ascending(kept, |rs|) && |kept| <= cap
      && (forall j :: 0 <= j < |kept| ==> Stays(now, rs[kept[j]]))
      && (|kept| < cap ==> forall i: nat :: i < |rs| && Stays(now, rs[i]) ==> i in kept)
      && (forall i: nat, j: nat :: i < |rs| && j in kept && i !in kept && Stays(now, rs[i]) ==> Older(offset, rs, i, j))
  {
    hide Stays, Rank, Older;
    var kept := At(ks, ss);
    AtAscends(ks, |rs|, ss);
    forall j | 0 <= j < |kept|
      ensures Stays(now, rs[kept[j]])
    {
      assert kept[j] in ks;
    }
    if |kept| < cap {
      assert k == 0;
      forall i: nat | i < |rs| && Stays(now, rs[i])
        ensures i in kept
      {
        var a: nat :| a < |ks| && ks[a] == i;
        InAt(ks, |rs|, ss, a);
      }
    }
    forall i: nat, j: nat | i < |rs| && j in kept && i !in kept && Stays(now, rs[i])
      ensures Older(offset, rs, i, j)
    {
      ForcedOutAreOlder(now, offset, rs, k, ks, ss, gs, ds, i, j);
    }
  }

  lemma LostAt(now: int, offset: int, rs: seq<Record>, k: nat, ks: seq<nat>, gs: seq<nat>, ds: seq<nat>)
    requires k == |gs| <= |Kept(now, rs)| && forall j :: 0 <= j < k ==> gs[j] < |ks| && ks[gs[j]] < |rs|
    requires forall j :: 0 <= j < |ds| ==> ds[j] < |rs|
    requires forall j :: 0 <= j < k ==> Gone(offset, Kept(now, rs), k)[j] == rs[ks[gs[j]]]
    requires |ds| == |Dropped(now, rs)| && forall j :: 0 <= j < |ds| ==> Dropped(now, rs)[j] == rs[ds[j]]
    ensures var lost, gone := Dropped(now, rs) + Gone(offset, Kept(now, rs), k), ds + At(ks, gs);
            |gone| == |lost| && forall j :: 0 <= j < |gone| ==> gone[j] < |rs| && lost[j] == rs[gone[j]]
  {
    hide Gone, Kept, Dropped;
  }

  lemma PendingIs(now: int, offset: int, rs: seq<Record>, k: nat, before: seq<Record>, pending: seq<Record>)
    requires k <= |Kept(now, rs)| && Progress(now, offset, rs, before, k, Left(offset, Kept(now, rs), k), pending)
    ensures pending == before + MarkedAll(now, Dropped(now, rs) + Gone(offset, Kept(now, rs), k))
  {
    hide Gone, Kept, Dropped, Left, Marked;
    assert MarkedAll(now, Dropped(now, rs) + Gone(offset, Kept(now, rs), k))
        == MarkedAll(now, Dropped(now, rs)) + MarkedAll(now, Gone(offset, Kept(now, rs), k));
  }

  lemma CompactionRemains(now: int, cap: nat, offset: int, rs: seq<Record>, k: nat, ks: seq<nat>, ss: seq<nat>,
                          gs: seq<nat>, ds: seq<nat>)
    requires Sorted(now, offset, rs, k, ks, ss, gs, ds) && offset >= 0 && k == Over(now, cap, rs)
    requires forall j :: 0 <= j < |ss| ==> Left(offset, Kept(now, rs), k)[j] == rs[ks[ss[j]]]
    ensures Remains(now, cap, offset, rs, Left(offset, Kept(now, rs), k), At(ks, ss))
  {
    KeptAreCompacted(now, cap, offset, rs, k, ks, ss, gs, ds);
    hide Stays, Rank, Older, Over, Left, KeptIn, Ascending;
  }

  lemma CompactionPending(now: int, offset: int, rs: seq<Record>, before: seq<Record>, pending: seq<Record>, k: nat,
                          ks: seq<nat>, ss: seq<nat>, gs: seq<nat>, ds: seq<nat>)
    requires Sorted(now, offset, rs, k, ks, ss, gs, ds)
    requires forall j :: 0 <= j < k ==> Gone(offset, Kept(now, rs), k)[j] == rs[ks[gs[j]]]
    requires |ds| == |Dropped(now, rs)| && forall j :: 0 <= j < |ds| ==> Dropped(now, rs)[j] == rs[ds[j]]
    requires Progress(now, offset, rs, before, k, Left(offset, Kept(now, rs), k), pending)
    ensures Pending(now, rs, before, pending, At(ks, ss), ds + At(ks, gs))
  {
    GoneAreTheOthers(now, offset, rs, k, ks, ss, gs, ds);
    PendingIs(now, offset, rs, k, before, pending);
    AscendingBelow(ds, |rs|);
    AscendingBelow(ks, |rs|);
    LostAt(now, offset, rs, k, ks, gs, ds);
    var lost := Dropped(now, rs) + Gone(offset, Kept(now, rs), k);
    hide Stays, Rank, Gone, Left, Kept, Dropped, MarkedAs, Sorted, MarkedAll, Progress;
    PendingIsMarked(now, rs, before, lost, ds + At(ks, gs));
  }

  /** Compaction of an overfull list, with the configured offset if that is positive and
      30 days otherwise, said by positions. */
  lemma CompactionMeetsItsSpecification(
      now: int, cfg: Config, rs: seq<Record>, before: seq<Record>, records: seq<Record>, pending: seq<Record>)
      returns (kept: seq<nat>, gone: seq<nat>)
    requires cfg.maxCount > 0 && |rs| > Cap(now, cfg, rs)
    requires Progress(now, Offset(cfg), rs, before, Over(now, Cap(now, cfg, rs), rs), records, pending)
    ensures var offset := if cfg.maxOffset.Some? && cfg.maxOffset.value > 0 then cfg.maxOffset.value else 2592000;
            Remains(now, Cap(now, cfg, rs), offset, rs, records, kept)
    ensures Pending(now, rs, before, pending, kept, gone)
  {
    var cap: nat := Cap(now, cfg, rs);
    var offset, k := Offset(cfg), Over(now, cap, rs);
    hide Remains, Pending, Sorted, Left, Gone, Kept, Dropped, MarkedAll, Cap;
    var ks, ss, gs, ds := FindPositions(now, offset, rs, k);
    kept, gone := At(ks, ss), ds + At(ks, gs);
    CompactionRemains(now, cap, offset, rs, k, ks, ss, gs, ds);
    CompactionPending(now, offset, rs, before, pending, k, ks, ss, gs, ds);
  }
}
