/** Compaction of the global mail list (global_mail.go, mail_utils.go). */
module Mail {
  import opened Options

  /** `status` is the set of the bits that are set in the status word. */
  datatype Record = Record(
    mailId: int, status: set<nat>, startTime: int, deliveryTime: int, expiredTime: int, removeTime: int)

  const LEAK_CHECK_TIMEOUT := 7 * 24 * 3600
  const DEFAULT_MAX_OFFSET := 30 * 24 * 3600

  // ------------------------------------------------------------------ predicates on one mail

  predicate IsExpired(now: int, expiredTime: int) { expiredTime > 0 && now >= expiredTime }

  /** EN_MAIL_STATUS_REMOVED == 4. */
  const REMOVED_BIT: nat := 2

  predicate IsRemoved(r: Record) { REMOVED_BIT in r.status }

  predicate IsExpiredOrRemoved(now: int, r: Record) { IsRemoved(r) || IsExpired(now, r.expiredTime) }

  predicate IsHistoryRemovable(now: int, r: Record) {
    (r.removeTime > 0 && now >= r.removeTime) || IsExpiredOrRemoved(now, r)
  }

  /** The record that goes to the pending-remove list. */
  function Marked(now: int, r: Record): (m: Record)
    ensures IsRemoved(m) && m.mailId == r.mailId
    ensures forall bit :: bit != REMOVED_BIT ==> (bit in m.status <==> bit in r.status)
    ensures m.expiredTime <= r.expiredTime && m.removeTime <= r.removeTime
    ensures m.expiredTime <= now + LEAK_CHECK_TIMEOUT && m.removeTime <= now + LEAK_CHECK_TIMEOUT
    ensures m.expiredTime in {r.expiredTime, now + LEAK_CHECK_TIMEOUT}
    ensures m.removeTime in {r.removeTime, now + LEAK_CHECK_TIMEOUT}
    ensures m.startTime == r.startTime && m.deliveryTime == r.deliveryTime
  {
    var cap := now + LEAK_CHECK_TIMEOUT;
    r.(status := r.status + {REMOVED_BIT},
       expiredTime := if r.expiredTime > cap then cap else r.expiredTime,
       removeTime := if r.removeTime > cap then cap else r.removeTime)
  }

  function CompactTime(offset: int, r: Record): int {
    if r.deliveryTime > r.startTime then r.deliveryTime
    else if r.startTime > r.deliveryTime + offset then r.deliveryTime + offset
    else r.startTime
  }

  // ------------------------------------------------------------------ lists

  /** The mails among the first n that stay, and those that a scan removes. */
  function KeptIn(now: int, rs: seq<Record>, n: nat): seq<Record>
    requires n <= |rs|
  {
    if n == 0 then []
    else if IsHistoryRemovable(now, rs[n - 1]) then KeptIn(now, rs, n - 1)
    else KeptIn(now, rs, n - 1) + [rs[n - 1]]
  }

  function DroppedIn(now: int, rs: seq<Record>, n: nat): seq<Record>
    requires n <= |rs|
  {
    if n == 0 then []
    else if IsHistoryRemovable(now, rs[n - 1]) then DroppedIn(now, rs, n - 1) + [rs[n - 1]]
    else DroppedIn(now, rs, n - 1)
  }

  function Kept(now: int, rs: seq<Record>): seq<Record> { KeptIn(now, rs, |rs|) }

  function Dropped(now: int, rs: seq<Record>): seq<Record> { DroppedIn(now, rs, |rs|) }

  function MarkedAll(now: int, rs: seq<Record>): (ms: seq<Record>)
    ensures |ms| == |rs|
    ensures forall i :: 0 <= i < |rs| ==> ms[i] == Marked(now, rs[i])
  {
    seq(|rs|, i requires 0 <= i < |rs| => Marked(now, rs[i]))
  }

  lemma MarkedAppend(now: int, rs: seq<Record>, r: Record)
    ensures MarkedAll(now, rs + [r]) == MarkedAll(now, rs) + [Marked(now, r)]
  {
  }

  /** (compact time, position) order. */
  predicate Before(offset: int, rs: seq<Record>, i: nat, j: nat)
    requires i < |rs| && j < |rs|
  {
    var ti, tj := CompactTime(offset, rs[i]), CompactTime(offset, rs[j]);
    ti < tj || (ti == tj && i < j)
  }

  /** The mail that comes first in that order. */
  function First(offset: int, rs: seq<Record>): (m: nat)
    requires rs != []
    ensures m < |rs|
    ensures forall i :: 0 <= i < |rs| ==> CompactTime(offset, rs[m]) <= CompactTime(offset, rs[i])
    ensures forall i :: 0 <= i < m ==> CompactTime(offset, rs[m]) < CompactTime(offset, rs[i])
  {
    if |rs| == 1 then 0
    else
      var front := rs[..|rs| - 1];
      var m := First(offset, front);
      assert forall i :: 0 <= i < |front| ==> rs[i] == front[i];
      if CompactTime(offset, rs[|rs| - 1]) < CompactTime(offset, rs[m]) then |rs| - 1 else m
  }

  function Without(rs: seq<Record>, m: nat): (r: seq<Record>)
    requires m < |rs|
    ensures |r| == |rs| - 1
    decreases m
  {
    if m == 0 then rs[1..] else [rs[0]] + Without(rs[1..], m - 1)
  }

  lemma SpliceCons(r: Record, rest: seq<Record>, m: nat)
    requires m < |rest|
    ensures [r] + (rest[..m] + rest[m + 1..]) == ([r] + rest)[..m + 1] + ([r] + rest)[m + 2..]
  {
  }

  lemma {:induction false} WithoutIsSplice(rs: seq<Record>, m: nat)
    requires m < |rs|
    ensures Without(rs, m) == rs[..m] + rs[m + 1..]
    decreases m
  {
    if m == 0 {
      assert rs[..0] + rs[1..] == rs[1..];
    } else {
      WithoutIsSplice(rs[1..], m - 1);
      SpliceCons(rs[0], rs[1..], m - 1);
      assert rs == [rs[0]] + rs[1..];
    }
  }

  lemma {:induction false} WithoutMultiset(rs: seq<Record>, m: nat)
    requires m < |rs|
    ensures multiset(Without(rs, m)) + multiset{rs[m]} == multiset(rs)
    decreases m
  {
    var rest := rs[1..];
    assert rs == [rs[0]] + rest;
    if m == 0 {
    } else {
      WithoutMultiset(rest, m - 1);
      assert multiset(rs) == multiset{rs[0]} + multiset(rest);
    }
  }

  /** What is left after k evictions. */
  function Left(offset: int, rs: seq<Record>, k: nat): (r: seq<Record>)
    requires k <= |rs|
    ensures |r| == |rs| - k
  {
    if k == 0 then rs
    else var left := Left(offset, rs, k - 1); Without(left, First(offset, left))
  }

  /** The evicted mails, in order of eviction. */
  function Gone(offset: int, rs: seq<Record>, k: nat): (r: seq<Record>)
    requires k <= |rs|
    ensures |r| == k
  {
    if k == 0 then []
    else var left := Left(offset, rs, k - 1); Gone(offset, rs, k - 1) + [left[First(offset, left)]]
  }

  // ------------------------------------------------------------------ the capacity

  datatype Config = Config(maxCount: int, futureReserve: int, maxOffset: Option<int>)

  function FutureCount(now: int, rs: seq<Record>, n: nat): nat
    requires n <= |rs|
  {
    if n == 0 then 0 else FutureCount(now, rs, n - 1) + if rs[n - 1].startTime > now then 1 else 0
  }

  function Cap(now: int, cfg: Config, rs: seq<Record>): int {
    var future := FutureCount(now, rs, |rs|);
    var reserve := if cfg.futureReserve > future then future else cfg.futureReserve;
    cfg.maxCount + if reserve < 0 then 0 else reserve
  }

  function Offset(cfg: Config): int {
    if cfg.maxOffset.Some? && cfg.maxOffset.value > 0 then cfg.maxOffset.value else DEFAULT_MAX_OFFSET
  }

  /** How many mails have to go after the removable ones went. */
  function Over(now: int, cap: nat, rs: seq<Record>): nat {
    if |Kept(now, rs)| > cap then |Kept(now, rs)| - cap else 0
  }

  // ------------------------------------------------------------------ the code

  ghost predicate IsSelected(offset: int, rs: seq<Record>, selected: int, time: int) {
    if rs == [] then selected == -1
    else selected == First(offset, rs) && time == CompactTime(offset, rs[selected])
  }

  /** Where the scan stands after p mails. */
  ghost predicate Scanned(now: int, offset: int, rs: seq<Record>, pending0: seq<Record>, p: nat,
                          records: seq<Record>, pending: seq<Record>, selected: int, time: int)
  {
    && p <= |rs|
    && records == KeptIn(now, rs, p) + rs[p..]
    && pending == pending0 + MarkedAll(now, DroppedIn(now, rs, p))
    && IsSelected(offset, KeptIn(now, rs, p), selected, time)
  }

  lemma ScanStarts(now: int, offset: int, rs: seq<Record>, pending0: seq<Record>)
    ensures Scanned(now, offset, rs, pending0, 0, rs, pending0, -1, -1)
  {
  }

  lemma ScanHead(now: int, offset: int, rs: seq<Record>, pending0: seq<Record>, p: nat,
                 records: seq<Record>, pending: seq<Record>, selected: int, time: int)
    requires Scanned(now, offset, rs, pending0, p, records, pending, selected, time) && p < |rs|
    ensures |records| == |KeptIn(now, rs, p)| + (|rs| - p) && records[|KeptIn(now, rs, p)|] == rs[p]
    ensures KeptIn(now, rs, p + 1)
         == if IsHistoryRemovable(now, rs[p]) then KeptIn(now, rs, p) else KeptIn(now, rs, p) + [rs[p]]
  {
  }

  lemma ScanEnds(now: int, offset: int, rs: seq<Record>, pending0: seq<Record>,
                 records: seq<Record>, pending: seq<Record>, selected: int, time: int)
    requires Scanned(now, offset, rs, pending0, |rs|, records, pending, selected, time)
    ensures records == Kept(now, rs) && pending == pending0 + MarkedAll(now, Dropped(now, rs))
    ensures records == [] ==> selected == -1
    ensures records != [] ==> selected == First(offset, records)
  {
  }

  lemma ScanDrop(now: int, offset: int, rs: seq<Record>, pending0: seq<Record>, p: nat,
                 records: seq<Record>, pending: seq<Record>, selected: int, time: int)
    requires Scanned(now, offset, rs, pending0, p, records, pending, selected, time)
    requires p < |rs| && IsHistoryRemovable(now, rs[p])
    ensures Scanned(now, offset, rs, pending0, p + 1, Without(records, |KeptIn(now, rs, p)|),
                    pending + [Marked(now, rs[p])], selected, time)
  {
    MarkedAppend(now, DroppedIn(now, rs, p), rs[p]);
    DropNext(KeptIn(now, rs, p), rs, p);
  }

  lemma ScanKeep(now: int, offset: int, rs: seq<Record>, pending0: seq<Record>, p: nat,
                 records: seq<Record>, pending: seq<Record>, selected: int, time: int)
    requires Scanned(now, offset, rs, pending0, p, records, pending, selected, time)
    requires p < |rs| && !IsHistoryRemovable(now, rs[p])
    ensures var t := CompactTime(offset, rs[p]);
      var better := selected == -1 || t < time;
      Scanned(now, offset, rs, pending0, p + 1, records, pending,
              if better then |KeptIn(now, rs, p)| else selected, if better then t else time)
  {
    SelectStep(offset, KeptIn(now, rs, p), rs[p], selected, time);
    KeepNext(KeptIn(now, rs, p), rs, p);
  }

  lemma DropNext(left: seq<Record>, rs: seq<Record>, p: nat)
    requires p < |rs|
    ensures Without(left + rs[p..], |left|) == left + rs[p + 1..]
  {
    hide Without;
    var all := left + rs[p..];
    WithoutIsSplice(all, |left|);
    assert all[..|left|] == left && all[|left| + 1..] == rs[p + 1..];
  }

  lemma KeepNext(left: seq<Record>, rs: seq<Record>, p: nat)
    requires p < |rs|
    ensures left + rs[p..] == (left + [rs[p]]) + rs[p + 1..]
  {
  }

  lemma SelectStep(offset: int, left: seq<Record>, r: Record, selected: int, time: int)
    requires IsSelected(offset, left, selected, time)
    ensures var t := CompactTime(offset, r);
      var better := selected == -1 || t < time;
      IsSelected(offset, left + [r], if better then |left| else selected, if better then t else time)
  {
  }

  /** Where the eviction loop stands after `done` evictions. */
  ghost predicate Progress(now: int, offset: int, rs: seq<Record>, pending0: seq<Record>, done: nat,
                           records: seq<Record>, pending: seq<Record>)
  {
    && done <= |Kept(now, rs)|
    && records == Left(offset, Kept(now, rs), done)
    && pending == pending0 + MarkedAll(now, Dropped(now, rs)) + MarkedAll(now, Gone(offset, Kept(now, rs), done))
  }

  lemma ProgressStep(now: int, offset: int, rs: seq<Record>, pending0: seq<Record>, done: nat,
                     records: seq<Record>, pending: seq<Record>)
    requires Progress(now, offset, rs, pending0, done, records, pending) && records != []
    ensures var m := First(offset, records);
      Progress(now, offset, rs, pending0, done + 1, Without(records, m), pending + [Marked(now, records[m])])
  {
  }

  lemma ProgressStart(now: int, offset: int, rs: seq<Record>, pending0: seq<Record>)
    ensures Progress(now, offset, rs, pending0, 0, Kept(now, rs), pending0 + MarkedAll(now, Dropped(now, rs)))
  {
  }

  lemma ProgressRescan(now: int, offset: int, rs: seq<Record>, pending0: seq<Record>, done: nat,
                       records: seq<Record>, pending: seq<Record>)
    requires Progress(now, offset, rs, pending0, done, records, pending)
    ensures Kept(now, records) == records && pending + MarkedAll(now, Dropped(now, records)) == pending
  {
    EvictedStaysKept(now, offset, rs, done);
  }

  class MailBox {
    var records: seq<Record>
    var pendingRemove: seq<Record>

    /** Moves one mail to the pending-remove list. */
    method Drop(now: int, i: nat)
      requires i < |records|
      modifies this
      ensures records == Without(old(records), i)
      ensures pendingRemove == old(pendingRemove) + [Marked(now, old(records)[i])]
    {
      var dirty := records[i];
      dirty := dirty.(status := dirty.status + {REMOVED_BIT});
      var removeTime := now + LEAK_CHECK_TIMEOUT;
      if dirty.expiredTime > removeTime { dirty := dirty.(expiredTime := removeTime); }
      if dirty.removeTime > removeTime { dirty := dirty.(removeTime := removeTime); }
      pendingRemove := pendingRemove + [dirty];
      WithoutIsSplice(records, i);
      records := records[..i] + records[i + 1..];
    }

    static method ClampedTime(record: Record, offset: int) returns (compactTime: int)
      ensures compactTime == CompactTime(offset, record)
    {
      compactTime := record.startTime;
      if record.deliveryTime > compactTime {
        compactTime := record.deliveryTime;
      } else if compactTime > record.deliveryTime + offset {
        compactTime := record.deliveryTime + offset;
      }
    }

    /** One scan: drops every removable mail in place and finds the next victim. */
    method Scan(now: int, offset: int) returns (selected: int)
      modifies this
      ensures records == Kept(now, old(records))
      ensures pendingRemove == old(pendingRemove) + MarkedAll(now, Dropped(now, old(records)))
      ensures records == [] ==> selected == -1
      ensures records != [] ==> selected == First(offset, records)
    {
      hide *;
      selected := -1;
      var selectedTime := -1;
      ghost var rs, pending0, p := records, pendingRemove, 0;
      var i := 0;
      ScanStarts(now, offset, rs, pending0);
      while i < |records|
        invariant p <= |rs| && i == |KeptIn(now, rs, p)| && |records| == i + (|rs| - p)
        invariant Scanned(now, offset, rs, pending0, p, records, pendingRemove, selected, selectedTime)
        decreases |rs| - p
      {
        var record := records[i];
        ScanHead(now, offset, rs, pending0, p, records, pendingRemove, selected, selectedTime);
        if IsHistoryRemovable(now, record) {
          ScanDrop(now, offset, rs, pending0, p, records, pendingRemove, selected, selectedTime);
          Drop(now, i);
          p := p + 1;
          continue;
        }
        ScanKeep(now, offset, rs, pending0, p, records, pendingRemove, selected, selectedTime);
        var compactTime := ClampedTime(record, offset);
        if selected == -1 || compactTime < selectedTime {
          selected, selectedTime := i, compactTime;
        }
        i := i + 1;
        p := p + 1;
      }
      ScanEnds(now, offset, rs, pending0, records, pendingRemove, selected, selectedTime);
    }

    /** The capacity, with its reserve for mails that start in the future. */
    method Capacity(now: int, cfg: Config) returns (cap: int)
      ensures cap == Cap(now, cfg, records)
    {
      var future := 0;
      for n := 0 to |records|
        invariant future == FutureCount(now, records, n)
      {
        if records[n].startTime > now { future := future + 1; }
      }
      var reserve := cfg.futureReserve;
      if reserve > future { reserve := future; }
      if reserve < 0 { reserve := 0; }
      cap := cfg.maxCount + reserve;
    }

    /** compactMails' eviction loop. */
    method EvictDownTo(now: int, offset: int, cap: nat) returns (ghost done: nat)
      requires |records| > cap > 0
      modifies this
      ensures Progress(now, offset, old(records), old(pendingRemove), done, records, pendingRemove)
      ensures done == Over(now, cap, old(records))
    {
      ghost var rs, pending0 := records, pendingRemove;
      done := 0;
      KeptLength(now, rs);
      var toRemove := |records| - cap;
      while toRemove > 0
        invariant 0 <= toRemove == |rs| - cap - done
        invariant done == 0 ==> records == rs && pendingRemove == pending0
        invariant done > 0 ==> Progress(now, offset, rs, pending0, done, records, pendingRemove)
                               && |Kept(now, rs)| - done >= cap
      {
        toRemove := toRemove - 1;
        if |records| <= cap { return; }
        if done > 0 { ProgressRescan(now, offset, rs, pending0, done, records, pendingRemove); }
        else { ProgressStart(now, offset, rs, pending0); }
        var selected := Scan(now, offset);
        assert Progress(now, offset, rs, pending0, done, records, pendingRemove);
        if |records| <= cap || selected < 0 { return; }
        ProgressStep(now, offset, rs, pending0, done, records, pendingRemove);
        Drop(now, selected);
        done := done + 1;
      }
    }

    /** compactMails. */
    method Compact(now: int, cfg: Config)
      modifies this
      ensures cfg.maxCount <= 0 || |old(records)| <= Cap(now, cfg, old(records)) ==>
                records == old(records) && pendingRemove == old(pendingRemove)
      ensures cfg.maxCount > 0 && |old(records)| > Cap(now, cfg, old(records)) ==>
                Progress(now, Offset(cfg), old(records), old(pendingRemove),
                         Over(now, Cap(now, cfg, old(records)), old(records)), records, pendingRemove)
    {
      if cfg.maxCount <= 0 { return; }
      var maxCount := Capacity(now, cfg);
      if |records| <= maxCount { return; }
      var offset := DEFAULT_MAX_OFFSET;
      if cfg.maxOffset.Some? { offset := cfg.maxOffset.value; }
      if offset <= 0 { offset := DEFAULT_MAX_OFFSET; }
      ghost var done := EvictDownTo(now, offset, maxCount);
    }
  }

  lemma {:induction false} KeptInLength(now: int, rs: seq<Record>, n: nat)
    requires n <= |rs|
    ensures |KeptIn(now, rs, n)| + |DroppedIn(now, rs, n)| == n
    ensures forall i :: 0 <= i < |KeptIn(now, rs, n)| ==> !IsHistoryRemovable(now, KeptIn(now, rs, n)[i])
  {
    if n == 0 {
    } else {
      KeptInLength(now, rs, n - 1);
    }
  }

  lemma {:induction false} KeptInMails(now: int, rs: seq<Record>, n: nat)
    requires n <= |rs|
    ensures multiset(KeptIn(now, rs, n)) + multiset(DroppedIn(now, rs, n)) == multiset(rs[..n])
  {
    if n == 0 {
    } else {
      KeptInMails(now, rs, n - 1);
      var x, kept, dropped := rs[n - 1], KeptIn(now, rs, n - 1), DroppedIn(now, rs, n - 1);
      assert rs[..n] == rs[..n - 1] + [x];
      AddOne(kept, dropped, x, rs[..n - 1]);
      if IsHistoryRemovable(now, x) {
        assert KeptIn(now, rs, n) == kept && DroppedIn(now, rs, n) == dropped + [x];
      } else {
        assert KeptIn(now, rs, n) == kept + [x] && DroppedIn(now, rs, n) == dropped;
      }
    }
  }

  lemma AddOne(left: seq<Record>, right: seq<Record>, r: Record, all: seq<Record>)
    requires multiset(left) + multiset(right) == multiset(all)
    ensures multiset(left + [r]) + multiset(right) == multiset(all + [r])
    ensures multiset(left) + multiset(right + [r]) == multiset(all + [r])
  {
  }

  lemma KeptLength(now: int, rs: seq<Record>)
    ensures |Kept(now, rs)| + |Dropped(now, rs)| == |rs|
    ensures multiset(Kept(now, rs)) + multiset(Dropped(now, rs)) == multiset(rs)
    ensures forall i :: 0 <= i < |Kept(now, rs)| ==> !IsHistoryRemovable(now, Kept(now, rs)[i])
  {
    KeptInLength(now, rs, |rs|);
    KeptInMails(now, rs, |rs|);
    assert rs[..|rs|] == rs;
  }

  lemma {:induction false} NothingToDrop(now: int, rs: seq<Record>, n: nat)
    requires n <= |rs| && forall i :: 0 <= i < |rs| ==> !IsHistoryRemovable(now, rs[i])
    ensures KeptIn(now, rs, n) == rs[..n] && DroppedIn(now, rs, n) == []
  {
    if n == 0 {
    } else {
      NothingToDrop(now, rs, n - 1);
    }
  }

  lemma {:induction false} EvictSubset(offset: int, rs: seq<Record>, k: nat)
    requires k <= |rs|
    ensures multiset(Left(offset, rs, k)) + multiset(Gone(offset, rs, k)) == multiset(rs)
  {
    hide Without, First;
    if k == 0 {
    } else {
      EvictSubset(offset, rs, k - 1);
      var left, gone := Left(offset, rs, k - 1), Gone(offset, rs, k - 1);
      MoveOne(left, First(offset, left), gone, rs);
      assert Left(offset, rs, k) == Without(left, First(offset, left));
      assert Gone(offset, rs, k) == gone + [left[First(offset, left)]];
    }
  }

  lemma MoveOne(left: seq<Record>, m: nat, gone: seq<Record>, all: seq<Record>)
    requires m < |left| && multiset(left) + multiset(gone) == multiset(all)
    ensures multiset(Without(left, m)) + multiset(gone + [left[m]]) == multiset(all)
  {
    WithoutMultiset(left, m);
  }

  lemma EvictedStaysKept(now: int, offset: int, rs: seq<Record>, k: nat)
    requires k <= |Kept(now, rs)|
    ensures var left := Left(offset, Kept(now, rs), k); Kept(now, left) == left && Dropped(now, left) == []
  {
    KeptLength(now, rs);
    var left := Left(offset, Kept(now, rs), k);
    EvictSubset(offset, Kept(now, rs), k);
    forall i | 0 <= i < |left| ensures !IsHistoryRemovable(now, left[i]) {
      assert left[i] in multiset(left);
      assert left[i] in multiset(Kept(now, rs));
    }
    NothingToDrop(now, left, |left|);
  }

  // ------------------------------------------------------------------ the simple specification

  /** How many of the first n mails come before mail i. */
  function Rank(offset: int, rs: seq<Record>, i: nat, n: nat): nat
    requires i < |rs| && n <= |rs|
  {
    if n == 0 then 0 else Rank(offset, rs, i, n - 1) + if Before(offset, rs, n - 1, i) then 1 else 0
  }

  /** Of the first n mails, in order, those that at least k of all mails come before. */
  function Survivors(offset: int, rs: seq<Record>, k: nat, n: nat): seq<Record>
    requires n <= |rs|
  {
    if n == 0 then []
    else if Rank(offset, rs, n - 1, |rs|) >= k then Survivors(offset, rs, k, n - 1) + [rs[n - 1]]
    else Survivors(offset, rs, k, n - 1)
  }

  /** Position of mail i once mail m is gone. */
  function Shifted(m: nat, i: nat): nat { if i <= m then i else i - 1 }

  lemma WithoutAt(rs: seq<Record>, m: nat, i: nat)
    requires m < |rs| && i < |rs| && i != m
    ensures Shifted(m, i) < |rs| - 1 && Without(rs, m)[Shifted(m, i)] == rs[i]
  {
    WithoutIsSplice(rs, m);
  }

  lemma {:induction false} RankShift(offset: int, rs: seq<Record>, i: nat, n: nat)
    requires i < |rs| && n <= |rs| && i != First(offset, rs)
    ensures var m := First(offset, rs);
      && Shifted(m, i) < |rs| - 1 && Shifted(m, n) <= |rs| - 1
      && Rank(offset, Without(rs, m), Shifted(m, i), Shifted(m, n)) + (if n > m then 1 else 0) == Rank(offset, rs, i, n)
  {
    hide Without;
    var m := First(offset, rs);
    WithoutAt(rs, m, i);
    if n == 0 {
    } else {
      RankShift(offset, rs, i, n - 1);
      if n - 1 != m { WithoutAt(rs, m, n - 1); }
    }
  }

  lemma {:induction false} FirstHasRankZero(offset: int, rs: seq<Record>, n: nat)
    requires rs != [] && n <= |rs|
    ensures Rank(offset, rs, First(offset, rs), n) == 0
  {
    if n == 0 {
    } else {
      FirstHasRankZero(offset, rs, n - 1);
    }
  }

  lemma {:induction false} SurvivorsShift(offset: int, rs: seq<Record>, k: nat, n: nat)
    requires rs != [] && k > 0 && n <= |rs|
    ensures var m := First(offset, rs);
      && Shifted(m, n) <= |rs| - 1
      && Survivors(offset, rs, k, n) == Survivors(offset, Without(rs, m), k - 1, Shifted(m, n))
  {
    hide Without, Rank, First;
    var m := First(offset, rs);
    if n == 0 {
    } else {
      SurvivorsShift(offset, rs, k, n - 1);
      if n - 1 == m {
        FirstHasRankZero(offset, rs, |rs|);
      } else {
        RankShift(offset, rs, n - 1, |rs|);
        WithoutAt(rs, m, n - 1);
      }
    }
  }

  lemma {:induction false} AllSurvive(offset: int, rs: seq<Record>, n: nat)
    requires n <= |rs|
    ensures Survivors(offset, rs, 0, n) == rs[..n]
  {
    if n == 0 {
    } else {
      AllSurvive(offset, rs, n - 1);
    }
  }

  lemma {:induction false} LeftFromTheFront(offset: int, rs: seq<Record>, k: nat)
    requires 0 < k <= |rs|
    ensures Left(offset, rs, k) == Left(offset, Without(rs, First(offset, rs)), k - 1)
  {
    if k == 1 {
    } else {
      LeftFromTheFront(offset, rs, k - 1);
    }
  }

  /** Evicting k times one by one leaves exactly the mails that at least k others
      come before in (clamped compact time, position) order, in their old order. */
  lemma {:induction false} EvictionKeepsTheLatest(offset: int, rs: seq<Record>, k: nat)
    requires k <= |rs|
    ensures Left(offset, rs, k) == Survivors(offset, rs, k, |rs|)
    decreases k
  {
    hide Without, Rank, First, Survivors;
    if k == 0 {
      AllSurvive(offset, rs, |rs|);
    } else {
      LeftFromTheFront(offset, rs, k);
      EvictionKeepsTheLatest(offset, Without(rs, First(offset, rs)), k - 1);
      SurvivorsShift(offset, rs, k, |rs|);
    }
  }
}
