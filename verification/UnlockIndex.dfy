/** The unlock index (excel_unlock_config_index.go): for each kind of unlock
    condition the values rows wait for, in order, so that "what unlocks when the
    value moves from here to there" is two binary searches. */
module UnlockIndex {
  import opened Options
  import opened Positions

  /** An unlock condition; a missing one is `Unset`. */
  datatype Cond =
    | Unset
    | UnlockTimepoint(start: int)
    | PlayerLevel(level: int)
    | UnlockByOtherSystem
    | QuestFinish(quest: int)
    | QuestReceived(quest: int)
    | Activate
    | ItemHas(item: int)
    | ModuleUnlocked(moduleId: int)

  datatype CondType =
    NoType | Timepoint | Level | OtherSystem | Finish | Received | Activation | Item | Module

  function TypeOf(c: Cond): CondType {
    match c
    case Unset => NoType
    case UnlockTimepoint(_) => Timepoint
    case PlayerLevel(_) => Level
    case UnlockByOtherSystem => OtherSystem
    case QuestFinish(_) => Finish
    case QuestReceived(_) => Received
    case Activate => Activation
    case ItemHas(_) => Item
    case ModuleUnlocked(_) => Module
  }

  /** The value a condition is indexed under; a kind the switch does not list,
      ModuleUnlocked among them, gives 0. */
  function UnlockValue(c: Cond): int {
    match c
    case UnlockTimepoint(start) => start
    case PlayerLevel(level) => level
    case QuestFinish(quest) => quest
    case QuestReceived(quest) => quest
    case ItemHas(item) => item
    case _ => 0
  }

  datatype Row = Row(id: int, conds: seq<Cond>)

  type FunctionId = int

  /** The rows of one function, and the clock when they are indexed. */
  datatype Source = Source(functionId: FunctionId, rows: seq<Row>, now: int)

  datatype FunctionEntry = FunctionEntry(functionId: FunctionId, units: seq<Row>)

  datatype ValueEntry = ValueEntry(value: int, functions: seq<FunctionEntry>)

  type Index = map<CondType, seq<ValueEntry>>

  function Lookup(idx: Index, t: CondType): seq<ValueEntry> {
    if t in idx then idx[t] else []
  }

  // ------------------------------------------------------------------ the plain scan

  /** One condition of one row. */
  datatype Hit = Hit(value: int, functionId: FunctionId, row: Row)

  /** Conditions that cannot be indexed, and times too far ahead, are skipped. */
  predicate Indexed(c: Cond, limit: int) {
    && !c.Unset? && !c.UnlockByOtherSystem? && !c.Activate?
    && (c.UnlockTimepoint? ==> UnlockValue(c) <= limit)
  }

  function One(a: Hit, b: Hit): nat { if a == b then 1 else 0 }

  /** How often the plain scan meets `h` among the first n conditions of a row. */
  function ScanConds(row: Row, n: nat, f: FunctionId, t: CondType, limit: int, h: Hit): nat
    requires n <= |row.conds|
  {
    if n == 0 then 0
    else
      var rest := ScanConds(row, n - 1, f, t, limit, h);
      var c := row.conds[n - 1];
      if Indexed(c, limit) && TypeOf(c) == t then rest + One(Hit(UnlockValue(c), f, row), h) else rest
  }

  function ScanRows(rows: seq<Row>, f: FunctionId, t: CondType, limit: int, h: Hit): nat {
    if rows == [] then 0
    else
      var row := rows[|rows| - 1];
      ScanRows(rows[..|rows| - 1], f, t, limit, h) + ScanConds(row, |row.conds|, f, t, limit, h)
  }

  /** How often the plain scan of all rows meets `h`. */
  function Scan(sources: seq<Source>, t: CondType, maxCache: int, h: Hit): nat {
    if sources == [] then 0
    else
      var s := sources[|sources| - 1];
      Scan(sources[..|sources| - 1], t, maxCache, h) + ScanRows(s.rows, s.functionId, t, s.now + maxCache, h)
  }

  // ------------------------------------------------------------------ what an index holds

  function CountUnits(value: int, f: FunctionId, units: seq<Row>, h: Hit): nat {
    if units == [] then 0
    else CountUnits(value, f, units[..|units| - 1], h) + One(Hit(value, f, units[|units| - 1]), h)
  }

  function CountFunctions(value: int, fs: seq<FunctionEntry>, h: Hit): nat {
    if fs == [] then 0
    else
      var e := fs[|fs| - 1];
      CountFunctions(value, fs[..|fs| - 1], h) + CountUnits(value, e.functionId, e.units, h)
  }

  /** How often `h` is listed. */
  function Count(es: seq<ValueEntry>, h: Hit): nat {
    if es == [] then 0
    else
      var e := es[|es| - 1];
      Count(es[..|es| - 1], h) + CountFunctions(e.value, e.functions, h)
  }

  /** No value, and within a value no function, has two entries. */
  ghost predicate Distinct(es: seq<ValueEntry>) {
    && (forall i, j :: 0 <= i < j < |es| ==> es[i].value != es[j].value)
    && (forall i :: 0 <= i < |es| ==> DistinctFunctions(es[i].functions))
  }

  ghost predicate DistinctFunctions(fs: seq<FunctionEntry>) {
    forall i, j :: 0 <= i < j < |fs| ==> fs[i].functionId != fs[j].functionId
  }

  ghost predicate Sorted(es: seq<ValueEntry>) {
    forall i, j :: 0 <= i < j < |es| ==> es[i].value <= es[j].value
  }

  // ------------------------------------------------------------------ adding one hit

  lemma {:induction false} CountFunctionsValue(value: int, fs: seq<FunctionEntry>, h: Hit)
    ensures CountFunctions(value, fs, h) > 0 ==> h.value == value
  {
    if fs == [] {
    } else {
      CountFunctionsValue(value, fs[..|fs| - 1], h);
      CountUnitsValue(value, fs[|fs| - 1].functionId, fs[|fs| - 1].units, h);
    }
  }

  lemma {:induction false} CountUnitsValue(value: int, f: FunctionId, units: seq<Row>, h: Hit)
    ensures CountUnits(value, f, units, h) > 0 ==> h.value == value && h.functionId == f
  {
    if units == [] {
    } else {
      CountUnitsValue(value, f, units[..|units| - 1], h);
    }
  }

  lemma {:induction false} CountFunctionsUpdate(value: int, fs: seq<FunctionEntry>, i: nat, e: FunctionEntry, h: Hit)
    requires i < |fs|
    ensures CountFunctions(value, fs[i := e], h) + CountUnits(value, fs[i].functionId, fs[i].units, h)
         == CountFunctions(value, fs, h) + CountUnits(value, e.functionId, e.units, h)
  {
    hide CountUnits;
    var n := |fs| - 1;
    if i == n {
      assert fs[i := e][..n] == fs[..n];
    } else {
      CountFunctionsUpdate(value, fs[..n], i, e, h);
      assert fs[i := e][..n] == fs[..n][i := e];
    }
  }

  lemma {:induction false} CountUpdate(es: seq<ValueEntry>, i: nat, e: ValueEntry, h: Hit)
    requires i < |es|
    ensures Count(es[i := e], h) + CountFunctions(es[i].value, es[i].functions, h)
         == Count(es, h) + CountFunctions(e.value, e.functions, h)
  {
    hide CountFunctions;
    var n := |es| - 1;
    if i == n {
      assert es[i := e][..n] == es[..n];
    } else {
      CountUpdate(es[..n], i, e, h);
      assert es[i := e][..n] == es[..n][i := e];
    }
  }

  lemma CountSnoc(es: seq<ValueEntry>, e: ValueEntry, h: Hit)
    ensures Count(es + [e], h) == Count(es, h) + CountFunctions(e.value, e.functions, h)
  {
  }

  lemma CountFunctionsSnoc(value: int, fs: seq<FunctionEntry>, e: FunctionEntry, h: Hit)
    ensures CountFunctions(value, fs + [e], h)
         == CountFunctions(value, fs, h) + CountUnits(value, e.functionId, e.units, h)
  {
  }

  lemma CountUnitsSnoc(value: int, f: FunctionId, units: seq<Row>, unit: Row, h: Hit)
    ensures CountUnits(value, f, units + [unit], h) == CountUnits(value, f, units, h) + One(Hit(value, f, unit), h)
  {
  }

  /** `b` lists one hit more than `a`. */
  ghost predicate OneMore(a: seq<ValueEntry>, b: seq<ValueEntry>, hit: Hit) {
    forall h :: Count(b, h) == Count(a, h) + One(hit, h)
  }

  /** Find or append the function, append the unit. */
  method AddToFunctions(fs: seq<FunctionEntry>, ghost value: int, f: FunctionId, unit: Row)
      returns (r: seq<FunctionEntry>)
    requires DistinctFunctions(fs)
    ensures DistinctFunctions(r)
    ensures forall h :: CountFunctions(value, r, h) == CountFunctions(value, fs, h) + One(Hit(value, f, unit), h)
  {
    var i := 0;
    while i < |fs| && fs[i].functionId != f
      invariant i <= |fs| && forall k :: 0 <= k < i ==> fs[k].functionId != f
    {
      i := i + 1;
    }
    if i == |fs| {
      r := fs + [FunctionEntry(f, [unit])];
      forall h
        ensures CountFunctions(value, r, h) == CountFunctions(value, fs, h) + One(Hit(value, f, unit), h)
      {
        hide CountFunctions;
        CountFunctionsSnoc(value, fs, FunctionEntry(f, [unit]), h);
        assert CountUnits(value, f, [], h) == 0;
      }
    } else {
      var e := FunctionEntry(f, fs[i].units + [unit]);
      r := fs[i := e];
      forall h
        ensures CountFunctions(value, r, h) == CountFunctions(value, fs, h) + One(Hit(value, f, unit), h)
      {
        hide CountFunctions, CountUnits;
        CountFunctionsUpdate(value, fs, i, e, h);
        CountUnitsSnoc(value, f, fs[i].units, unit, h);
      }
    }
  }

  /** Find or append the value, then the function, and append the unit. */
  method AddUnit(es: seq<ValueEntry>, value: int, f: FunctionId, unit: Row) returns (r: seq<ValueEntry>)
    requires Distinct(es)
    ensures Distinct(r)
    ensures OneMore(es, r, Hit(value, f, unit))
  {
    hide Count, CountFunctions, DistinctFunctions;
    var i := 0;
    while i < |es| && es[i].value != value
      invariant i <= |es| && forall k :: 0 <= k < i ==> es[k].value != value
    {
      i := i + 1;
    }
    r := es;
    NoFunctions(value);
    if i == |es| {
      r := r + [ValueEntry(value, [])];
    }
    ghost var widened := r;
    assert forall h :: Count(widened, h) == Count(es, h) by {
      forall h
        ensures Count(widened, h) == Count(es, h)
      {
        CountSnoc(es, ValueEntry(value, []), h);
      }
    }
    var fs := AddToFunctions(r[i].functions, value, f, unit);
    var e := ValueEntry(value, fs);
    r := r[i := e];
    forall h
      ensures Count(r, h) == Count(es, h) + One(Hit(value, f, unit), h)
    {
      CountUpdate(widened, i, e, h);
    }
  }

  lemma NoFunctions(value: int)
    ensures DistinctFunctions([]) && forall h :: CountFunctions(value, [], h) == 0
  {
  }

  // ------------------------------------------------------------------ building

  ghost function Tally(idx: Index, t: CondType, h: Hit): nat {
    Count(Lookup(idx, t), h)
  }

  ghost predicate AllDistinct(idx: Index) {
    forall t :: Distinct(Lookup(idx, t))
  }

  /** Index b holds what a holds, and the hits of i rows and n conditions of the next. */
  ghost predicate Scanned(a: Index, b: Index, rows: seq<Row>, i: nat, n: nat, f: FunctionId, limit: int) {
    && i <= |rows| && (if i < |rows| then n <= |rows[i].conds| else n == 0)
    && forall t, h ::
         Tally(b, t, h) == Tally(a, t, h) + ScanRows(rows[..i], f, t, limit, h)
                           + if n == 0 then 0 else ScanConds(rows[i], n, f, t, limit, h)
  }

  lemma ScannedSkip(a: Index, b: Index, rows: seq<Row>, i: nat, n: nat, f: FunctionId, limit: int)
    requires Scanned(a, b, rows, i, n, f, limit) && i < |rows| && n < |rows[i].conds|
    requires !Indexed(rows[i].conds[n], limit)
    ensures Scanned(a, b, rows, i, n + 1, f, limit)
  {
  }

  lemma ScannedAdd(a: Index, b: Index, rows: seq<Row>, i: nat, n: nat, f: FunctionId, limit: int, es: seq<ValueEntry>)
    requires Scanned(a, b, rows, i, n, f, limit) && i < |rows| && n < |rows[i].conds|
    requires Indexed(rows[i].conds[n], limit)
    requires OneMore(Lookup(b, TypeOf(rows[i].conds[n])), es, Hit(UnlockValue(rows[i].conds[n]), f, rows[i]))
    ensures Scanned(a, b[TypeOf(rows[i].conds[n]) := es], rows, i, n + 1, f, limit)
  {
  }

  lemma ScannedRow(a: Index, b: Index, rows: seq<Row>, i: nat, f: FunctionId, limit: int)
    requires i < |rows| && Scanned(a, b, rows, i, |rows[i].conds|, f, limit)
    ensures Scanned(a, b, rows, i + 1, 0, f, limit)
  {
    hide Tally, ScanConds;
    assert rows[..i + 1][..i] == rows[..i];
    forall t, h
      ensures Tally(b, t, h) == Tally(a, t, h) + ScanRows(rows[..i + 1], f, t, limit, h)
    {
      assert ScanConds(rows[i], 0, f, t, limit, h) == 0 by { ScanNone(rows[i], f, t, limit, h); }
    }
  }

  lemma ScanNone(row: Row, f: FunctionId, t: CondType, limit: int, h: Hit)
    ensures ScanConds(row, 0, f, t, limit, h) == 0
  {
  }

  /** Index b holds the hits of the first i sources. */
  ghost predicate Holds(b: Index, sources: seq<Source>, maxCache: int) {
    forall t, h :: Tally(b, t, h) == Scan(sources, t, maxCache, h)
  }

  lemma HoldsNext(a: Index, b: Index, sources: seq<Source>, i: nat, maxCache: int)
    requires i < |sources| && Holds(a, sources[..i], maxCache)
    requires var s := sources[i]; Scanned(a, b, s.rows, |s.rows|, 0, s.functionId, s.now + maxCache)
    ensures Holds(b, sources[..i + 1], maxCache)
  {
    hide Tally, ScanRows;
    var s := sources[i];
    assert sources[..i + 1][..i] == sources[..i] && s.rows[..|s.rows|] == s.rows;
  }

  // ------------------------------------------------------------------ sorting

  lemma {:induction false} CountConcat(a: seq<ValueEntry>, b: seq<ValueEntry>, h: Hit)
    ensures Count(a + b, h) == Count(a, h) + Count(b, h)
  {
    hide CountFunctions;
    if b == [] {
      assert a + b == a;
    } else {
      var n := |b| - 1;
      CountConcat(a, b[..n], h);
      assert (a + b)[..|a| + n] == a + b[..n];
    }
  }

  lemma CountInsert(es: seq<ValueEntry>, k: nat, e: ValueEntry, h: Hit)
    requires k <= |es|
    ensures Count(es[..k] + [e] + es[k..], h) == Count(es + [e], h)
  {
    hide Count;
    CountConcat(es[..k] + [e], es[k..], h);
    CountConcat(es[..k], [e], h);
    CountConcat(es[..k], es[k..], h);
    CountConcat(es, [e], h);
    assert es == es[..k] + es[k..];
  }

  /** Entries of b are those of a, in some order. */
  ghost predicate SameEntries(a: seq<ValueEntry>, b: seq<ValueEntry>) {
    && (forall h :: Count(b, h) == Count(a, h))
    && (forall e :: e in b <==> e in a)
  }

  lemma InsertAtOrdered(es: seq<ValueEntry>, k: nat, e: ValueEntry)
    requires Distinct(es) && Sorted(es) && DistinctFunctions(e.functions) && k <= |es|
    requires forall j :: 0 <= j < k ==> es[j].value < e.value
    requires forall j :: k <= j < |es| ==> e.value < es[j].value
    ensures Distinct(es[..k] + [e] + es[k..]) && Sorted(es[..k] + [e] + es[k..])
  {
  }

  lemma InsertAtSame(es: seq<ValueEntry>, k: nat, e: ValueEntry)
    requires k <= |es|
    ensures SameEntries(es + [e], es[..k] + [e] + es[k..])
  {
    hide Count;
    var r := es[..k] + [e] + es[k..];
    forall h
      ensures Count(r, h) == Count(es + [e], h)
    {
      CountInsert(es, k, e, h);
    }
    assert es == es[..k] + es[k..];
  }

  method Insert(es: seq<ValueEntry>, e: ValueEntry) returns (r: seq<ValueEntry>)
    requires Distinct(es) && Sorted(es) && DistinctFunctions(e.functions)
    requires forall x :: x in es ==> x.value != e.value
    ensures Distinct(r) && Sorted(r) && SameEntries(es + [e], r)
  {
    hide DistinctFunctions, SameEntries;
    var k := 0;
    while k < |es| && es[k].value < e.value
      invariant k <= |es| && forall j :: 0 <= j < k ==> es[j].value < e.value
    {
      k := k + 1;
    }
    if k < |es| {
      assert es[k] in es;
    }
    r := es[..k] + [e] + es[k..];
    InsertAtOrdered(es, k, e);
    InsertAtSame(es, k, e);
  }

  /** Stands for sort.Slice; with distinct values the order is the only one. */
  method Sort(es: seq<ValueEntry>) returns (r: seq<ValueEntry>)
    requires Distinct(es)
    ensures Distinct(r) && Sorted(r) && SameEntries(es, r)
  {
    hide Count, DistinctFunctions;
    r := [];
    for i := 0 to |es|
      invariant Distinct(r) && Sorted(r) && SameEntries(es[..i], r)
    {
      var before := r;
      assert forall x :: x in before ==> x.value != es[i].value;
      r := Insert(before, es[i]);
      assert es[..i + 1] == es[..i] + [es[i]];
      forall h
        ensures Count(r, h) == Count(es[..i + 1], h)
      {
        CountConcat(before, [es[i]], h);
        CountConcat(es[..i], [es[i]], h);
      }
    }
    assert es[..|es|] == es;
  }

  // ------------------------------------------------------------------ steps of the build

  lemma NothingScanned(a: Index, rows: seq<Row>, f: FunctionId, limit: int)
    ensures Scanned(a, a, rows, 0, 0, f, limit)
  {
  }

  lemma NothingHeld(sources: seq<Source>, maxCache: int)
    ensures Holds(map[], sources[..0], maxCache) && AllDistinct(map[])
  {
  }

  lemma DistinctPut(idx: Index, t: CondType, es: seq<ValueEntry>)
    requires AllDistinct(idx) && Distinct(es)
    ensures AllDistinct(idx[t := es])
  {
    hide Distinct;
    var b := idx[t := es];
    forall u
      ensures Distinct(Lookup(b, u))
    {
      assert Distinct(Lookup(idx, u));
    }
  }

  lemma DistinctAt(idx: Index, t: CondType)
    requires AllDistinct(idx) && t in idx
    ensures Distinct(idx[t])
  {
    assert Distinct(Lookup(idx, t));
  }

  ghost predicate SortedBut(idx: Index, todo: set<CondType>) {
    forall t :: t !in todo ==> Sorted(Lookup(idx, t))
  }

  lemma NothingSorted(idx: Index, todo: set<CondType>)
    requires todo == idx.Keys
    ensures SortedBut(idx, todo)
  {
  }

  lemma SortedPut(idx: Index, sources: seq<Source>, maxCache: int, todo: set<CondType>, t: CondType,
                  es: seq<ValueEntry>)
    requires Holds(idx, sources, maxCache) && SortedBut(idx, todo) && t in todo && t in idx
    requires Sorted(es) && SameEntries(idx[t], es)
    ensures Holds(idx[t := es], sources, maxCache) && SortedBut(idx[t := es], todo - {t})
  {
  }

  // ------------------------------------------------------------------ asking

  /** The entries with previous < value <= newValue, in order. */
  function InRange(es: seq<ValueEntry>, previous: int, newValue: int): seq<ValueEntry> {
    if es == [] then []
    else
      var rest := InRange(es[..|es| - 1], previous, newValue);
      if previous < es[|es| - 1].value <= newValue then rest + [es[|es| - 1]] else rest
  }

  /** These are exactly the entries in range, each where it stood. */
  lemma {:induction false} RangeInOrder(es: seq<ValueEntry>, previous: int, newValue: int) returns (ps: seq<nat>)
    ensures Ascending(ps, |es|) && |ps| == |InRange(es, previous, newValue)|
    ensures forall k :: 0 <= k < |ps| ==> InRange(es, previous, newValue)[k] == es[ps[k]]
    ensures forall i: nat | i < |es| :: i in ps <==> previous < es[i].value <= newValue
  {
    hide Ascending;
    ps := [];
    if es == [] {
      EmptyAscends();
    } else {
      var n := |es| - 1;
      ps := RangeInOrder(es[..n], previous, newValue);
      AscendingNext(ps, n);
      if previous < es[n].value <= newValue {
        ps := ps + [n];
      }
    }
  }

  /** Among the entries in range a hit is listed as often as in all entries, if its
      value is in range, and not at all otherwise. */
  lemma {:induction false} InRangeCounts(es: seq<ValueEntry>, previous: int, newValue: int, h: Hit)
    ensures Count(InRange(es, previous, newValue), h) == if previous < h.value <= newValue then Count(es, h) else 0
  {
    hide CountFunctions;
    if es == [] {
    } else {
      var n := |es| - 1;
      InRangeCounts(es[..n], previous, newValue, h);
      CountSnoc(InRange(es[..n], previous, newValue), es[n], h);
      CountFunctionsValue(es[n].value, es[n].functions, h);
    }
  }

  /** Adjacent ranges concatenate. */
  lemma {:induction false} AdjacentRangesConcatenate(es: seq<ValueEntry>, a: int, b: int, c: int)
    requires Sorted(es) && a <= b <= c
    ensures InRange(es, a, b) + InRange(es, b, c) == InRange(es, a, c)
  {
    if es == [] {
    } else {
      var n := |es| - 1;
      AdjacentRangesConcatenate(es[..n], a, b, c);
      if es[n].value <= b {
        NothingAbove(es[..n], b, c);
      }
    }
  }

  lemma {:induction false} NothingAbove(es: seq<ValueEntry>, b: int, c: int)
    requires forall e :: e in es ==> e.value <= b
    ensures InRange(es, b, c) == []
  {
    if es == [] {
    } else {
      NothingAbove(es[..|es| - 1], b, c);
    }
  }

  lemma SliceSnoc(es: seq<ValueEntry>, i: nat)
    requires i < |es|
    ensures es[i..|es|] == es[..|es| - 1][i..|es| - 1] + [es[|es| - 1]]
  {
  }

  lemma {:induction false} InRangeIsSlice(es: seq<ValueEntry>, previous: int, newValue: int, i: nat, j: nat)
    requires i <= j <= |es|
    requires forall k :: 0 <= k < i ==> es[k].value <= previous
    requires forall k :: i <= k < j ==> previous < es[k].value <= newValue
    requires forall k :: j <= k < |es| ==> newValue < es[k].value
    ensures InRange(es, previous, newValue) == es[i..j]
  {
    if es == [] {
    } else {
      var n := |es| - 1;
      if j == |es| {
        if i == |es| {
          InRangeIsSlice(es[..n], previous, newValue, n, n);
        } else {
          InRangeIsSlice(es[..n], previous, newValue, i, n);
          SliceSnoc(es, i);
        }
      } else {
        InRangeIsSlice(es[..n], previous, newValue, i, j);
        assert es[i..j] == es[..n][i..j];
      }
    }
  }

  /** sort.Search for the first value above `bound`. */
  method FirstAbove(es: seq<ValueEntry>, bound: int) returns (i: nat)
    requires Sorted(es)
    ensures i <= |es|
    ensures forall k :: 0 <= k < i ==> es[k].value <= bound
    ensures forall k :: i <= k < |es| ==> bound < es[k].value
  {
    i := 0;
    var j := |es|;
    while i < j
      invariant i <= j <= |es|
      invariant forall k :: 0 <= k < i ==> es[k].value <= bound
      invariant forall k :: j <= k < |es| ==> bound < es[k].value
    {
      var mid := i + (j - i) / 2;
      if es[mid].value > bound {
        j := mid;
      } else {
        i := mid + 1;
      }
    }
  }

  /** The index of a configuration group. */
  class Indexer {
    var idx: Index

    /** For every kind of condition each value and function once, in ascending
        order, and exactly the hits of the plain scan. */
    ghost predicate IsIndexOf(sources: seq<Source>, maxCache: int)
      reads this
    {
      && Holds(idx, sources, maxCache) && AllDistinct(idx)
      && forall t :: Sorted(Lookup(idx, t))
    }

    constructor ()
      ensures idx == map[]
    {
      idx := map[];
    }

    method BuildRows(rows: seq<Row>, f: FunctionId, now: int, maxCache: int)
      requires AllDistinct(idx)
      modifies this
      ensures AllDistinct(idx) && Scanned(old(idx), idx, rows, |rows|, 0, f, now + maxCache)
    {
      hide Scanned, OneMore, Count, ScanRows;
      NothingScanned(idx, rows, f, now + maxCache);
      for i := 0 to |rows|
        invariant AllDistinct(idx) && Scanned(old(idx), idx, rows, i, 0, f, now + maxCache)
      {
        var row := rows[i];
        for n := 0 to |row.conds|
          invariant AllDistinct(idx) && Scanned(old(idx), idx, rows, i, n, f, now + maxCache)
        {
          var c := row.conds[n];
          if c.Unset? || c.UnlockByOtherSystem? || c.Activate? {
            ScannedSkip(old(idx), idx, rows, i, n, f, now + maxCache);
            continue;
          }
          var value := UnlockValue(c);
          if c.UnlockTimepoint? && value > now + maxCache {
            ScannedSkip(old(idx), idx, rows, i, n, f, now + maxCache);
            continue;
          }
          assert Distinct(Lookup(idx, TypeOf(c)));
          var es := AddUnit(Lookup(idx, TypeOf(c)), value, f, row);
          ScannedAdd(old(idx), idx, rows, i, n, f, now + maxCache, es);
          DistinctPut(idx, TypeOf(c), es);
          idx := idx[TypeOf(c) := es];
        }
        ScannedRow(old(idx), idx, rows, i, f, now + maxCache);
      }
    }

    method BuildAll(sources: seq<Source>, maxCache: int)
      modifies this
      ensures IsIndexOf(sources, maxCache)
    {
      hide Scanned, Holds, AllDistinct, Sorted;
      idx := map[];
      NothingHeld(sources, maxCache);
      for i := 0 to |sources|
        invariant AllDistinct(idx) && Holds(idx, sources[..i], maxCache)
      {
        ghost var before := idx;
        BuildRows(sources[i].rows, sources[i].functionId, sources[i].now, maxCache);
        HoldsNext(before, idx, sources, i, maxCache);
      }
      assert sources[..|sources|] == sources;
      var todo := idx.Keys;
      NothingSorted(idx, todo);
      while todo != {}
        invariant AllDistinct(idx) && Holds(idx, sources, maxCache)
        invariant SortedBut(idx, todo) && todo <= idx.Keys
        decreases |todo|
      {
        var t :| t in todo;
        DistinctAt(idx, t);
        var es := Sort(idx[t]);
        SortedPut(idx, sources, maxCache, todo, t, es);
        DistinctPut(idx, t, es);
        idx := idx[t := es];
        todo := todo - {t};
      }
    }

    /** None stands for the failed allocation when the range is the wrong way round
        and some value lies inside it. */
    method GetUnlockDataRange(t: CondType, previous: int, newValue: int) returns (r: Option<seq<ValueEntry>>)
      requires Sorted(Lookup(idx, t))
      ensures r.None? <==> (exists e, e' :: e in Lookup(idx, t) && e' in Lookup(idx, t)
                                            && newValue < e.value <= previous < e'.value)
      ensures r.Some? ==> r.value == InRange(Lookup(idx, t), previous, newValue)
    {
      var valueList := Lookup(idx, t);
      var startIdx := FirstAbove(valueList, previous);
      var endIdx := FirstAbove(valueList, newValue);
      if startIdx >= |valueList| {
        NothingAbove(valueList, previous, newValue);
        return Some([]);
      }
      if endIdx < startIdx {
        assert valueList[endIdx] in valueList && valueList[startIdx] in valueList;
        return None;
      }
      var result := [];
      for i := startIdx to endIdx
        invariant result == valueList[startIdx..i]
      {
        result := result + [valueList[i]];
      }
      InRangeIsSlice(valueList, previous, newValue, startIdx, endIdx);
      return Some(result);
    }

    method GetUnlockData(t: CondType, value: int) returns (r: seq<ValueEntry>)
      requires Sorted(Lookup(idx, t)) && Distinct(Lookup(idx, t))
      ensures r == InRange(Lookup(idx, t), value - 1, value)
    {
      var valueList := Lookup(idx, t);
      var i, j := 0, |valueList|;
      while i < j
        invariant i <= j <= |valueList|
        invariant forall k :: 0 <= k < i ==> valueList[k].value < value
        invariant forall k :: j <= k < |valueList| ==> value <= valueList[k].value
      {
        var mid := i + (j - i) / 2;
        if valueList[mid].value < value {
          i := mid + 1;
        } else {
          j := mid;
        }
      }
      if i == |valueList| || valueList[i].value != value {
        InRangeIsSlice(valueList, value - 1, value, i, i);
        return [];
      }
      InRangeIsSlice(valueList, value - 1, value, i, i + 1);
      return [valueList[i]];
    }
  }

  // ------------------------------------------------------------------ agreement with the scan

  /** What a condition waits for: a kind of value, and the value itself, except that a
      condition on a module is filed under 0, a time only if it is near enough, and
      the other three kinds nowhere. */
  predicate WaitsFor(c: Cond, t: CondType, value: int, limit: int) {
    match t
    case Timepoint => c == UnlockTimepoint(value) && value <= limit
    case Level => c == PlayerLevel(value)
    case Finish => c == QuestFinish(value)
    case Received => c == QuestReceived(value)
    case Item => c == ItemHas(value)
    case Module => c.ModuleUnlocked? && value == 0
    case NoType => false
    case OtherSystem => false
    case Activation => false
  }

  lemma IndexedIsWaitsFor(c: Cond, t: CondType, value: int, limit: int)
    ensures WaitsFor(c, t, value, limit) <==> Indexed(c, limit) && TypeOf(c) == t && value == UnlockValue(c)
  {
  }

  /** Condition k of row j of source i is the hit h for kind t. */
  ghost predicate Meets(sources: seq<Source>, i: nat, j: nat, k: nat, t: CondType, maxCache: int, h: Hit) {
    && i < |sources| && MeetsRow(sources[i].rows, j, k, sources[i].functionId, t, sources[i].now + maxCache, h)
  }

  ghost predicate MeetsRow(rows: seq<Row>, j: nat, k: nat, f: FunctionId, t: CondType, limit: int, h: Hit) {
    && j < |rows| && MeetsCond(rows[j], k, f, t, limit, h)
  }

  ghost predicate MeetsCond(row: Row, k: nat, f: FunctionId, t: CondType, limit: int, h: Hit) {
    && k < |row.conds| && h.functionId == f && h.row == row && WaitsFor(row.conds[k], t, h.value, limit)
  }

  /** Condition `cond` of row `row` of source `source`. */
  datatype Spot = Spot(source: nat, row: nat, cond: nat)

  ghost predicate Different(spots: seq<Spot>) {
    forall i, j :: 0 <= i < j < |spots| ==> spots[i] != spots[j]
  }

  lemma DifferentConcat(a: seq<Spot>, b: seq<Spot>)
    requires Different(a) && Different(b) && forall x :: x in a ==> x !in b
    ensures Different(a + b)
    ensures forall x :: x in a + b <==> x in a || x in b
  {
    var c := a + b;
    forall i, j | 0 <= i < j < |c|
      ensures c[i] != c[j]
    {
      if i < |a| <= j {
        assert a[i] in a && b[j - |a|] in b;
      }
    }
  }

  lemma {:induction false} CondSpots(row: Row, n: nat, f: FunctionId, t: CondType, limit: int, h: Hit, i: nat, j: nat)
      returns (spots: seq<Spot>)
    requires n <= |row.conds|
    ensures Different(spots) && |spots| == ScanConds(row, n, f, t, limit, h)
    ensures forall x :: x in spots <==>
              x.source == i && x.row == j && x.cond < n && MeetsCond(row, x.cond, f, t, limit, h)
  {
    spots := [];
    if n == 0 {
    } else {
      var c := row.conds[n - 1];
      spots := CondSpots(row, n - 1, f, t, limit, h, i, j);
      IndexedIsWaitsFor(c, t, h.value, limit);
      hide WaitsFor, Indexed, TypeOf, UnlockValue;
      if MeetsCond(row, n - 1, f, t, limit, h) {
        DifferentConcat(spots, [Spot(i, j, n - 1)]);
        spots := spots + [Spot(i, j, n - 1)];
      }
    }
  }

  lemma {:induction false} RowSpots(rows: seq<Row>, f: FunctionId, t: CondType, limit: int, h: Hit, i: nat)
      returns (spots: seq<Spot>)
    ensures Different(spots) && |spots| == ScanRows(rows, f, t, limit, h)
    ensures forall x :: x in spots <==> x.source == i && MeetsRow(rows, x.row, x.cond, f, t, limit, h)
  {
    spots := [];
    if rows == [] {
    } else {
      hide ScanConds, WaitsFor, Different;
      var n := |rows| - 1;
      var front := RowSpots(rows[..n], f, t, limit, h, i);
      var last := CondSpots(rows[n], |rows[n].conds|, f, t, limit, h, i, n);
      DifferentConcat(front, last);
      spots := front + last;
    }
  }

  /** The plain scan counts each condition that waits for the hit, once. */
  lemma {:induction false} Spots(sources: seq<Source>, t: CondType, maxCache: int, h: Hit) returns (spots: seq<Spot>)
    ensures Different(spots) && |spots| == Scan(sources, t, maxCache, h)
    ensures forall x :: x in spots <==> Meets(sources, x.source, x.row, x.cond, t, maxCache, h)
  {
    spots := [];
    if sources == [] {
    } else {
      hide ScanRows, MeetsRow, Different;
      var n := |sources| - 1;
      var s := sources[n];
      var front := Spots(sources[..n], t, maxCache, h);
      var last := RowSpots(s.rows, s.functionId, t, s.now + maxCache, h, n);
      DifferentConcat(front, last);
      spots := front + last;
    }
  }

  /** The index agrees with the plain scan: a range query lists each hit in range as
      often as the scan meets it, and nothing else. */
  lemma RangeAgreesWithScan(idx: Index, sources: seq<Source>, maxCache: int, t: CondType, previous: int, newValue: int,
                            h: Hit)
    requires Holds(idx, sources, maxCache)
    ensures Count(InRange(Lookup(idx, t), previous, newValue), h)
         == if previous < h.value <= newValue then Scan(sources, t, maxCache, h) else 0
  {
    assert Tally(idx, t, h) == Scan(sources, t, maxCache, h);
    InRangeCounts(Lookup(idx, t), previous, newValue, h);
  }

  /** When the value moves from `previous` to `newValue`, a row of a function is listed
      under a value in between once for each of its conditions that waits for this
      value, and under no other. */
  lemma ListedOncePerConditionPassed(idx: Index, sources: seq<Source>, maxCache: int, t: CondType, previous: int,
                                     newValue: int, h: Hit) returns (spots: seq<Spot>)
    requires Holds(idx, sources, maxCache)
    ensures Different(spots) && forall x :: x in spots <==> Meets(sources, x.source, x.row, x.cond, t, maxCache, h)
    ensures Count(InRange(Lookup(idx, t), previous, newValue), h)
         == if previous < h.value <= newValue then |spots| else 0
  {
    spots := Spots(sources, t, maxCache, h);
    hide Holds, Count, InRange, Scan, Meets, Different;
    RangeAgreesWithScan(idx, sources, maxCache, t, previous, newValue, h);
  }

  /** So it is listed exactly when one of its conditions of that kind waits for a value
      in between. */
  lemma ListedExactlyWhenAConditionIsPassed(idx: Index, sources: seq<Source>, maxCache: int, t: CondType, previous: int,
                                            newValue: int, h: Hit)
    requires Holds(idx, sources, maxCache)
    ensures Count(InRange(Lookup(idx, t), previous, newValue), h) > 0
       <==> previous < h.value <= newValue
            && exists i: nat, j: nat, k: nat :: Meets(sources, i, j, k, t, maxCache, h)
  {
    var spots := ListedOncePerConditionPassed(idx, sources, maxCache, t, previous, newValue, h);
    hide *;
    if spots != [] {
      var x := spots[0];
      assert x in spots && Meets(sources, x.source, x.row, x.cond, t, maxCache, h);
    }
    if i: nat, j: nat, k: nat :| Meets(sources, i, j, k, t, maxCache, h) {
      assert Spot(i, j, k) in spots;
    }
  }

  lemma ModuleHitsAreZero(idx: Index, sources: seq<Source>, maxCache: int, previous: int, newValue: int, h: Hit)
    requires Holds(idx, sources, maxCache) && Count(InRange(Lookup(idx, Module), previous, newValue), h) > 0
    ensures h.value == 0 && previous < 0 <= newValue
  {
    ListedExactlyWhenAConditionIsPassed(idx, sources, maxCache, Module, previous, newValue, h);
    var i: nat, j: nat, k: nat :| Meets(sources, i, j, k, Module, maxCache, h);
    assert sources[i].rows[j].conds[k].ModuleUnlocked?;
  }

  /** Module conditions are indexed but the switch has no case for them: a row with
      such a condition is listed if and only if the range passes 0, whatever module
      the condition names. */
  lemma ModuleConditionsSitAtZero(idx: Index, sources: seq<Source>, maxCache: int, i: nat, j: nat, k: nat,
                                  previous: int, newValue: int)
    requires Holds(idx, sources, maxCache)
    requires i < |sources| && j < |sources[i].rows| && k < |sources[i].rows[j].conds|
    requires sources[i].rows[j].conds[k].ModuleUnlocked?
    ensures (exists value :: Count(InRange(Lookup(idx, Module), previous, newValue),
                                   Hit(value, sources[i].functionId, sources[i].rows[j])) > 0)
       <==> previous < 0 <= newValue
  {
    var f, row := sources[i].functionId, sources[i].rows[j];
    var h := Hit(0, f, row);
    assert Meets(sources, i, j, k, Module, maxCache, h);
    ListedExactlyWhenAConditionIsPassed(idx, sources, maxCache, Module, previous, newValue, h);
    if value :| Count(InRange(Lookup(idx, Module), previous, newValue), Hit(value, f, row)) > 0 {
      ModuleHitsAreZero(idx, sources, maxCache, previous, newValue, Hit(value, f, row));
    }
  }

  /** So reaching the number of a module lists nothing that waits for that module. */
  lemma ReachingAModuleListsNothing(idx: Index, sources: seq<Source>, maxCache: int, moduleId: int, h: Hit)
    requires Holds(idx, sources, maxCache) && moduleId != 0
    ensures Count(InRange(Lookup(idx, Module), moduleId - 1, moduleId), h) == 0
  {
    if Count(InRange(Lookup(idx, Module), moduleId - 1, moduleId), h) > 0 {
      ModuleHitsAreZero(idx, sources, maxCache, moduleId - 1, moduleId, h);
    }
  }
}
