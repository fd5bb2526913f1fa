/** Versioned writes: the Lua script that runs atomically inside Redis
    (redis_message_dispatcher.go) and the Go client that interprets its answer
    (hash_table_set.go).  Any number of clients share one record. */
module Cas {
  import opened Options

  type Data = int

  /** A stored record: its version field, if there is one, and its data. */
  datatype Record = Record(version: Option<nat>, data: Data)

  /** A missing version field counts as version 0. */
  function VersionOf(r: Record): nat {
    match r.version case None => 0 case Some(v) => v
  }

  /** The version argument the script lets through. */
  predicate Accepts(found: nat, expected: int) {
    found == 0 || expected == -1 || expected == found
  }

  /** The script: the record afterwards, and the version it returns. */
  function Script(r: Record, expected: int, data: Data): (Record, nat) {
    var found := VersionOf(r);
    if Accepts(found, expected) then (Record(Some(found + 1), data), found + 1) else (r, found)
  }

  /** The hash as Redis holds it, and the script as it updates it. */
  class RedisHash {
    var version: Option<nat>
    var data: Data

    ghost function View(): Record
      reads this
    {
      Record(version, data)
    }

    method EvalCas(expected: int, newData: Data) returns (returned: nat)
      modifies this
      ensures (View(), returned) == Script(old(View()), expected, newData)
    {
      var found := 0;
      if version.Some? { found := version.value; }
      if found == 0 || expected == -1 || expected == found {
        version := Some(found + 1);
        data := newData;
        return found + 1;
      } else {
        return found;
      }
    }
  }

  // ------------------------------------------------------------------ clients

  type ClientId = nat
  type ScriptId = nat

  /** `cas` is the variable behind currentCASVersion; `waiting` the script whose
      answer the client is awaiting. */
  datatype Client = Client(cas: nat, waiting: Option<ScriptId>)

  /** The closure that a call pushed: it runs the script once and then resumes its
      client, whether or not the client still waits.  `ran` is the script's outcome. */
  datatype Flight = Flight(client: ClientId, expected: nat, force: bool, data: Data, ran: Option<nat>)

  /** One run of the script: what was expected, the version it found, the data it was
      given, whether it wrote. */
  datatype Outcome = Outcome(
    client: ClientId, expected: nat, force: bool, found: nat, data: Data, applied: bool)

  /** What a call told its caller, from the answer with outcome number `at`. */
  datatype Report = Report(at: nat, success: bool)

  datatype State = State(
    record: Record, clients: map<ClientId, Client>, flights: map<ScriptId, Flight>, next: ScriptId,
    outcomes: seq<Outcome>, reports: seq<Report>,
    deleted: bool, since: nat)   // the outcomes before the last deletion

  /** `Load` reads the stored version, `Call` starts HashTableUpdateCAS, `Run` is
      the script, `Answer` its result reaching the client and the rest of the call.
      `Break` is a database error before or after the script ran, `GiveUp` the end
      of a client's wait by timeout or kill.  `Delete` drops the whole record. */
  datatype Event =
    | Load(c: ClientId)
    | Call(c: ClientId, force: bool, data: Data)
    | Run(n: ScriptId)
    | Answer(n: ScriptId)
    | Break(n: ScriptId)
    | GiveUp(c: ClientId)
    | Delete

  predicate Enabled(s: State, e: Event) {
    match e
    case Load(c) => c in s.clients && s.clients[c].waiting.None?
    case Call(c, _, _) => c in s.clients && s.clients[c].waiting.None?
    case Run(n) => n in s.flights && s.flights[n].ran.None?
    case Answer(n) => n in s.flights && s.flights[n].ran.Some? && s.flights[n].ran.value < |s.outcomes|
    case Break(n) => n in s.flights
    case GiveUp(c) => c in s.clients && s.clients[c].waiting.Some?
    case Delete => true
  }

  /** The version argument on the wire. */
  function Wire(expected: nat, force: bool): int { if force then -1 else expected }

  /** The client's verdict: a forced update always succeeds, any other one when
      the returned version is one above the expected one. */
  predicate Verdict(expected: nat, force: bool, returned: nat) {
    force || expected + 1 == returned
  }

  function Returned(o: Outcome): nat { if o.applied then o.found + 1 else o.found }

  predicate Waits(s: State, c: ClientId, n: ScriptId) {
    c in s.clients && s.clients[c].waiting == Some(n)
  }

  function StartCall(s: State, c: ClientId, force: bool, data: Data): State
    requires c in s.clients
  {
    var cas := if force then 0 else s.clients[c].cas;
    s.(clients := s.clients[c := Client(cas, Some(s.next))],
       flights := s.flights[s.next := Flight(c, cas, force, data, None)], next := s.next + 1)
  }

  function RunScript(s: State, n: ScriptId): State
    requires n in s.flights
  {
    var f := s.flights[n];
    var found := VersionOf(s.record);
    var wire := Wire(f.expected, f.force);
    s.(record := Script(s.record, wire, f.data).0,
       flights := s.flights[n := f.(ran := Some(|s.outcomes|))],
       outcomes := s.outcomes + [Outcome(f.client, f.expected, f.force, found, f.data, Accepts(found, wire))])
  }

  /** A resume with another sequence than the awaited one is refused. */
  function TakeAnswer(s: State, n: ScriptId): State
    requires Enabled(s, Answer(n))
  {
    var f, at := s.flights[n], s.flights[n].ran.value;
    var returned := Returned(s.outcomes[at]);
    var landed := s.(flights := s.flights - {n});
    if !Waits(s, f.client, n) then landed
    else landed.(clients := s.clients[f.client := Client(returned, None)],
                 reports := s.reports + [Report(at, Verdict(f.expected, f.force, returned))])
  }

  function Apply(s: State, e: Event): State
    requires Enabled(s, e)
  {
    match e
    case Load(c) => s.(clients := s.clients[c := Client(VersionOf(s.record), None)])
    case Call(c, force, data) => StartCall(s, c, force, data)
    case Run(n) => RunScript(s, n)
    case Answer(n) => TakeAnswer(s, n)
    case Break(n) =>
      var c := s.flights[n].client;
      s.(flights := s.flights - {n},
         clients := if Waits(s, c, n) then s.clients[c := s.clients[c].(waiting := None)] else s.clients)
    case GiveUp(c) => s.(clients := s.clients[c := s.clients[c].(waiting := None)])
    case Delete => s.(record := Record(None, 0), deleted := true, since := |s.outcomes|)
  }

  ghost predicate Possible(s: State, es: seq<Event>)
    decreases |es|
  {
    es == [] || (Enabled(s, es[0]) && Possible(Apply(s, es[0]), es[1..]))
  }

  ghost function Exec(s: State, es: seq<Event>): State
    requires Possible(s, es)
    decreases |es|
  {
    if es == [] then s else Exec(Apply(s, es[0]), es[1..])
  }

  /** No record yet, and clients that have not read anything. */
  ghost predicate Init(s: State) {
    && VersionOf(s.record) == 0 && s.outcomes == [] && s.reports == [] && s.flights == map[] && s.next == 0
    && !s.deleted && s.since == 0
    && forall c :: c in s.clients ==> s.clients[c] == Client(0, None)
  }

  // ------------------------------------------------------------------ one update

  /** The verdict misreads the script's answer: the write was rejected but the
      version found is just the one a success would have returned, or the record
      was gone and the write started it again at version 1. */
  predicate Misread(o: Outcome) {
    !o.force && (o.found == o.expected + 1 || (o.found == 0 && o.expected != 0))
  }

  /** A flight that ran has its outcome on record. */
  ghost predicate FlightFits(f: Flight, outcomes: seq<Outcome>) {
    f.ran.Some? ==>
      && f.ran.value < |outcomes|
      && outcomes[f.ran.value].expected == f.expected && outcomes[f.ran.value].force == f.force
  }

  /** What holds with or without deletions. */
  ghost predicate AnswerInv(s: State) {
    && (forall i :: 0 <= i < |s.outcomes| ==>
          s.outcomes[i].applied == Accepts(s.outcomes[i].found, Wire(s.outcomes[i].expected, s.outcomes[i].force)))
    && (forall n :: n in s.flights ==> FlightFits(s.flights[n], s.outcomes))
    && (forall i :: 0 <= i < |s.reports| ==>
          && s.reports[i].at < |s.outcomes|
          && var o := s.outcomes[s.reports[i].at];
             s.reports[i].success == Verdict(o.expected, o.force, Returned(o)))
  }

  lemma AnswerInvStep(s: State, e: Event)
    requires AnswerInv(s) && Enabled(s, e)
    ensures AnswerInv(Apply(s, e))
  {
  }

  lemma {:induction false} AnswerInvExec(s: State, es: seq<Event>)
    requires AnswerInv(s) && Possible(s, es)
    ensures AnswerInv(Exec(s, es))
    decreases |es|
  {
    hide AnswerInv, Apply, Enabled;
    if es == [] {
    } else {
      AnswerInvStep(s, es[0]);
      AnswerInvExec(Apply(s, es[0]), es[1..]);
    }
  }

  /** Over all runs, with scripts that outlive their calls: success is reported for
      exactly the applied writes, except for exactly the misread ones. */
  lemma VerdictIsExactUnlessMisread(s: State, es: seq<Event>, i: nat)
    requires Init(s) && Possible(s, es) && i < |Exec(s, es).reports|
    ensures var t := Exec(s, es);
            && t.reports[i].at < |t.outcomes|
            && var o := t.outcomes[t.reports[i].at];
               (t.reports[i].success <==> o.applied) <==> !Misread(o)
  {
    AnswerInvExec(s, es);
  }

  // ------------------------------------------------------------------ the record

  /** None of the outcomes from this one on was applied. */
  ghost predicate NoWrite(os: seq<Outcome>, from: nat) {
    forall j :: from <= j < |os| ==> !os[j].applied
  }

  /** Outcome number k is the last one applied since this one. */
  ghost predicate LastWrite(os: seq<Outcome>, from: nat, k: nat) {
    from <= k < |os| && os[k].applied && NoWrite(os, k + 1)
  }

  ghost predicate RecordInv(s: State, first: Record) {
    && s.since <= |s.outcomes|
    && (forall k: nat :: LastWrite(s.outcomes, s.since, k) ==>
          s.record == Record(Some(s.outcomes[k].found + 1), s.outcomes[k].data))
    && (NoWrite(s.outcomes, s.since) ==> s.record == if s.deleted then Record(None, 0) else first)
  }

  lemma NoWriteSnoc(os: seq<Outcome>, o: Outcome, from: nat)
    requires from <= |os|
    ensures NoWrite(os + [o], from) <==> NoWrite(os, from) && !o.applied
  {
    var t := os + [o];
    assert t[|os|] == o;
    assert forall j :: 0 <= j < |os| ==> t[j] == os[j];
  }

  lemma LastWriteSnoc(os: seq<Outcome>, o: Outcome, from: nat, k: nat)
    requires from <= |os| && LastWrite(os + [o], from, k)
    ensures if o.applied then k == |os| else k < |os| && LastWrite(os, from, k) && (os + [o])[k] == os[k]
  {
    hide NoWrite;
    if k < |os| {
      NoWriteSnoc(os, o, k + 1);
    }
  }

  lemma RecordInvRun(s: State, n: ScriptId, first: Record)
    requires RecordInv(s, first) && Enabled(s, Run(n))
    ensures RecordInv(RunScript(s, n), first)
  {
    hide NoWrite, LastWrite;
    var t := RunScript(s, n);
    var o := t.outcomes[|s.outcomes|];
    NoWriteSnoc(s.outcomes, o, s.since);
    forall k: nat | LastWrite(t.outcomes, t.since, k)
      ensures k < |t.outcomes| && t.record == Record(Some(t.outcomes[k].found + 1), t.outcomes[k].data)
    {
      LastWriteSnoc(s.outcomes, o, s.since, k);
    }
  }

  lemma RecordInvStep(s: State, e: Event, first: Record)
    requires RecordInv(s, first) && Enabled(s, e)
    ensures RecordInv(Apply(s, e), first)
  {
    hide RunScript;
    if e.Run? {
      RecordInvRun(s, e.n, first);
    }
  }

  lemma {:induction false} RecordInvExec(s: State, es: seq<Event>, first: Record)
    requires RecordInv(s, first) && Possible(s, es)
    ensures RecordInv(Exec(s, es), first)
    decreases |es|
  {
    hide RecordInv, Apply, Enabled;
    if es == [] {
    } else {
      RecordInvStep(s, es[0], first);
      RecordInvExec(Apply(s, es[0]), es[1..], first);
    }
  }

  /** Over all runs the record is what the last applied script since the last deletion
      wrote, forced or not: its data, under the version after the one it found.
      Nothing else, no rejected script, answer, load, break or give-up, leaves a trace. */
  lemma RecordIsTheLastWrite(s: State, es: seq<Event>)
    requires Init(s) && Possible(s, es)
    ensures var t := Exec(s, es);
            && (forall k: nat :: LastWrite(t.outcomes, t.since, k) ==>
                  t.record == Record(Some(t.outcomes[k].found + 1), t.outcomes[k].data))
            && (NoWrite(t.outcomes, t.since) ==> t.record == if t.deleted then Record(None, 0) else s.record)
  {
    RecordInvExec(s, es, s.record);
  }

  lemma {:induction false} ScriptStaysInFlight(s: State, es: seq<Event>, n: ScriptId)
    requires n in s.flights && s.flights[n].ran.None? && n < s.next
    requires Possible(s, es) && Run(n) !in es && Break(n) !in es
    ensures var t := Exec(s, es); n in t.flights && t.flights[n] == s.flights[n]
    decreases |es|
  {
    if es == [] {
    } else {
      assert es[0] in es;
      ScriptStaysInFlight(Apply(s, es[0]), es[1..], n);
    }
  }

  /** Whatever happens between a call and its script, the call given up included: the
      script writes the call's data if the call is forced, the record has no version
      or version 0, or it has the version that the client knew when it called; it
      changes nothing otherwise. */
  lemma ScriptWritesItsCallsData(s: State, c: ClientId, force: bool, data: Data, es: seq<Event>)
    requires Enabled(s, Call(c, force, data))
    requires Possible(Apply(s, Call(c, force, data)), es) && Run(s.next) !in es && Break(s.next) !in es
    ensures var t := Exec(Apply(s, Call(c, force, data)), es);
            && Enabled(t, Run(s.next))
            && var r := Apply(t, Run(s.next)).record;
               && (t.record.version.None? || t.record.version == Some(0) ==> r == Record(Some(1), data))
               && (t.record.version.Some? && (force || t.record.version == Some(s.clients[c].cas)) ==>
                     r == Record(Some(t.record.version.value + 1), data))
               && (!force && t.record.version !in {None, Some(0), Some(s.clients[c].cas)} ==> r == t.record)
  {
    ScriptStaysInFlight(Apply(s, Call(c, force, data)), es, s.next);
  }

  // ------------------------------------------------------------------ runs without deletions

  /** The versions the applied writes found, oldest first. */
  ghost function AppliedAt(os: seq<Outcome>): seq<nat> {
    if os == [] then []
    else
      var rest := AppliedAt(os[..|os| - 1]);
      if os[|os| - 1].applied then rest + [os[|os| - 1].found] else rest
  }

  /** Each script expected at most, and found exactly, the number of writes
      applied before it. */
  ghost predicate Counted(os: seq<Outcome>) {
    forall i :: 0 <= i < |os| ==> os[i].expected <= os[i].found == |AppliedAt(os[..i])|
  }

  /** Nobody knows of a version that was not written yet. */
  ghost predicate Known(s: State, version: nat) {
    && (forall c :: c in s.clients ==> s.clients[c].cas <= version)
    && (forall n :: n in s.flights ==> s.flights[n].expected <= version)
    && (forall i :: 0 <= i < |s.outcomes| ==> Returned(s.outcomes[i]) <= version)
  }

  /** The log of applied writes is 0, 1, 2, ... up to the stored version. */
  ghost predicate HistoryInv(s: State) {
    && !s.deleted
    && AppliedAt(s.outcomes) == seq(VersionOf(s.record), i => i)
    && Known(s, VersionOf(s.record))
    && Counted(s.outcomes)
  }

  lemma AppliedAtSnoc(os: seq<Outcome>, o: Outcome)
    ensures AppliedAt(os + [o]) == if o.applied then AppliedAt(os) + [o.found] else AppliedAt(os)
  {
    assert (os + [o])[..|os|] == os;
  }

  lemma CountedSnoc(os: seq<Outcome>, o: Outcome)
    requires Counted(os) && o.expected <= o.found == |AppliedAt(os)|
    ensures Counted(os + [o])
  {
    hide AppliedAt;
    var t := os + [o];
    forall i | 0 <= i < |t|
      ensures t[i].expected <= t[i].found == |AppliedAt(t[..i])|
    {
      assert t[..i] == os[..i];
      if i < |os| {
        assert t[i] == os[i];
      } else {
        assert os[..i] == os;
      }
    }
  }

  lemma HistoryInvRun(s: State, n: ScriptId)
    requires HistoryInv(s) && Enabled(s, Run(n))
    ensures HistoryInv(RunScript(s, n))
  {
    hide AppliedAt, Counted;
    var t := RunScript(s, n);
    var o := t.outcomes[|s.outcomes|];
    CountedSnoc(s.outcomes, o);
    AppliedAtSnoc(s.outcomes, o);
    assert t.outcomes == s.outcomes + [o];
  }

  lemma HistoryInvStep(s: State, e: Event)
    requires HistoryInv(s) && Enabled(s, e) && !e.Delete?
    ensures HistoryInv(Apply(s, e))
  {
    hide AppliedAt, Counted;
    if e.Run? {
      HistoryInvRun(s, e.n);
    }
  }

  lemma {:induction false} HistoryInvExec(s: State, es: seq<Event>)
    requires HistoryInv(s) && Possible(s, es) && Delete !in es
    ensures HistoryInv(Exec(s, es))
    decreases |es|
  {
    hide HistoryInv, Apply, Enabled;
    if es == [] {
    } else {
      HistoryInvStep(s, es[0]);
      HistoryInvExec(Apply(s, es[0]), es[1..]);
    }
  }

  /** While the record is never deleted, the applied writes found versions
      0, 1, 2, ... in this order: the version counts the writes, and no version is
      built upon twice, not even by scripts whose callers have given up. */
  lemma EveryVersionIsWrittenOnce(s: State, es: seq<Event>)
    requires Init(s) && Possible(s, es) && Delete !in es
    ensures var t := Exec(s, es); AppliedAt(t.outcomes) == seq(VersionOf(t.record), i => i)
  {
    HistoryInvExec(s, es);
  }

  /** Never deleted: an unforced update is applied exactly when no other write
      came after the version it expects, and reports success exactly when at most
      one did.  So one single concurrent write is what the verdict cannot see. */
  lemma OneInterveningWriteLooksLikeSuccess(s: State, es: seq<Event>, i: nat)
    requires Init(s) && Possible(s, es) && Delete !in es && i < |Exec(s, es).reports|
    ensures var t := Exec(s, es);
            && t.reports[i].at < |t.outcomes|
            && var o, before := t.outcomes[t.reports[i].at], AppliedAt(t.outcomes[..t.reports[i].at]);
               !o.force ==>
                 && o.expected <= |before|
                 && (o.applied <==> |before| == o.expected)
                 && (t.reports[i].success <==> |before| <= o.expected + 1)
  {
    HistoryInvExec(s, es);
    AnswerInvExec(s, es);
  }

  // ------------------------------------------------------------------ runs

  /** `path` is the run of `es`. */
  ghost predicate Follows(path: seq<State>, es: seq<Event>) {
    && |path| == |es| + 1
    && forall k :: 0 <= k < |es| ==> Enabled(path[k], es[k]) && Apply(path[k], es[k]) == path[k + 1]
  }

  lemma {:induction false} FollowPath(path: seq<State>, es: seq<Event>)
    requires Follows(path, es)
    ensures Possible(path[0], es) && Exec(path[0], es) == path[|es|]
    decreases |es|
  {
    hide Apply, Enabled;
    if es == [] {
    } else {
      assert Enabled(path[0], es[0]) && Apply(path[0], es[0]) == path[1];
      assert forall k :: 0 <= k < |es[1..]| ==> es[1..][k] == es[k + 1] && path[1..][k] == path[k + 1];
      FollowPath(path[1..], es[1..]);
    }
  }

  /** Two clients create the same record at once: both are told they succeeded,
      only the first one's data is stored. */
  lemma BothCreatorsReportSuccess(s: State, a: ClientId, b: ClientId)
    requires Init(s) && a != b && a in s.clients && b in s.clients
    ensures var es := [Call(a, false, 7), Call(b, false, 8), Run(0), Run(1), Answer(0), Answer(1)];
            && Possible(s, es)
            && Exec(s, es).outcomes == [Outcome(a, 0, false, 0, 7, true), Outcome(b, 0, false, 1, 8, false)]
            && Exec(s, es).reports == [Report(0, true), Report(1, true)]
            && Exec(s, es).record == Record(Some(1), 7)
  {
    var es := [Call(a, false, 7), Call(b, false, 8), Run(0), Run(1), Answer(0), Answer(1)];
    var s1 := Apply(s, es[0]);
    var s2 := Apply(s1, es[1]);
    var s3 := Apply(s2, es[2]);
    var s4 := Apply(s3, es[3]);
    var s5 := Apply(s4, es[4]);
    var s6 := Apply(s5, es[5]);
    FollowPath([s, s1, s2, s3, s4, s5, s6], es);
  }

  /** A call that was given up is written all the same, and its caller never learns. */
  lemma GivenUpUpdateIsStillWritten(s: State, a: ClientId)
    requires Init(s) && a in s.clients
    ensures var es := [Call(a, false, 7), GiveUp(a), Run(0), Answer(0)];
            && Possible(s, es)
            && Exec(s, es).record == Record(Some(1), 7)
            && Exec(s, es).reports == [] && a in Exec(s, es).clients && Exec(s, es).clients[a] == Client(0, None)
  {
    var es := [Call(a, false, 7), GiveUp(a), Run(0), Answer(0)];
    var s1 := Apply(s, es[0]);
    var s2 := Apply(s1, es[1]);
    var s3 := Apply(s2, es[2]);
    var s4 := Apply(s3, es[3]);
    FollowPath([s, s1, s2, s3, s4], es);
  }

  /** After any answer, applied or not, the client knows the version: if nobody
      comes in between, its next update is applied and reported so. */
  lemma RetryIsApplied(s: State, c: ClientId, n: ScriptId, second: Data)
    requires Enabled(s, Run(n)) && s.flights[n].client == c && Waits(s, c, n) && n < s.next
    ensures var es := [Run(n), Answer(n), Call(c, false, second), Run(s.next), Answer(s.next)];
            && Possible(s, es)
            && var t := Exec(s, es);
               && t.outcomes != [] && t.reports != []
               && var o := t.outcomes[|t.outcomes| - 1];
                  && o.applied && t.record == Record(Some(o.found + 1), second)
                  && t.reports[|t.reports| - 1] == Report(|t.outcomes| - 1, true)
  {
    var es := [Run(n), Answer(n), Call(c, false, second), Run(s.next), Answer(s.next)];
    var s1 := Apply(s, es[0]);
    var s2 := Apply(s1, es[1]);
    var s3 := Apply(s2, es[2]);
    var s4 := Apply(s3, es[3]);
    var s5 := Apply(s4, es[4]);
    FollowPath([s, s1, s2, s3, s4, s5], es);
  }

  /** A client that has just read the version has its next update applied, if nobody
      comes in between, and is told so. */
  lemma LoadThenUpdateIsApplied(s: State, c: ClientId, data: Data)
    requires Enabled(s, Load(c))
    ensures var es := [Load(c), Call(c, false, data), Run(s.next), Answer(s.next)];
            && Possible(s, es)
            && var t := Exec(s, es);
               && t.record.data == data && t.reports == s.reports + [Report(|s.outcomes|, true)]
               && t.record.version == Some(if s.record.version.None? then 1 else s.record.version.value + 1)
  {
    var es := [Load(c), Call(c, false, data), Run(s.next), Answer(s.next)];
    var s1 := Apply(s, es[0]);
    var s2 := Apply(s1, es[1]);
    var s3 := Apply(s2, es[2]);
    var s4 := Apply(s3, es[3]);
    FollowPath([s, s1, s2, s3, s4], es);
  }

  /** A forced call that is given up makes its client forget the version it knew: its
      next unforced update is rejected by any record with a version. */
  lemma GivenUpForcedCallForgetsTheVersion(s: State, c: ClientId, first: Data, second: Data)
    requires Enabled(s, Call(c, true, first)) && s.record.version.Some? && s.record.version.value > 0
    ensures var es := [Call(c, true, first), GiveUp(c), Call(c, false, second), Run(s.next + 1)];
            && Possible(s, es)
            && Exec(s, es).record == s.record
            && c in Exec(s, es).clients && Exec(s, es).clients[c].cas == 0
  {
    var es := [Call(c, true, first), GiveUp(c), Call(c, false, second), Run(s.next + 1)];
    var s1 := Apply(s, es[0]);
    var s2 := Apply(s1, es[1]);
    var s3 := Apply(s2, es[2]);
    var s4 := Apply(s3, es[3]);
    FollowPath([s, s1, s2, s3, s4], es);
  }

  /** An unforced call that is given up leaves the version its client knew: the next
      update is applied if the record still has it, as long as the script of the call
      that was given up has not run. */
  lemma GivenUpCallKeepsTheVersion(s: State, c: ClientId, first: Data, second: Data)
    requires Enabled(s, Call(c, false, first)) && s.record.version == Some(s.clients[c].cas)
    ensures var es := [Call(c, false, first), GiveUp(c), Call(c, false, second), Run(s.next + 1)];
            && Possible(s, es)
            && Exec(s, es).record == Record(Some(s.clients[c].cas + 1), second)
  {
    var es := [Call(c, false, first), GiveUp(c), Call(c, false, second), Run(s.next + 1)];
    var s1 := Apply(s, es[0]);
    var s2 := Apply(s1, es[1]);
    var s3 := Apply(s2, es[2]);
    var s4 := Apply(s3, es[3]);
    FollowPath([s, s1, s2, s3, s4], es);
  }

  // ------------------------------------------------------------------ waiting

  /** A client that waits has its script in flight. */
  ghost predicate WaitInv(s: State) {
    && (forall n :: n in s.flights ==> n < s.next)
    && forall c :: c in s.clients && s.clients[c].waiting.Some? ==>
         s.clients[c].waiting.value in s.flights && s.flights[s.clients[c].waiting.value].client == c
  }

  lemma WaitInvStep(s: State, e: Event)
    requires WaitInv(s) && Enabled(s, e)
    ensures WaitInv(Apply(s, e))
  {
    hide Script, Verdict, VersionOf, Accepts;
  }

  lemma {:induction false} WaitInvExec(s: State, es: seq<Event>)
    requires WaitInv(s) && Possible(s, es)
    ensures WaitInv(Exec(s, es))
    decreases |es|
  {
    hide WaitInv, Apply, Enabled;
    if es == [] {
    } else {
      WaitInvStep(s, es[0]);
      WaitInvExec(Apply(s, es[0]), es[1..]);
    }
  }

  /** Nobody waits for nothing: at any point of a run the script a client waits for is
      in flight, so its answer or its failure ends the wait, unless the client gives
      up first; and whichever it is, the client can call again. */
  lemma EveryWaitCanEnd(s: State, es: seq<Event>, c: ClientId)
    requires Init(s) && Possible(s, es) && c in Exec(s, es).clients && Exec(s, es).clients[c].waiting.Some?
    ensures var t := Exec(s, es); var n := t.clients[c].waiting.value;
            && Enabled(t, GiveUp(c)) && Apply(t, GiveUp(c)).clients[c].waiting.None?
            && Enabled(t, Break(n)) && Apply(t, Break(n)).clients[c].waiting.None?
            && Apply(t, Break(n)).clients[c].cas == t.clients[c].cas
            && (Enabled(t, Answer(n)) ==> Apply(t, Answer(n)).clients[c].waiting.None?)
  {
    WaitInvExec(s, es);
  }
}
