/** Short ids (uuid.go): a length-prefixed base-36 printer whose outputs can be
    concatenated, and the sequence it is fed with. */
module ShortId {
  import opened Options

  const KEYS: string := "y102a3gq58zrjbovpm7w6ltiuesf9h4kxncd"
  const UINT64: nat := 0x1_0000_0000_0000_0000
  const BUFFER: nat := 14

  type Digit = d: nat | d < 36

  function Key(d: Digit): char { KEYS[d] }

  /** Base-36 digits, least significant first; none for 0. */
  function Digits(v: nat): seq<Digit> {
    if v == 0 then [] else [v % 36] + Digits(v / 36)
  }

  function Value(ds: seq<Digit>): nat {
    if ds == [] then 0 else ds[0] + 36 * Value(ds[1..])
  }

  function Letters(ds: seq<Digit>): string
  {
    if ds == [] then "" else [Key(ds[0])] + Letters(ds[1..])
  }

  function Power36(n: nat): nat {
    if n == 0 then 1 else 36 * Power36(n - 1)
  }

  /** The printed form: its own length, then the digits. */
  function Encoding(v: nat): string
    requires v < UINT64
  {
    DigitsOfWord(v);
    [Key(1 + |Digits(v)|)] + Letters(Digits(v))
  }

  lemma {:induction false} DigitsBound(v: nat, n: nat)
    requires v < Power36(n)
    ensures |Digits(v)| <= n
    decreases n
  {
    if v == 0 {
    } else {
      DigitsBound(v / 36, n - 1);
    }
  }

  lemma Power36Of13()
    ensures UINT64 < Power36(13)
  {
    assert Power36(13) == 36 * 36 * 36 * 36 * 36 * 36 * Power36(7);
    assert Power36(7) == 36 * 36 * 36 * 36 * 36 * 36 * 36;
  }

  lemma DigitsOfWord(v: nat)
    requires v < UINT64
    ensures |Digits(v)| <= 13
  {
    Power36Of13();
    DigitsBound(v, 13);
  }

  lemma {:induction false} ValueOfDigits(v: nat)
    ensures Value(Digits(v)) == v
  {
    if v == 0 {
    } else {
      ValueOfDigits(v / 36);
    }
  }

  lemma FirstLetter(v: nat)
    requires v > 0
    ensures |Digits(v)| == 1 + |Digits(v / 36)|
    ensures Letters(Digits(v)) == [Key(v % 36)] + Letters(Digits(v / 36))
  {
    assert Digits(v)[1..] == Digits(v / 36);
  }

  lemma NoDigits()
    ensures Digits(0) == [] && Letters([]) == ""
  {
  }

  /** The loop of encodeValue: digits from index 1 on. */
  method PutDigits(buf: array<char>, val: nat) returns (idx: nat)
    requires buf.Length == BUFFER && |Digits(val)| < BUFFER
    modifies buf
    ensures idx == 1 + |Digits(val)| && buf[1..idx] == Letters(Digits(val))
  {
    hide Digits, Letters, Key;
    NoDigits();
    var v := val;
    idx := 1;
    while v > 0 && idx < buf.Length
      invariant 1 <= idx <= buf.Length
      invariant |Digits(val)| == idx - 1 + |Digits(v)|
      invariant Letters(Digits(val)) == buf[1..idx] + Letters(Digits(v))
      decreases v
    {
      ghost var written := buf[1..idx];
      FirstLetter(v);
      buf[idx] := Key(v % 36);
      assert buf[1..idx + 1] == written + [Key(v % 36)];
      v := v / 36;
      idx := idx + 1;
    }
  }

  /** encodeValue: fills a buffer of 14 bytes, then sets the length byte. */
  method EncodeValue(val: nat) returns (text: string)
    requires val < UINT64
    ensures text == Encoding(val)
  {
    hide Digits, Letters, Key;
    DigitsOfWord(val);
    if val == 0 {
      NoDigits();
      return [Key(1)];
    }
    var buf := new char[BUFFER](_ => '\0');
    var idx := PutDigits(buf, val);
    // the index is below the table's length, so the code's other branch is dead
    assert idx < 36;
    buf[0] := Key(idx);
    assert buf[..idx] == [buf[0]] + buf[1..idx];
    return buf[..idx];
  }

  // ------------------------------------------------------------------ decoding

  /** Position of a letter in the table. */
  function Position(c: char): Option<Digit> { PositionFrom(c, 0) }

  function PositionFrom(c: char, i: nat): Option<Digit>
    requires i <= 36
    decreases 36 - i
  {
    if i == 36 then None else if Key(i) == c then Some(i) else PositionFrom(c, i + 1)
  }

  function ReadDigits(text: string, n: nat): Option<seq<Digit>>
    decreases n
  {
    if n == 0 then Some([])
    else if text == "" || Position(text[0]).None? then None
    else match ReadDigits(text[1..], n - 1)
      case None => None
      case Some(ds) => Some([Position(text[0]).value] + ds)
  }

  /** Reads one printed value off the front: (value, rest). */
  function Decode(text: string): Option<(nat, string)> {
    if text == "" || Position(text[0]).None? || Position(text[0]).value == 0 then None
    else
      var n := Position(text[0]).value - 1;
      match ReadDigits(text[1..], n)
      case None => None
      case Some(ds) => if n <= |text| - 1 then Some((Value(ds), text[1 + n..])) else None
  }

  lemma EarlyKeysAreDistinct(i: nat, j: nat)
    requires i < 10 && i < j < 36
    ensures Key(i) != Key(j)
  {
  }

  lemma LateKeysAreDistinct(i: nat, j: nat)
    requires 10 <= i < j < 36
    ensures Key(i) != Key(j)
  {
  }

  lemma KeysAreDistinct(i: nat, j: nat)
    requires i < j < 36
    ensures Key(i) != Key(j)
  {
    hide Key;
    if i < 10 {
      EarlyKeysAreDistinct(i, j);
    } else {
      LateKeysAreDistinct(i, j);
    }
  }

  lemma {:induction false} PositionFromOfKey(i: nat, from: nat)
    requires from <= i < 36
    ensures PositionFrom(Key(i), from) == Some(i)
    decreases 36 - from
  {
    if from < i {
      KeysAreDistinct(from, i);
      PositionFromOfKey(i, from + 1);
    }
  }

  lemma LettersCons(ds: seq<Digit>, rest: string)
    requires ds != []
    ensures Letters(ds) + rest == [Key(ds[0])] + (Letters(ds[1..]) + rest)
  {
    hide Key;
  }

  lemma ReadCons(d: Digit, ds: seq<Digit>, tail: string)
    requires Position(Key(d)) == Some(d) && ReadDigits(tail, |ds|) == Some(ds)
    ensures ReadDigits([Key(d)] + tail, |ds| + 1) == Some([d] + ds)
  {
    hide Key, Position;
    assert ([Key(d)] + tail)[1..] == tail;
  }

  lemma {:induction false} ReadBack(ds: seq<Digit>, rest: string)
    ensures |Letters(ds)| == |ds|
    ensures ReadDigits(Letters(ds) + rest, |ds|) == Some(ds)
    decreases |ds|
  {
    hide Key, PositionFrom;
    if ds == [] {
    } else {
      PositionFromOfKey(ds[0], 0);
      ReadBack(ds[1..], rest);
      LettersCons(ds, rest);
      ReadCons(ds[0], ds[1..], Letters(ds[1..]) + rest);
      assert ds == [ds[0]] + ds[1..];
    }
  }

  lemma DecodeParts(text: string, ds: seq<Digit>, rest: string)
    requires |ds| <= 13 && |Letters(ds)| == |ds| && ReadDigits(Letters(ds) + rest, |ds|) == Some(ds)
    requires Position(Key(1 + |ds|)) == Some(1 + |ds|)
    requires text == [Key(1 + |ds|)] + Letters(ds) + rest
    ensures Decode(text) == Some((Value(ds), rest))
  {
    hide Key, Position, Letters, ReadDigits, Value;
    assert text[0] == Key(1 + |ds|);
    assert text[1..] == Letters(ds) + rest;
    assert text[1 + |ds|..] == rest;
  }

  /** A printed value can be read off the front of any text, with nothing else. */
  lemma DecodeAfterEncode(v: nat, rest: string)
    requires v < UINT64
    ensures Decode(Encoding(v) + rest) == Some((v, rest))
  {
    DigitsOfWord(v);
    hide Key, PositionFrom, Digits, Letters, ReadDigits;
    var ds := Digits(v);
    PositionFromOfKey(1 + |ds|, 0);
    ReadBack(ds, rest);
    ValueOfDigits(v);
    DecodeParts(Encoding(v) + rest, ds, rest);
  }

  /** So printed values can be concatenated and still be told apart. */
  lemma EncodingsAreUniquelyDecodable(v: nat, x: string, w: nat, y: string)
    requires v < UINT64 && w < UINT64
    ensures Encoding(v) + x == Encoding(w) + y <==> v == w && x == y
  {
    DecodeAfterEncode(v, x);
    DecodeAfterEncode(w, y);
  }

  // ------------------------------------------------------------------ the sequence

  const PERIOD: nat := 0xFFFF_FFFF   // uint32 values without 0

  /** encodeSeq's counter: uint32, skipping 0. */
  class Sequence {
    var seqNo: nat

    constructor ()
      ensures seqNo == 0
    {
      seqNo := 0;
    }

    method Next() returns (v: nat)
      requires seqNo <= PERIOD
      modifies this
      ensures v == seqNo == NextSeq(old(seqNo)) && 1 <= seqNo <= PERIOD
    {
      seqNo := (seqNo + 1) % 0x1_0000_0000;
      if seqNo == 0 {
        seqNo := (seqNo + 1) % 0x1_0000_0000;
      }
      v := seqNo;
    }
  }

  function NextSeq(s: nat): (r: nat)
    requires s <= PERIOD
    ensures 1 <= r <= PERIOD
  {
    if s == PERIOD then 1 else s + 1
  }

  /** The number that the n-th call returns, the counter starting at s. */
  function SeqAt(s: nat, n: nat): (r: nat)
    requires s <= PERIOD && n >= 1
    ensures 1 <= r <= PERIOD
  {
    if n == 1 then NextSeq(s) else NextSeq(SeqAt(s, n - 1))
  }

  lemma NextRest(x: nat)
    ensures (x + 1) % PERIOD == if x % PERIOD == PERIOD - 1 then 0 else x % PERIOD + 1
  {
  }

  lemma {:induction false} SeqAtClosed(s: nat, n: nat)
    requires s <= PERIOD && n >= 1
    ensures SeqAt(s, n) == (s + n - 1) % PERIOD + 1
  {
    if n == 1 {
    } else {
      SeqAtClosed(s, n - 1);
      NextRest(s + n - 2);
    }
  }

  /** Two calls get the same number exactly when a multiple of 2^32 - 1 calls lies
      between them. */
  lemma SequenceRepeatsExactlyByPeriod(s: nat, m: nat, n: nat)
    requires s <= PERIOD && 1 <= m <= n
    ensures SeqAt(s, m) == SeqAt(s, n) <==> (n - m) % PERIOD == 0
  {
    SeqAtClosed(s, m);
    SeqAtClosed(s, n);
    SameRest(s + m - 1, n - m);
  }

  lemma SameRest(x: nat, d: nat)
    ensures x % PERIOD == (x + d) % PERIOD <==> d % PERIOD == 0
  {
  }

  // ------------------------------------------------------------------ whole ids

  /** A timestamp before the epoch 2022-01-01 counts as 0. */
  function Elapsed(unix: int): int { if unix - 1640995200 > 0 then unix - 1640995200 else 0 }

  function IdText(node: nat, unix: int, seqNo: nat): string
    requires node < UINT64 && Elapsed(unix) < UINT64 && seqNo <= PERIOD
  {
    "S1" + (Encoding(node) + (Encoding(Elapsed(unix)) + Encoding(seqNo)))
  }

  /** GenerateShortUUID. */
  method GenerateShortId(node: nat, unix: int, counter: Sequence) returns (id: string)
    requires node < UINT64 && Elapsed(unix) < UINT64 && counter.seqNo <= PERIOD
    modifies counter
    ensures counter.seqNo == NextSeq(old(counter.seqNo))
    ensures id == IdText(node, unix, counter.seqNo)
  {
    var timeParam := unix - 1640995200;
    var a := EncodeValue(node);
    var b;
    if timeParam > 0 { b := EncodeValue(timeParam); } else { b := EncodeValue(0); }
    var v := counter.Next();
    var c := EncodeValue(v);
    id := "S1" + a + b + c;
    assert "S1" + a + b + c == "S1" + (a + (b + c));
  }

  /** What can be read back: behind the prefix stand the node, the seconds since
      2022-01-01 (none before that), the sequence number, and nothing else. */
  lemma ShortIdReadsBack(node: nat, unix: int, seqNo: nat)
    requires node < UINT64 && unix - 1640995200 < UINT64 && seqNo <= PERIOD
    ensures var id := IdText(node, unix, seqNo);
            && |id| >= 2 && id[..2] == "S1"
            && Decode(id[2..]).Some? && var (n, rest) := Decode(id[2..]).value;
               && n == node
               && Decode(rest).Some? && var (seconds, last) := Decode(rest).value;
                  && seconds == (if unix <= 1640995200 then 0 else unix - 1640995200)
                  && Decode(last) == Some((seqNo, ""))
  {
    hide Encoding, Decode;
    var x := Encoding(Elapsed(unix)) + Encoding(seqNo);
    assert IdText(node, unix, seqNo)[2..] == Encoding(node) + x;
    DecodeAfterEncode(node, x);
    DecodeAfterEncode(Elapsed(unix), Encoding(seqNo));
    DecodeAfterEncode(seqNo, "");
    assert Encoding(seqNo) + "" == Encoding(seqNo);
  }

  /** So two ids are equal exactly when node and sequence number are and the times are,
      all times up to 2022-01-01 being one. */
  lemma ShortIdDeterminesItsParts(n1: nat, t1: int, s1: nat, n2: nat, t2: int, s2: nat)
    requires n1 < UINT64 && t1 - 1640995200 < UINT64 && s1 <= PERIOD
    requires n2 < UINT64 && t2 - 1640995200 < UINT64 && s2 <= PERIOD
    ensures IdText(n1, t1, s1) == IdText(n2, t2, s2) <==>
              n1 == n2 && s1 == s2 && (t1 == t2 || (t1 <= 1640995200 && t2 <= 1640995200))
  {
    ShortIdReadsBack(n1, t1, s1);
    ShortIdReadsBack(n2, t2, s2);
    hide IdText, Decode;
    if t1 <= 1640995200 && t2 <= 1640995200 {
      EarlyTimesAreOne(n1, t1, t2, s1);
    }
  }

  lemma EarlyTimesAreOne(node: nat, t1: int, t2: int, seqNo: nat)
    requires node < UINT64 && t1 <= 1640995200 && t2 <= 1640995200 && seqNo <= PERIOD
    ensures IdText(node, t1, seqNo) == IdText(node, t2, seqNo)
  {
  }

  /** Two printed values: 0 has no digits, 36 has two, the lower one first. */
  lemma PrintedExamples()
    ensures Encoding(0) == "1" && Encoding(36) == "2y1"
  {
    assert Digits(36) == [0, 1] by { assert Digits(1) == [1]; }
    assert Letters([0, 1]) == [Key(0)] + Letters([1]) && Letters([1]) == [Key(1)] + Letters([]) by {
      assert [0, 1][1..] == [1] && [1][1..] == [];
    }
  }

  /** Ids from one node fewer than 2^32 - 1 calls apart differ, whatever the clock does. */
  lemma NearbyShortIdsDiffer(node: nat, start: nat, m: nat, tm: int, n: nat, tn: int)
    requires node < UINT64 && start <= PERIOD && 1 <= m < n < m + PERIOD
    requires tm - 1640995200 < UINT64 && tn - 1640995200 < UINT64
    ensures IdText(node, tm, SeqAt(start, m)) != IdText(node, tn, SeqAt(start, n))
  {
    hide IdText, SeqAt, Elapsed;
    SequenceRepeatsExactlyByPeriod(start, m, n);
    ShortIdDeterminesItsParts(node, tm, SeqAt(start, m), node, tn, SeqAt(start, n));
  }
}
