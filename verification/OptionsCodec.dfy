/** The record layer of the match options blob: one byte of record count, then for every record a
    little-endian 32-bit length and that many bytes of "key:value". */
module OptionsCodec {
  import opened Common

  type Byte = b: int | 0 <= b < 256

  const WORD := 0x1_0000_0000

  /** The bytes of one record, short enough for its length to be written down. */
  type Record = r: seq<Byte> | |r| < WORD

  // ---- numbers and text ----

  /** How many values k bytes hold. */
  function Range(k: nat): (n: int)
    ensures n > 0
  {
    if k == 0 then 1 else 0x100 * Range(k - 1)
  }

  function LittleEndian(b: seq<Byte>): (n: int)
    ensures 0 <= n < Range(|b|)
  {
    if |b| == 0 then 0 else LittleEndian(b[1..]) * 0x100 + b[0]
  }

  function LittleEndianBytes(n: int, k: nat): (b: seq<Byte>)
    requires 0 <= n < Range(k)
    ensures |b| == k
  {
    if k == 0 then [] else [n % 0x100] + LittleEndianBytes(n / 0x100, k - 1)
  }

  lemma {:induction false} NumberRoundTrip(n: int, k: nat)
    requires 0 <= n < Range(k)
    ensures LittleEndian(LittleEndianBytes(n, k)) == n
  {
    if k > 0 {
      var b := LittleEndianBytes(n, k);
      assert b[1..] == LittleEndianBytes(n / 0x100, k - 1);
      NumberRoundTrip(n / 0x100, k - 1);
    }
  }

  lemma SplitByte(n: int, low: Byte)
    ensures (n * 0x100 + low) / 0x100 == n && (n * 0x100 + low) % 0x100 == low
  {
  }

  lemma {:induction false} BytesRoundTrip(b: seq<Byte>)
    ensures LittleEndianBytes(LittleEndian(b), |b|) == b
  {
    if |b| > 0 {
      BytesRoundTrip(b[1..]);
      SplitByte(LittleEndian(b[1..]), b[0]);
      assert b == [b[0]] + b[1..];
    }
  }

  function Word(b: seq<Byte>): (n: int)
    requires |b| == 4
    ensures 0 <= n < WORD
  {
    assert Range(4) == WORD;
    LittleEndian(b)
  }

  function WordBytes(n: int): (b: seq<Byte>)
    requires 0 <= n < WORD
    ensures |b| == 4
  {
    assert Range(4) == WORD;
    LittleEndianBytes(n, 4)
  }

  lemma WordRoundTrip(n: int)
    requires 0 <= n < WORD
    ensures Word(WordBytes(n)) == n
  {
    NumberRoundTrip(n, 4);
  }

  /** Key and value around the first colon; the whole entry is the key if there is none. */
  function Partition(entry: string): (string, string) {
    if |entry| == 0 then ("", "")
    else if entry[0] == ':' then ("", entry[1..])
    else var (key, value) := Partition(entry[1..]); ([entry[0]] + key, value)
  }

  function Joined(key: string, value: string): string {
    key + ":" + value
  }

  lemma {:induction false} PartitionJoined(key: string, value: string)
    requires ':' !in key
    ensures Partition(Joined(key, value)) == (key, value)
  {
    if |key| == 0 {
      assert Joined(key, value)[1..] == value;
    } else {
      assert Joined(key, value)[1..] == Joined(key[1..], value);
      PartitionJoined(key[1..], value);
      assert key == [key[0]] + key[1..];
    }
  }

  predicate Ascii(s: string) {
    forall i :: 0 <= i < |s| ==> s[i] as int < 128
  }

  function AsciiBytes(s: string): (b: seq<Byte>)
    requires Ascii(s)
    ensures |b| == |s|
  {
    seq(|s|, i requires 0 <= i < |s| => s[i] as int)
  }

  /** The text decoder the walk is given; UTF-8 with replacement reads ASCII bytes as themselves. */
  type Decoder = seq<Byte> -> string

  ghost predicate ReadsAscii(decode: Decoder) {
    forall s: string :: Ascii(s) ==> decode(AsciiBytes(s)) == s
  }

  /** Every byte above ASCII read as the replacement character. */
  function AsciiOrReplacement(b: seq<Byte>): string {
    seq(|b|, i requires 0 <= i < |b| => if b[i] < 128 then b[i] as char else '\U{FFFD}')
  }

  lemma SomeDecoderReadsAscii()
    ensures ReadsAscii(AsciiOrReplacement)
  {
  }

  // ---- decoding ----

  /** One entry's effect on the settings: the value under the key, whatever stood there before. */
  function Put(pairs: map<string, string>, entry: string): map<string, string> {
    var (key, value) := Partition(entry);
    pairs[key := value]
  }

  /** The walk over `rest` with `left` records to go and `pairs` already found. */
  function Walk(rest: seq<Byte>, left: nat, pairs: map<string, string>, decode: Decoder): Option<map<string, string>>
    decreases left
  {
    if left == 0 then Some(pairs)
    else if |rest| < 4 then None
    else
      var length := Word(rest[..4]);
      if |rest| < 4 + length then None
      else Walk(rest[4 + length..], left - 1, Put(pairs, decode(rest[4..4 + length])), decode)
  }

  /** The settings a blob holds; None for the empty blob and for one that ends inside a record. */
  function Decode(inner: seq<Byte>, decode: Decoder): Option<map<string, string>> {
    if |inner| == 0 then None else Walk(inner[1..], inner[0], map[], decode)
  }

  /** Slices of the whole blob are slices of what is left of it. */
  lemma SlicesFrom(inner: seq<Byte>, pos: nat, length: nat)
    requires pos + 4 + length <= |inner|
    ensures inner[pos..][..4] == inner[pos..pos + 4]
    ensures inner[pos..][4..4 + length] == inner[pos + 4..pos + 4 + length]
    ensures inner[pos..][4 + length..] == inner[pos + 4 + length..]
  {
  }

  /** Where a step of the walk at `pos` leads, in positions of the whole blob: past the record, with its text. */
  datatype Step = Stuck | Past(pos: nat, entry: seq<Byte>)

  function StepAt(inner: seq<Byte>, pos: nat): (s: Step)
    ensures s.Past? ==> pos < s.pos <= |inner|
  {
    if pos + 4 > |inner| then Stuck
    else
      var length := Word(inner[pos..pos + 4]);
      if pos + 4 + length > |inner| then Stuck
      else Past(pos + 4 + length, inner[pos + 4..pos + 4 + length])
  }

  lemma WalkStep(inner: seq<Byte>, pos: nat, left: nat, pairs: map<string, string>, decode: Decoder)
    requires pos <= |inner| && left > 0
    ensures var s := StepAt(inner, pos);
      Walk(inner[pos..], left, pairs, decode)
        == if s.Stuck? then None else Walk(inner[s.pos..], left - 1, Put(pairs, decode(s.entry)), decode)
  {
    if pos + 4 <= |inner| {
      SlicesFrom(inner, pos, 0);
      var length := Word(inner[pos..pos + 4]);
      if pos + 4 + length <= |inner| {
        SlicesFrom(inner, pos, length);
      }
    }
  }

  /** Reads the record at `pos`, if it is all there. */
  method ReadRecord(inner: seq<Byte>, pos: nat) returns (s: Step)
    ensures s == StepAt(inner, pos)
  {
    if pos + 4 > |inner| {
      return Stuck;
    }
    var length := Word(inner[pos..pos + 4]);
    var from := pos + 4;
    if from + length > |inner| {
      return Stuck;
    }
    s := Past(from + length, inner[from..from + length]);
  }

  method DecodeMatchOptions(inner: seq<Byte>, decode: Decoder) returns (pairs: Option<map<string, string>>)
    ensures pairs == Decode(inner, decode)
  {
    if |inner| == 0 {
      return None;
    }
    var count: nat := inner[0];
    var pos: nat := 1;
    var found: map<string, string> := map[];
    for i := 0 to count
      invariant pos <= |inner|
      invariant Decode(inner, decode) == Walk(inner[pos..], count - i, found, decode)
    {
      WalkStep(inner, pos, count - i, found, decode);
      var step := ReadRecord(inner, pos);
      if step.Stuck? {
        return None;
      }
      pos, found := step.pos, Put(found, decode(step.entry));
    }
    pairs := Some(found);
  }

  // ---- encoding ----

  function Encoded(records: seq<Record>): seq<Byte> {
    if |records| == 0 then []
    else WordBytes(|records[0]|) + records[0] + Encoded(records[1..])
  }

  function Blob(records: seq<Record>): seq<Byte>
    requires |records| < 256
  {
    [|records|] + Encoded(records)
  }

  /** The settings of a list of records; a later record overwrites an earlier one of its key. */
  function PutAll(pairs: map<string, string>, records: seq<Record>, decode: Decoder): map<string, string>
    decreases |records|
  {
    if |records| == 0 then pairs else PutAll(Put(pairs, decode(records[0])), records[1..], decode)
  }

  lemma WalkOne(head: Record, rest: seq<Byte>, left: nat, pairs: map<string, string>, decode: Decoder)
    requires left > 0
    ensures Walk(WordBytes(|head|) + head + rest, left, pairs, decode)
      == Walk(rest, left - 1, Put(pairs, decode(head)), decode)
  {
    var all := WordBytes(|head|) + head + rest;
    WordRoundTrip(|head|);
    assert all[..4] == WordBytes(|head|);
    assert all[4..4 + |head|] == head;
    assert all[4 + |head|..] == rest;
  }

  lemma Reassociate(a: seq<Byte>, b: seq<Byte>, c: seq<Byte>)
    ensures a + b + c == a + (b + c)
  {
  }

  /** Walking encoded records puts each of them, whatever follows them. */
  lemma {:induction false} WalkEncoded(records: seq<Record>, after: seq<Byte>, pairs: map<string, string>,
                                       decode: Decoder)
    ensures Walk(Encoded(records) + after, |records|, pairs, decode) == Some(PutAll(pairs, records, decode))
    decreases |records|
  {
    if |records| > 0 {
      var head := records[0];
      Reassociate(WordBytes(|head|) + head, Encoded(records[1..]), after);
      WalkOne(head, Encoded(records[1..]) + after, |records|, pairs, decode);
      WalkEncoded(records[1..], after, Put(pairs, decode(head)), decode);
    }
  }

  lemma BlobDecodes(records: seq<Record>, after: seq<Byte>, decode: Decoder)
    requires |records| < 256
    ensures Decode(Blob(records) + after, decode) == Some(PutAll(map[], records, decode))
  {
    Reassociate([|records|], Encoded(records), after);
    WalkEncoded(records, after, map[], decode);
  }

  /** A walk succeeds only over the encoding of as many records as it counts, with anything after it. */
  lemma {:induction false} WalkedIsEncoded(rest: seq<Byte>, left: nat, pairs: map<string, string>, decode: Decoder)
    returns (records: seq<Record>)
    requires Walk(rest, left, pairs, decode).Some?
    ensures |records| == left && Encoded(records) <= rest
    decreases left
  {
    if left == 0 {
      records := [];
    } else {
      var head := HeadOf(rest);
      var after := rest[4 + |head|..];
      var tail := WalkedIsEncoded(after, left - 1, Put(pairs, decode(head)), decode);
      records := [head] + tail;
      assert records[1..] == tail;
      PrefixGrows(WordBytes(|head|) + head, Encoded(tail), after);
    }
  }

  /** The record that a walk's rest begins with. */
  lemma HeadOf(rest: seq<Byte>) returns (head: Record)
    requires |rest| >= 4 && |rest| >= 4 + Word(rest[..4])
    ensures head == rest[4..4 + Word(rest[..4])] && |head| == Word(rest[..4])
    ensures rest == WordBytes(|head|) + head + rest[4 + |head|..]
  {
    BytesRoundTrip(rest[..4]);
    head := rest[4..4 + Word(rest[..4])];
  }

  lemma PrefixGrows(front: seq<Byte>, a: seq<Byte>, b: seq<Byte>)
    requires a <= b
    ensures front + a <= front + b
  {
  }

  lemma DecodedIsBlob(inner: seq<Byte>, decode: Decoder) returns (records: seq<Record>)
    requires Decode(inner, decode).Some?
    ensures |records| < 256 && Blob(records) <= inner
  {
    records := WalkedIsEncoded(inner[1..], inner[0], map[], decode);
    assert inner == [inner[0]] + inner[1..];
  }

  /** A blob decodes exactly if it is an encoding of as many records as its first byte says, with
      anything after them. */
  lemma DecodesIff(inner: seq<Byte>, decode: Decoder)
    ensures Decode(inner, decode).Some? <==>
      exists records: seq<Record> :: |records| < 256 && Blob(records) <= inner
  {
    if Decode(inner, decode).Some? {
      var records := DecodedIsBlob(inner, decode);
    }
    if records: seq<Record> :| |records| < 256 && Blob(records) <= inner {
      assert inner == Blob(records) + inner[|Blob(records)|..];
      BlobDecodes(records, inner[|Blob(records)|..], decode);
    }
  }

  /** No encoding of the same number of records is a proper prefix of another. */
  lemma {:induction false} EncodingsPrefixFree(shorter: seq<Record>, longer: seq<Record>)
    requires |shorter| == |longer|
    requires Encoded(shorter) <= Encoded(longer)
    ensures shorter == longer
  {
    if |shorter| > 0 {
      var a, b := shorter[0], longer[0];
      var restA, restB := Encoded(shorter[1..]), Encoded(longer[1..]);
      Reassociate(WordBytes(|a|), a, restA);
      Reassociate(WordBytes(|b|), b, restB);
      SameFront(WordBytes(|a|), a + restA, WordBytes(|b|), b + restB);
      WordRoundTrip(|a|);
      WordRoundTrip(|b|);
      SameFront(a, restA, b, restB);
      EncodingsPrefixFree(shorter[1..], longer[1..]);
      assert shorter == [a] + shorter[1..] && longer == [b] + longer[1..];
    }
  }

  lemma SameFront(a: seq<Byte>, restA: seq<Byte>, b: seq<Byte>, restB: seq<Byte>)
    requires |a| == |b| && a + restA <= b + restB
    ensures a == b && restA <= restB
  {
    var x, y := a + restA, b + restB;
    assert a == x[..|a|] && b == y[..|a|];
    assert restA == x[|a|..] && restB == y[|a|..];
    assert x == y[..|x|];
  }

  /** Truncation is always noticed: no proper prefix of an encoding decodes. */
  lemma ProperPrefixFails(records: seq<Record>, inner: seq<Byte>, decode: Decoder)
    requires |records| < 256
    requires inner < Blob(records)
    ensures Decode(inner, decode) == None
  {
    if Decode(inner, decode).Some? {
      var found := DecodedIsBlob(inner, decode);
      assert Blob(found)[0] == inner[0] == |records|;
      SameFront([|found|], Encoded(found), [|records|], Encoded(records));
      EncodingsPrefixFree(found, records);
    }
  }

  // ---- settings ----

  datatype Setting = Setting(key: string, value: string)

  /** A setting that can be encoded: ASCII, no colon in its key, short enough. */
  type Entry = e: Setting | Ascii(e.key) && Ascii(e.value) && ':' !in e.key && |e.key| + 1 + |e.value| < WORD
    witness Setting("", "")

  function RecordOf(e: Entry): Record {
    AsciiBytes(Joined(e.key, e.value))
  }

  function RecordsOf(entries: seq<Entry>): (r: seq<Record>)
    ensures |r| == |entries|
  {
    if |entries| == 0 then [] else [RecordOf(entries[0])] + RecordsOf(entries[1..])
  }

  /** The inverse the decoder's tests use. */
  function EncodeOptions(entries: seq<Entry>): seq<Byte>
    requires |entries| < 256
  {
    Blob(RecordsOf(entries))
  }

  function Added(pairs: map<string, string>, entries: seq<Entry>): map<string, string>
    decreases |entries|
  {
    if |entries| == 0 then pairs else Added(pairs[entries[0].key := entries[0].value], entries[1..])
  }

  lemma PutRecord(pairs: map<string, string>, e: Entry, decode: Decoder)
    requires ReadsAscii(decode)
    ensures Put(pairs, decode(RecordOf(e))) == pairs[e.key := e.value]
  {
    assert Ascii(Joined(e.key, e.value));
    PartitionJoined(e.key, e.value);
  }

  lemma {:induction false} PutRecords(pairs: map<string, string>, entries: seq<Entry>, decode: Decoder)
    requires ReadsAscii(decode)
    ensures PutAll(pairs, RecordsOf(entries), decode) == Added(pairs, entries)
    decreases |entries|
  {
    if |entries| > 0 {
      PutRecord(pairs, entries[0], decode);
      assert RecordsOf(entries)[1..] == RecordsOf(entries[1..]);
      PutRecords(pairs[entries[0].key := entries[0].value], entries[1..], decode);
    }
  }

  predicate DistinctKeys(entries: seq<Entry>) {
    forall i, j :: 0 <= i < j < |entries| ==> entries[i].key != entries[j].key
  }

  lemma {:induction false} OtherKeysKept(pairs: map<string, string>, entries: seq<Entry>, key: string)
    requires forall e :: e in entries ==> e.key != key
    ensures Get(Added(pairs, entries), key) == Get(pairs, key)
    decreases |entries|
  {
    if |entries| > 0 {
      OtherKeysKept(pairs[entries[0].key := entries[0].value], entries[1..], key);
    }
  }

  lemma {:induction false} EntryKept(pairs: map<string, string>, entries: seq<Entry>, i: nat)
    requires DistinctKeys(entries) && i < |entries|
    ensures Get(Added(pairs, entries), entries[i].key) == Some(entries[i].value)
    decreases |entries|
  {
    var pairs' := pairs[entries[0].key := entries[0].value];
    if i == 0 {
      OtherKeysKept(pairs', entries[1..], entries[0].key);
    } else {
      EntryKept(pairs', entries[1..], i - 1);
    }
  }

  lemma {:induction false} OneMoreEach(pairs: map<string, string>, entries: seq<Entry>)
    requires DistinctKeys(entries) && forall e :: e in entries ==> e.key !in pairs
    ensures |Added(pairs, entries)| == |pairs| + |entries|
    decreases |entries|
  {
    if |entries| > 0 {
      OneMoreEach(pairs[entries[0].key := entries[0].value], entries[1..]);
    }
  }

  /** Decoding an encoding gives the settings back: every entry, under its own key, and nothing else. */
  lemma RoundTrip(entries: seq<Entry>, decode: Decoder)
    requires |entries| < 256 && DistinctKeys(entries) && ReadsAscii(decode)
    ensures Decode(EncodeOptions(entries), decode) == Some(Added(map[], entries))
    ensures forall i :: 0 <= i < |entries| ==> Get(Added(map[], entries), entries[i].key) == Some(entries[i].value)
    ensures |Added(map[], entries)| == |entries|
  {
    var records := RecordsOf(entries);
    BlobDecodes(records, [], decode);
    assert EncodeOptions(entries) == Blob(records) + [];
    PutRecords(map[], entries, decode);
    OneMoreEach(map[], entries);
    forall i | 0 <= i < |entries| ensures Get(Added(map[], entries), entries[i].key) == Some(entries[i].value) {
      EntryKept(map[], entries, i);
    }
  }

  // ---- the byte layout ----

  /** The low byte comes first. */
  lemma WordIs(b: seq<Byte>, a0: int, a1: int, a2: int, a3: int)
    requires |b| == 4 && b == [a0, a1, a2, a3]
    ensures Word(b) == a0 + 0x100 * a1 + 0x1_0000 * a2 + 0x100_0000 * a3
  {
    assert LittleEndian([]) == 0;
    assert b[1..][1..] == b[2..] && b[2..][1..] == b[3..] && b[3..][1..] == [];
    assert LittleEndian(b[3..]) == a3;
    assert LittleEndian(b[2..]) == a3 * 0x100 + a2;
    assert LittleEndian(b[1..]) == LittleEndian(b[2..]) * 0x100 + a1;
  }

  /** One record of three bytes, "1:2": its count, its length low byte first, then the text. */
  lemma OneRecordBlob(decode: Decoder)
    requires ReadsAscii(decode)
    ensures Decode([1, 3, 0, 0, 0, 49, 58, 50], decode) == Some(map["1" := "2"])
  {
    var inner: seq<Byte> := [1, 3, 0, 0, 0, 49, 58, 50];
    var rest := inner[1..];
    WordIs(rest[..4], 3, 0, 0, 0);
    assert rest[4..7] == AsciiBytes("1:2");
    PartitionJoined("1", "2");
    assert Joined("1", "2") == "1:2";
    assert Walk(rest[7..], 0, Put(map[], "1:2"), decode) == Some(Put(map[], "1:2"));
    assert Walk(rest, 1, map[], decode) == Walk(rest[7..], 0, Put(map[], decode(rest[4..7])), decode);
  }
}
