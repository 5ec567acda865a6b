/** How close to the end of a closed log a value can lie.  WPILib's reader skips a record
    within 16 bytes of the end of the file. */
module WpiLogEnd {
  import opened Values
  import opened WpiLog
  import opened WpiLogProofs

  ghost predicate FarFromEnd(records: seq<Record>)
    requires AllWritable(records)
  {
    forall k | 0 <= k < |records| && records[k].id != CONTROL_ENTRY :: FarAt(records, k)
  }

  /** Record `k` starts at least 16 bytes before the end. */
  ghost predicate FarAt(records: seq<Record>, k: nat)
    requires AllWritable(records) && k < |records|
  {
    SuffixWritable(records, k);
    |EncRecords(records[k..])| >= 16
  }

  lemma SuffixWritable(records: seq<Record>, k: nat)
    requires AllWritable(records) && k <= |records|
    ensures AllWritable(records[k..])
  {}

  lemma RecordLength(r: Record)
    requires Writable(r)
    ensures |EncRecord(r)| == 1 + MinLen(r.id) + MinLen(|r.payload|) + MinLen(r.ts) + |r.payload|
  {
    hide Le, MinLen, Bits;
    Widths(r);
  }

  lemma {:induction false} SuffixLength(log: seq<Record>)
    requires AllWritable(log) && |log| >= 2
    ensures |EncRecords(log)| >= |EncRecord(log[0])| + |EncRecord(log[|log| - 1])|
    decreases |log|
  {
    hide EncRecord;
    if |log| == 2 {
      assert log[1..] == [log[1]] && log[1..][1..] == [];
      assert EncRecords(log[1..]) == EncRecord(log[1]) + EncRecords([]);
    } else {
      SuffixLength(log[1..]);
    }
  }

  /** A finish record takes at least 12 bytes exactly from timestamp 2^24 on. */
  lemma FinishLength(id: nat, ts: nat)
    requires id < TWO_32 && ts < TWO_64
    ensures Writable(Record(CONTROL_ENTRY, ts, FinishPayload(id)))
    ensures var n := |EncRecord(Record(CONTROL_ENTRY, ts, FinishPayload(id)))|; 0x100_0000 <= ts <==> 12 <= n
  {
    hide Pow256, EncRecord, FinishPayload;
    FinishComesBack(id);
    RecordLength(Record(CONTROL_ENTRY, ts, FinishPayload(id)));
    Powers();
    MinLenFits(ts, 3);
    assert MinLen(0) == 1 && MinLen(5) == 1;
  }

  lemma {:induction false} FinishEachShape(l: Log, ids: seq<nat>, ts: nat)
    ensures var records := FinishEach(l, ids, ts).records;
            && |records| == |l.records| + |ids| && records[..|l.records|] == l.records
            && (forall k | |l.records| <= k < |records| ::
                  records[k] == Record(CONTROL_ENTRY, ts, FinishPayload(ids[k - |l.records|])))
    decreases |ids|
  {
    hide FinishPayload;
    if ids != [] {
      FinishEachShape(l, ids[..|ids| - 1], ts);
    }
  }

  /** With a finish timestamp of at least 2^24, no value lies where a reader skips it. */
  lemma {:induction false} ValuesAreFar(data: seq<Datum>, ids: seq<nat>, ts: nat)
    requires AllRecordable(data) && |data| < TWO_32 - 1 && 0x100_0000 <= ts < TWO_64
    requires Lists(ids, AppendAll(Fresh, data).entries)
    ensures var records := FinishAll(AppendAll(Fresh, data), ids, ts).records;
            AllWritable(records) && FarFromEnd(records)
  {
    hide AppendAll, FinishEach, EncRecords, FinishPayload, AllReadable, EncRecord, MinLen;
    LogReadable(data, ids, ts);
    var l := AppendAll(Fresh, data);
    var records := FinishAll(l, ids, ts).records;
    AllReadableWritable(records);
    FinishEachShape(l.(entries := map[]), ids, ts);
    if data == [] {
      NothingAppended();
    } else {
      SomethingOpen(data, ids);
      forall k | 0 <= k < |records| && records[k].id != CONTROL_ENTRY ensures FarAt(records, k) {
        var tail := records[k..];
        SuffixWritable(records, k);
        assert k < |l.records|;
        assert tail[|tail| - 1] == Record(CONTROL_ENTRY, ts, FinishPayload(ids[|ids| - 1]));
        assert ids[|ids| - 1] < TWO_32 by { IdSmall(data, ids, |ids| - 1); }
        FinishLength(ids[|ids| - 1], ts);
        SuffixLength(tail);
        RecordLength(tail[0]);
      }
    }
  }

  /** How many bytes a finish record at `ts` takes. */
  function FinishSize(ts: nat): nat { 8 + MinLen(ts) }

  lemma FinishSizeIs(id: nat, ts: nat)
    requires id < TWO_32 && ts < TWO_64
    ensures var r := Record(CONTROL_ENTRY, ts, FinishPayload(id)); Writable(r) && |EncRecord(r)| == FinishSize(ts)
  {
    hide EncRecord, FinishPayload;
    FinishComesBack(id);
    RecordLength(Record(CONTROL_ENTRY, ts, FinishPayload(id)));
    assert MinLen(0) == 1 && MinLen(5) == 1;
  }

  lemma {:induction false} SuffixShrinks(records: seq<Record>, j: nat, k: nat)
    requires AllWritable(records) && j <= k <= |records|
    ensures AllWritable(records[j..]) && AllWritable(records[k..])
    ensures |EncRecords(records[k..])| <= |EncRecords(records[j..])|
    decreases k - j
  {
    hide EncRecord;
    if j < k {
      SuffixShrinks(records, j + 1, k);
      assert records[j..][1..] == records[j + 1..];
    }
  }

  /** From the last record before the closing on. */
  lemma {:induction false} ClosingLength(l: Log, ids: seq<nat>, ts: nat)
    requires l.records != [] && AllWritable(l.records) && ts < TWO_64 && forall k | 0 <= k < |ids| :: ids[k] < TWO_32
    ensures var records, n := FinishEach(l, ids, ts).records, |l.records| - 1;
            && AllWritable(records) && n < |records| && AllWritable(records[n..])
            && |EncRecords(records[n..])| == |EncRecord(l.records[n])| + |ids| * FinishSize(ts)
    decreases |ids|
  {
    hide EncRecord, EncRecords, FinishPayload, FinishSize, Writable, AllWritable;
    var n := |l.records| - 1;
    SuffixWritable(l.records, n);
    if ids == [] {
      assert l.records[n..] == [l.records[n]];
      OneRecord(l.records[n]);
      OneMore(0, FinishSize(ts));
    } else {
      var m := |ids| - 1;
      ClosingLength(l, ids[..m], ts);
      FinishSizeIs(ids[m], ts);
      var init, r := FinishEach(l, ids[..m], ts).records, Record(CONTROL_ENTRY, ts, FinishPayload(ids[m]));
      EncRecordsMore(init, r);
      EncRecordsMore(init[n..], r);
      assert (init + [r])[n..] == init[n..] + [r];
      OneMore(m, FinishSize(ts));
    }
  }

  lemma OneRecord(r: Record)
    requires AllWritable([r])
    ensures Writable(r) && |EncRecords([r])| == |EncRecord(r)|
  {
    hide EncRecord;
    assert Writable([r][0]);
    assert [r][1..] == [];
  }

  lemma OneMore(m: nat, size: nat)
    ensures (m + 1) * size == m * size + size && 0 * size == 0
  {
  }

  lemma AppendEnds(l: Log, d: Datum)
    ensures Append(l, d).records != []
    ensures var r := Append(l, d).records[|Append(l, d).records| - 1]; r.ts == d.ts && r.payload == d.payload
    ensures IdsBelow(l.entries, l.nextId) && (forall n | n in l.entries :: l.entries[n].id > 0) && l.nextId > 0 ==>
              Append(l, d).records[|Append(l, d).records| - 1].id > 0
  {
    hide StartPayload, FinishPayload;
  }

  /** The last record of an unclosed log is its last value. */
  lemma LastIsValue(data: seq<Datum>)
    requires AllRecordable(data) && |data| < TWO_32 - 1 && data != []
    ensures var records := AppendAll(Fresh, data).records;
            && records != [] && AllWritable(records)
            && var r := records[|records| - 1];
               r.id != CONTROL_ENTRY && r.ts == data[|data| - 1].ts && r.payload == data[|data| - 1].payload
  {
    hide Append, SeeAll, Recordable;
    var n := |data| - 1;
    AppendAllReadable(data);
    AllReadableWritable(AppendAll(Fresh, data).records);
    AppendAllReadable(data[..n]);
    AppendAllInStep(data[..n]);
    var l := AppendAll(Fresh, data[..n]);
    AppendEnds(l, data[n]);
  }

  /** Whether a closed log keeps its values clear of the end is decided by the length of its
      last value record and of the finish records after it. */
  lemma {:induction false} ClosedFarIff(data: seq<Datum>, ids: seq<nat>, ts: nat)
    requires Closable(data, ids) && data != [] && ts < TWO_64
    ensures var records := AppendAll(Fresh, data).records;
            && records != [] && AllWritable(records)
            && (ClosedFar(data, ids, ts) <==> |EncRecord(records[|records| - 1])| + |ids| * FinishSize(ts) >= 16)
  {
    hide AppendAll, FinishEach, EncRecords, FinishPayload, AllReadable, EncRecord, FinishSize, AllRecordable;
    LogReadable(data, ids, ts);
    LastIsValue(data);
    var l := AppendAll(Fresh, data);
    var records, n := FinishAll(l, ids, ts).records, |l.records| - 1;
    AllReadableWritable(records);
    forall k | 0 <= k < |ids| ensures ids[k] < TWO_32 { IdSmall(data, ids, k); }
    ClosingLength(l.(entries := map[]), ids, ts);
    FinishEachShape(l.(entries := map[]), ids, ts);
    assert records[n] == l.records[n];
    if |EncRecords(records[n..])| >= 16 {
      forall k | 0 <= k < |records| && records[k].id != CONTROL_ENTRY ensures FarAt(records, k) {
        assert k <= n;
        SuffixShrinks(records, k, n);
      }
    } else {
      assert !FarAt(records, n);
    }
  }

  lemma NothingAppended()
    ensures AppendAll(Fresh, []) == Fresh
  {}

  lemma IdSmall(data: seq<Datum>, ids: seq<nat>, k: nat)
    requires AllRecordable(data) && |data| < TWO_32 - 1 && Lists(ids, AppendAll(Fresh, data).entries) && k < |ids|
    ensures ids[k] < TWO_32
  {
    hide AppendAll;
    AppendAllReadable(data);
    assert ids[k] in ids;
  }

  lemma SomethingOpen(data: seq<Datum>, ids: seq<nat>)
    requires AllRecordable(data) && |data| < TWO_32 - 1 && data != [] && Lists(ids, AppendAll(Fresh, data).entries)
    ensures ids != []
  {
    hide AppendAll, SeeAll;
    AppendAllInStep(data);
    var entries := AppendAll(Fresh, data).entries;
    var n :| n in entries;
    assert entries[n].id in ids;
  }

  /** A value of no bytes on an unnamed raw channel at time 0. */
  const Tiny: Datum := Datum([], [0x72, 0x61, 0x77], 0, [])

  /** Below 2^24 the shortest log there is puts its only value too close to the end. */
  lemma {:induction false} TinyIsNear(ts: nat)
    requires ts < 0x100_0000
    ensures AllRecordable([Tiny]) && Lists([1], AppendAll(Fresh, [Tiny]).entries)
    ensures var records := FinishAll(AppendAll(Fresh, [Tiny]), [1], ts).records;
            AllWritable(records) && !FarFromEnd(records)
  {
    hide EncRecords, FinishPayload, AllReadable, EncRecord, MinLen, StartPayload;
    TinyAppended();
    var l := AppendAll(Fresh, [Tiny]);
    LogReadable([Tiny], [1], ts);
    var records := FinishAll(l, [1], ts).records;
    AllReadableWritable(records);
    FinishEachShape(l.(entries := map[]), [1], ts);
    var value, finish := Record(1, 0, []), Record(CONTROL_ENTRY, ts, FinishPayload(1));
    assert records[1] == value;
    assert records[1..] == [value, finish];
    FinishLength(1, ts);
    RecordLength(value);
    assert MinLen(0) == 1 && MinLen(1) == 1 by { SmallLens(); }
    TwoRecords(value, finish);
    assert !FarAt(records, 1);
  }

  lemma SmallLens()
    ensures MinLen(0) == 1 && MinLen(1) == 1
  {}

  lemma TwoRecords(a: Record, b: Record)
    requires Writable(a) && Writable(b)
    ensures AllWritable([a, b]) && |EncRecords([a, b])| == |EncRecord(a)| + |EncRecord(b)|
  {
    hide EncRecord;
    assert [a, b][1..] == [b] && [b][1..] == [];
    assert EncRecords([b]) == EncRecord(b) + EncRecords([]);
  }

  lemma TinyAppended()
    ensures AllRecordable([Tiny])
    ensures var l := AppendAll(Fresh, [Tiny]);
            && |l.records| == 2 && l.records[1] == Record(1, 0, []) && l.entries == map[[] := Entry(1, Tiny.typeName)]
            && Lists([1], l.entries)
  {
    hide StartPayload;
    assert [Tiny][..0] == [];
    assert AppendAll(Fresh, [Tiny]) == Append(Fresh, Tiny);
    var e := map[[] := Entry(1, Tiny.typeName)];
    var name: Text := [];
    assert name in e && e[name].id == 1;
  }

  /** Every log closed at `ts` keeps its values clear of the end. */
  ghost predicate AlwaysFar(ts: nat) {
    forall data, ids | Closable(data, ids) :: ClosedFar(data, ids, ts)
  }

  ghost predicate Closable(data: seq<Datum>, ids: seq<nat>) {
    AllRecordable(data) && |data| < TWO_32 - 1 && Lists(ids, AppendAll(Fresh, data).entries)
  }

  ghost predicate ClosedFar(data: seq<Datum>, ids: seq<nat>, ts: nat) {
    var records := FinishAll(AppendAll(Fresh, data), ids, ts).records;
    AllWritable(records) && FarFromEnd(records)
  }

  /** The margin the reader needs is there for every log exactly when the closing
      timestamp is at least 2^24 microseconds. */
  lemma {:induction false} FarExactly(ts: nat)
    requires ts < TWO_64
    ensures AlwaysFar(ts) <==> 0x100_0000 <= ts
  {
    if 0x100_0000 <= ts {
      forall data, ids | Closable(data, ids) ensures ClosedFar(data, ids, ts) {
        ValuesAreFar(data, ids, ts);
      }
    } else {
      hide FinishAll, AppendAll;
      TinyIsNear(ts);
      assert Closable([Tiny], [1]);
      assert !ClosedFar([Tiny], [1], ts);
    }
  }
}
