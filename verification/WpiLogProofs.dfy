/** What a WPILOG reader makes of anything the writer can produce. */
module WpiLogProofs {
  import opened Values
  import opened WpiLog

  // --------------------------------------------------------------- little endian

  lemma {:induction false} LeRound(n: nat, x: nat)
    requires x < Pow256(n)
    ensures FromLe(Le(n, x)) == x
  {
    if n > 0 {
      LeRound(n - 1, x / 256);
      assert Le(n, x)[1..] == Le(n - 1, x / 256);
    }
  }

  lemma {:induction false} FromLeBound(s: seq<byte>)
    ensures FromLe(s) < Pow256(|s|)
  {
    if s != [] {
      FromLeBound(s[1..]);
    }
  }

  lemma MinRound(x: nat)
    ensures FromLe(Le(MinLen(x), x)) == x
  {
    MinLenFits(x, MinLen(x));
    LeRound(MinLen(x), x);
  }

  // --------------------------------------------------------------------- records

  lemma BitFields(x: int, y: int, z: int)
    requires 0 <= x < 4 && 0 <= y < 4 && 0 <= z < 8
    ensures var m := x + 4 * y + 16 * z; m % 4 == x && m / 4 % 4 == y && m / 16 % 8 == z
  {
    var m := x + 4 * y + 16 * z;
    assert m / 4 == y + 4 * z;
    assert m / 16 == z;
  }

  lemma BitsSplit(a: nat, b: nat, c: nat)
    requires 1 <= a <= 4 && 1 <= b <= 8 && 1 <= c <= 8
    ensures var m := Bits(a, b, c);
            && m % 4 + 1 == a && m / 4 % 4 + 1 == (b - 1) % 4 + 1
            && (b <= 4 ==> m / 16 % 8 + 1 == c)
  {
    var spill, stamp := (b - 1) / 4, c - 1;
    BitFields(a - 1, (b - 1) % 4, if spill == 1 then stamp - stamp % 2 + 1 else stamp);
  }

  /** Three fields after a first byte, cut where they were joined. */
  lemma Fields(bits: byte, x: seq<byte>, y: seq<byte>, z: seq<byte>, p: seq<byte>, tail: seq<byte>)
    ensures var d := [bits] + x + y + z + p + tail;
            var i, j, k := 1 + |x|, 1 + |x| + |y|, 1 + |x| + |y| + |z|;
            && d[0] == bits && d[1..i] == x && d[i..j] == y && d[j..k] == z && d[k..k + |p|] == p
  {
    var d := [bits] + x + y + z + p + tail;
    assert d == [bits] + (x + (y + (z + (p + tail))));
  }

  /** A record with a payload under 4 GiB reads back whole, whatever follows it. */
  lemma {:induction false} RecordComesBack(r: Record, tail: seq<byte>)
    requires Writable(r) && |r.payload| < TWO_32
    ensures ParseRecord(EncRecord(r) + tail) == Some((r, |EncRecord(r)|))
  {
    hide Le, FromLe, MinLen, Bits;
    Widths(r);
    var a, b, c := MinLen(r.id), MinLen(|r.payload|), MinLen(r.ts);
    BitsSplit(a, b, c);
    Fields(Bits(a, b, c), Le(a, r.id), Le(b, |r.payload|), Le(c, r.ts), r.payload, tail);
    MinRound(r.id);
    MinRound(|r.payload|);
    MinRound(r.ts);
  }

  /** A record reads back exactly when its payload is under 4 GiB: past that the size
      needs more bytes than its two bits can say. */
  lemma {:induction false} RecordExact(r: Record)
    requires Writable(r)
    ensures ParseRecord(EncRecord(r)) == Some((r, |EncRecord(r)|)) <==> |r.payload| < TWO_32
  {
    if |r.payload| < TWO_32 {
      RecordComesBack(r, []);
      assert EncRecord(r) + [] == EncRecord(r);
    } else {
      hide EncRecord;
      if ParseRecord(EncRecord(r)).Some? {
        ParsedSmall(EncRecord(r));
      }
    }
  }

  lemma ParsedSmall(data: seq<byte>)
    requires ParseRecord(data).Some?
    ensures |ParseRecord(data).value.0.payload| < TWO_32
  {
    hide FromLe, Pow256;
    var a, b := data[0] % 4 + 1, data[0] / 4 % 4 + 1;
    FromLeBound(data[1 + a..1 + a + b]);
    Powers();
    PowMono(b, 4);
  }

  predicate Readable(r: Record) { Writable(r) && |r.payload| < TWO_32 }

  lemma {:induction false} RecordsComeBack(log: seq<Record>)
    requires AllReadable(log)
    ensures AllWritable(log) && ParseRecords(EncRecords(log)) == Some(log)
    decreases |log|
  {
    hide ParseRecord, EncRecord;
    AllReadableWritable(log);
    if log != [] {
      var e, more := EncRecord(log[0]), EncRecords(log[1..]);
      RecordComesBack(log[0], more);
      assert (e + more)[|e|..] == more;
      assert e + more != [] by { assert ParseRecord(e + more).Some?; }
      RecordsComeBack(log[1..]);
      assert [log[0]] + log[1..] == log;
    }
  }

  ghost predicate AllReadable(records: seq<Record>) { forall k | 0 <= k < |records| :: Readable(records[k]) }

  lemma AllReadableWritable(log: seq<Record>)
    requires AllReadable(log)
    ensures AllWritable(log)
  {
    forall k | 0 <= k < |log| ensures Writable(log[k]) {
      assert Readable(log[k]);
    }
  }

  lemma {:induction false} EncRecordsMore(log: seq<Record>, r: Record)
    requires AllWritable(log) && Writable(r)
    ensures AllWritable(log + [r]) && EncRecords(log + [r]) == EncRecords(log) + EncRecord(r)
    decreases |log|
  {
    hide EncRecord, Writable;
    if log == [] {
      assert [] + [r] == [r] && [r][1..] == [];
      assert EncRecords([r]) == EncRecord(r) + EncRecords([]);
    } else {
      EncRecordsMore(log[1..], r);
      assert (log + [r])[1..] == log[1..] + [r];
    }
  }

  /** Where the parts of the file header lie. */
  lemma HeaderParts(m: seq<byte>, v: seq<byte>, n: seq<byte>, extra: seq<byte>, body: seq<byte>)
    requires |m| == 6 && |v| == 2 && |n| == 4
    ensures var d := m + v + n + extra + body;
            |d| == 12 + |extra| + |body| && d[..6] == m && d[6..8] == v && d[8..12] == n && d[12 + |extra|..] == body
  {
    assert m + v + n + extra + body == m + (v + (n + (extra + body)));
  }

  lemma {:induction false} FileComesBack(extra: Text, log: seq<Record>)
    requires |extra| < TWO_32 && AllReadable(log)
    ensures AllWritable(log) && ParseFile(FileHeader(extra) + EncRecords(log)) == Some(log)
  {
    hide Le, FromLe, ParseRecords, EncRecords, Pow256, AllReadable, AllWritable;
    RecordsComeBack(log);
    HeaderParts(MAGIC, Le(2, 0x0100), Le(4, |extra|), extra, EncRecords(log));
    Powers();
    PowTwo();
    LeRound(2, 0x0100);
    LeRound(4, |extra|);
  }

  lemma PowTwo()
    ensures Pow256(2) == 0x1_0000
  {
    assert Pow256(2) == 256 * Pow256(1);
  }

  // ------------------------------------------------------------- control records

  lemma {:induction false} FinishComesBack(id: nat)
    requires id < TWO_32
    ensures ParseControl(FinishPayload(id)) == Some(Finish(id)) && |FinishPayload(id)| == 5
  {
    hide Le, FromLe, Pow256;
    Powers();
    LeRound(4, id);
    assert FinishPayload(id)[1..5] == Le(4, id);
  }

  lemma {:induction false} StartComesBack(id: nat, name: Text, typeName: Text)
    requires id < TWO_32 && |name| < TWO_32 && |typeName| < TWO_32
    ensures ParseControl(StartPayload(id, name, typeName)) == Some(Start(id, name, typeName))
    ensures |StartPayload(id, name, typeName)| == 17 + |name| + |typeName|
  {
    hide Le, FromLe, Pow256;
    Powers();
    LeRound(4, id);
    LeRound(4, |name|);
    LeRound(4, |typeName|);
    var p := StartPayload(id, name, typeName);
    var rest := 9 + |name|;
    assert p == [CONTROL_START] + (Le(4, id) + (Le(4, |name|) + (name + (Le(4, |typeName|) + (typeName + Le(4, 0))))));
    assert p[1..5] == Le(4, id);
    assert p[5..9] == Le(4, |name|);
    assert p[9..rest] == name;
    assert p[rest..rest + 4] == Le(4, |typeName|);
    assert p[rest + 4..rest + 4 + |typeName|] == typeName;
  }

  // ------------------------------------------------------------- the entry lifecycle

  lemma SeeMore(records: seq<Record>, r: Record)
    ensures SeeAll(records + [r]) == See(SeeAll(records), r)
  {
    assert (records + [r])[..|records|] == records;
  }

  /** A reader's open entries are the writer's, and every id it has seen was handed out. */
  ghost predicate InStep(entries: map<Text, Entry>, nextId: nat, v: View) {
    && v.ok && nextId > 0
    && (forall i | i in v.used :: 0 < i < nextId)
    && (forall i | i in v.open :: i in v.used && v.open[i].0 in entries && entries[v.open[i].0].id == i)
    && (forall n | n in entries :: entries[n].id in v.open && v.open[entries[n].id] == (n, entries[n].typeName))
  }

  lemma StartInStep(l: Log, name: Text, typeName: Text, ts: nat, entries: map<Text, Entry>)
    requires InStep(entries, l.nextId, SeeAll(l.records)) && name !in entries
    requires l.nextId < TWO_32 && |name| < TWO_32 && |typeName| < TWO_32
    ensures var e := StartEntry(l, name, typeName, ts);
            InStep(entries[name := Entry(l.nextId, typeName)], l.nextId + 1, SeeAll(e.records))
            && SeeAll(e.records).data == SeeAll(l.records).data
  {
    hide SeeAll, StartPayload, ParseControl;
    StartComesBack(l.nextId, name, typeName);
    SeeMore(l.records, Record(CONTROL_ENTRY, ts, StartPayload(l.nextId, name, typeName)));
  }

  lemma FinishInStep(l: Log, name: Text, ts: nat, entries: map<Text, Entry>)
    requires InStep(entries, l.nextId, SeeAll(l.records)) && name in entries && l.nextId <= TWO_32
    ensures var e := FinishEntry(l, entries[name].id, ts);
            InStep(entries - {name}, l.nextId, SeeAll(e.records)) && SeeAll(e.records).data == SeeAll(l.records).data
  {
    hide SeeAll, FinishPayload, ParseControl;
    var id := entries[name].id;
    FinishComesBack(id);
    SeeMore(l.records, Record(CONTROL_ENTRY, ts, FinishPayload(id)));
  }

  /** Lengths a record can carry: both fit their fields and the start record fits too. */
  predicate Recordable(d: Datum) {
    |d.channel| + |d.typeName| + 17 < TWO_32 && d.ts < TWO_64 && |d.payload| < TWO_32
  }

  lemma EnsureInStep(l: Log, d: Datum)
    requires InStep(l.entries, l.nextId, SeeAll(l.records)) && Recordable(d) && l.nextId < TWO_32
    ensures var e := EnsureEntry(l, d.channel, d.typeName, d.ts);
            && InStep(e.entries, e.nextId, SeeAll(e.records)) && SeeAll(e.records).data == SeeAll(l.records).data
            && e.entries[d.channel].typeName == d.typeName && l.nextId <= e.nextId <= l.nextId + 1
  {
    hide SeeAll, InStep, StartPayload, FinishPayload;
    if d.channel !in l.entries {
      StartInStep(l, d.channel, d.typeName, d.ts, l.entries);
    } else if l.entries[d.channel].typeName != d.typeName {
      var f := FinishEntry(l, l.entries[d.channel].id, d.ts);
      FinishInStep(l, d.channel, d.ts, l.entries);
      var rest := l.entries - {d.channel};
      StartInStep(f, d.channel, d.typeName, d.ts, rest);
      assert rest[d.channel := Entry(l.nextId, d.typeName)] == l.entries[d.channel := Entry(l.nextId, d.typeName)];
    }
  }

  lemma {:induction false} AppendInStep(l: Log, d: Datum)
    requires InStep(l.entries, l.nextId, SeeAll(l.records)) && Recordable(d) && l.nextId < TWO_32
    ensures var e := Append(l, d);
            && InStep(e.entries, e.nextId, SeeAll(e.records)) && SeeAll(e.records).data == SeeAll(l.records).data + [d]
            && l.nextId <= e.nextId <= l.nextId + 1 && e.entries != map[]
  {
    hide SeeAll, EnsureEntry;
    EnsureInStep(l, d);
    var e := EnsureEntry(l, d.channel, d.typeName, d.ts);
    SeeMore(e.records, Record(e.entries[d.channel].id, d.ts, d.payload));
    assert d.channel in Append(l, d).entries;
  }

  ghost predicate AllRecordable(data: seq<Datum>) { forall k | 0 <= k < |data| :: Recordable(data[k]) }

  lemma {:induction false} AppendAllInStep(data: seq<Datum>)
    requires AllRecordable(data) && |data| < TWO_32 - 1
    ensures var l := AppendAll(Fresh, data);
            && InStep(l.entries, l.nextId, SeeAll(l.records)) && SeeAll(l.records).data == data
            && l.nextId <= |data| + 1 && (data != [] ==> l.entries != map[])
    decreases |data|
  {
    hide Append, See, Recordable;
    if data == [] {
      EmptyInStep();
    } else {
      var n := |data| - 1;
      AppendAllInStep(data[..n]);
      AppendInStep(AppendAll(Fresh, data[..n]), data[n]);
      assert data[..n] + [data[n]] == data;
    }
  }

  lemma EmptyInStep()
    ensures InStep(map[], 1, SeeAll([])) && SeeAll([]).data == []
  {}

  /** The entries whose ids are not in `ids`. */
  function Without(entries: map<Text, Entry>, ids: seq<nat>): map<Text, Entry> {
    map n | n in entries && entries[n].id !in ids :: entries[n]
  }

  lemma {:induction false} FinishEachInStep(l: Log, ids: seq<nat>, ts: nat, entries: map<Text, Entry>)
    requires InStep(entries, l.nextId, SeeAll(l.records)) && l.nextId <= TWO_32
    requires forall j, k | 0 <= j < k < |ids| :: ids[j] != ids[k]
    requires forall k | 0 <= k < |ids| :: HasId(entries, ids[k])
    ensures var e := FinishEach(l, ids, ts);
            && InStep(Without(entries, ids), e.nextId, SeeAll(e.records))
            && SeeAll(e.records).data == SeeAll(l.records).data
            && e.nextId == l.nextId && e.entries == l.entries
    decreases |ids|
  {
    hide SeeAll, InStep, FinishPayload;
    if ids == [] {
      assert Without(entries, ids) == entries;
    } else {
      var n := |ids| - 1;
      FinishEachInStep(l, ids[..n], ts, entries);
      var m := FinishEach(l, ids[..n], ts);
      var rest := Without(entries, ids[..n]);
      assert HasId(entries, ids[n]);
      var name :| name in entries && entries[name].id == ids[n];
      assert ids[n] !in ids[..n];
      FinishInStep(m, name, ts, rest);
      WithoutOne(entries, ids, m, name);
    }
  }

  ghost predicate HasId(entries: map<Text, Entry>, id: nat) { exists n :: n in entries && entries[n].id == id }

  /** Ids are held by one channel each, so that removing the channel removes the id. */
  lemma WithoutOne(entries: map<Text, Entry>, ids: seq<nat>, l: Log, name: Text)
    requires ids != [] && name in entries && entries[name].id == ids[|ids| - 1]
    requires InStep(Without(entries, ids[..|ids| - 1]), l.nextId, SeeAll(l.records))
    requires ids[|ids| - 1] !in ids[..|ids| - 1]
    ensures Without(entries, ids[..|ids| - 1]) - {name} == Without(entries, ids)
  {
    hide SeeAll;
    var init, last := ids[..|ids| - 1], ids[|ids| - 1];
    var rest := Without(entries, init);
    forall i ensures i in ids <==> i in init || i == last {
      assert ids == init + [last];
    }
    forall n | n in rest && n != name ensures rest[n].id != last {
      assert rest[name].id == last;
    }
  }

  // ----------------------------------------------------------------- main results

  /** A log of any appends, then closed, tells a reader exactly what was appended: every
      value under its channel and type and in order, no id started twice or used while not
      open, and every entry finished once. */
  lemma {:induction false} LogTellsAll(data: seq<Datum>, ids: seq<nat>, ts: nat)
    requires AllRecordable(data) && |data| < TWO_32 - 1 && Lists(ids, AppendAll(Fresh, data).entries)
    ensures var v := SeeAll(FinishAll(AppendAll(Fresh, data), ids, ts).records);
            v.ok && v.data == data && v.open == map[]
  {
    hide Append, See, Recordable, SeeAll, FinishEach;
    AppendAllInStep(data);
    var l := AppendAll(Fresh, data);
    var cleared := l.(entries := map[]);
    forall k | 0 <= k < |ids| ensures HasId(l.entries, ids[k]) {
      assert ids[k] in ids;
    }
    FinishEachInStep(cleared, ids, ts, l.entries);
    forall n | n in l.entries ensures l.entries[n].id in ids {}
    assert Without(l.entries, ids) == map[];
    var v := SeeAll(FinishAll(l, ids, ts).records);
    assert v.open == map[];
  }

  lemma ReadableMore(l: Log, r: Record)
    requires AllReadable(l.records) && Readable(r)
    ensures AllReadable(Put(l, r).records)
  {}

  lemma FinishReadable(l: Log, id: nat, ts: nat)
    requires AllReadable(l.records) && id < TWO_32 && ts < TWO_64
    ensures AllReadable(FinishEntry(l, id, ts).records)
  {
    hide FinishPayload;
    FinishComesBack(id);
    ReadableMore(l, Record(CONTROL_ENTRY, ts, FinishPayload(id)));
  }

  lemma StartReadable(l: Log, d: Datum)
    requires AllReadable(l.records) && l.nextId < TWO_32 && Recordable(d)
    ensures AllReadable(StartEntry(l, d.channel, d.typeName, d.ts).records)
  {
    hide StartPayload, AllReadable;
    StartComesBack(l.nextId, d.channel, d.typeName);
    ReadableMore(l, Record(CONTROL_ENTRY, d.ts, StartPayload(l.nextId, d.channel, d.typeName)));
  }

  ghost predicate IdsBelow(entries: map<Text, Entry>, nextId: nat) { forall n | n in entries :: entries[n].id < nextId }

  lemma AppendReadable(l: Log, d: Datum)
    requires AllReadable(l.records) && IdsBelow(l.entries, l.nextId) && l.nextId < TWO_32 && Recordable(d)
    ensures AllReadable(Append(l, d).records) && IdsBelow(Append(l, d).entries, Append(l, d).nextId)
    ensures Append(l, d).nextId <= l.nextId + 1
  {
    hide AllReadable, StartPayload, FinishPayload;
    if d.channel !in l.entries {
      StartReadable(l, d);
    } else if l.entries[d.channel].typeName != d.typeName {
      FinishReadable(l, l.entries[d.channel].id, d.ts);
      StartReadable(FinishEntry(l, l.entries[d.channel].id, d.ts), d);
    }
    var e := EnsureEntry(l, d.channel, d.typeName, d.ts);
    ReadableMore(e, Record(e.entries[d.channel].id, d.ts, d.payload));
  }

  lemma {:induction false} AppendAllReadable(data: seq<Datum>)
    requires AllRecordable(data) && |data| < TWO_32 - 1
    ensures var l := AppendAll(Fresh, data);
            AllReadable(l.records) && IdsBelow(l.entries, l.nextId) && l.nextId <= |data| + 1
    decreases |data|
  {
    hide Append, Recordable;
    if data != [] {
      var n := |data| - 1;
      AppendAllReadable(data[..n]);
      AppendReadable(AppendAll(Fresh, data[..n]), data[n]);
    }
  }

  lemma {:induction false} FinishEachReadable(l: Log, ids: seq<nat>, ts: nat)
    requires AllReadable(l.records) && ts < TWO_64 && forall k | 0 <= k < |ids| :: ids[k] < TWO_32
    ensures AllReadable(FinishEach(l, ids, ts).records)
    decreases |ids|
  {
    hide FinishEntry, AllReadable;
    if ids != [] {
      var n := |ids| - 1;
      FinishEachReadable(l, ids[..n], ts);
      FinishReadable(FinishEach(l, ids[..n], ts), ids[n], ts);
    }
  }

  lemma LogReadable(data: seq<Datum>, ids: seq<nat>, ts: nat)
    requires AllRecordable(data) && |data| < TWO_32 - 1 && ts < TWO_64 && Lists(ids, AppendAll(Fresh, data).entries)
    ensures AllReadable(FinishAll(AppendAll(Fresh, data), ids, ts).records)
  {
    hide AppendAll, FinishEach, AllReadable;
    AppendAllReadable(data);
    var l := AppendAll(Fresh, data);
    forall k | 0 <= k < |ids| ensures ids[k] < TWO_32 {
      assert ids[k] in ids;
      var n :| n in l.entries && l.entries[n].id == ids[k];
    }
    FinishEachReadable(l.(entries := map[]), ids, ts);
  }

  /** End to end: reading the bytes of a closed log yields exactly what was appended. */
  lemma {:induction false} BytesTellAll(extra: Text, data: seq<Datum>, ids: seq<nat>, ts: nat)
    requires |extra| < TWO_32 && AllRecordable(data) && |data| < TWO_32 - 1 && ts < TWO_64
    requires Lists(ids, AppendAll(Fresh, data).entries)
    ensures var records := FinishAll(AppendAll(Fresh, data), ids, ts).records;
            && AllWritable(records)
            && ParseFile(FileHeader(extra) + EncRecords(records)) == Some(records)
            && var v := SeeAll(records); v.ok && v.data == data && v.open == map[]
  {
    hide AppendAll, FinishAll, EncRecords, ParseFile, FileHeader, SeeAll, AllReadable, AllWritable, Lists;
    LogReadable(data, ids, ts);
    LogTellsAll(data, ids, ts);
    FileComesBack(extra, FinishAll(AppendAll(Fresh, data), ids, ts).records);
  }
}
