/** The log writer as the code runs it: bytes appended to an output, a map of open
    entries and a counter.  Each method is proved against the functions in `WpiLog`. */
module WpiLogClass {
  import opened Values
  import opened WpiLog
  import opened WpiLogProofs

  method CountBytes(value: nat) returns (len: nat)
    ensures len == MinLen(value)
    ensures value < Pow256(len) && (len > 1 ==> value >= Pow256(len - 1))
  {
    len := 1;
    var rest: nat := value / 256;
    while rest > 0
      invariant len > 0 && MinLen(value) == if rest == 0 then len else len + MinLen(rest)
    {
      len := len + 1;
      rest := rest / 256;
    }
    MinLenFits(value, len);
    if len > 1 {
      MinLenFits(value, len - 1);
    }
  }

  lemma {:induction false} LeMore(n: nat, x: nat)
    ensures Le(n + 1, x) == Le(n, x) + [x / Pow256(n) % 256]
    decreases n
  {
    if n > 0 {
      LeMore(n - 1, x / 256);
      DivPow(x, n - 1);
    }
  }

  lemma DivPow(x: nat, n: nat)
    ensures x / 256 / Pow256(n) == x / Pow256(n + 1)
  {
    var p := Pow256(n);
    var q := x / 256 / p;
    var r := x / 256 % p;
    assert x == 256 * (x / 256) + x % 256;
    assert x / 256 == p * q + r;
    assert x == (256 * p) * q + (256 * r + x % 256);
    assert 0 <= 256 * r + x % 256 < 256 * p;
    QuotientUnique(x, 256 * p, q, 256 * r + x % 256);
  }

  lemma MulLe(d: nat, a: nat, b: nat)
    requires a <= b
    ensures d * a <= d * b
  {}

  lemma QuotientUnique(x: nat, d: nat, q: nat, r: nat)
    requires d > 0 && r < d && x == d * q + r
    ensures x / d == q
  {
    var k := x / d;
    assert d * k <= x < d * k + d;
    assert d * (k + 1) == d * k + d && d * (q + 1) == d * q + d;
    if k < q {
      MulLe(d, k + 1, q);
    } else if q < k {
      MulLe(d, q + 1, k);
    }
  }

  method PutLe(out: seq<byte>, value: nat, len: nat) returns (more: seq<byte>)
    ensures more == out + Le(len, value)
  {
    more := out;
    var i := 0;
    assert Le(0, value) == [];
    while i < len
      invariant 0 <= i <= len
      invariant more == out + Le(i, value)
    {
      LeMore(i, value);
      assert out + (Le(i, value) + [value / Pow256(i) % 256]) == out + Le(i, value) + [value / Pow256(i) % 256];
      more := more + [value / Pow256(i) % 256];
      i := i + 1;
    }
  }

  class Writer {
    var out: seq<byte>
    var entries: map<Text, Entry>
    var nextId: nat
    const extra: Text
    /** The records behind the bytes. */
    ghost var records: seq<Record>

    ghost function Contents(): Log
      reads this
    {
      Log(records, entries, nextId)
    }

    /** The output is the header and the records, and every id in use was handed out. */
    ghost predicate Valid()
      reads this
    {
      && AllWritable(records)
      && out == FileHeader(extra) + EncRecords(records)
      && IdsBelow(entries, nextId) && 0 < nextId && OneEach(entries)
    }

    constructor (extra: Text)
      ensures Valid() && Contents() == Fresh && this.extra == extra
    {
      this.extra := extra;
      out := MAGIC + Le(2, 0x0100) + Le(4, |extra|) + extra;
      entries, nextId := map[], 1;
      records := [];
      assert FileHeader(extra) + [] == FileHeader(extra);
    }

    method WriteRecord(id: nat, timestamp: nat, payload: seq<byte>)
      requires Valid() && Writable(Record(id, timestamp, payload))
      modifies this
      ensures Valid() && Contents() == Put(old(Contents()), Record(id, timestamp, payload))
    {
      hide Le, MinLen, Bits, FileHeader, EncRecords, AllWritable, IdsBelow, Pow256;
      ghost var r := Record(id, timestamp, payload);
      assert MinLen(id) <= 4 && MinLen(timestamp) <= 8 && MinLen(|payload|) <= 8 by { Widths(r); }
      var idLen := CountBytes(id);
      var sizeLen := CountBytes(|payload|);
      var stampLen := CountBytes(timestamp);
      var header := [Bits(idLen, sizeLen, stampLen)];
      header := PutLe(header, id, idLen);
      header := PutLe(header, |payload|, sizeLen);
      header := PutLe(header, timestamp, stampLen);
      ghost var before := out;
      out := out + header;
      out := out + payload;
      EncRecordsMore(records, r);
      assert EncRecord(r) == header + payload;
      assert before + header + payload == before + (header + payload);
      assert FileHeader(extra) + EncRecords(records) + EncRecord(r) ==
        FileHeader(extra) + (EncRecords(records) + EncRecord(r));
      records := records + [r];
    }

    method OpenEntry(name: Text, typeName: Text, timestamp: nat) returns (id: nat)
      requires Valid() && nextId < TWO_32 && |name| + |typeName| + 17 < TWO_64 && timestamp < TWO_64
      modifies this
      ensures Valid() && id == old(nextId) && Contents() == StartEntry(old(Contents()), name, typeName, timestamp)
    {
      hide Le, FileHeader, EncRecords, AllWritable;
      id := nextId;
      nextId := nextId + 1;
      var payload := [CONTROL_START] + Le(4, id);
      payload := payload + Le(4, |name|) + name;
      payload := payload + Le(4, |typeName|) + typeName;
      payload := payload + Le(4, 0);
      assert payload == StartPayload(id, name, typeName);
      WriteRecord(CONTROL_ENTRY, timestamp, payload);
      entries := entries[name := Entry(id, typeName)];
    }

    method CloseEntry(id: nat, timestamp: nat)
      requires Valid() && id < TWO_32 && timestamp < TWO_64
      modifies this
      ensures Valid() && Contents() == FinishEntry(old(Contents()), id, timestamp)
    {
      hide Le, FileHeader, EncRecords, AllWritable;
      var payload := [CONTROL_FINISH] + Le(4, id);
      WriteRecord(CONTROL_ENTRY, timestamp, payload);
    }

    /** The open entry for the channel, started or restarted if its type differs. */
    method EntryId(name: Text, typeName: Text, timestamp: nat) returns (id: nat)
      requires Valid() && nextId < TWO_32 && |name| + |typeName| + 17 < TWO_64 && timestamp < TWO_64
      modifies this
      ensures Valid() && Contents() == EnsureEntry(old(Contents()), name, typeName, timestamp)
      ensures name in entries && entries[name] == Entry(id, typeName)
    {
      hide FileHeader, EncRecords, AllWritable, StartPayload, FinishPayload;
      if name in entries {
        if entries[name].typeName == typeName {
          return entries[name].id;
        }
        CloseEntry(entries[name].id, timestamp);
      }
      id := OpenEntry(name, typeName, timestamp);
    }

    method AppendValue(d: Datum)
      requires Valid() && nextId < TWO_32
      requires |d.channel| + |d.typeName| + 17 < TWO_64 && d.ts < TWO_64 && |d.payload| < TWO_64
      modifies this
      ensures Valid() && Contents() == Append(old(Contents()), d)
    {
      hide FileHeader, EncRecords, AllWritable;
      var id := EntryId(d.channel, d.typeName, d.ts);
      WriteRecord(id, d.ts, d.payload);
    }

    /** The ids of the open entries, in no particular order. */
    method OpenIds() returns (ids: seq<nat>)
      requires Valid()
      ensures Lists(ids, entries)
    {
      hide Valid, FileHeader, EncRecords, AllWritable;
      assert OneEach(entries) by { ValidOneEach(); }
      ids := [];
      var rest := entries.Keys;
      while rest != {}
        invariant rest <= entries.Keys && Listed(ids, entries, entries.Keys - rest)
        decreases |rest|
      {
        var name :| name in rest;
        ListOne(ids, entries, entries.Keys - rest, name);
        assert (entries.Keys - rest) + {name} == entries.Keys - (rest - {name});
        ids := ids + [entries[name].id];
        rest := rest - {name};
      }
      assert entries.Keys - rest == entries.Keys;
      ListedAll(ids, entries);
    }

    lemma ValidOneEach()
      requires Valid()
      ensures OneEach(entries)
    {}

    /** Closes every open entry, in no particular order. */
    method CloseAll(timestamp: nat) returns (ids: seq<nat>)
      requires Valid() && nextId <= TWO_32 && timestamp < TWO_64
      modifies this
      ensures Valid() && Lists(ids, old(entries)) && Contents() == FinishAll(old(Contents()), ids, timestamp)
    {
      hide FileHeader, EncRecords, AllWritable, FinishPayload;
      ids := OpenIds();
      assert forall k | 0 <= k < |ids| :: ids[k] in ids;
      entries := map[];
      ghost var cleared := Contents();
      var i := 0;
      assert ids[..0] == [];
      while i < |ids|
        invariant 0 <= i <= |ids| && Valid() && nextId == old(nextId)
        invariant Contents() == FinishEach(cleared, ids[..i], timestamp)
      {
        CloseEntry(ids[i], timestamp);
        FinishOneMore(cleared, ids[..i], ids[i], timestamp);
        assert ids[..i + 1] == ids[..i] + [ids[i]];
        i := i + 1;
      }
      assert ids[..i] == ids;
    }
  }

  /** No two channels hold the same id. */
  ghost predicate OneEach(entries: map<Text, Entry>) {
    forall a, b | a in entries && b in entries && entries[a].id == entries[b].id :: a == b
  }

  ghost predicate HeldBy(entries: map<Text, Entry>, names: set<Text>, id: nat) {
    exists n :: n in names && n in entries && entries[n].id == id
  }

  /** `ids` lists the ids of the channels `names`, each once. */
  ghost predicate Listed(ids: seq<nat>, entries: map<Text, Entry>, names: set<Text>) {
    && (forall j, k | 0 <= j < k < |ids| :: ids[j] != ids[k])
    && (forall k | 0 <= k < |ids| :: HeldBy(entries, names, ids[k]))
    && (forall n | n in names && n in entries :: entries[n].id in ids)
  }

  lemma ListOne(ids: seq<nat>, entries: map<Text, Entry>, names: set<Text>, name: Text)
    requires Listed(ids, entries, names) && OneEach(entries) && name in entries && name !in names
    ensures Listed(ids + [entries[name].id], entries, names + {name})
  {
    var id := entries[name].id;
    var more := ids + [id];
    forall k | 0 <= k < |ids| ensures ids[k] != id && HeldBy(entries, names + {name}, ids[k]) {
      assert HeldBy(entries, names, ids[k]);
      var n :| n in names && n in entries && entries[n].id == ids[k];
      assert n in names + {name};
    }
    assert name in names + {name};
    assert HeldBy(entries, names + {name}, id);
    assert more[|ids|] == id;
  }

  lemma ListedAll(ids: seq<nat>, entries: map<Text, Entry>)
    requires Listed(ids, entries, entries.Keys)
    ensures Lists(ids, entries)
  {
    forall i ensures i in ids <==> exists n :: n in entries && entries[n].id == i {
      if i in ids {
        var k :| 0 <= k < |ids| && ids[k] == i;
        assert HeldBy(entries, entries.Keys, ids[k]);
      }
    }
  }

  lemma FinishOneMore(l: Log, ids: seq<nat>, id: nat, ts: nat)
    ensures FinishEach(l, ids + [id], ts) == FinishEntry(FinishEach(l, ids, ts), id, ts)
  {
    assert (ids + [id])[..|ids|] == ids;
  }
}
