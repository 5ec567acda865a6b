/** The WPILOG writer: variable-width records, entries that start, change type and
    finish.  Models proto/src/wpilog.rs against version 1.0 of the WPILib data log file
    format, whose reader is written out here as the parsing functions. */
module WpiLog {
  import opened Values

  type Text = seq<byte>

  const CONTROL_ENTRY: nat := 0
  const CONTROL_START: byte := 0
  const CONTROL_FINISH: byte := 1
  const TWO_32: nat := 0x1_0000_0000

  // --------------------------------------------------------------- little endian

  function Pow256(n: nat): (p: nat)
    ensures p > 0
  {
    if n == 0 then 1 else 256 * Pow256(n - 1)
  }

  /** The low `n` bytes of `x`, least significant first. */
  function Le(n: nat, x: nat): (s: seq<byte>)
    ensures |s| == n
  {
    if n == 0 then [] else [x % 256] + Le(n - 1, x / 256)
  }

  function FromLe(s: seq<byte>): nat {
    if s == [] then 0 else s[0] + 256 * FromLe(s[1..])
  }

  /** How many bytes it takes to hold `x`, at least one. */
  function MinLen(x: nat): (n: nat)
    ensures n > 0
  {
    if x < 256 then 1 else 1 + MinLen(x / 256)
  }

  // --------------------------------------------------------------------- records

  datatype Record = Record(id: nat, ts: nat, payload: seq<byte>)

  /** The bit field in front of a record: two bits, two bits and three bits of lengths
      less one, combined with a bitwise or.  A size length past four spills its top bit
      over the lowest bit of the timestamp length. */
  function Bits(idLen: nat, sizeLen: nat, stampLen: nat): byte
    requires 1 <= idLen <= 4 && 1 <= sizeLen <= 8 && 1 <= stampLen <= 8
  {
    var spill, stamp := (sizeLen - 1) / 4, stampLen - 1;
    (idLen - 1) + 4 * ((sizeLen - 1) % 4) + 16 * (if spill == 1 then stamp - stamp % 2 + 1 else stamp)
  }

  /** Ids are 32-bit, timestamps and lengths 64-bit. */
  predicate Writable(r: Record) {
    r.id < TWO_32 && r.ts < TWO_64 && |r.payload| < TWO_64
  }

  function RecordHeader(r: Record): seq<byte>
    requires Writable(r) && MinLen(r.id) <= 4 && MinLen(r.ts) <= 8 && MinLen(|r.payload|) <= 8
  {
    var a, b, c := MinLen(r.id), MinLen(|r.payload|), MinLen(r.ts);
    [Bits(a, b, c)] + Le(a, r.id) + Le(b, |r.payload|) + Le(c, r.ts)
  }

  lemma {:induction false} MinLenFits(x: nat, n: nat)
    requires n > 0
    ensures x < Pow256(n) <==> MinLen(x) <= n
  {
    if n == 1 {
    } else if x >= 256 {
      MinLenFits(x / 256, n - 1);
    } else {
      assert Pow256(n) >= 256 by { PowMono(1, n); }
    }
  }

  lemma {:induction false} PowMono(a: nat, b: nat)
    requires a <= b
    ensures Pow256(a) <= Pow256(b)
    decreases b
  {
    if a < b {
      PowMono(a, b - 1);
    }
  }

  lemma Powers()
    ensures Pow256(1) == 256 && Pow256(3) == 0x100_0000 && Pow256(4) == TWO_32 && Pow256(8) == TWO_64
  {
    assert Pow256(2) == 256 * Pow256(1);
    assert Pow256(3) == 256 * Pow256(2);
    assert Pow256(4) == 256 * Pow256(3);
    assert Pow256(5) == 256 * Pow256(4);
    assert Pow256(6) == 256 * Pow256(5);
    assert Pow256(7) == 256 * Pow256(6);
    assert Pow256(8) == 256 * Pow256(7);
  }

  /** The widths a writable record needs fit its bit field. */
  lemma Widths(r: Record)
    requires Writable(r)
    ensures MinLen(r.id) <= 4 && MinLen(r.ts) <= 8 && MinLen(|r.payload|) <= 8
    ensures MinLen(|r.payload|) <= 4 <==> |r.payload| < TWO_32
  {
    hide MinLen, Pow256;
    Powers();
    MinLenFits(r.id, 4);
    MinLenFits(r.ts, 8);
    MinLenFits(|r.payload|, 8);
    MinLenFits(|r.payload|, 4);
  }

  function EncRecord(r: Record): seq<byte>
    requires Writable(r)
  {
    Widths(r);
    RecordHeader(r) + r.payload
  }

  ghost predicate AllWritable(log: seq<Record>) { forall k | 0 <= k < |log| :: Writable(log[k]) }

  ghost function EncRecords(log: seq<Record>): seq<byte>
    requires AllWritable(log)
  {
    if log == [] then [] else EncRecord(log[0]) + EncRecords(log[1..])
  }

  // --------------------------------------------------------------------- reading

  /** The record at the front of `data` and its length, if it is all there. */
  function ParseRecord(data: seq<byte>): (r: Option<(Record, nat)>)
    ensures r.Some? ==> 0 < r.value.1 <= |data|
  {
    if data == [] then None
    else
      var a, b, c := data[0] % 4 + 1, data[0] / 4 % 4 + 1, data[0] / 16 % 8 + 1;
      var head := 1 + a + b + c;
      if |data| < head then None
      else
        var size := FromLe(data[1 + a..1 + a + b]);
        if |data| < head + size then None
        else Some((Record(FromLe(data[1..1 + a]), FromLe(data[1 + a + b..head]), data[head..head + size]), head + size))
  }

  function ParseRecords(data: seq<byte>): Option<seq<Record>> {
    if data == [] then Some([])
    else
      match ParseRecord(data)
      case None => None
      case Some(p) =>
        match ParseRecords(data[p.1..])
        case None => None
        case Some(more) => Some([p.0] + more)
  }

  // ----------------------------------------------------------------- file header

  const MAGIC: seq<byte> := [0x57, 0x50, 0x49, 0x4c, 0x4f, 0x47]

  function FileHeader(extra: Text): seq<byte> {
    MAGIC + Le(2, 0x0100) + Le(4, |extra|) + extra
  }

  function ParseFile(data: seq<byte>): Option<seq<Record>> {
    if |data| < 12 || data[..6] != MAGIC || FromLe(data[6..8]) != 0x0100 then None
    else
      var start := 12 + FromLe(data[8..12]);
      if |data| < start then None else ParseRecords(data[start..])
  }

  // ------------------------------------------------------------- control records

  datatype Control = Start(id: nat, name: Text, typeName: Text) | Finish(id: nat)

  function StartPayload(id: nat, name: Text, typeName: Text): seq<byte> {
    [CONTROL_START] + Le(4, id) + Le(4, |name|) + name + Le(4, |typeName|) + typeName + Le(4, 0)
  }

  function FinishPayload(id: nat): seq<byte> { [CONTROL_FINISH] + Le(4, id) }

  function ParseControl(p: seq<byte>): Option<Control> {
    if |p| < 5 then None
    else if p[0] == CONTROL_FINISH then Some(Finish(FromLe(p[1..5])))
    else if p[0] != CONTROL_START || |p| < 9 then None
    else
      var rest := 9 + FromLe(p[5..9]);
      if |p| < rest + 4 then None
      else
        var end := rest + 4 + FromLe(p[rest..rest + 4]);
        if |p| < end then None
        else Some(Start(FromLe(p[1..5]), p[9..rest], p[rest + 4..end]))
  }

  // ------------------------------------------------------------------ the writer

  datatype Entry = Entry(id: nat, typeName: Text)

  /** What the writer has recorded, its open entries and the next id. */
  datatype Log = Log(records: seq<Record>, entries: map<Text, Entry>, nextId: nat)

  const Fresh: Log := Log([], map[], 1)

  function Put(l: Log, r: Record): Log { l.(records := l.records + [r]) }

  function StartEntry(l: Log, name: Text, typeName: Text, ts: nat): Log {
    Put(l, Record(CONTROL_ENTRY, ts, StartPayload(l.nextId, name, typeName)))
    .(entries := l.entries[name := Entry(l.nextId, typeName)], nextId := l.nextId + 1)
  }

  function FinishEntry(l: Log, id: nat, ts: nat): Log { Put(l, Record(CONTROL_ENTRY, ts, FinishPayload(id))) }

  /** Makes sure `name` has an open entry of type `typeName`. */
  function EnsureEntry(l: Log, name: Text, typeName: Text, ts: nat): (r: Log)
    ensures name in r.entries
  {
    if name in l.entries then
      if l.entries[name].typeName == typeName then l
      else StartEntry(FinishEntry(l, l.entries[name].id, ts), name, typeName, ts)
    else StartEntry(l, name, typeName, ts)
  }

  /** One recorded value. */
  datatype Datum = Datum(channel: Text, typeName: Text, ts: nat, payload: seq<byte>)

  function Append(l: Log, d: Datum): Log {
    var e := EnsureEntry(l, d.channel, d.typeName, d.ts);
    Put(e, Record(e.entries[d.channel].id, d.ts, d.payload))
  }

  function AppendAll(l: Log, data: seq<Datum>): Log {
    if data == [] then l else Append(AppendAll(l, data[..|data| - 1]), data[|data| - 1])
  }

  function FinishEach(l: Log, ids: seq<nat>, ts: nat): Log {
    if ids == [] then l else FinishEntry(FinishEach(l, ids[..|ids| - 1], ts), ids[|ids| - 1], ts)
  }

  /** Closes every open entry, in the order `ids` lists them. */
  function FinishAll(l: Log, ids: seq<nat>, ts: nat): Log { FinishEach(l.(entries := map[]), ids, ts) }

  /** `ids` lists the open entries, each once. */
  ghost predicate Lists(ids: seq<nat>, entries: map<Text, Entry>) {
    && (forall j, k | 0 <= j < k < |ids| :: ids[j] != ids[k])
    && (forall i :: i in ids <==> exists n :: n in entries && entries[n].id == i)
  }

  // ----------------------------------------------------------- what a reader sees

  /** A reader's view: open entries, ids started so far, values seen, and whether every
      record made sense. */
  datatype View = View(open: map<nat, (Text, Text)>, used: set<nat>, data: seq<Datum>, ok: bool)

  function See(v: View, r: Record): View {
    if r.id == CONTROL_ENTRY then
      match ParseControl(r.payload)
      case Some(Start(id, name, typeName)) =>
        v.(open := v.open[id := (name, typeName)], used := v.used + {id},
           ok := v.ok && id != CONTROL_ENTRY && id !in v.used)
      case Some(Finish(id)) => v.(open := v.open - {id}, ok := v.ok && id in v.open)
      case None => v.(ok := false)
    else if r.id in v.open then v.(data := v.data + [Datum(v.open[r.id].0, v.open[r.id].1, r.ts, r.payload)])
    else v.(ok := false)
  }

  function SeeAll(records: seq<Record>): View {
    if records == [] then View(map[], {}, [], true) else See(SeeAll(records[..|records| - 1]), records[|records| - 1])
  }
}
