/** One connection's outbound path: any number of delivering threads that write inline
    when the writer lock is free and nothing is queued, and a writer thread behind a
    bounded channel.  Every atomic step of either side is a step here.
    Models core/src/websocket/transport.rs and the batch buffer of
    core/src/websocket/frame.rs. */
module Outbound {

  const MAX_BATCH_BYTES: nat := 1400
  const PUB_HIGH_WATER_MARK: nat := 10_000

  datatype Kind = Value | Text | Raw | Close

  /** A frame handed over by thread `owner`, as its `serial`-th. */
  datatype Item = Item(owner: nat, serial: nat, kind: Kind, size: nat)

  /** What goes onto the socket: a binary frame batching values, a single control,
      raw or close frame, or a keepalive ping. */
  datatype Wire = Binary(items: seq<Item>) | Single(item: Item) | Ping

  datatype Holder = Free | ByThread(t: nat) | ByWriter

  /** Where a delivering thread is in `deliver_all`: after `try_lock`, about to let go
      of a lock it cannot use, in the loop, between counting a message and sending it,
      or between a refused send and uncounting it. */
  datatype Pc = Idle | Tried(got: bool) | LettingGo | Sending(inline: bool, batched: bool) | Added | Refused

  /** `handed` are the frames the thread was given to deliver, of which `rest` are still
      to come; `local` are those refused in this call, `quiet` those refused
      outside `deliver_all`, where nobody counts them. */
  datatype Thread = Thread(pc: Pc, rest: seq<Item>, handed: seq<Item>, counting: bool, local: set<nat>, quiet: set<nat>)

  datatype Writer =
    | Waiting
    | Popped(item: Item)
    | Writing(item: Item, first: bool)
    | Counting(first: bool, closed: bool)
    | Draining
    | Pinging
    | Stopped

  /** `settled` are the refused frames already added to the shared counter `dropped`. */
  datatype State = State(
    lock: Holder,
    queued: nat,
    channel: seq<Item>,
    batch: seq<Item>,
    wire: seq<Wire>,
    writer: Writer,
    threads: map<nat, Thread>,
    dropped: nat,
    settled: set<(nat, nat)>)

  datatype Step =
    | Begin(t: nat, items: seq<Item>)
    | Emit(t: nat, item: Item)
    | ReadQueued(t: nat)
    | LetGo(t: nat)
    | Advance(t: nat)
    | TrySend(t: nat)
    | Uncount(t: nat)
    | Finish(t: nat)
    | Recv | Lock | Write | CountDown | TryRecv | FlushAndUnlock | LockForPing | SendPing

  // ---------------------------------------------------------------- batch buffer

  function Bytes(items: seq<Item>): nat {
    if items == [] then 0 else Bytes(items[..|items| - 1]) + items[|items| - 1].size
  }

  function Flushed(s: State): State {
    if s.batch == [] then s else s.(wire := s.wire + [Binary(s.batch)], batch := [])
  }

  function WriteOne(s: State, item: Item): State {
    if item.kind == Value then s.(batch := s.batch + [item])
    else
      var f := Flushed(s);
      f.(wire := f.wire + [Single(item)])
  }

  // ----------------------------------------------------------------- the steps

  function Tagged(t: nat, ns: set<nat>): set<(nat, nat)> { set n | n in ns :: (t, n) }

  function Put(s: State, t: nat, th: Thread): State { s.(threads := s.threads[t := th]) }

  /** Frames a thread hands over carry its own next serial numbers. */
  predicate Fresh(th: Thread, t: nat, items: seq<Item>) {
    forall k | 0 <= k < |items| :: items[k].owner == t && items[k].serial == |th.handed| + k && items[k].size > 0
  }

  predicate Enabled(s: State, step: Step) {
    match step
    case Begin(t, items) =>
      t in s.threads && s.threads[t].pc.Idle? && Fresh(s.threads[t], t, items)
      && forall k | 0 <= k < |items| :: items[k].kind.Value? || items[k].kind.Text?
    case Emit(t, item) =>
      t in s.threads && s.threads[t].pc.Idle? && Fresh(s.threads[t], t, [item]) && (item.kind.Raw? || item.kind.Close?)
    case ReadQueued(t) => t in s.threads && s.threads[t].pc.Tried?
    case LetGo(t) => t in s.threads && s.threads[t].pc.LettingGo?
    case Advance(t) => t in s.threads && s.threads[t].pc.Sending? && s.threads[t].rest != []
    case TrySend(t) => t in s.threads && s.threads[t].pc.Added? && s.threads[t].rest != []
    case Uncount(t) => t in s.threads && s.threads[t].pc.Refused? && s.threads[t].rest != []
    case Finish(t) => t in s.threads && s.threads[t].pc.Sending? && s.threads[t].rest == []
    case Recv => s.writer.Waiting? && s.channel != []
    case Lock => s.writer.Popped? && s.lock.Free?
    case Write => s.writer.Writing?
    case CountDown => s.writer.Counting?
    case TryRecv => s.writer.Draining? && s.channel != []
    case FlushAndUnlock => s.writer.Draining? && s.channel == []
    case LockForPing => s.writer.Waiting? && s.lock.Free?
    case SendPing => s.writer.Pinging?
  }

  function Apply(s: State, step: Step): State
    requires Enabled(s, step)
  {
    match step
    case Begin(t, items) =>
      var th := s.threads[t].(
                rest := items, handed := s.threads[t].handed + items, counting := true, pc := Tried(s.lock.Free?));
      Put(s, t, th).(lock := if s.lock.Free? then ByThread(t) else s.lock)
    case Emit(t, item) =>
      var th := s.threads[t].(rest := [item], handed := s.threads[t].handed + [item], counting := false,
                              pc := Sending(false, false));
      Put(s, t, th)
    case ReadQueued(t) =>
      Put(s, t, s.threads[t].(pc := if !s.threads[t].pc.got then Sending(false, false)
                                    else if s.queued == 0 then Sending(true, false) else LettingGo))
    case LetGo(t) => Put(s, t, s.threads[t].(pc := Sending(false, false))).(lock := Free)
    case Advance(t) => ApplyAdvance(s, t)
    case TrySend(t) =>
      var th := s.threads[t];
      if |s.channel| < PUB_HIGH_WATER_MARK && !s.writer.Stopped? then
        Put(s, t, th.(rest := th.rest[1..], pc := Sending(false, false))).(channel := s.channel + [th.rest[0]])
      else Put(s, t, th.(pc := Refused))
    case Uncount(t) =>
      var th := s.threads[t];
      var n := th.rest[0].serial;
      var th1 := if th.counting then th.(local := th.local + {n}) else th.(quiet := th.quiet + {n});
      Put(s, t, th1.(rest := th.rest[1..], pc := Sending(false, false)))
      .(queued := if s.queued == 0 then 0 else s.queued - 1)
    case Finish(t) =>
      var th := s.threads[t];
      var f := if th.pc.inline && th.pc.batched then Flushed(s) else s;
      Put(f, t, th.(pc := Idle, local := {}))
      .(lock := if th.pc.inline then Free else s.lock,
        dropped := s.dropped + |th.local|,
        settled := s.settled + Tagged(t, th.local))
    case Recv => s.(writer := Popped(s.channel[0]), channel := s.channel[1..])
    case Lock => s.(writer := Writing(s.writer.item, true), lock := ByWriter)
    case Write => WriteOne(s, s.writer.item).(writer := Counting(s.writer.first, s.writer.item.kind.Close?))
    case CountDown =>
      var q := if s.queued == 0 then 0 else s.queued - 1;
      if s.writer.closed then s.(queued := q, writer := Stopped, lock := Free)
      else
        var f := if !s.writer.first && Bytes(s.batch) >= MAX_BATCH_BYTES then Flushed(s) else s;
        f.(queued := q, writer := Draining)
    case TryRecv => s.(writer := Writing(s.channel[0], false), channel := s.channel[1..])
    case FlushAndUnlock => Flushed(s).(writer := Waiting, lock := Free)
    case LockForPing => s.(writer := Pinging, lock := ByWriter)
    case SendPing => s.(wire := s.wire + [Ping], writer := Waiting, lock := Free)
  }

  /** One turn of the loop in `deliver_all`: a value is batched inline or counted for
      the queue; a control message first flushes and lets go of the writer. */
  function ApplyAdvance(s: State, t: nat): State
    requires t in s.threads && s.threads[t].pc.Sending? && s.threads[t].rest != []
  {
    var th := s.threads[t];
    if !th.pc.inline then Put(s, t, th.(pc := Added)).(queued := s.queued + 1)
    else if th.rest[0].kind.Value? then
      var b := s.(batch := s.batch + [th.rest[0]]);
      var full := Bytes(b.batch) >= MAX_BATCH_BYTES;
      Put(if full then Flushed(b) else b, t, th.(rest := th.rest[1..], pc := Sending(true, !full)))
    else
      var f := if th.pc.batched then Flushed(s) else s;
      Put(f, t, th.(pc := Sending(false, false))).(lock := Free)
  }

  // ------------------------------------------------------------------- pipeline

  function OnWire(wire: seq<Wire>): seq<Item> {
    if wire == [] then []
    else
      var n := |wire| - 1;
      OnWire(wire[..n]) + match wire[n] case Binary(items) => items case Single(item) => [item] case Ping => []
  }

  function InFlight(w: Writer): seq<Item> {
    if w.Popped? || w.Writing? then [w.item] else []
  }

  /** Everything accepted so far, oldest position first. */
  function Pipeline(s: State): seq<Item> {
    OnWire(s.wire) + s.batch + (InFlight(s.writer) + s.channel)
  }

  /** The serials of thread `t` among `items`. */
  function Serials(t: nat, items: seq<Item>): seq<nat> {
    if items == [] then []
    else
      var n := |items| - 1;
      Serials(t, items[..n]) + (if items[n].owner == t then [items[n].serial] else [])
  }

  ghost predicate Increasing(xs: seq<nat>) {
    forall i, j | 0 <= i < j < |xs| :: xs[i] < xs[j]
  }

  // ----------------------------------------------------------------- invariants

  function Done(th: Thread): int { |th.handed| - |th.rest| }

  /** Each frame thread `t` is through with is in `xs` exactly once, in order, or was
      refused. */
  ghost predicate Accounted(t: nat, th: Thread, xs: seq<nat>, settled: set<(nat, nat)>) {
    && |th.rest| <= |th.handed| && th.rest == th.handed[Done(th)..]
    && (forall k | 0 <= k < |th.handed| :: th.handed[k].owner == t && th.handed[k].serial == k && th.handed[k].size > 0)
    && Increasing(xs)
    && (forall n | n in xs :: n < Done(th) && !WasRefused(t, th, settled, n))
    && (forall n: nat | n < Done(th) :: n in xs || WasRefused(t, th, settled, n))
    && (forall n | n in th.local || n in th.quiet :: n < Done(th))
    && (forall n :: !(n in th.local && n in th.quiet))
    && (forall n | (t, n) in settled :: n < Done(th) && n !in th.local && n !in th.quiet)
  }

  predicate WasRefused(t: nat, th: Thread, settled: set<(nat, nat)>, n: nat) {
    n in th.local || n in th.quiet || (t, n) in settled
  }

  ghost predicate AllAccounted(s: State) {
    forall t | t in s.threads :: Accounted(t, s.threads[t], Serials(t, Pipeline(s)), s.settled)
  }

  /** Every accepted frame is, unchanged, one its owner handed over. */
  ghost predicate Genuine(items: seq<Item>, threads: map<nat, Thread>) {
    forall k | 0 <= k < |items| :: IsHanded(items[k], threads)
  }

  predicate IsHanded(x: Item, threads: map<nat, Thread>) {
    x.owner in threads && x.serial < |threads[x.owner].handed| && threads[x.owner].handed[x.serial] == x
  }

  predicate HoldsLock(pc: Pc) { (pc.Tried? && pc.got) || pc.LettingGo? || (pc.Sending? && pc.inline) }

  predicate WriterHolds(w: Writer) { w.Writing? || w.Counting? || w.Draining? || w.Pinging? }

  /** The lock is where each thread and the writer believe it is. */
  ghost predicate LockInv(lock: Holder, threads: map<nat, Thread>, w: Writer) {
    && (forall t | t in threads && HoldsLock(threads[t].pc) :: lock == ByThread(t))
    && (WriterHolds(w) ==> lock == ByWriter)
    && (lock.ByThread? ==> lock.t in threads && HoldsLock(threads[lock.t].pc))
    && (lock.ByWriter? ==> WriterHolds(w))
  }

  /** The batch holds something only while its filler holds the lock and knows it. */
  ghost predicate BatchInv(s: State) {
    && (s.lock.Free? ==> s.batch == [])
    && (s.writer.Pinging? ==> s.batch == [])
    && (s.lock.ByThread? && s.lock.t in s.threads ==>
          var pc := s.threads[s.lock.t].pc;
          (pc.Sending? && pc.batched) || s.batch == [])
    && (s.writer.Counting? && s.writer.closed ==> s.batch == [])
  }

  /** What a thread's program point says about its locals. */
  predicate Shaped(th: Thread) {
    && (th.pc.Idle? ==> th.rest == [] && th.local == {})
    && (CountsOne(th.pc) ==> th.rest != [])
    && (th.pc.Sending? && th.pc.batched ==> th.pc.inline)
    && (!th.counting ==> th.local == {})
  }

  ghost predicate ShapeInv(threads: map<nat, Thread>) {
    forall t | t in threads :: Shaped(threads[t])
  }

  /** A thread that writes inline has nothing waiting behind the writer. */
  ghost predicate InlineInv(s: State) {
    forall t | t in s.threads && s.threads[t].pc.Sending? && s.threads[t].pc.inline ::
      Serials(t, InFlight(s.writer) + s.channel) == []
  }

  function WriterOwes(w: Writer): nat { if w.Popped? || w.Writing? || w.Counting? then 1 else 0 }

  predicate CountsOne(pc: Pc) { pc.Added? || pc.Refused? }

  function Midway(threads: map<nat, Thread>): set<nat> { set t | t in threads && CountsOne(threads[t].pc) }

  /** `queued` counts the channel, the message the writer is on, and every thread
      between counting and sending. */
  ghost predicate QueuedInv(s: State) {
    s.queued == |s.channel| + WriterOwes(s.writer) + |Midway(s.threads)|
  }

  ghost predicate DropInv(s: State) {
    && s.dropped == |s.settled|
    && (forall k | k in s.settled :: k.0 in s.threads)
  }

  ghost predicate Inv(s: State) {
    && AllAccounted(s)
    && Genuine(Pipeline(s), s.threads)
    && LockInv(s.lock, s.threads, s.writer)
    && BatchInv(s)
    && InlineInv(s)
    && QueuedInv(s)
    && DropInv(s)
    && ShapeInv(s.threads)
    && |s.channel| <= PUB_HIGH_WATER_MARK
  }
}
