/** Every step of the outbound path keeps its invariant. */
module OutboundInv {
  import opened Outbound

  // -------------------------------------------------------------- sequence facts

  lemma {:induction false} SerialsConcat(t: nat, a: seq<Item>, b: seq<Item>)
    ensures Serials(t, a + b) == Serials(t, a) + Serials(t, b)
    decreases |b|
  {
    if b == [] {
      assert a + b == a;
    } else {
      var n := |b| - 1;
      SerialsConcat(t, a, b[..n]);
      assert (a + b)[..|a + b| - 1] == a + b[..n];
    }
  }

  lemma SerialsOne(t: nat, x: Item)
    ensures Serials(t, [x]) == if x.owner == t then [x.serial] else []
  {
    assert [x][..0] == [];
  }

  lemma OnWireMore(wire: seq<Wire>, w: Wire)
    ensures OnWire(wire + [w]) ==
            OnWire(wire) + match w case Binary(items) => items case Single(item) => [item] case Ping => []
  {
    assert (wire + [w])[..|wire|] == wire;
  }

  /** Flushing moves bytes from the batch to the wire without reordering. */
  lemma FlushKeeps(s: State)
    ensures OnWire(Flushed(s).wire) + Flushed(s).batch == OnWire(s.wire) + s.batch
    ensures Flushed(s).batch == []
  {
    if s.batch != [] {
      OnWireMore(s.wire, Binary(s.batch));
      assert OnWire(s.wire) + s.batch + [] == OnWire(s.wire) + s.batch;
    }
  }

  /** Writing one message appends it after everything written so far. */
  lemma WriteOneAppends(s: State, item: Item)
    ensures var w := WriteOne(s, item); OnWire(w.wire) + w.batch == OnWire(s.wire) + s.batch + [item]
    ensures item.kind != Value ==> WriteOne(s, item).batch == []
  {
    if item.kind == Value {
      assert OnWire(s.wire) + (s.batch + [item]) == OnWire(s.wire) + s.batch + [item];
    } else {
      FlushKeeps(s);
      var f := Flushed(s);
      OnWireMore(f.wire, Single(item));
      assert OnWire(f.wire) == OnWire(f.wire) + f.batch;
      assert OnWire(f.wire) + [item] + [] == OnWire(f.wire) + [item];
    }
  }

  // ------------------------------------------------------------------- counting

  lemma MidwayPut(threads: map<nat, Thread>, t: nat, th: Thread)
    requires t in threads
    ensures |Midway(threads[t := th])| ==
            |Midway(threads)| + (if CountsOne(th.pc) then 1 else 0) - (if CountsOne(threads[t].pc) then 1 else 0)
  {
    var a, b := Midway(threads), Midway(threads[t := th]);
    var rest := a - {t};
    assert b - {t} == rest;
    assert a == if CountsOne(threads[t].pc) then rest + {t} else rest;
    assert b == if CountsOne(th.pc) then rest + {t} else rest;
  }

  lemma MidwayHas(threads: map<nat, Thread>, t: nat)
    requires t in threads && CountsOne(threads[t].pc)
    ensures |Midway(threads)| > 0
  {
    assert t in Midway(threads);
  }

  lemma {:induction false} TagSize(t: nat, ns: set<nat>)
    ensures |Tagged(t, ns)| == |ns|
    decreases |ns|
  {
    if ns != {} {
      var x :| x in ns;
      TagSize(t, ns - {x});
      assert Tagged(t, ns) == Tagged(t, ns - {x}) + {(t, x)};
      assert (t, x) !in Tagged(t, ns - {x});
    }
  }

  // ------------------------------------------------------------- the accounting

  /** The parts of a thread that its account depends on. */
  predicate SameAccount(a: Thread, b: Thread) {
    a.rest == b.rest && a.handed == b.handed && a.local == b.local && a.quiet == b.quiet
  }

  lemma AccountSame(t: nat, a: Thread, b: Thread, xs: seq<nat>, settled: set<(nat, nat)>)
    requires Accounted(t, a, xs, settled) && SameAccount(a, b)
    ensures Accounted(t, b, xs, settled)
  {}

  /** A step that keeps the pipeline's order and every account. */
  lemma AccountsKept(s: State, s1: State)
    requires AllAccounted(s) && Pipeline(s1) == Pipeline(s) && s1.settled == s.settled
    requires s1.threads.Keys == s.threads.Keys
    requires forall t | t in s.threads :: SameAccount(s.threads[t], s1.threads[t])
    ensures AllAccounted(s1)
  {
    hide Pipeline, Serials, Accounted, SameAccount;
    forall t | t in s1.threads ensures Accounted(t, s1.threads[t], Serials(t, Pipeline(s1)), s1.settled) {
      AccountSame(t, s.threads[t], s1.threads[t], Serials(t, Pipeline(s)), s.settled);
    }
  }

  /** Handing over new frames: nothing of them is through yet. */
  lemma AccountIssue(t: nat, th: Thread, th1: Thread, items: seq<Item>, xs: seq<nat>, settled: set<(nat, nat)>)
    requires Accounted(t, th, xs, settled) && th.rest == [] && Fresh(th, t, items)
    requires th1.rest == items && th1.handed == th.handed + items && th1.local == th.local && th1.quiet == th.quiet
    ensures Accounted(t, th1, xs, settled)
  {
    assert Done(th1) == Done(th) == |th.handed|;
    assert th1.handed[|th.handed|..] == items;
  }

  /** The head of `rest` was accepted behind everything the thread already has. */
  lemma AccountAccept(t: nat, th: Thread, th1: Thread, xs: seq<nat>, settled: set<(nat, nat)>)
    requires Accounted(t, th, xs, settled) && th.rest != []
    requires th1.rest == th.rest[1..] && th1.handed == th.handed && th1.local == th.local && th1.quiet == th.quiet
    ensures Accounted(t, th1, xs + [th.rest[0].serial], settled)
  {
    var n := th.rest[0].serial;
    assert th.rest[0] == th.handed[Done(th)] && Done(th1) == Done(th) + 1;
    assert th1.rest == th.handed[Done(th)..][1..] == th.handed[Done(th1)..];
    var ys := xs + [n];
    assert forall i | 0 <= i < |xs| :: xs[i] in xs;
    assert ys[|xs|] == n;
    forall k: nat | k < Done(th1) ensures k in ys || WasRefused(t, th1, settled, k) {
      assert k < Done(th) || k == n;
      if k < Done(th) {
        assert k in xs || WasRefused(t, th, settled, k);
      }
    }
  }

  /** The head of `rest` was refused. */
  lemma AccountRefuse(t: nat, th: Thread, th1: Thread, xs: seq<nat>, settled: set<(nat, nat)>)
    requires Accounted(t, th, xs, settled) && th.rest != []
    requires th1.rest == th.rest[1..] && th1.handed == th.handed
    requires (th1.local == th.local + {th.rest[0].serial} && th1.quiet == th.quiet)
          || (th1.quiet == th.quiet + {th.rest[0].serial} && th1.local == th.local)
    ensures Accounted(t, th1, xs, settled)
  {
    var n := th.rest[0].serial;
    assert th.rest[0] == th.handed[Done(th)] && Done(th1) == Done(th) + 1;
    assert th1.rest == th.handed[Done(th)..][1..] == th.handed[Done(th1)..];
    forall k: nat | k < Done(th1) ensures k in xs || WasRefused(t, th1, settled, k) {
      assert k < Done(th) || k == n;
      if k < Done(th) {
        assert k in xs || WasRefused(t, th, settled, k);
      }
    }
  }

  /** Refused frames move from the thread's own tally to the shared one. */
  lemma AccountSettle(t: nat, th: Thread, th1: Thread, xs: seq<nat>, settled: set<(nat, nat)>)
    requires Accounted(t, th, xs, settled) && th1.rest == th.rest && th1.handed == th.handed
    requires th1.local == {} && th1.quiet == th.quiet
    ensures Accounted(t, th1, xs, settled + Tagged(t, th.local))
  {
    var more := settled + Tagged(t, th.local);
    forall n: nat ensures (t, n) in more <==> (t, n) in settled || n in th.local {}
    forall n: nat ensures WasRefused(t, th1, more, n) == WasRefused(t, th, settled, n) {}
  }

  lemma AccountOther(u: nat, t: nat, th: Thread, ns: set<nat>, xs: seq<nat>, settled: set<(nat, nat)>)
    requires Accounted(u, th, xs, settled) && u != t
    ensures Accounted(u, th, xs, settled + Tagged(t, ns))
  {
    var more := settled + Tagged(t, ns);
    forall n: nat ensures (u, n) in more <==> (u, n) in settled {}
    forall n: nat ensures WasRefused(u, th, more, n) == WasRefused(u, th, settled, n) {}
  }

  // ------------------------------------------------------------- delivering side

  /** Threads only ever add to what they were handed. */
  predicate Grown(a: map<nat, Thread>, b: map<nat, Thread>) {
    forall t | t in a :: t in b && a[t].handed <= b[t].handed
  }

  /** An update of one thread's program point alone. */
  lemma PutAccounts(s: State, t: nat, th: Thread, s1: State)
    requires AllAccounted(s) && t in s.threads && SameAccount(s.threads[t], th)
    requires s1.threads == s.threads[t := th] && Pipeline(s1) == Pipeline(s) && s1.settled == s.settled
    ensures AllAccounted(s1)
  {
    hide Pipeline, Serials, Accounted, AllAccounted;
    assert s1.threads.Keys == s.threads.Keys;
    AccountsKept(s, s1);
  }

  lemma IssueAccounts(s: State, t: nat, th: Thread, items: seq<Item>, s1: State)
    requires AllAccounted(s) && ShapeInv(s.threads) && t in s.threads && s.threads[t].pc.Idle?
    requires Fresh(s.threads[t], t, items)
    requires th.rest == items && th.handed == s.threads[t].handed + items
    requires th.local == s.threads[t].local && th.quiet == s.threads[t].quiet
    requires s1.threads == s.threads[t := th] && Pipeline(s1) == Pipeline(s) && s1.settled == s.settled
    ensures AllAccounted(s1)
  {
    hide Pipeline, Serials, Accounted;
    var xs := Serials(t, Pipeline(s));
    AccountIssue(t, s.threads[t], th, items, xs, s.settled);
  }

  lemma BeginKeeps(s: State, t: nat, items: seq<Item>)
    requires Inv(s) && Enabled(s, Begin(t, items))
    ensures Inv(Apply(s, Begin(t, items)))
  {
    hide AllAccounted, Serials, OnWire, Midway;
    var s1 := Apply(s, Begin(t, items));
    assert Pipeline(s1) == Pipeline(s);
    IssueAccounts(s, t, s1.threads[t], items, s1);
    MidwayPut(s.threads, t, s1.threads[t]);
  }

  lemma EmitKeeps(s: State, t: nat, item: Item)
    requires Inv(s) && Enabled(s, Emit(t, item))
    ensures Inv(Apply(s, Emit(t, item)))
  {
    hide AllAccounted, Serials, OnWire, Midway;
    var s1 := Apply(s, Emit(t, item));
    assert Pipeline(s1) == Pipeline(s);
    IssueAccounts(s, t, s1.threads[t], [item], s1);
    MidwayPut(s.threads, t, s1.threads[t]);
  }

  /** With nothing counted as queued, nothing is queued or held by the writer. */
  lemma NothingQueued(s: State)
    requires QueuedInv(s) && s.queued == 0
    ensures InFlight(s.writer) + s.channel == []
  {}

  lemma ReadQueuedKeeps(s: State, t: nat)
    requires Inv(s) && Enabled(s, ReadQueued(t))
    ensures Inv(Apply(s, ReadQueued(t)))
  {
    hide AllAccounted, OnWire, Midway;
    var s1 := Apply(s, ReadQueued(t));
    assert Pipeline(s1) == Pipeline(s);
    PutAccounts(s, t, s1.threads[t], s1);
    MidwayPut(s.threads, t, s1.threads[t]);
    if s.queued == 0 {
      NothingQueued(s);
    }
  }

  lemma LetGoKeeps(s: State, t: nat)
    requires Inv(s) && Enabled(s, LetGo(t))
    ensures Inv(Apply(s, LetGo(t)))
  {
    hide AllAccounted, Serials, OnWire, Midway;
    var s1 := Apply(s, LetGo(t));
    assert Pipeline(s1) == Pipeline(s);
    PutAccounts(s, t, s1.threads[t], s1);
    MidwayPut(s.threads, t, s1.threads[t]);
  }

  /** Where a frame lands when its owner writes inline: behind all of the owner's own. */
  lemma InlineSerials(s: State, t: nat, u: nat, x: Item, s1: State)
    requires x.owner == t && Serials(t, InFlight(s.writer) + s.channel) == []
    requires OnWire(s1.wire) + s1.batch == OnWire(s.wire) + s.batch + [x]
    requires s1.writer == s.writer && s1.channel == s.channel
    ensures Serials(u, Pipeline(s1)) == Serials(u, Pipeline(s)) + (if u == t then [x.serial] else [])
  {
    hide Serials, OnWire, InFlight;
    var front, back := OnWire(s.wire) + s.batch, InFlight(s.writer) + s.channel;
    SerialsConcat(u, front, back);
    SerialsConcat(u, front + [x], back);
    SerialsConcat(u, front, [x]);
    SerialsOne(u, x);
    if u == t {
      assert Serials(u, front + [x]) + [] == Serials(u, front + [x]);
    } else {
      assert Serials(u, front) + [] == Serials(u, front);
    }
  }

  lemma AcceptAccounts(s: State, t: nat, th: Thread, s1: State)
    requires AllAccounted(s) && t in s.threads && s.threads[t].rest != []
    requires th.rest == s.threads[t].rest[1..] && th.handed == s.threads[t].handed
    requires th.local == s.threads[t].local && th.quiet == s.threads[t].quiet
    requires s1.threads == s.threads[t := th] && s1.settled == s.settled
    requires forall u | u in s.threads :: Serials(u, Pipeline(s1)) ==
                                          Serials(u, Pipeline(s))
                                          + (if u == t then [s.threads[t].rest[0].serial] else [])
    ensures AllAccounted(s1)
  {
    hide Pipeline, Serials, Accounted;
    forall u | u in s1.threads ensures Accounted(u, s1.threads[u], Serials(u, Pipeline(s1)), s1.settled) {
      if u == t {
        AccountAccept(t, s.threads[t], th, Serials(t, Pipeline(s)), s.settled);
      } else {
        assert Serials(u, Pipeline(s)) + [] == Serials(u, Pipeline(s));
      }
    }
  }

  /** The frame a thread is on is one it was handed. */
  lemma HeadIsHanded(s: State, t: nat)
    requires AllAccounted(s) && t in s.threads && s.threads[t].rest != []
    ensures s.threads[t].rest[0].owner == t && IsHanded(s.threads[t].rest[0], s.threads)
  {
    hide Pipeline, Serials;
    assert Accounted(t, s.threads[t], Serials(t, Pipeline(s)), s.settled);
    assert s.threads[t].rest[0] == s.threads[t].handed[Done(s.threads[t])];
  }

  lemma GenuineInsert(front: seq<Item>, back: seq<Item>, x: Item, a: map<nat, Thread>, b: map<nat, Thread>)
    requires Genuine(front + back, a) && IsHanded(x, a) && Grown(a, b)
    ensures Genuine(front + [x] + back, b)
  {
    var items := front + [x] + back;
    forall k | 0 <= k < |items| ensures IsHanded(items[k], b) {
      if k < |front| {
        assert items[k] == (front + back)[k];
        assert IsHanded((front + back)[k], a);
      } else if k > |front| {
        assert items[k] == (front + back)[k - 1];
        assert IsHanded((front + back)[k - 1], a);
      }
    }
  }

  lemma InlineGenuine(s: State, x: Item, s1: State)
    requires Genuine(Pipeline(s), s.threads) && IsHanded(x, s.threads)
    requires forall u | u in s.threads :: u in s1.threads && s1.threads[u].handed == s.threads[u].handed
    requires OnWire(s1.wire) + s1.batch == OnWire(s.wire) + s.batch + [x] && s1.writer == s.writer
    requires s1.channel == s.channel
    ensures Genuine(Pipeline(s1), s1.threads)
  {
    hide OnWire;
    GenuineInsert(OnWire(s.wire) + s.batch, InFlight(s.writer) + s.channel, x, s.threads, s1.threads);
  }

  /** A value batched inline, and flushed if the batch is full. */
  lemma AdvanceInlineKeeps(s: State, t: nat)
    requires Inv(s) && Enabled(s, Advance(t)) && s.threads[t].pc.inline && s.threads[t].rest[0].kind.Value?
    ensures Inv(Apply(s, Advance(t)))
  {
    hide AllAccounted, Serials, OnWire, Midway, Bytes, Genuine, IsHanded, InFlight;
    var x := s.threads[t].rest[0];
    var s1 := Apply(s, Advance(t));
    var b := s.(batch := s.batch + [x]);
    FlushKeeps(b);
    assert OnWire(s.wire) + (s.batch + [x]) == OnWire(s.wire) + s.batch + [x];
    HeadIsHanded(s, t);
    InlineGenuine(s, x, s1);
    forall u | u in s.threads
      ensures Serials(u, Pipeline(s1)) == Serials(u, Pipeline(s)) + (if u == t then [x.serial] else [])
    {
      InlineSerials(s, t, u, x, s1);
    }
    AcceptAccounts(s, t, s1.threads[t], s1);
    MidwayPut(s.threads, t, s1.threads[t]);
  }

  lemma AccountOf(s: State, t: nat)
    requires AllAccounted(s) && t in s.threads
    ensures Accounted(t, s.threads[t], Serials(t, Pipeline(s)), s.settled)
  {}

  /** A control message ends inline writing: flush, then let go of the writer. */
  lemma AdvanceControlKeeps(s: State, t: nat)
    requires Inv(s) && Enabled(s, Advance(t)) && s.threads[t].pc.inline && !s.threads[t].rest[0].kind.Value?
    ensures Inv(Apply(s, Advance(t)))
  {
    hide AllAccounted, Serials, OnWire, Midway, Bytes;
    var s1 := Apply(s, Advance(t));
    FlushKeeps(s);
    assert Pipeline(s1) == Pipeline(s);
    PutAccounts(s, t, s1.threads[t], s1);
    MidwayPut(s.threads, t, s1.threads[t]);
  }

  lemma AdvanceQueuedKeeps(s: State, t: nat)
    requires Inv(s) && Enabled(s, Advance(t)) && !s.threads[t].pc.inline
    ensures Inv(Apply(s, Advance(t)))
  {
    hide AllAccounted, Serials, OnWire, Midway, Bytes;
    var s1 := Apply(s, Advance(t));
    assert Pipeline(s1) == Pipeline(s);
    PutAccounts(s, t, s1.threads[t], s1);
    MidwayPut(s.threads, t, s1.threads[t]);
  }

  /** A message accepted by the channel is last in the pipeline. */
  lemma SentSerials(s: State, u: nat, x: Item, s1: State)
    requires s1.wire == s.wire && s1.batch == s.batch && s1.writer == s.writer && s1.channel == s.channel + [x]
    ensures Serials(u, Pipeline(s1)) == Serials(u, Pipeline(s)) + (if u == x.owner then [x.serial] else [])
    ensures Serials(u, InFlight(s1.writer) + s1.channel) ==
            Serials(u, InFlight(s.writer) + s.channel) + (if u == x.owner then [x.serial] else [])
  {
    hide Serials, OnWire;
    var behind := InFlight(s.writer) + s.channel;
    assert InFlight(s1.writer) + s1.channel == behind + [x];
    assert Pipeline(s1) == Pipeline(s) + [x];
    SerialsConcat(u, Pipeline(s), [x]);
    SerialsConcat(u, behind, [x]);
    SerialsOne(u, x);
  }

  lemma SendAcceptedKeeps(s: State, t: nat)
    requires Inv(s) && Enabled(s, TrySend(t)) && |s.channel| < PUB_HIGH_WATER_MARK && !s.writer.Stopped?
    ensures Inv(Apply(s, TrySend(t)))
  {
    hide AllAccounted, Serials, OnWire, Midway, Bytes, Genuine, IsHanded, Grown, InlineInv;
    var x := s.threads[t].rest[0];
    var s1 := Apply(s, TrySend(t));
    MidwayPut(s.threads, t, s1.threads[t]);
    HeadIsHanded(s, t);
    SendGenuine(s, x, s1);
    forall u ensures Serials(u, Pipeline(s1)) == Serials(u, Pipeline(s)) + (if u == t then [x.serial] else [])
      ensures Serials(u, InFlight(s1.writer) + s1.channel) ==
              Serials(u, InFlight(s.writer) + s.channel) + (if u == t then [x.serial] else [])
    {
      SentSerials(s, u, x, s1);
    }
    AcceptAccounts(s, t, s1.threads[t], s1);
    InlineOthers(s, t, s1);
  }

  lemma SendGenuine(s: State, x: Item, s1: State)
    requires Genuine(Pipeline(s), s.threads) && IsHanded(x, s.threads)
    requires forall u | u in s.threads :: u in s1.threads && s1.threads[u].handed == s.threads[u].handed
    requires s1.wire == s.wire && s1.batch == s.batch && s1.writer == s.writer && s1.channel == s.channel + [x]
    ensures Genuine(Pipeline(s1), s1.threads)
  {
    hide OnWire;
    assert Pipeline(s) + [] == Pipeline(s);
    GenuineInsert(Pipeline(s), [], x, s.threads, s1.threads);
    assert Pipeline(s1) == Pipeline(s) + [x] + [];
  }

  lemma SendRefusedKeeps(s: State, t: nat)
    requires Inv(s) && Enabled(s, TrySend(t)) && (|s.channel| >= PUB_HIGH_WATER_MARK || s.writer.Stopped?)
    ensures Inv(Apply(s, TrySend(t)))
  {
    hide AllAccounted, Serials, OnWire, Midway, Bytes;
    var s1 := Apply(s, TrySend(t));
    MidwayPut(s.threads, t, s1.threads[t]);
    assert Pipeline(s1) == Pipeline(s);
    PutAccounts(s, t, s1.threads[t], s1);
  }

  lemma InlineOthers(s: State, t: nat, s1: State)
    requires InlineInv(s) && t in s.threads && s1.threads.Keys == s.threads.Keys
    requires !(s1.threads[t].pc.Sending? && s1.threads[t].pc.inline)
    requires forall u | u in s.threads && u != t :: s1.threads[u] == s.threads[u]
                     && Serials(u, InFlight(s1.writer) + s1.channel) == Serials(u, InFlight(s.writer) + s.channel) + []
    ensures InlineInv(s1)
  {
    hide Serials, InFlight;
  }

  lemma RefuseAccounts(s: State, t: nat, th: Thread, s1: State)
    requires AllAccounted(s) && t in s.threads && s.threads[t].rest != []
    requires th.rest == s.threads[t].rest[1..] && th.handed == s.threads[t].handed
    requires var n := s.threads[t].rest[0].serial;
             || (th.local == s.threads[t].local + {n} && th.quiet == s.threads[t].quiet)
             || (th.quiet == s.threads[t].quiet + {n} && th.local == s.threads[t].local)
    requires s1.threads == s.threads[t := th] && s1.settled == s.settled && Pipeline(s1) == Pipeline(s)
    ensures AllAccounted(s1)
  {
    hide Pipeline, Serials, Accounted;
    AccountRefuse(t, s.threads[t], th, Serials(t, Pipeline(s)), s.settled);
  }

  lemma UncountKeeps(s: State, t: nat)
    requires Inv(s) && Enabled(s, Uncount(t))
    ensures Inv(Apply(s, Uncount(t)))
  {
    hide AllAccounted, Serials, OnWire, Midway, Bytes;
    var s1 := Apply(s, Uncount(t));
    assert Pipeline(s1) == Pipeline(s);
    RefuseAccounts(s, t, s1.threads[t], s1);
    MidwayPut(s.threads, t, s1.threads[t]);
    MidwayHas(s.threads, t);
  }

  lemma SettleAccounts(s: State, t: nat, th: Thread, s1: State)
    requires AllAccounted(s) && t in s.threads && s1.threads == s.threads[t := th] && Pipeline(s1) == Pipeline(s)
    requires th.rest == s.threads[t].rest && th.handed == s.threads[t].handed && th.local == {}
    requires th.quiet == s.threads[t].quiet
    requires s1.settled == s.settled + Tagged(t, s.threads[t].local)
    ensures AllAccounted(s1)
  {
    hide Pipeline, Serials, Accounted, Tagged;
    forall u | u in s1.threads ensures Accounted(u, s1.threads[u], Serials(u, Pipeline(s1)), s1.settled) {
      if u == t {
        AccountSettle(t, s.threads[t], th, Serials(t, Pipeline(s)), s.settled);
      } else {
        AccountOther(u, t, s.threads[u], s.threads[t].local, Serials(u, Pipeline(s)), s.settled);
      }
    }
  }

  /** Settling adds exactly the frames refused in this call to the shared counter. */
  lemma SettleDrops(s: State, t: nat, s1: State)
    requires DropInv(s) && AllAccounted(s) && t in s.threads && s1.threads.Keys == s.threads.Keys
    requires s1.settled == s.settled + Tagged(t, s.threads[t].local) && s1.dropped == s.dropped + |s.threads[t].local|
    ensures DropInv(s1)
  {
    hide Pipeline, Serials;
    var more := Tagged(t, s.threads[t].local);
    TagSize(t, s.threads[t].local);
    AccountOf(s, t);
    assert more !! s.settled;
  }

  lemma FinishKeeps(s: State, t: nat)
    requires Inv(s) && Enabled(s, Finish(t))
    ensures Inv(Apply(s, Finish(t)))
  {
    hide AllAccounted, Serials, OnWire, Midway, Bytes, Tagged, DropInv;
    var s1 := Apply(s, Finish(t));
    FlushKeeps(s);
    assert Pipeline(s1) == Pipeline(s);
    SettleAccounts(s, t, s1.threads[t], s1);
    MidwayPut(s.threads, t, s1.threads[t]);
    assert s1.threads.Keys == s.threads.Keys;
    SettleDrops(s, t, s1);
  }

  // ----------------------------------------------------------------- writer side

  /** A writer step keeps everything the threads rely on when it moves the pipeline
      along without reordering it, keeps the queue counted, and hands on the lock and an
      empty batch in step. */
  lemma {:induction false} WriterKeeps(s: State, s1: State)
    requires Inv(s) && s1.threads == s.threads && s1.settled == s.settled && s1.dropped == s.dropped
    requires Pipeline(s1) == Pipeline(s) && QueuedInv(s1) && |s1.channel| <= |s.channel|
    requires LockInv(s1.lock, s1.threads, s1.writer) && BatchInv(s1)
    requires exists gone :: InFlight(s.writer) + s.channel == gone + (InFlight(s1.writer) + s1.channel)
    ensures Inv(s1)
  {
    hide Serials, Pipeline, QueuedInv, LockInv, BatchInv, InFlight, Accounted;
    var behind, behind1 := InFlight(s.writer) + s.channel, InFlight(s1.writer) + s1.channel;
    var gone :| behind == gone + behind1;
    forall t | t in s1.threads && s1.threads[t].pc.Sending? && s1.threads[t].pc.inline
      ensures Serials(t, behind1) == []
    {
      SerialsConcat(t, gone, behind1);
    }
  }

  lemma TakeKeeps(s: State, step: Step)
    requires Inv(s) && Enabled(s, step) && (step.Recv? || step.TryRecv?)
    ensures Inv(Apply(s, step))
  {
    hide AllAccounted, Serials, OnWire, Midway, Bytes, InlineInv, DropInv;
    var s1 := Apply(s, step);
    assert InFlight(s1.writer) + s1.channel == s.channel;
    assert InFlight(s.writer) + s.channel == [] + (InFlight(s1.writer) + s1.channel);
    WriterKeeps(s, s1);
  }

  lemma LockKeeps(s: State, step: Step)
    requires Inv(s) && Enabled(s, step) && (step.Lock? || step.LockForPing?)
    ensures Inv(Apply(s, step))
  {
    hide AllAccounted, Serials, OnWire, Midway, Bytes, InlineInv, DropInv;
    var s1 := Apply(s, step);
    assert InFlight(s.writer) + s.channel == [] + (InFlight(s1.writer) + s1.channel);
    WriterKeeps(s, s1);
  }

  lemma WriteKeeps(s: State)
    requires Inv(s) && Enabled(s, Write)
    ensures Inv(Apply(s, Write))
  {
    hide AllAccounted, Serials, OnWire, Midway, Bytes, InlineInv, DropInv;
    var s1 := Apply(s, Write);
    var x := s.writer.item;
    WriteOneAppends(s, x);
    assert InFlight(s.writer) + s.channel == [x] + (InFlight(s1.writer) + s1.channel);
    assert Pipeline(s1) == OnWire(s.wire) + s.batch + [x] + s.channel;
    assert Pipeline(s1) == Pipeline(s);
    WriterKeeps(s, s1);
  }

  lemma CountDownKeeps(s: State)
    requires Inv(s) && Enabled(s, CountDown)
    ensures Inv(Apply(s, CountDown))
  {
    hide AllAccounted, Serials, OnWire, Midway, Bytes, InlineInv, DropInv;
    var s1 := Apply(s, CountDown);
    FlushKeeps(s);
    assert InFlight(s.writer) + s.channel == [] + (InFlight(s1.writer) + s1.channel);
    assert Pipeline(s1) == Pipeline(s);
    WriterKeeps(s, s1);
  }

  lemma FlushAndUnlockKeeps(s: State)
    requires Inv(s) && Enabled(s, FlushAndUnlock)
    ensures Inv(Apply(s, FlushAndUnlock))
  {
    hide AllAccounted, Serials, OnWire, Midway, Bytes, InlineInv, DropInv;
    var s1 := Apply(s, FlushAndUnlock);
    FlushKeeps(s);
    assert InFlight(s.writer) + s.channel == [] + (InFlight(s1.writer) + s1.channel);
    assert Pipeline(s1) == Pipeline(s);
    WriterKeeps(s, s1);
  }

  lemma SendPingKeeps(s: State)
    requires Inv(s) && Enabled(s, SendPing)
    ensures Inv(Apply(s, SendPing))
  {
    hide AllAccounted, Serials, OnWire, Midway, Bytes, InlineInv, DropInv;
    var s1 := Apply(s, SendPing);
    OnWireMore(s.wire, Ping);
    assert OnWire(s1.wire) == OnWire(s.wire);
    assert InFlight(s.writer) + s.channel == [] + (InFlight(s1.writer) + s1.channel);
    assert Pipeline(s1) == Pipeline(s);
    WriterKeeps(s, s1);
  }

  lemma {:induction false} StepKeeps(s: State, step: Step)
    requires Inv(s) && Enabled(s, step)
    ensures Inv(Apply(s, step))
  {
    hide Inv, Apply;
    match step
    case Begin(t, items) => BeginKeeps(s, t, items);
    case Emit(t, item) => EmitKeeps(s, t, item);
    case ReadQueued(t) => ReadQueuedKeeps(s, t);
    case LetGo(t) => LetGoKeeps(s, t);
    case Advance(t) =>
      if !s.threads[t].pc.inline {
        AdvanceQueuedKeeps(s, t);
      } else if s.threads[t].rest[0].kind.Value? {
        AdvanceInlineKeeps(s, t);
      } else {
        AdvanceControlKeeps(s, t);
      }
    case TrySend(t) =>
      if |s.channel| < PUB_HIGH_WATER_MARK && !s.writer.Stopped? {
        SendAcceptedKeeps(s, t);
      } else {
        SendRefusedKeeps(s, t);
      }
    case Uncount(t) => UncountKeeps(s, t);
    case Finish(t) => FinishKeeps(s, t);
    case Recv => TakeKeeps(s, step);
    case TryRecv => TakeKeeps(s, step);
    case Lock => LockKeeps(s, step);
    case LockForPing => LockKeeps(s, step);
    case Write => WriteKeeps(s);
    case CountDown => CountDownKeeps(s);
    case FlushAndUnlock => FlushAndUnlockKeeps(s);
    case SendPing => SendPingKeeps(s);
  }
}
