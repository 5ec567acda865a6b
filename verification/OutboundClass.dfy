/** One client's outbound path as the code runs it: `Client.deliver_all`, `Client.enqueue`,
    one turn of `writer_loop`, and the writer's batch buffer.  Each method is one schedule
    of the state machine in `Outbound`. */
module OutboundClass {
  import opened Outbound
  import opened OutboundInv
  import opened OutboundTheorems

  /** The writing half of a connection; a flush sends the batch as one binary frame. */
  class WebsocketWriter {
    var batch: seq<Item>
    var wire: seq<Wire>

    ghost function Sent(): seq<Item>
      reads this
    {
      OnWire(wire) + batch
    }

    method WriteBatched(item: Item)
      modifies this
      ensures batch == old(batch) + [item] && wire == old(wire)
      ensures Sent() == old(Sent()) + [item]
    {
      batch := batch + [item];
      assert OnWire(wire) + (old(batch) + [item]) == OnWire(wire) + old(batch) + [item];
    }

    method BatchLen() returns (n: nat)
      ensures n == Bytes(batch)
    {
      n := Bytes(batch);
    }

    method Flush()
      modifies this
      ensures batch == [] && wire == if old(batch) == [] then old(wire) else old(wire) + [Binary(old(batch))]
      ensures Sent() == old(Sent())
    {
      if batch == [] {
        return;
      }
      OnWireMore(wire, Binary(batch));
      wire := wire + [Binary(batch)];
      batch := [];
      assert OnWire(wire) + [] == OnWire(wire);
    }

    /** A text, raw or close frame: whatever is batched goes out before it. */
    method SendSingle(item: Item)
      modifies this
      ensures batch == []
      ensures wire == (if old(batch) == [] then old(wire) else old(wire) + [Binary(old(batch))]) + [Single(item)]
      ensures Sent() == old(Sent()) + [item]
    {
      Flush();
      OnWireMore(wire, Single(item));
      assert OnWire(wire) + [] == OnWire(wire);
      wire := wire + [Single(item)];
      assert OnWire(wire) + [] == OnWire(wire);
    }
  }

  /** A thread that has had its next frame accepted or refused. */
  function AfterEnqueue(was: Thread, item: Item, ok: bool): Thread
    requires was.rest != []
  {
    var th := was.(rest := was.rest[1..]);
    if ok then th
    else if was.counting then th.(local := was.local + {item.serial})
    else th.(quiet := was.quiet + {item.serial})
  }

  /** How many messages come before the first close frame. */
  function UntilClose(items: seq<Item>): nat {
    if items == [] || items[0].kind.Close? then 0 else 1 + UntilClose(items[1..])
  }

  lemma EmptyRun(s: State)
    ensures Legal(s, []) && Run(s, []) == s
  {}

  class Client {
    const socket: WebsocketWriter
    var lock: Holder
    var queued: nat
    var channel: seq<Item>
    var dropped: nat
    /** Whether the writer thread has ended and dropped the receiving end. */
    var gone: bool
    /** The interleaving machine this object is a part of. */
    ghost var machine: State

    constructor (ids: set<nat>)
      ensures Valid() && machine == Start(ids) && fresh(socket)
    {
      socket := new WebsocketWriter;
      lock, queued, channel, dropped, gone := Free, 0, [], 0, false;
      machine := Start(ids);
      new;
      socket.batch, socket.wire := [], [];
      StartInv(ids);
    }

    ghost predicate Valid()
      reads this, socket
    {
      && Tied(machine, lock, queued, channel, dropped, gone, socket.batch, socket.wire)
      && Inv(machine)
    }

    static ghost predicate Tied(m: State, lock: Holder, queued: nat, channel: seq<Item>, dropped: nat, gone: bool,
                                batch: seq<Item>, wire: seq<Wire>) {
      m.lock == lock && m.queued == queued && m.channel == channel && m.dropped == dropped && m.writer.Stopped? == gone
      && m.batch == batch && m.wire == wire
    }

    /** Queues the frame thread `t` is on; `false` if the queue is full or its writer is
        gone, and then the count is taken back. */
    method Enqueue(t: nat, item: Item) returns (ok: bool, ghost steps: seq<Step>)
      requires Valid() && t in machine.threads
      requires machine.threads[t].pc == Sending(false, false) && machine.threads[t].rest != []
      requires machine.threads[t].rest[0] == item
      modifies this
      ensures Valid() && Legal(old(machine), steps) && machine == Run(old(machine), steps)
      ensures ok <==> |old(channel)| < PUB_HIGH_WATER_MARK && !gone
      ensures channel == if ok then old(channel) + [item] else old(channel)
      ensures queued == if ok then old(queued) + 1 else old(queued)
      ensures lock == old(lock) && gone == old(gone) && dropped == old(dropped) && t in machine.threads
      ensures machine.writer == old(machine).writer
      ensures machine.threads[t] == AfterEnqueue(old(machine).threads[t], item, ok)
    {
      hide Inv;
      steps := [];
      steps := Take(steps, Advance(t));
      queued := queued + 1;
      ok := |channel| < PUB_HIGH_WATER_MARK && !gone;
      steps := Take(steps, TrySend(t));
      if ok {
        channel := channel + [item];
      } else {
        assert machine.queued > 0 by { QueuedOne(machine, t); }
        steps := Take(steps, Uncount(t));
        queued := queued - 1;
      }
    }

    /** Takes the writer if it is free and nothing is queued. */
    method TryWriter(t: nat, items: seq<Item>) returns (inline: bool, ghost steps: seq<Step>)
      requires Valid() && Enabled(machine, Begin(t, items))
      modifies this
      ensures Valid() && Legal(old(machine), steps) && machine == Run(old(machine), steps)
      ensures inline <==> old(lock).Free? && queued == 0
      ensures lock == if inline then ByThread(t) else old(lock)
      ensures queued == old(queued) && dropped == old(dropped) && t in machine.threads
      ensures machine.threads[t] == old(machine).threads[t].(
                rest := items, handed := old(machine).threads[t].handed + items, counting := true,
                pc := Sending(inline, false))
    {
      hide Inv;
      steps := Take([], Begin(t, items));
      assert Legal(old(machine), steps) && machine == Run(old(machine), steps) by {
        assert Legal(old(machine), []) && Run(old(machine), []) == old(machine);
      }
      var got := lock.Free?;
      if got {
        lock := ByThread(t);
      }
      inline := got && queued == 0;
      steps := Take(steps, ReadQueued(t));
      if got && !inline {
        steps := Take(steps, LetGo(t));
        lock := Free;
      }
    }

    /** Batches a value inline; tells whether the batch still holds something. */
    method WriteInline(t: nat, item: Item) returns (batched: bool, ghost steps: seq<Step>)
      requires Valid() && t in machine.threads && item.kind.Value?
      requires var th := machine.threads[t]; th.pc.Sending? && th.pc.inline && th.rest != [] && th.rest[0] == item
      modifies this, socket
      ensures Valid() && Legal(old(machine), steps) && machine == Run(old(machine), steps)
      ensures socket.Sent() == old(socket.Sent()) + [item]
      ensures lock == old(lock) && dropped == old(dropped) && t in machine.threads
      ensures var was := old(machine).threads[t];
              machine.threads[t] == was.(rest := was.rest[1..], pc := Sending(true, batched))
    {
      hide Inv, OnWire, Bytes;
      assert Legal(machine, []) && Run(machine, []) == machine;
      steps := Take([], Advance(t));
      socket.WriteBatched(item);
      batched := true;
      var n := socket.BatchLen();
      if n >= MAX_BATCH_BYTES {
        socket.Flush();
        batched := false;
      }
    }

    /** Ends inline writing before a control message: flush, then let go of the writer. */
    method LetGoOfWriter(t: nat, batched: bool) returns (ghost steps: seq<Step>)
      requires Valid() && t in machine.threads
      requires var th := machine.threads[t]; th.pc == Sending(true, batched) && th.rest != [] && !th.rest[0].kind.Value?
      modifies this, socket
      ensures Valid() && Legal(old(machine), steps) && machine == Run(old(machine), steps)
      ensures lock.Free? && dropped == old(dropped) && t in machine.threads && socket.Sent() == old(socket.Sent())
      ensures machine.threads[t] == old(machine).threads[t].(pc := Sending(false, false))
    {
      hide Inv, OnWire;
      assert Legal(machine, []) && Run(machine, []) == machine;
      steps := Take([], Advance(t));
      if batched {
        socket.Flush();
      }
      lock := Free;
    }

    /** Writes everything routed to this client in one dispatch, in order, and returns how
        many frames were refused for a full queue. */
    method DeliverAll(t: nat, items: seq<Item>) returns (refused: nat, ghost steps: seq<Step>)
      requires Valid() && Enabled(machine, Begin(t, items))
      modifies this, socket
      ensures Valid() && Legal(old(machine), steps) && machine == Run(old(machine), steps)
      ensures t in machine.threads && machine.threads[t].pc.Idle?
      ensures machine.threads[t].handed == old(machine).threads[t].handed + items
      ensures dropped == old(dropped) + refused
    {
      hide Inv, Apply, Legal, Run;
      ghost var before := machine;
      assert t in before.threads && before.threads[t].local == {} by { IdleLocal(before, t); }
      var inline: bool;
      inline, steps := TryWriter(t, items);
      var batched := false;
      var i := 0;
      refused := 0;
      while i < |items|
        invariant 0 <= i <= |items| && Valid() && Legal(before, steps) && machine == Run(before, steps)
        invariant t in machine.threads && dropped == old(dropped)
        invariant var th := machine.threads[t];
                  && th.pc == Sending(inline, batched) && (batched ==> inline) && th.counting
                  && th.rest == items[i..] && th.handed == before.threads[t].handed + items && |th.local| == refused
      {
        var item := items[i];
        if inline && !item.kind.Value? {
          ghost var more := LetGoOfWriter(t, batched);
          RunConcat(before, steps, more);
          steps := steps + more;
          inline, batched := false, false;
        }
        ghost var more: seq<Step>;
        if inline {
          batched, more := WriteInline(t, item);
        } else {
          assert item.serial !in machine.threads[t].local by { HeadIsNew(machine, t); }
          var ok: bool;
          ok, more := Enqueue(t, item);
          if !ok {
            refused := refused + 1;
          }
        }
        RunConcat(before, steps, more);
        steps := steps + more;
        i := i + 1;
      }
      ghost var more := FinishCall(t, inline, batched, refused);
      RunConcat(before, steps, more);
      steps := steps + more;
    }

    /** The end of a call: flush what was batched, let go of the writer, settle the count. */
    method FinishCall(t: nat, inline: bool, batched: bool, refused: nat) returns (ghost steps: seq<Step>)
      requires Valid() && t in machine.threads && (batched ==> inline)
      requires var th := machine.threads[t]; th.pc == Sending(inline, batched) && th.rest == [] && |th.local| == refused
      modifies this, socket
      ensures Valid() && Legal(old(machine), steps) && machine == Run(old(machine), steps)
      ensures t in machine.threads && machine.threads[t] == old(machine).threads[t].(pc := Idle, local := {})
      ensures dropped == old(dropped) + refused && socket.Sent() == old(socket.Sent())
    {
      hide Inv, OnWire, Tagged;
      assert Legal(machine, []) && Run(machine, []) == machine;
      steps := Take([], Finish(t));
      if batched {
        socket.Flush();
      }
      if inline {
        lock := Free;
      }
      dropped := dropped + refused;
    }

    // ------------------------------------------------------------- the writer thread

    /** `write_one`: batches a value, or flushes and sends anything else; `closed` after a
        close frame. */
    method WriteOneMessage(item: Item) returns (closed: bool)
      requires Valid() && machine.writer.Writing? && machine.writer.item == item
      modifies this, socket
      ensures Tied(Apply(old(machine), Write), lock, queued, channel, dropped, gone, socket.batch, socket.wire)
      ensures machine == old(machine) && closed == item.kind.Close? && (closed ==> socket.batch == [])
      ensures lock == old(lock) && queued == old(queued) && channel == old(channel)
      ensures socket.Sent() == old(socket.Sent()) + [item]
    {
      hide Inv, OnWire;
      if item.kind == Value {
        socket.WriteBatched(item);
      } else {
        socket.SendSingle(item);
      }
      closed := item.kind.Close?;
    }

    /** Writes the message the writer is on, then counts it down; `closed` ends the thread. */
    method WriteAndCount(item: Item, first: bool) returns (closed: bool, ghost steps: seq<Step>)
      requires Valid() && machine.writer == Writing(item, first)
      modifies this, socket
      ensures Valid() && Legal(old(machine), steps) && machine == Run(old(machine), steps)
      ensures closed == item.kind.Close? && machine.writer == (if closed then Stopped else Draining)
      ensures channel == old(channel) && lock == (if closed then Free else old(lock)) && (closed ==> socket.batch == [])
      ensures socket.Sent() == old(socket.Sent()) + [item]
    {
      hide Inv, OnWire, Bytes;
      assert Legal(machine, []) && Run(machine, []) == machine;
      closed := WriteOneMessage(item);
      steps := Take([], Write);
      assert machine.queued > 0 by { WriterOwesOne(machine); }
      steps := Take(steps, CountDown);
      queued := queued - 1;
      if closed {
        gone, lock := true, Free;
      } else if !first {
        var n := socket.BatchLen();
        if n >= MAX_BATCH_BYTES {
          socket.Flush();
        }
      }
    }

    /** Takes and writes the next queued message, still holding the writer. */
    method DrainOne() returns (closed: bool, ghost steps: seq<Step>)
      requires Valid() && machine.writer.Draining? && channel != []
      modifies this, socket
      ensures Valid() && Legal(old(machine), steps) && machine == Run(old(machine), steps)
      ensures closed == old(channel)[0].kind.Close? && machine.writer == (if closed then Stopped else Draining)
      ensures channel == old(channel)[1..] && lock == (if closed then Free else old(lock))
      ensures (closed ==> socket.batch == [])
      ensures socket.Sent() == old(socket.Sent()) + [old(channel)[0]]
    {
      hide Inv, Apply, Legal, Run, OnWire;
      ghost var before := machine;
      var item := channel[0];
      steps := TakeNext();
      ghost var more: seq<Step>;
      closed, more := WriteAndCount(item, false);
      RunConcat(before, steps, more);
      steps := steps + more;
    }

    /** Writes the queue until it is empty or a close frame went out. */
    method Drain() returns (closed: bool, ghost steps: seq<Step>)
      requires Valid() && machine.writer.Draining?
      modifies this, socket
      ensures Valid() && Legal(old(machine), steps) && machine == Run(old(machine), steps)
      ensures machine.writer == (if closed then Stopped else Draining)
      ensures closed <==> UntilClose(old(channel)) < |old(channel)|
      ensures channel == if closed then old(channel)[UntilClose(old(channel)) + 1..] else []
      ensures closed ==> lock.Free? && socket.batch == []
      ensures socket.Sent() + channel == old(socket.Sent()) + old(channel)
    {
      hide Inv, Apply, Legal, Run, OnWire, Client.Tied;
      ghost var before := machine;
      steps := [];
      closed := false;
      assert Legal(machine, []) && Run(machine, []) == machine by { EmptyRun(machine); }
      ghost var done := 0;
      while !closed && channel != []
        invariant Valid() && Legal(before, steps) && machine == Run(before, steps)
        invariant done <= |old(channel)| && channel == old(channel)[done..]
        invariant machine.writer == (if closed then Stopped else Draining)
        invariant (closed ==> lock.Free? && socket.batch == [])
        invariant if closed then done == UntilClose(old(channel)) + 1
                  else UntilClose(old(channel)) == done + UntilClose(channel)
        invariant socket.Sent() + channel == old(socket.Sent()) + old(channel)
        decreases |channel|
      {
        ghost var more: seq<Step>;
        assert channel == [channel[0]] + channel[1..];
        closed, more := DrainOne();
        RunConcat(before, steps, more);
        steps := steps + more;
        done := done + 1;
      }
    }

    /** One turn of the writer thread: takes the first message, writes it and everything
        queued behind it up to a close frame, and leaves the buffer flushed. */
    method WriterTurn() returns (closed: bool, ghost steps: seq<Step>)
      requires Valid() && machine.writer.Waiting? && lock.Free? && channel != []
      modifies this, socket
      ensures Valid() && Legal(old(machine), steps) && machine == Run(old(machine), steps)
      ensures lock.Free? && socket.batch == [] && machine.writer == (if closed then Stopped else Waiting)
      ensures closed <==> UntilClose(old(channel)) < |old(channel)|
      ensures channel == if closed then old(channel)[UntilClose(old(channel)) + 1..] else []
      ensures OnWire(socket.wire) + channel == old(OnWire(socket.wire)) + old(channel)
    {
      hide Inv, Apply, Legal, Run, OnWire, Client.Tied;
      ghost var before := machine;
      var first := channel[0];
      ghost var more: seq<Step>;
      assert channel == [first] + channel[1..];
      steps := TakeFirst();
      closed, more := WriteAndCount(first, true);
      RunConcat(before, steps, more);
      steps := steps + more;
      if !closed {
        closed, more := DrainAndFlush();
        RunConcat(before, steps, more);
        steps := steps + more;
      }
      assert OnWire(socket.wire) + [] == OnWire(socket.wire);
    }

    /** The rest of a turn: the queue, then the final flush unless a close frame came. */
    method DrainAndFlush() returns (closed: bool, ghost steps: seq<Step>)
      requires Valid() && machine.writer.Draining?
      modifies this, socket
      ensures Valid() && Legal(old(machine), steps) && machine == Run(old(machine), steps)
      ensures lock.Free? && socket.batch == [] && machine.writer == (if closed then Stopped else Waiting)
      ensures closed <==> UntilClose(old(channel)) < |old(channel)|
      ensures channel == if closed then old(channel)[UntilClose(old(channel)) + 1..] else []
      ensures socket.Sent() + channel == old(socket.Sent()) + old(channel)
    {
      hide Inv, Apply, Legal, Run, OnWire, Client.Tied;
      ghost var before := machine;
      closed, steps := Drain();
      if !closed {
        ghost var more := FlushUnlock();
        RunConcat(before, steps, more);
        steps := steps + more;
      }
    }

    method TakeFirst() returns (ghost steps: seq<Step>)
      requires Valid() && machine.writer.Waiting? && lock.Free? && channel != []
      modifies this
      ensures Valid() && Legal(old(machine), steps) && machine == Run(old(machine), steps)
      ensures machine.writer == Writing(old(channel)[0], true) && channel == old(channel)[1..] && lock == ByWriter
      ensures socket.batch == [] && socket.Sent() == OnWire(socket.wire)
    {
      hide Inv, OnWire;
      assert Legal(machine, []) && Run(machine, []) == machine;
      assert socket.batch == [] by { FreeBatch(machine); }
      assert OnWire(socket.wire) + [] == OnWire(socket.wire);
      steps := Take([], Recv);
      channel := channel[1..];
      steps := Take(steps, Outbound.Lock);
      lock := ByWriter;
    }

    method TakeNext() returns (ghost steps: seq<Step>)
      requires Valid() && machine.writer.Draining? && channel != []
      modifies this
      ensures Valid() && Legal(old(machine), steps) && machine == Run(old(machine), steps)
      ensures machine.writer == Writing(old(channel)[0], false) && channel == old(channel)[1..] && lock == old(lock)
    {
      hide Inv;
      assert Legal(machine, []) && Run(machine, []) == machine;
      steps := Take([], TryRecv);
      channel := channel[1..];
    }

    method FlushUnlock() returns (ghost steps: seq<Step>)
      requires Valid() && machine.writer.Draining? && channel == []
      modifies this, socket
      ensures Valid() && Legal(old(machine), steps) && machine == Run(old(machine), steps)
      ensures machine.writer == Waiting && channel == [] && lock.Free? && socket.batch == []
      ensures socket.Sent() == old(socket.Sent())
    {
      hide Inv, OnWire;
      assert Legal(machine, []) && Run(machine, []) == machine;
      steps := Take([], FlushAndUnlock);
      socket.Flush();
      lock := Free;
    }

    /** Advances the machine by one step. */
    ghost method Take(steps: seq<Step>, step: Step) returns (more: seq<Step>)
      requires Inv(machine) && Enabled(machine, step)
      modifies `machine
      ensures Inv(machine) && machine == Apply(old(machine), step) && more == steps + [step]
      ensures forall s | Legal(s, steps) && Run(s, steps) == old(machine) :: Legal(s, more) && Run(s, more) == machine
    {
      hide Inv, Apply, Enabled;
      StepKeeps(machine, step);
      forall s | Legal(s, steps) && Run(s, steps) == machine
        ensures Legal(s, steps + [step]) && Run(s, steps + [step]) == Apply(machine, step)
      {
        RunSnoc(s, steps, step);
      }
      machine := Apply(machine, step);
      more := steps + [step];
    }
  }

  lemma QueuedOne(s: State, t: nat)
    requires Inv(s) && t in s.threads && CountsOne(s.threads[t].pc)
    ensures s.queued > 0
  {
    hide AllAccounted, LockInv, BatchInv, InlineInv, DropInv, Genuine, ShapeInv;
    MidwayHas(s.threads, t);
  }

  lemma WriterOwesOne(s: State)
    requires Inv(s) && s.writer.Counting?
    ensures s.queued > 0
  {
    hide AllAccounted, LockInv, BatchInv, InlineInv, DropInv, Genuine, ShapeInv;
  }

  lemma FreeBatch(s: State)
    requires Inv(s) && s.lock.Free?
    ensures s.batch == []
  {
    hide AllAccounted, LockInv, QueuedInv, InlineInv, DropInv, Genuine, ShapeInv;
  }

  lemma IdleLocal(s: State, t: nat)
    requires Inv(s) && t in s.threads && s.threads[t].pc.Idle?
    ensures s.threads[t].local == {}
  {
    hide AllAccounted, LockInv, BatchInv, QueuedInv, InlineInv, DropInv, Genuine;
    assert Shaped(s.threads[t]);
  }

  lemma HeadIsNew(s: State, t: nat)
    requires Inv(s) && t in s.threads && s.threads[t].rest != []
    ensures s.threads[t].rest[0].serial !in s.threads[t].local
  {
    hide LockInv, BatchInv, QueuedInv, InlineInv, DropInv, Genuine, ShapeInv, Serials, Pipeline;
    AccountOf(s, t);
    assert s.threads[t].rest[0] == s.threads[t].handed[Done(s.threads[t])];
  }
}
