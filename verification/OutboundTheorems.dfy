/** What the outbound path promises over every interleaving. */
module OutboundTheorems {
  import opened Outbound
  import opened OutboundInv

  // ----------------------------------------------------------------------- runs

  ghost predicate Legal(s: State, steps: seq<Step>)
    decreases |steps|
  {
    steps == [] || (Enabled(s, steps[0]) && Legal(Apply(s, steps[0]), steps[1..]))
  }

  ghost function Run(s: State, steps: seq<Step>): State
    requires Legal(s, steps)
    decreases |steps|
  {
    if steps == [] then s else Run(Apply(s, steps[0]), steps[1..])
  }

  /** A fresh connection used by the threads `ids`. */
  function Start(ids: set<nat>): State {
    State(Free, 0, [], [], [], Waiting, map t | t in ids :: Thread(Idle, [], [], true, {}, {}), 0, {})
  }

  lemma StartInv(ids: set<nat>)
    ensures Inv(Start(ids))
  {
    assert Pipeline(Start(ids)) == [];
    assert Midway(Start(ids).threads) == {};
  }

  lemma {:induction false} RunKeeps(s: State, steps: seq<Step>)
    requires Inv(s) && Legal(s, steps)
    ensures Inv(Run(s, steps))
    decreases |steps|
  {
    hide Inv, Apply, Enabled;
    if steps != [] {
      StepKeeps(s, steps[0]);
      RunKeeps(Apply(s, steps[0]), steps[1..]);
    }
  }

  lemma {:induction false} RunConcat(s: State, a: seq<Step>, b: seq<Step>)
    requires Legal(s, a) && Legal(Run(s, a), b)
    ensures Legal(s, a + b) && Run(s, a + b) == Run(Run(s, a), b)
    decreases |a|
  {
    hide Apply, Enabled;
    if a == [] {
      assert a + b == b;
    } else {
      RunConcat(Apply(s, a[0]), a[1..], b);
      assert (a + b)[1..] == a[1..] + b;
    }
  }

  lemma RunSnoc(s: State, a: seq<Step>, step: Step)
    requires Legal(s, a) && Enabled(Run(s, a), step)
    ensures Legal(s, a + [step]) && Run(s, a + [step]) == Apply(Run(s, a), step)
  {
    hide Apply, Enabled;
    var m := Run(s, a);
    assert [step][1..] == [];
    assert Legal(m, [step]) && Run(m, [step]) == Apply(m, step);
    RunConcat(s, a, [step]);
  }

  // ------------------------------------------------- serials and the items themselves

  lemma {:induction false} SerialsHas(t: nat, items: seq<Item>, n: nat)
    ensures n in Serials(t, items) <==> exists k :: 0 <= k < |items| && items[k].owner == t && items[k].serial == n
    decreases |items|
  {
    if items != [] {
      var m := |items| - 1;
      SerialsHas(t, items[..m], n);
      assert forall k | 0 <= k < m :: items[..m][k] == items[k];
      if n in Serials(t, items[..m]) {
        var k :| 0 <= k < m && items[..m][k].owner == t && items[..m][k].serial == n;
        assert items[k].owner == t && items[k].serial == n;
      }
    }
  }

  /** Frames of one owner appear in the order of their serials. */
  ghost predicate InOrder(t: nat, items: seq<Item>) {
    forall i, j | 0 <= i < j < |items| && items[i].owner == t && items[j].owner == t ::
      items[i].serial < items[j].serial
  }

  lemma IncreasingPrefix(xs: seq<nat>, ys: seq<nat>)
    requires Increasing(xs + ys)
    ensures Increasing(xs)
  {
    forall i, j | 0 <= i < j < |xs| ensures xs[i] < xs[j] {
      assert (xs + ys)[i] == xs[i] && (xs + ys)[j] == xs[j];
    }
  }

  lemma {:induction false} IncreasingInOrder(t: nat, items: seq<Item>)
    requires Increasing(Serials(t, items))
    ensures InOrder(t, items)
    decreases |items|
  {
    if items != [] {
      var m := |items| - 1;
      var front := Serials(t, items[..m]);
      var last := if items[m].owner == t then [items[m].serial] else [];
      assert Serials(t, items) == front + last;
      IncreasingPrefix(front, last);
      IncreasingInOrder(t, items[..m]);
      forall i, j | 0 <= i < j < |items| && items[i].owner == t && items[j].owner == t
        ensures items[i].serial < items[j].serial
      {
        if j < m {
          assert items[..m][i] == items[i] && items[..m][j] == items[j];
        } else {
          SerialsHas(t, items[..m], items[i].serial);
          assert items[..m][i] == items[i];
          var a :| 0 <= a < |front| && front[a] == items[i].serial;
          assert (front + last)[a] == front[a] && (front + last)[|front|] == items[m].serial;
        }
      }
    }
  }

  lemma InOrderPrefix(t: nat, a: seq<Item>, b: seq<Item>)
    requires InOrder(t, a + b)
    ensures InOrder(t, a)
  {
    forall i, j | 0 <= i < j < |a| && a[i].owner == t && a[j].owner == t ensures a[i].serial < a[j].serial {
      assert (a + b)[i] == a[i] && (a + b)[j] == a[j];
    }
  }

  // ----------------------------------------------------------------- main results

  /** What is accepted but not on the socket yet. */
  function Behind(s: State): seq<Item> {
    s.batch + (InFlight(s.writer) + s.channel)
  }

  lemma PipelineInOrder(s: State, t: nat)
    requires AllAccounted(s) && t in s.threads
    ensures InOrder(t, Pipeline(s))
  {
    hide Serials, Pipeline;
    assert Accounted(t, s.threads[t], Serials(t, Pipeline(s)), s.settled);
    IncreasingInOrder(t, Pipeline(s));
  }

  /** Whatever the interleaving, the socket carries each thread's frames in the order
      they were handed over, each at most once and unchanged. */
  lemma {:induction false} WireInOrder(ids: set<nat>, steps: seq<Step>)
    requires Legal(Start(ids), steps)
    ensures var s := Run(Start(ids), steps); var sent := OnWire(s.wire);
            && (forall t | t in s.threads :: InOrder(t, sent))
            && (forall k | 0 <= k < |sent| :: IsHanded(sent[k], s.threads))
  {
    hide Serials, OnWire, Run, Legal, Start, InOrder;
    StartInv(ids);
    RunKeeps(Start(ids), steps);
    var s := Run(Start(ids), steps);
    var sent, rest := OnWire(s.wire), s.batch + (InFlight(s.writer) + s.channel);
    assert Pipeline(s) == sent + rest;
    forall t | t in s.threads ensures InOrder(t, sent) {
      PipelineInOrder(s, t);
      InOrderPrefix(t, sent, rest);
    }
    forall k | 0 <= k < |sent| ensures IsHanded(sent[k], s.threads) {
      assert sent[k] == Pipeline(s)[k];
    }
  }

  /** In any reachable state a frame its thread is through with is exactly one of: on
      the socket, still queued behind the writer, or refused. */
  ghost predicate OneFate(s: State, t: nat, n: nat)
    requires t in s.threads && n < |s.threads[t].handed|
  {
    var x := s.threads[t].handed[n];
    var sent, waiting, refused := x in OnWire(s.wire), x in Behind(s), WasRefused(t, s.threads[t], s.settled, n);
    && (sent || waiting || refused)
    && !(sent && waiting) && !(sent && refused) && !(waiting && refused)
  }

  lemma AccountedFor(s: State, t: nat, n: nat)
    requires Inv(s) && t in s.threads && n < Done(s.threads[t])
    ensures s.threads[t].handed[n] in Pipeline(s) <==> !WasRefused(t, s.threads[t], s.settled, n)
  {
    hide Serials, Pipeline, LockInv, BatchInv, InlineInv, QueuedInv, DropInv, ShapeInv;
    var x, items := s.threads[t].handed[n], Pipeline(s);
    AccountOf(s, t);
    SerialsHas(t, items, n);
    assert x.owner == t && x.serial == n;
    if n in Serials(t, items) {
      var k :| 0 <= k < |items| && items[k].owner == t && items[k].serial == n;
      assert IsHanded(items[k], s.threads);
      assert x == items[k];
    } else {
      assert x !in items;
    }
  }

  lemma OnceInPipeline(s: State, x: Item)
    requires Inv(s) && x.owner in s.threads
    ensures !(x in OnWire(s.wire) && x in Behind(s))
  {
    hide Serials, OnWire, LockInv, BatchInv, InlineInv, QueuedInv, DropInv, ShapeInv, Accounted, AllAccounted;
    hide Genuine, InFlight;
    PipelineInOrder(s, x.owner);
    var sent, rest := OnWire(s.wire), Behind(s);
    assert Pipeline(s) == sent + rest;
    forall i, j | 0 <= i < |sent| && 0 <= j < |rest| ensures !(sent[i] == x && rest[j] == x) {
      InOrderOnce(x, sent, rest, i, j);
    }
  }

  lemma InOrderOnce(x: Item, a: seq<Item>, b: seq<Item>, i: nat, j: nat)
    requires InOrder(x.owner, a + b) && i < |a| && j < |b|
    ensures !(a[i] == x && b[j] == x)
  {
    assert (a + b)[i] == a[i] && (a + b)[|a| + j] == b[j];
  }

  lemma {:induction false} EveryFrameHasOneFate(ids: set<nat>, steps: seq<Step>, t: nat, n: nat)
    requires Legal(Start(ids), steps)
    requires var s := Run(Start(ids), steps); t in s.threads && n < Done(s.threads[t])
    ensures OneFate(Run(Start(ids), steps), t, n)
  {
    hide Serials, OnWire, Run, Legal, Start, LockInv, BatchInv, InlineInv, QueuedInv, DropInv, ShapeInv, Genuine;
    hide InFlight;
    StartInv(ids);
    RunKeeps(Start(ids), steps);
    var s := Run(Start(ids), steps);
    AccountedFor(s, t, n);
    AccountOf(s, t);
    OnceInPipeline(s, s.threads[t].handed[n]);
    assert Pipeline(s) == OnWire(s.wire) + Behind(s);
  }

  /** With the writer lock free, nothing is left in the batch buffer. */
  lemma {:induction false} FreeMeansFlushed(ids: set<nat>, steps: seq<Step>)
    requires Legal(Start(ids), steps)
    ensures var s := Run(Start(ids), steps); s.lock.Free? ==> s.batch == []
  {
    hide Run, Legal, Start, AllAccounted, LockInv, InlineInv, QueuedInv, DropInv, ShapeInv, Genuine;
    StartInv(ids);
    RunKeeps(Start(ids), steps);
  }

  /** Once everyone is idle and the channel drained, every frame ever handed over is on
      the socket or was refused, and the shared counter counts exactly the refused ones
      that `deliver_all` reported. */
  lemma {:induction false} AtRest(ids: set<nat>, steps: seq<Step>)
    requires Legal(Start(ids), steps)
    requires var s := Run(Start(ids), steps);
             s.writer.Waiting? && s.channel == [] && forall t | t in s.threads :: s.threads[t].pc.Idle?
    ensures var s := Run(Start(ids), steps);
            && s.lock.Free? && s.batch == [] && s.queued == 0 && s.dropped == |s.settled|
            && (forall t, n | t in s.threads && 0 <= n < |s.threads[t].handed| ::
                  s.threads[t].handed[n] in OnWire(s.wire) <==> !((t, n) in s.settled || n in s.threads[t].quiet))
            && (forall k | k in s.settled ::
                  k.0 in s.threads && k.1 < |s.threads[k.0].handed| && k.1 !in s.threads[k.0].quiet)
  {
    hide Run, Legal, Start, OnWire, Serials, AllAccounted, Genuine, InlineInv;
    StartInv(ids);
    RunKeeps(Start(ids), steps);
    var s := Run(Start(ids), steps);
    assert Midway(s.threads) == {};
    assert s.lock.Free?;
    assert Pipeline(s) == OnWire(s.wire);
    forall t, n | t in s.threads && 0 <= n < |s.threads[t].handed|
      ensures s.threads[t].handed[n] in OnWire(s.wire) <==> !((t, n) in s.settled || n in s.threads[t].quiet)
    {
      assert Shaped(s.threads[t]);
      AccountedFor(s, t, n);
    }
    forall k | k in s.settled
      ensures k.0 in s.threads && k.1 < |s.threads[k.0].handed| && k.1 !in s.threads[k.0].quiet
    {
      AccountOf(s, k.0);
      assert (k.0, k.1) in s.settled;
    }
  }

  /** A thread about to write a value inline has every earlier frame of its own already
      on the socket, in the batch it appends to, or refused: nothing is overtaken. */
  lemma {:induction false} NeverOvertakes(ids: set<nat>, steps: seq<Step>, t: nat, n: nat)
    requires Legal(Start(ids), steps)
    requires var s := Run(Start(ids), steps);
             t in s.threads && s.threads[t].pc.Sending? && s.threads[t].pc.inline && n < Done(s.threads[t])
    ensures var s := Run(Start(ids), steps); var x := s.threads[t].handed[n];
            x in OnWire(s.wire) || x in s.batch || WasRefused(t, s.threads[t], s.settled, n)
  {
    hide Run, Legal, Start, OnWire, Serials, Genuine, LockInv, BatchInv, QueuedInv, DropInv, ShapeInv, InFlight;
    StartInv(ids);
    RunKeeps(Start(ids), steps);
    var s := Run(Start(ids), steps);
    var x, back := s.threads[t].handed[n], InFlight(s.writer) + s.channel;
    AccountedFor(s, t, n);
    AccountOf(s, t);
    SerialsHas(t, back, n);
    assert x !in back;
    assert Pipeline(s) == OnWire(s.wire) + s.batch + back;
  }

  // ------------------------------------------------------------------- progress

  predicate IsStepOf(step: Step, t: nat) {
    (step.ReadQueued? || step.LetGo? || step.Advance? || step.TrySend? || step.Uncount? || step.Finish?) && step.t == t
  }

  /** How many more of its own steps a delivering thread needs at most. */
  function Work(th: Thread): int {
    match th.pc
    case Idle => 0
    case Tried(_) => 3 * |th.rest| + 4
    case LettingGo => 3 * |th.rest| + 2
    case Sending(inline, _) => 3 * |th.rest| + 1 + (if inline then 1 else 0)
    case Added => 3 * |th.rest|
    case Refused => 3 * |th.rest| - 1
  }

  /** Delivering is wait-free: a thread in the middle of a call always has a step to
      take, whatever the writer and the others hold. */
  lemma {:induction false} ThreadsNeverBlock(s: State, t: nat)
    requires Inv(s) && t in s.threads && !s.threads[t].pc.Idle?
    ensures exists step :: IsStepOf(step, t) && Enabled(s, step)
  {
    var th := s.threads[t];
    assert Shaped(th);
    var step :=
      if th.pc.Tried? then ReadQueued(t) else if th.pc.LettingGo? then LetGo(t)
      else if th.pc.Added? then TrySend(t) else if th.pc.Refused? then Uncount(t)
      else if th.rest == [] then Finish(t) else Advance(t);
    assert IsStepOf(step, t) && Enabled(s, step);
  }

  /** Its own steps bring a call nearer its end; the steps of others leave it alone. */
  lemma {:induction false} WorkShrinks(s: State, step: Step, t: nat)
    requires Inv(s) && t in s.threads && !s.threads[t].pc.Idle? && Enabled(s, step)
    ensures t in Apply(s, step).threads
    ensures IsStepOf(step, t) ==> Work(Apply(s, step).threads[t]) < Work(s.threads[t])
    ensures !IsStepOf(step, t) ==> Apply(s, step).threads[t] == s.threads[t]
    ensures Work(Apply(s, step).threads[t]) >= 0
  {
    hide AllAccounted, LockInv, BatchInv, InlineInv, QueuedInv, DropInv, Genuine, Bytes, Tagged;
    assert Shaped(s.threads[t]);
  }

  ghost function OwnSteps(steps: seq<Step>, t: nat): nat {
    if steps == [] then 0 else (if IsStepOf(steps[0], t) then 1 else 0) + OwnSteps(steps[1..], t)
  }

  /** Delivering n frames takes at most 3n + 4 of the thread's own steps after it has
      tried the lock, whatever everyone else does in between. */
  lemma {:induction false} DeliverIsBounded(s: State, steps: seq<Step>, t: nat)
    requires Inv(s) && Legal(s, steps) && t in s.threads && !s.threads[t].pc.Idle?
    requires OwnSteps(steps, t) >= Work(s.threads[t])
    ensures exists k :: 0 <= k <= |steps| && Legal(s, steps[..k])
                        && var m := Run(s, steps[..k]); t in m.threads && m.threads[t].pc.Idle?
    decreases |steps|
  {
    hide Inv, Apply, Enabled;
    if steps == [] {
      WorkPositive(s, t);
    } else {
      var s1 := Apply(s, steps[0]);
      WorkShrinks(s, steps[0], t);
      StepKeeps(s, steps[0]);
      if s1.threads[t].pc.Idle? {
        assert steps[..1] == [steps[0]];
        assert Legal(s1, []) && Run(s1, []) == s1;
        assert steps[..1][1..] == [];
        assert Legal(s, steps[..1]) && Run(s, steps[..1]) == s1;
      } else {
        DeliverIsBounded(s1, steps[1..], t);
        var k :| 0 <= k <= |steps[1..]| && Legal(s1, steps[1..][..k])
                 && var m := Run(s1, steps[1..][..k]); t in m.threads && m.threads[t].pc.Idle?;
        assert steps[..k + 1][1..] == steps[1..][..k];
        assert Legal(s, steps[..k + 1]) && Run(s, steps[..k + 1]) == Run(s1, steps[1..][..k]);
      }
    }
  }

  lemma WorkPositive(s: State, t: nat)
    requires Inv(s) && t in s.threads && !s.threads[t].pc.Idle?
    ensures Work(s.threads[t]) > 0
  {
    hide AllAccounted, LockInv, BatchInv, InlineInv, QueuedInv, DropInv, Genuine;
    assert Shaped(s.threads[t]);
  }

  /** The writer waits only for its queue or for a delivering thread that can move. */
  lemma {:induction false} WriterWaitsForProgress(s: State)
    requires Inv(s) && !s.writer.Stopped?
    ensures || s.writer.Waiting?
            || (exists step ::
                  && Enabled(s, step)
                  && (step.Lock? || step.Write? || step.CountDown? || step.TryRecv? || step.FlushAndUnlock?
                      || step.SendPing?))
            || (s.lock.ByThread? && exists step :: IsStepOf(step, s.lock.t) && Enabled(s, step))
  {
    hide AllAccounted, BatchInv, InlineInv, QueuedInv, DropInv, Genuine, ShapeInv;
    var w := s.writer;
    if w.Popped? && !s.lock.Free? {
      assert s.lock.ByThread?;
      ThreadsNeverBlock(s, s.lock.t);
    } else if !w.Waiting? {
      var step := if w.Popped? then Lock else if w.Writing? then Write else if w.Counting? then CountDown
                  else if w.Pinging? then SendPing else if s.channel != [] then TryRecv else FlushAndUnlock;
      assert Enabled(s, step);
    }
  }
}
