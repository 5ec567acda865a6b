/** The gate in front of a subscription callback: values are held back until the snapshot
    has been delivered and what arrived meanwhile replayed.  One thread delivers while
    another opens the gate.  Models `BufferedListener` in client/src/listeners.rs and its
    use in client/src/client.rs. */
module Listener {
  import opened Values

  /** Where the delivering thread is: done, past reading the flag, or about to call back. */
  datatype Deliverer = Idle | AtLock(v: Value) | Calling(v: Value)

  /** Where the opener is: before the snapshot, about to look at the buffer, replaying a
      batch it took, holding the lock with the buffer given up, or done. */
  datatype Opener = Reading | Looking | Replaying(batch: seq<Value>) | GivingUp | Opened

  /** `calls` are the callback's calls so far, `delivered` the values handed to `deliver`. */
  datatype State = State(
    pending: Option<seq<Value>>,
    open: bool,
    deliverer: Deliverer,
    opener: Opener,
    snapshot: Option<Value>,
    calls: seq<Value>,
    delivered: seq<Value>)

  const Closed: State := State(Some([]), false, Idle, Reading, None, [], [])

  datatype Step =
    | Deliver(v: Value)
    | Lock
    | Call
    | CallSnapshot(found: Option<Value>)
    | Look
    | Replay
    | StoreOpen

  predicate Enabled(s: State, step: Step) {
    match step
    case Deliver(_) => s.deliverer.Idle?
    case Lock => s.deliverer.AtLock? && !s.opener.GivingUp?
    case Call => s.deliverer.Calling?
    case CallSnapshot(_) => s.opener.Reading?
    case Look => s.opener.Looking?
    case Replay => s.opener.Replaying?
    case StoreOpen => s.opener.GivingUp?
  }

  function Apply(s: State, step: Step): State
    requires Enabled(s, step)
  {
    match step
    case Deliver(v) => s.(deliverer := if s.open then Calling(v) else AtLock(v), delivered := s.delivered + [v])
    case Lock =>
      if s.pending.Some? then s.(pending := Some(s.pending.value + [s.deliverer.v]), deliverer := Idle)
      else s.(deliverer := Calling(s.deliverer.v))
    case Call => s.(calls := s.calls + [s.deliverer.v], deliverer := Idle)
    case CallSnapshot(v) =>
      s.(opener := Looking, snapshot := v, calls := if v.Some? then s.calls + [v.value] else s.calls)
    case Look =>
      if s.pending.None? then s.(opener := Opened)
      else if s.pending.value == [] then s.(pending := None, opener := GivingUp)
      else s.(opener := Replaying(s.pending.value), pending := Some([]))
    case Replay =>
      if s.opener.batch == [] then s.(opener := Looking)
      else s.(calls := s.calls + [s.opener.batch[0]], opener := Replaying(s.opener.batch[1..]))
    case StoreOpen => s.(open := true, opener := Opened)
  }

  ghost predicate Legal(s: State, steps: seq<Step>)
    decreases |steps|
  {
    steps == [] || (Enabled(s, steps[0]) && Legal(Apply(s, steps[0]), steps[1..]))
  }

  ghost function Run(s: State, steps: seq<Step>): State
    requires Legal(s, steps)
    decreases |steps|
  {
    if steps == [] then s else Run(Apply(s, steps[0]), steps[1..])
  }

  // ----------------------------------------------------------------- invariants

  function First(s: State): seq<Value> { if s.snapshot.Some? then [s.snapshot.value] else [] }

  function Batch(s: State): seq<Value> { if s.opener.Replaying? then s.opener.batch else [] }

  function Held(s: State): seq<Value> { if s.pending.Some? then s.pending.value else [] }

  function InHand(s: State): seq<Value> { if s.deliverer.Idle? then [] else [s.deliverer.v] }

  /** What was called back, then the rest of the batch, the buffer and the value in hand
      are together the snapshot and everything delivered, in order. */
  ghost predicate Conserved(s: State) {
    s.calls + Batch(s) + Held(s) + InHand(s) == First(s) + s.delivered
  }

  /** Values pass the gate only once nothing is left behind it. */
  ghost predicate Gate(s: State) {
    && (s.pending.None? <==> s.opener.GivingUp? || s.opener.Opened?)
    && (s.open <==> s.opener.Opened?)
    && (s.deliverer.Calling? ==> s.pending.None?)
    && (s.opener.Reading? ==> s.snapshot.None? && s.calls == [])
  }

  lemma SnapshotKeeps(s: State, v: Option<Value>)
    requires Conserved(s) && Gate(s) && s.opener.Reading?
    ensures Conserved(Apply(s, CallSnapshot(v))) && Gate(Apply(s, CallSnapshot(v)))
  {
    var s1 := Apply(s, CallSnapshot(v));
    assert s1.calls == First(s1);
    assert Held(s) + InHand(s) == s.delivered by {
      assert s.calls + Batch(s) + Held(s) + InHand(s) == Held(s) + InHand(s);
      assert First(s) + s.delivered == s.delivered;
    }
    assert First(s1) + [] + Held(s) + InHand(s) == First(s1) + (Held(s) + InHand(s));
  }

  lemma DelivererKeeps(s: State, step: Step)
    requires Conserved(s) && Gate(s) && Enabled(s, step) && (step.Deliver? || step.Lock? || step.Call?)
    ensures Conserved(Apply(s, step)) && Gate(Apply(s, step))
  {
    if step.Deliver? {
      assert s.calls + Batch(s) + Held(s) + [] + [step.v] == First(s) + (s.delivered + [step.v]);
    } else {
      var v := s.deliverer.v;
      if step.Call? {
        assert s.calls + [v] + [] + [] + [] == s.calls + [] + [] + [v];
      } else if s.pending.Some? {
        assert s.calls + Batch(s) + (Held(s) + [v]) + [] == s.calls + Batch(s) + Held(s) + [v];
      }
    }
  }

  lemma OpenerKeeps(s: State, step: Step)
    requires Conserved(s) && Gate(s) && Enabled(s, step) && (step.Look? || step.Replay? || step.StoreOpen?)
    ensures Conserved(Apply(s, step)) && Gate(Apply(s, step))
  {
    if step.Look? {
      assert s.calls + Held(s) + [] == s.calls + [] + Held(s);
    } else if step.Replay? && s.opener.batch != [] {
      var b := s.opener.batch;
      assert s.calls + [b[0]] + b[1..] == s.calls + b;
    }
  }

  lemma {:induction false} StepKeeps(s: State, step: Step)
    requires Conserved(s) && Gate(s) && Enabled(s, step)
    ensures Conserved(Apply(s, step)) && Gate(Apply(s, step))
  {
    hide Conserved, Gate, Apply;
    if step.CallSnapshot? {
      SnapshotKeeps(s, step.found);
    } else if step.Deliver? || step.Lock? || step.Call? {
      DelivererKeeps(s, step);
    } else {
      OpenerKeeps(s, step);
    }
  }

  lemma {:induction false} RunKeeps(s: State, steps: seq<Step>)
    requires Conserved(s) && Gate(s) && Legal(s, steps)
    ensures Conserved(Run(s, steps)) && Gate(Run(s, steps))
    decreases |steps|
  {
    hide Conserved, Gate, Apply, Enabled;
    if steps != [] {
      StepKeeps(s, steps[0]);
      RunKeeps(Apply(s, steps[0]), steps[1..]);
    }
  }

  // --------------------------------------------------------------- main results

  /** However the two threads interleave, the callback has seen a prefix of the snapshot
      followed by everything delivered: nothing out of order, twice or skipped. */
  lemma {:induction false} CallsInOrder(steps: seq<Step>)
    requires Legal(Closed, steps)
    ensures var s := Run(Closed, steps); s.calls <= First(s) + s.delivered
  {
    hide Run, Legal;
    RunKeeps(Closed, steps);
    var s := Run(Closed, steps);
    assert s.calls + Batch(s) + Held(s) + InHand(s) == s.calls + (Batch(s) + Held(s) + InHand(s));
  }

  /** Once the gate is open and no delivery is under way, the callback has seen all of
      it. */
  lemma {:induction false} NothingLost(steps: seq<Step>)
    requires Legal(Closed, steps)
    ensures var s := Run(Closed, steps); s.opener.Opened? && s.deliverer.Idle? ==> s.calls == First(s) + s.delivered
  {
    hide Run, Legal;
    RunKeeps(Closed, steps);
    var s := Run(Closed, steps);
    assert s.calls + [] + [] + [] == s.calls;
  }

  /** The callback never runs on both threads at once about buffered values: a direct call
      happens only when nothing is left to replay. */
  lemma {:induction false} DirectOnlyWhenDrained(steps: seq<Step>)
    requires Legal(Closed, steps)
    ensures var s := Run(Closed, steps); s.deliverer.Calling? ==> Batch(s) == [] && Held(s) == []
  {
    hide Run, Legal, Conserved;
    assert Conserved(Closed) by { ClosedConserved(); }
    RunKeeps(Closed, steps);
  }

  lemma ClosedConserved()
    ensures Conserved(Closed)
  {}

  // ------------------------------------------------------------ as the code runs it

  class BufferedListener {
    var pending: Option<seq<Value>>
    var open: bool
    /** The callback's calls so far. */
    ghost var calls: seq<Value>

    ghost predicate Valid()
      reads this
    {
      open <==> pending.None?
    }

    constructor ()
      ensures Valid() && pending == Some([]) && !open && calls == []
    {
      pending, open, calls := Some([]), false, [];
    }

    method Callback(value: Value)
      modifies `calls
      ensures calls == old(calls) + [value]
    {
      calls := calls + [value];
    }

    method DeliverValue(value: Value)
      requires Valid()
      modifies this
      ensures Valid() && open == old(open)
      ensures if open then calls == old(calls) + [value] && pending == old(pending)
              else calls == old(calls) && pending == Some(old(pending).value + [value])
    {
      if !open && pending.Some? {
        pending := Some(pending.value + [value]);
        return;
      }
      Callback(value);
    }

    /** Replays what was held back, then lets values pass. */
    method OpenGate()
      requires Valid()
      modifies this
      ensures Valid() && open
      ensures calls == old(calls) + (if old(pending).Some? then old(pending).value else [])
    {
      while pending.Some?
        invariant Valid()
        invariant calls + (if pending.Some? then pending.value else [])
               == old(calls) + (if old(pending).Some? then old(pending).value else [])
        decreases if pending.Some? then 1 + |pending.value| else 0
      {
        if pending.value == [] {
          pending, open := None, true;
          return;
        }
        var batch := pending.value;
        pending := Some([]);
        ghost var before := calls;
        var i := 0;
        while i < |batch|
          invariant 0 <= i <= |batch| && pending == Some([]) && !open
          invariant calls == before + batch[..i]
        {
          Callback(batch[i]);
          assert batch[..i + 1] == batch[..i] + [batch[i]];
          i := i + 1;
        }
        assert batch[..i] == batch;
      }
    }
  }
}
