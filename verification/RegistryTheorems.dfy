/** The main results about the registry, each over every legal run.
    Concerns core/src/websocket/protocol.rs. */
module RegistryTheorems {
  import opened Values
  import opened Registry
  import opened RegistryInv
  import opened RegistryOps
  import opened RegistryPubs
  import opened RegistrySubs
  import opened RegistryConn
  import opened RegistryFrames
  import opened RegistryCounts
  import opened RegistryRuns
  import opened RegistryStrands
  import opened RegistryTallies
  import opened RegistryExact

  // ----------------------------------------------------------------- topic ids

  /** Live and freed ids are disjoint and together exactly 0..nextId, no id is freed
      twice, names and topics are inverse, and the next id handed out is the least
      one no live topic holds. */
  lemma {:induction false} IdsTile(o: Oracle, steps: seq<Step>)
    requires Legal(o, steps)
    ensures var r := Run(o, steps).reg;
            && (forall i: nat :: i < r.nextId <==> i in r.topics || i in r.freed)
            && (forall i | i in r.freed :: i !in r.topics) && NoDup(r.freed)
            && (forall n | n in r.byName :: r.byName[n] in r.topics && r.topics[r.byName[n]].name == n)
            && (forall i | i in r.topics :: r.topics[i].name in r.byName && r.byName[r.topics[i].name] == i)
            && AllocId(r).1 !in r.topics
            && (forall j: nat | j < AllocId(r).1 :: j in r.topics)
  {
    hide Run, Legal, Mid;
    RunInv(o, steps);
    var w := Run(o, steps);
    SoundIn(w.reg, w.hist);
    AllocIdLeast(w.reg);
    var N := Names(w.reg.topics);
    assert forall i :: i in N <==> i in w.reg.topics;
    assert forall i | i in w.reg.topics :: N[i] == w.reg.topics[i].name;
  }

  // ---------------------------------------------------------------- publishers

  /** No step of the run deletes a topic under a remaining publisher. */
  ghost predicate NoStrands(o: Oracle, steps: seq<Step>) {
    steps == [] || (NoStrands(o, steps[..|steps| - 1])
                    && !Strands(Run(o, steps[..|steps| - 1]).reg, steps[|steps| - 1]))
  }

  ghost predicate CountedAfter(w: World) { Counted(w.reg, w.hist.accepted) }

  /** The publisher counts are exact at the start and after every step. */
  ghost predicate AlwaysCounted(o: Oracle, steps: seq<Step>) {
    CountedAfter(Run(o, steps)) && (steps == [] || AlwaysCounted(o, steps[..|steps| - 1]))
  }

  /** Throughout a run every topic counts the publisher uids on it and no uid dangles,
      exactly when no step of the run deletes a topic under a remaining publisher. */
  lemma {:induction false} CountedIffNoStrands(o: Oracle, steps: seq<Step>)
    requires Legal(o, steps)
    ensures AlwaysCounted(o, steps) <==> NoStrands(o, steps)
  {
    hide Counted, Strands, Apply, Mid, EnabledIn, Noted, ValidOracle;
    if steps == [] {
      EmptyCounted();
    } else {
      var n := |steps| - 1;
      LegalPrefix(o, steps, n);
      CountedIffNoStrands(o, steps[..n]);
      RunInv(o, steps[..n]);
      var w := Run(o, steps[..n]);
      assert EnabledIn(w, steps[n]);
      EnabledOpen(w, steps[n]);
      if CountedAfter(w) { StepCountedIff(w.reg, o, w.hist, steps[n]); }
    }
  }

  /** In a run that deletes nothing under a publisher, every topic's publisher count is
      the number of (client, publisher uid) pairs on it, no uid dangles, and each uid points
      at the topic whose name the client last had accepted for it. */
  lemma {:induction false} PublishersCounted(o: Oracle, steps: seq<Step>)
    requires Legal(o, steps) && NoStrands(o, steps)
    ensures var w := Run(o, steps);
            var r := w.reg;
            && (forall i | i in r.topics :: r.topics[i].publishers == |PairsOn(PubsOf(r.clients), i)|)
            && (forall c, p | c in r.clients && p in r.clients[c].pubs ::
                  && r.clients[c].pubs[p] in r.topics
                  && (c, p) in w.hist.accepted
                  && w.hist.accepted[(c, p)] == r.topics[r.clients[c].pubs[p]].name)
            && (forall k | k in w.hist.accepted :: k.0 in r.clients && k.1 in r.clients[k.0].pubs)
  {
    hide Run, Legal, NoStrands, PairsOn, PubsOf, Points;
    CountedIffNoStrands(o, steps);
    var w := Run(o, steps);
    assert CountedAfter(w);
    CountedLive(w.reg, w.hist.accepted);
    AcceptedLive(w.reg, w.hist.accepted);
    forall i | i in w.reg.topics ensures w.reg.topics[i].publishers == |PairsOn(PubsOf(w.reg.clients), i)| {
      assert Counts(w.reg.topics)[i] == w.reg.topics[i].publishers;
    }
  }

  // -------------------------------------------------------------- where values go

  lemma {:induction false} FramesToEach(list: seq<ClientId>, f: Frame, d: ClientId)
    requires NoDup(list)
    ensures FramesTo(d, ToEach(list, f)) == if d in list then [f] else []
    decreases |list|
  {
    if list != [] {
      var n := |list| - 1;
      FramesToEach(list[..n], f, d);
      assert ToEach(list, f)[..n] == ToEach(list[..n], f);
      assert list == list[..n] + [list[n]];
    }
  }

  /** A value of the topic's own type goes once to each client in the fan-out list and, on a
      cached topic, is added to the values retained; one of another type does nothing. */
  ghost predicate Lands(r: Reg, out: Out, id: TopicId, v: Value, ts: nat)
    requires id in r.topics
  {
    var t := r.topics[id];
    if XtDataType(v) != t.dataType then out == Out(r, [])
    else
      && (forall d :: FramesTo(d, out.routes) ==
                      if d in ListAt(r.subscribers, id) then [ValueFrame(t.name, id, ts, v)] else [])
      && out.reg.topics.Keys == r.topics.Keys
      && (forall i | i in r.topics && i != id :: out.reg.topics[i] == r.topics[i])
      && out.reg == r.(topics := out.reg.topics, generation := out.reg.generation)
      && var t' := out.reg.topics[id];
         && t' == t.(current := t'.current, history := t'.history)
         && t'.history == (if t.cached then t.history + [Stamped(ts, v)] else t.history)
         && (t.cached ==> t'.current.Some? && LatestOfHighest(t'.history, t'.current.value))
  }

  lemma TopicValueTopic(r: Reg, id: TopicId, v: Value, ts: nat)
    requires id in r.topics && XtDataType(v) == r.topics[id].dataType && TopicOk(r.topics[id])
    ensures var t, t' := r.topics[id], TopicValue(r, id, v, ts).reg.topics[id];
            && t' == t.(current := t'.current, history := t'.history)
            && t'.history == (if t.cached then t.history + [Stamped(ts, v)] else t.history)
            && (t.cached ==> t'.current.Some? && LatestOfHighest(t'.history, t'.current.value))
  {
    hide XtDataType, PropFlag, LatestOfHighest;
    StoreOk(r.topics[id], v, ts);
  }

  lemma TopicValueLands(r: Reg, id: TopicId, v: Value, ts: nat)
    requires id in r.topics && TopicOk(r.topics[id]) && NoDup(ListAt(r.subscribers, id))
    ensures Lands(r, TopicValue(r, id, v, ts), id, v, ts)
  {
    hide XtDataType, Store, Replaces, TopicOk, LatestOfHighest, NoDup;
    if XtDataType(v) == r.topics[id].dataType {
      TopicValueTopic(r, id, v, ts);
      var f := ValueFrame(r.topics[id].name, id, ts, v);
      forall d { FramesToEach(ListAt(r.subscribers, id), f, d); }
    }
  }

  /** In a run that deletes nothing under a publisher, a value sent under a publisher uid
      lands, conformed and stamped, on the topic name the client last had accepted for that
      uid, and on no other. */
  lemma {:induction false} ValueLands(o: Oracle, steps: seq<Step>, c: ClientId, p: nat, value: Value, sent: nat,
                                      now: nat)
    requires Legal(o, steps) && NoStrands(o, steps)
    requires (c, p) in Run(o, steps).hist.accepted
    ensures var w := Run(o, steps);
            var name := w.hist.accepted[(c, p)];
            && name in w.reg.byName && w.reg.byName[name] in w.reg.topics
            && var id := w.reg.byName[name];
               var v := Conformed(o.floats, value, w.reg.topics[id].dataType);
               Lands(w.reg, Apply(w.reg, o, ClientValue(c, p, value, sent, now)), id, v, ArrivalTimestamp(sent, now))
  {
    hide Run, Legal, NoStrands, TopicValue, Conformed, AllocId, NoDup, PairsOn, Lands, ArrivalTimestamp, TopicOk;
    PublishersCounted(o, steps);
    IdsTile(o, steps);
    var w := Run(o, steps);
    var r := w.reg;
    assert (c, p).0 in r.clients && (c, p).1 in r.clients[c].pubs;
    var id := r.clients[c].pubs[p];
    RunInv(o, steps);
    MidTopicsOk(r, w.hist, 0, {});
    TopicOkIn(r.topics, id);
    ListNoDup(r, w.hist, id);
    TopicValueLands(r, id, Conformed(o.floats, value, r.topics[id].dataType), ArrivalTimestamp(sent, now));
  }

  lemma ListNoDup(r: Reg, h: History, id: TopicId)
    requires Inv(r, h)
    ensures NoDup(ListAt(r.subscribers, id))
  {
    hide IdsInv, Sound, FanInv, ClientNamesInv, TopicsOk;
  }

  /** In a run with no stranded publisher, no silent creation and no losing unsubscribe, a
      value of the right type is sent to exactly the connected clients that ask for the topic
      its publisher had accepted, once each. */
  lemma {:induction false} ValueReachesAskers(o: Oracle, steps: seq<Step>, c: ClientId, p: nat, value: Value,
                                              sent: nat, now: nat, d: ClientId)
    requires Legal(o, steps) && NoStrands(o, steps) && NoMisses(o, steps) && NoLosses(o, steps)
    requires (c, p) in Run(o, steps).hist.accepted && d in Run(o, steps).reg.clients
    ensures var w := Run(o, steps);
            var name := w.hist.accepted[(c, p)];
            && name in w.reg.byName && w.reg.byName[name] in w.reg.topics
            && var id := w.reg.byName[name];
               var v := Conformed(o.floats, value, w.reg.topics[id].dataType);
               FramesTo(d, Apply(w.reg, o, ClientValue(c, p, value, sent, now)).routes) ==
               if XtDataType(v) == w.reg.topics[id].dataType && AsksFor(w.reg, d, id)
               then [ValueFrame(name, id, ArrivalTimestamp(sent, now), v)] else []
  {
    hide Run, Legal, NoStrands, NoMisses, NoLosses, Apply, Conformed, XtDataType, AsksFor, ArrivalTimestamp, NoDup;
    hide AllocId;
    ValueLands(o, steps, c, p, value, sent, now);
    IdsTile(o, steps);
    var w := Run(o, steps);
    FanOutExact(o, steps, d, w.reg.byName[w.hist.accepted[(c, p)]]);
  }

  // ------------------------------------------------------------- matched sets

  /** No step of the run creates a topic some subscription covers without announcing it. */
  ghost predicate NoMisses(o: Oracle, steps: seq<Step>) {
    steps == [] || (NoMisses(o, steps[..|steps| - 1]) && !Misses(Run(o, steps[..|steps| - 1]).reg, steps[|steps| - 1]))
  }

  /** Matched sets are complete at the start and after every step. */
  ghost predicate AlwaysComplete(o: Oracle, steps: seq<Step>) {
    CompleteIn(Run(o, steps).reg) && (steps == [] || AlwaysComplete(o, steps[..|steps| - 1]))
  }

  lemma EmptyComplete()
    ensures CompleteIn(Start.reg) && FullIn(Start.reg)
  {
    hide Covers;
  }

  /** Every matched set equals the scan throughout a run exactly when no step of the
      run creates a covered topic in silence. */
  lemma {:induction false} CompleteIffNoMisses(o: Oracle, steps: seq<Step>)
    requires Legal(o, steps)
    ensures AlwaysComplete(o, steps) <==> NoMisses(o, steps)
  {
    hide CompleteIn, Misses, Apply, Mid, EnabledIn, Noted, ValidOracle;
    if steps == [] {
      EmptyComplete();
    } else {
      var n := |steps| - 1;
      LegalPrefix(o, steps, n);
      CompleteIffNoMisses(o, steps[..n]);
      RunInv(o, steps[..n]);
      var w := Run(o, steps[..n]);
      assert EnabledIn(w, steps[n]);
      EnabledOpen(w, steps[n]);
      if CompleteIn(w.reg) { StepCompleteIff(w.reg, o, w.hist, steps[n]); }
    }
  }

  lemma EnabledOpen(w: World, s: Step)
    requires EnabledIn(w, s)
    ensures Enabled(w.reg, w.hist, s)
  {
  }

  /** In a run that creates no covered topic in silence, every live subscription's
      incremental matched set is the brute-force scan of all topics. */
  lemma {:induction false} MatchedIsScan(o: Oracle, steps: seq<Step>, c: ClientId, u: nat)
    requires Legal(o, steps) && NoMisses(o, steps)
    requires c in Run(o, steps).reg.clients && u in Run(o, steps).reg.clients[c].subs
    ensures var r := Run(o, steps).reg;
            r.clients[c].subs[u].matched == Scan(r.topics, r.clients[c].subs[u])
  {
    hide Mid, Covers, Run, Legal, NoMisses, IdsInv;
    RunInv(o, steps);
    CompleteIffNoMisses(o, steps);
    var w := Run(o, steps);
    assert CompleteIn(w.reg);
    SoundIn(w.reg, w.hist);
    var N, S: SubMap := Names(w.reg.topics), SubsOf(w.reg.clients);
    var sub := w.reg.clients[c].subs[u];
    assert c in S && u in S[c] && S[c][u] == sub;
    forall i ensures i in sub.matched <==> i in Scan(w.reg.topics, sub) {
      ViewsAt(w.reg.topics, i);
    }
  }

  // ------------------------------------------------------------------ fan-out

  /** No step of the run takes a client off a list another of its subscriptions needs. */
  ghost predicate NoLosses(o: Oracle, steps: seq<Step>) {
    steps == [] || (NoLosses(o, steps[..|steps| - 1]) && !Loses(Run(o, steps[..|steps| - 1]).reg, steps[|steps| - 1]))
  }

  /** The fan-out is full at the start and after every step. */
  ghost predicate AlwaysFull(o: Oracle, steps: seq<Step>) {
    FullIn(Run(o, steps).reg) && (steps == [] || AlwaysFull(o, steps[..|steps| - 1]))
  }

  /** Every client stays in the fan-out of every topic it asks for throughout a run
      exactly when no step of the run is a losing one. */
  lemma {:induction false} FullIffNoLosses(o: Oracle, steps: seq<Step>)
    requires Legal(o, steps)
    ensures AlwaysFull(o, steps) <==> NoLosses(o, steps)
  {
    hide FullIn, Loses, Apply, Mid, EnabledIn, Noted, ValidOracle;
    if steps == [] {
      EmptyComplete();
    } else {
      var n := |steps| - 1;
      LegalPrefix(o, steps, n);
      FullIffNoLosses(o, steps[..n]);
      RunInv(o, steps[..n]);
      var w := Run(o, steps[..n]);
      assert EnabledIn(w, steps[n]);
      EnabledOpen(w, steps[n]);
      if FullIn(w.reg) { StepFullIff(w.reg, o, w.hist, steps[n]); }
    }
  }

  /** Whether connected client `c` has a subscription that covers topic `i` and asks
      for values. */
  ghost predicate AsksFor(r: Reg, c: ClientId, i: TopicId) {
    && c in r.clients && i in r.topics
    && exists u | u in r.clients[c].subs ::
       !r.clients[c].subs[u].topicsOnly && Covers(r.clients[c].subs[u], r.topics[i].name)
  }

  /** A connected client in a fan-out list has a live subscription asking for that
      topic's values, and no client is in a list twice. */
  lemma {:induction false} FanOutAsked(o: Oracle, steps: seq<Step>, i: TopicId)
    requires Legal(o, steps) && i in Run(o, steps).reg.subscribers
    ensures var r := Run(o, steps).reg;
            && NoDup(r.subscribers[i])
            && forall c | c in r.clients && c in r.subscribers[i] :: AsksFor(r, c, i)
  {
    hide Run, Legal, IdsInv, ClientNamesInv, TopicsOk, Covers;
    RunInv(o, steps);
    var w := Run(o, steps);
    var r := w.reg;
    forall c | c in r.clients && c in r.subscribers[i] ensures AsksFor(r, c, i) {
      assert c in SubsOf(r.clients) && Wanted(SubsOf(r.clients)[c], i);
      var u :| u in r.clients[c].subs && !r.clients[c].subs[u].topicsOnly && i in r.clients[c].subs[u].matched;
      MatchedLive(r, w.hist, c, u, i);
    }
  }

  /** In a run with no silent creation and no losing unsubscribe, the connected
      clients in a topic's fan-out list are exactly those that ask for its values. */
  lemma {:induction false} FanOutExact(o: Oracle, steps: seq<Step>, c: ClientId, i: TopicId)
    requires Legal(o, steps) && NoMisses(o, steps) && NoLosses(o, steps)
    requires c in Run(o, steps).reg.clients && i in Run(o, steps).reg.topics
    ensures var r := Run(o, steps).reg;
            c in ListAt(r.subscribers, i) <==> AsksFor(r, c, i)
  {
    hide Run, Legal, NoMisses, NoLosses, Covers;
    var r := Run(o, steps).reg;
    if i in r.subscribers { FanOutAsked(o, steps, i); }
    if AsksFor(r, c, i) {
      var u :| u in r.clients[c].subs && !r.clients[c].subs[u].topicsOnly
               && Covers(r.clients[c].subs[u], r.topics[i].name);
      MatchedIsScan(o, steps, c, u);
      assert i in r.clients[c].subs[u].matched;
      FullIffNoLosses(o, steps);
      assert steps[..|steps|] == steps;
      assert FullIn(r);
      assert c in SubsOf(r.clients) && u in SubsOf(r.clients)[c];
    }
  }

  // -------------------------------------------------- announcements before values

  /** Everything the registry emits over a run, in order. */
  ghost function Emitted(o: Oracle, steps: seq<Step>): seq<Route> {
    if steps == [] then []
    else
      var init := steps[..|steps| - 1];
      Emitted(o, init) + Apply(Run(o, init).reg, o, steps[|steps| - 1]).routes
  }

  lemma NotedTable(r: Reg, h: History, s: Step)
    ensures Noted(r, h, s).table == h.table
  {
    hide PublishAccepted, Forgotten;
  }

  lemma {:induction false} RunResolves(o: Oracle, steps: seq<Step>)
    requires Legal(o, steps)
    ensures Run(o, steps).hist.table == Replay(map[], Emitted(o, steps))
    ensures Resolves(map[], Emitted(o, steps))
  {
    hide Mid, Resolves, Replay, Apply, Noted, EnabledIn, ValidOracle;
    if steps == [] {
      ReplayNothing(map[]);
    } else {
      var n := |steps| - 1;
      var init := steps[..n];
      LegalPrefix(o, steps, n);
      RunResolves(o, init);
      RunInv(o, init);
      var w := Run(o, init);
      assert EnabledIn(w, steps[n]);
      EnabledOpen(w, steps[n]);
      StepInv(w.reg, o, w.hist, steps[n]);
      NotedTable(w.reg, w.hist, steps[n]);
      var routes := Apply(w.reg, o, steps[n]).routes;
      ReplaySplit(map[], Emitted(o, init), routes);
      ResolvesSplit(map[], Emitted(o, init), routes);
    }
  }

  lemma ReplayNothing(table: Table)
    ensures Replay(table, []) == table && Resolves(table, [])
  {
  }

  /** The frames sent to one client, in order. */
  ghost function FramesTo(c: ClientId, routes: seq<Route>): seq<Frame> {
    if routes == [] then []
    else
      var n := |routes| - 1;
      FramesTo(c, routes[..n]) + (if routes[n].to == c then [routes[n].frame] else [])
  }

  /** The table a client's reader builds: the last announcement of an id wins. */
  ghost function ClientTable(frames: seq<Frame>): map<TopicId, string> {
    if frames == [] then map[]
    else
      var n := |frames| - 1;
      var table := ClientTable(frames[..n]);
      if frames[n].Announce? then table[frames[n].id := frames[n].name] else table
  }

  ghost predicate SameTable(table: Table, c: ClientId, t: map<TopicId, string>) {
    forall id :: ((c, id) in table <==> id in t) && (id in t ==> table[(c, id)] == t[id])
  }

  lemma ClientLearns(frames: seq<Frame>, f: Frame)
    ensures ClientTable(frames + [f]) ==
            if f.Announce? then ClientTable(frames)[f.id := f.name] else ClientTable(frames)
  {
    assert (frames + [f])[..|frames|] == frames;
  }

  lemma {:induction false} TableOfClient(c: ClientId, routes: seq<Route>)
    ensures SameTable(Replay(map[], routes), c, ClientTable(FramesTo(c, routes)))
  {
    if routes != [] {
      var n := |routes| - 1;
      TableOfClient(c, routes[..n]);
      ClientLearns(FramesTo(c, routes[..n]), routes[n].frame);
      var was, now := Replay(map[], routes[..n]), Replay(map[], routes);
      var t, t' := ClientTable(FramesTo(c, routes[..n])), ClientTable(FramesTo(c, routes));
      assert now == Learn(was, routes[n]);
      assert FramesTo(c, routes[..n]) + [] == FramesTo(c, routes[..n]);
      forall id ensures ((c, id) in now <==> id in t') && (id in t' ==> now[(c, id)] == t'[id]) {
        assert ((c, id) in was <==> id in t) && (id in t ==> was[(c, id)] == t[id]);
      }
    }
  }

  /** A value frame's id, looked up in the table its client has built by then. */
  ghost predicate KnownAs(frames: seq<Frame>, k: nat)
    requires k < |frames|
  {
    frames[k].ValueFrame? ==>
      frames[k].id in ClientTable(frames[..k]) && ClientTable(frames[..k])[frames[k].id] == frames[k].topic
  }

  lemma {:induction false} ClientResolves(c: ClientId, routes: seq<Route>)
    requires Resolves(map[], routes)
    ensures forall k | 0 <= k < |FramesTo(c, routes)| :: KnownAs(FramesTo(c, routes), k)
  {
    if routes != [] {
      var n := |routes| - 1;
      var init := routes[..n];
      assert Resolves(map[], init) by {
        forall k | 0 <= k < n ensures ResolvesAt(Replay(map[], init[..k]), init[k]) {
          assert init[..k] == routes[..k];
        }
      }
      ClientResolves(c, init);
      var fs, all := FramesTo(c, init), FramesTo(c, routes);
      TableOfClient(c, init);
      assert ResolvesAt(Replay(map[], routes[..n]), routes[n]);
      forall k | 0 <= k < |all| ensures KnownAs(all, k) {
        assert all[..k] == fs[..k];
        if k < |fs| {
          assert KnownAs(fs, k);
        } else {
          assert fs[..k] == fs;
        }
      }
    }
  }

  /** Every value frame the registry ever emits to a client carries an id that the
      announcements sent to that client before it resolve to the name of the topic it
      was emitted for, whatever deletions and reuses of ids happened in between. */
  lemma {:induction false} AnnouncedBeforeValue(o: Oracle, steps: seq<Step>, c: ClientId)
    requires Legal(o, steps)
    ensures var frames := FramesTo(c, Emitted(o, steps));
            forall k | 0 <= k < |frames| :: KnownAs(frames, k)
  {
    hide Legal, Emitted, Resolves;
    RunResolves(o, steps);
    ClientResolves(c, Emitted(o, steps));
  }

  // ------------------------------------------------------------ retained values

  /** What a late subscriber is sent is the latest-arriving among the highest-stamped
      values accepted while the topic was cached, and has the topic's type. */
  lemma {:induction false} LateValueIsLatest(o: Oracle, steps: seq<Step>, c: ClientId, id: TopicId)
    requires Legal(o, steps) && id in Run(o, steps).reg.topics
    ensures var r := Run(o, steps).reg;
            var t := r.topics[id];
            && (t.cached && t.history != [] <==> Late(r, c, id) != [])
            && (Late(r, c, id) != [] ==>
                  exists v :: LatestOfHighest(t.history, v) && XtDataType(v.value) == t.dataType
                              && Late(r, c, id) == [Route(c, ValueFrame(t.name, id, v.ts, v.value))])
  {
    hide Run, Legal, Mid, XtDataType, PropFlag;
    RunInv(o, steps);
    var w := Run(o, steps);
    MidTopicsOk(w.reg, w.hist, 0, {});
    var t := w.reg.topics[id];
    assert TopicOk(t);
    if Late(w.reg, c, id) != [] {
      var v := t.current.value;
      assert LatestOfHighest(t.history, v);
      assert XtDataType(v.value) == t.dataType by {
        var k :| 0 <= k < |t.history| && t.history[k] == v;
      }
    }
  }

  /** At most one value can be the latest of the highest. */
  lemma {:induction false} LatestOfHighestUnique(h: seq<Stamped>, v: Stamped, w: Stamped)
    requires LatestOfHighest(h, v) && LatestOfHighest(h, w)
    ensures v == w
  {
    var i :| 0 <= i < |h| && h[i] == v && (forall j | 0 <= j < |h| :: h[j].ts <= v.ts)
             && (forall j | i < j < |h| :: h[j].ts < v.ts);
    var k :| 0 <= k < |h| && h[k] == w && (forall j | 0 <= j < |h| :: h[j].ts <= w.ts)
             && (forall j | k < j < |h| :: h[j].ts < w.ts);
    assert h[k].ts <= v.ts && h[i].ts <= w.ts;
  }

  // -------------------------------------------------------------- client names

  /** The names in use are exactly the connected clients' names, pairwise distinct. */
  lemma {:induction false} ConnectedNames(o: Oracle, steps: seq<Step>)
    requires Legal(o, steps)
    ensures var r := Run(o, steps).reg;
            && r.nameOf.Keys == r.clients.Keys
            && (forall n :: n in r.clientNames <==> exists c :: c in r.nameOf && r.nameOf[c] == n)
            && (forall c, d | c in r.nameOf && d in r.nameOf && c != d :: r.nameOf[c] != r.nameOf[d])
  {
    hide Run, Legal, IdsInv, Sound, FanInv, ListsInv, TopicsOk;
    RunInv(o, steps);
  }

  // ---------------------------------------------------------------- generation

  /** Over any stretch of a run the generation does not go back, and if it stands
      still so does what a saver would write. */
  lemma {:induction false} GenerationTracksSnapshot(o: Oracle, steps: seq<Step>, m: nat)
    requires Legal(o, steps) && m <= |steps|
    ensures Saves(Run(o, steps[..m]).reg, Run(o, steps).reg)
  {
    hide Mid, Apply, Noted, EnabledIn, ValidOracle, PersistentSnapshot;
    if m == |steps| {
      assert steps[..m] == steps;
    } else {
      var n := |steps| - 1;
      var init := steps[..n];
      LegalPrefix(o, steps, n);
      GenerationTracksSnapshot(o, init, m);
      assert init[..m] == steps[..m];
      RunInv(o, init);
      var w := Run(o, init);
      assert EnabledIn(w, steps[n]);
      EnabledOpen(w, steps[n]);
      StepSaves(w.reg, o, w.hist, steps[n]);
    }
  }
}
