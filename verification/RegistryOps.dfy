/** The invariant through the operations the handlers are built from.
    Concerns core/src/websocket/protocol.rs. */
module RegistryOps {
  import opened Values
  import opened Registry
  import opened RegistryInv

  /** An operation's result keeps the invariant, with the clients' tables brought up
      to date by its frames, and every value frame in it resolves. */
  ghost predicate Safe(h: History, out: Out, pc: ClientId, pend: set<TopicId>) {
    && Mid(out.reg, Sent(h, out.routes), pc, pend)
    && Resolves(h.table, out.routes)
  }

  /** The parts of the invariant that depend on how topics came to be, and the
      saver's generation counter, through a change from `r` to `r'`. */
  ghost predicate Keeps(r: Reg, r': Reg) {
    && Saves(r, r')
    && (Complete(Names(r.topics), SubsOf(r.clients)) ==> Complete(Names(r'.topics), SubsOf(r'.clients)))
    && (Full(SubsOf(r.clients), r.subscribers) ==> Full(SubsOf(r'.clients), r'.subscribers))
  }

  /** A changed snapshot shows in the generation, which never goes back. */
  ghost predicate Saves(r: Reg, r': Reg) {
    && r.generation <= r'.generation
    && (r.generation == r'.generation ==> PersistentSnapshot(r.topics) == PersistentSnapshot(r'.topics))
  }

  lemma Chain(h: History, a: Out, b: Out, pc: ClientId, pend: set<TopicId>)
    requires Resolves(h.table, a.routes)
    requires Safe(Sent(h, a.routes), b, pc, pend)
    ensures Safe(h, Out(b.reg, a.routes + b.routes), pc, pend)
  {
    ReplaySplit(h.table, a.routes, b.routes);
    ResolvesSplit(h.table, a.routes, b.routes);
    assert Sent(h, a.routes + b.routes) == Sent(Sent(h, a.routes), b.routes);
  }

  lemma Quiet(h: History, r: Reg, pc: ClientId, pend: set<TopicId>)
    requires Mid(r, h, pc, pend)
    ensures Safe(h, Out(r, []), pc, pend)
  {
    assert Sent(h, []) == h;
  }

  // ------------------------------------------------------------------- topics

  lemma TickMid(r: Reg, h: History, pc: ClientId, pend: set<TopicId>, k: nat)
    requires Mid(r, h, pc, pend)
    ensures Mid(r.(ticks := k), h, pc, pend)
  {
  }

  /** Replacing a topic's state without touching its name. */
  lemma SetTopicMid(r: Reg, h: History, pc: ClientId, pend: set<TopicId>, id: TopicId, t: Topic)
    requires Mid(r, h, pc, pend)
    requires id in r.topics && t.name == r.topics[id].name && TopicOk(t)
    ensures Mid(SetTopic(r, id, t), h, pc, pend)
  {
    TopicViews(r.topics, id, t);
  }

  lemma SnapshotAt(topics: map<TopicId, Topic>, id: TopicId, t: Topic)
    requires id in topics ==> RowOf(topics[id]) == RowOf(t)
    requires id !in topics ==> RowOf(t).None?
    ensures PersistentSnapshot(topics[id := t]) == PersistentSnapshot(topics)
  {
    var topics' := topics[id := t];
    forall row ensures row in PersistentSnapshot(topics) <==> row in PersistentSnapshot(topics') {
      if row in PersistentSnapshot(topics) {
        var i :| i in topics && RowOf(topics[i]).Some? && RowOf(topics[i]).value == row;
        assert i in topics' && RowOf(topics'[i]).Some? && RowOf(topics'[i]).value == row;
      }
    }
  }

  lemma SnapshotWithout(topics: map<TopicId, Topic>, id: TopicId)
    requires id in topics && RowOf(topics[id]).None?
    ensures PersistentSnapshot(topics - {id}) == PersistentSnapshot(topics)
  {
    var topics' := topics - {id};
    forall row ensures row in PersistentSnapshot(topics) <==> row in PersistentSnapshot(topics') {
      if row in PersistentSnapshot(topics) {
        var i :| i in topics && RowOf(topics[i]).Some? && RowOf(topics[i]).value == row;
        assert i in topics' && RowOf(topics'[i]).Some? && RowOf(topics'[i]).value == row;
      }
    }
  }

  lemma {:induction false} CreateMid(r: Reg, h: History, pc: ClientId, pend: set<TopicId>, t: Topic)
    requires Mid(r, h, pc, pend)
    requires t.name !in r.byName && TopicOk(t)
    ensures Mid(Create(r, t).0, h, pc, pend)
    ensures Create(r, t).1 !in r.topics
  {
    hide IdsInv, Sound, FanInv, ListsInv, ClientNamesInv;
    var (r1, id) := Create(r, t);
    CreateShape(r, t);
    CreateIds(r, t);
    TopicViews(r.topics, id, t);
    var N := Names(r.topics);
    SoundGrow(N, SubsOf(r.clients), id, t.name);
    ListsGrow(N, r.subscribers, r.announced, h.seen, h.table, id, t.name);
  }

  /** The new topic is all that `Complete` is short of. */
  lemma CreateComplete(r: Reg, t: Topic)
    requires IdsInv(Names(r.topics), r.byName, r.freed, r.nextId) && t.name !in r.byName
    ensures var (r1, id) := Create(r, t);
            && Names(r1.topics) - {id} == Names(r.topics)
            && r1.clients == r.clients && r1.subscribers == r.subscribers && r1.generation == r.generation
            && (RowOf(t).None? ==> PersistentSnapshot(r1.topics) == PersistentSnapshot(r.topics))
  {
    var (r1, id) := Create(r, t);
    CreateShape(r, t);
    TopicViews(r.topics, id, t);
    if RowOf(t).None? { SnapshotAt(r.topics, id, t); }
  }

  // ------------------------------------------------- announcing to subscriptions

  /** Every subscription that covers `name` has `id` in its matched set. */
  ghost predicate Marked(clients: map<ClientId, Client>, id: TopicId, name: string) {
    forall c, u | c in clients && u in clients[c].subs && Covers(clients[c].subs[u], name) ::
      id in clients[c].subs[u].matched
  }

  lemma MatchAllMarks(clients: map<ClientId, Client>, id: TopicId, name: string)
    ensures Marked(MatchAll(clients, id, name), id, name)
  {
    var cs := MatchAll(clients, id, name);
    forall c, u | c in cs && u in cs[c].subs && Covers(cs[c].subs[u], name) ensures id in cs[c].subs[u].matched {
      CoversByPatterns(cs[c].subs[u], clients[c].subs[u], name);
    }
  }

  lemma AnnounceOnceMid(r: Reg, h: History, pc: ClientId, pend: set<TopicId>, c: ClientId, id: TopicId)
    requires Mid(r, h, pc, pend) && id in r.topics && c in h.seen
    ensures Safe(h, AnnounceOnce(r, c, id), pc, pend)
    ensures var r1 := AnnounceOnce(r, c, id).reg; id in r1.announced && c in r1.announced[id]
  {
    var a := AnnounceOnce(r, c, id);
    var N := Names(r.topics);
    assert N[id] == r.topics[id].name;
    ListsAnnounce(N, r.subscribers, r.announced, h.seen, h.table, c, id);
    if c in ListAt(r.announced, id) {
      assert Sent(h, a.routes) == h;
    } else {
      ReplayOne(h.table, a.routes[0]);
      assert Sent(h, a.routes).table == h.table[(c, id) := N[id]];
    }
  }

  lemma SubscriberMid(r: Reg, h: History, pc: ClientId, pend: set<TopicId>, c: ClientId, id: TopicId)
    requires Mid(r, h, pc, pend) && id in r.topics
    requires id in r.announced && c in r.announced[id]
    requires c in r.clients ==> Wanted(r.clients[c].subs, id) || (c == pc && id in pend)
    ensures Mid(AddSubscriber(r, c, id), h, pc, pend)
  {
    assert id in Names(r.topics);
    ListsSubscribe(Names(r.topics), r.subscribers, r.announced, h.seen, h.table, c, id);
    AddFan(SubsOf(r.clients), r.subscribers, pc, pend, c, id);
  }

  lemma AnnounceTargetMid(r: Reg, h: History, pc: ClientId, pend: set<TopicId>, id: TopicId, name: string, c: ClientId)
    requires Mid(r, h, pc, pend) && id in r.topics && c in r.clients
    requires Marked(r.clients, id, name)
    ensures Safe(h, AnnounceTarget(r, id, name, c), pc, pend)
  {
    var a := AnnounceOnce(r, c, id);
    assert c in h.seen;
    AnnounceOnceMid(r, h, pc, pend, c, id);
    if WantsValues(r.clients[c], name) {
      var u :| u in r.clients[c].subs && Covers(r.clients[c].subs[u], name) && !r.clients[c].subs[u].topicsOnly;
      assert Wanted(a.reg.clients[c].subs, id);
      SubscriberMid(a.reg, Sent(h, a.routes), pc, pend, c, id);
    }
  }

  lemma {:induction false} AnnounceTargetsShape(r: Reg, id: TopicId, name: string, targets: seq<ClientId>)
    ensures var r1 := AnnounceTargets(r, id, name, targets).reg;
            r1 == r.(subscribers := r1.subscribers, announced := r1.announced)
  {
    if targets != [] { AnnounceTargetsShape(r, id, name, targets[..|targets| - 1]); }
  }

  lemma {:induction false} AnnounceTargetsMid(r: Reg, h: History, pc: ClientId, pend: set<TopicId>, id: TopicId,
                                              name: string, targets: seq<ClientId>)
    requires Mid(r, h, pc, pend) && id in r.topics
    requires Marked(r.clients, id, name)
    requires forall k | 0 <= k < |targets| :: targets[k] in r.clients
    ensures Safe(h, AnnounceTargets(r, id, name, targets), pc, pend)
  {
    if targets == [] {
      Quiet(h, r, pc, pend);
    } else {
      var n := |targets| - 1;
      var a := AnnounceTargets(r, id, name, targets[..n]);
      AnnounceTargetsMid(r, h, pc, pend, id, name, targets[..n]);
      AnnounceTargetsShape(r, id, name, targets[..n]);
      AnnounceTargetMid(a.reg, Sent(h, a.routes), pc, pend, id, name, targets[n]);
      Chain(h, a, AnnounceTarget(a.reg, id, name, targets[n]), pc, pend);
    }
  }

  lemma {:induction false} MatchingClientsMembers(clients: map<ClientId, Client>, name: string, order: seq<ClientId>)
    ensures forall c :: c in MatchingClients(clients, name, order) <==>
            c in order && c in clients && HasMatch(clients[c], name)
  {
    if order != [] {
      var n := |order| - 1;
      MatchingClientsMembers(clients, name, order[..n]);
      assert order == order[..n] + [order[n]];
    }
  }

  lemma MatchAllMid(r: Reg, h: History, pc: ClientId, pend: set<TopicId>, id: TopicId, name: string)
    requires Mid(r, h, pc, pend) && id in r.topics && r.topics[id].name == name
    ensures Mid(r.(clients := MatchAll(r.clients, id, name)), h, pc, pend)
  {
    hide IdsInv, Sound, FanInv, ListsInv, ClientNamesInv, TopicsOk, MatchAll, MatchSubs;
    MatchViews(r.clients, id, name);
    var N, S := Names(r.topics), SubsOf(r.clients);
    MatchSound(N, S, id);
    MatchFan(S, r.subscribers, pc, pend, id, name);
  }

  lemma {:induction false} AnnounceToMatchingMid(r: Reg, o: Oracle, h: History, pc: ClientId, pend: set<TopicId>,
                                                 id: TopicId, name: string)
    requires Mid(r, h, pc, pend) && id in r.topics && r.topics[id].name == name
    ensures Safe(h, AnnounceToMatching(r, o, id, name), pc, pend)
  {
    hide Mid, Resolves, Covers, AnnounceTargets, MatchingClients, MatchAll, Marked;
    var r0 := r.(clients := MatchAll(r.clients, id, name));
    var r1 := r0.(ticks := r.ticks + 1);
    var targets := MatchingClients(r1.clients, name, o.order(r.ticks, r.clients.Keys));
    MatchAllMid(r, h, pc, pend, id, name);
    TickMid(r0, h, pc, pend, r.ticks + 1);
    MatchAllMarks(r.clients, id, name);
    MatchingClientsMembers(r1.clients, name, o.order(r.ticks, r.clients.Keys));
    AnnounceTargetsMid(r1, h, pc, pend, id, name, targets);
  }

  /** Where the announcement leaves the fan-out lists: nobody is taken out, and every
      target that wants values is in. */
  lemma {:induction false} AnnounceTargetsFan(r: Reg, id: TopicId, name: string, targets: seq<ClientId>)
    ensures var L := AnnounceTargets(r, id, name, targets).reg.subscribers;
            && (forall i, c | i in r.subscribers && c in r.subscribers[i] :: i in L && c in L[i])
            && (forall c | c in targets && c in r.clients && WantsValues(r.clients[c], name) :: id in L && c in L[id])
  {
    hide Covers, AnnounceFrame;
    if targets != [] {
      var n := |targets| - 1;
      AnnounceTargetsFan(r, id, name, targets[..n]);
      AnnounceTargetsShape(r, id, name, targets[..n]);
      assert targets == targets[..n] + [targets[n]];
    }
  }

  lemma AnnounceToMatchingComplete(r: Reg, o: Oracle, id: TopicId, name: string)
    requires id in r.topics && r.topics[id].name == name
    requires Complete(Names(r.topics) - {id}, SubsOf(r.clients))
    ensures var r1 := AnnounceToMatching(r, o, id, name).reg;
            Complete(Names(r1.topics), SubsOf(r1.clients))
  {
    hide Complete, Covers, AnnounceTargets, MatchingClients, MatchSubs, MatchAll;
    var r1 := r.(clients := MatchAll(r.clients, id, name), ticks := r.ticks + 1);
    AnnounceTargetsShape(r1, id, name, MatchingClients(r1.clients, name, o.order(r.ticks, r.clients.Keys)));
    MatchViews(r.clients, id, name);
    MatchComplete(Names(r.topics), SubsOf(r.clients), id);
  }

  /** A fan-out that only grows, and takes in every client whose subscription was
      just marked, stays full. */
  lemma MatchFull(S: SubMap, L: Lists, L': Lists, id: TopicId, name: string)
    requires Full(S, L)
    requires forall i, c | i in L && c in L[i] :: i in L' && c in L'[i]
    requires forall c, u | c in S && u in S[c] && Covers(S[c][u], name) && !S[c][u].topicsOnly ::
             id in L' && c in L'[id]
    ensures Full(MatchSubs(S, id, name), L')
  {
    var S': SubMap := MatchSubs(S, id, name);
    forall c, u, i | c in S' && u in S'[c] && !S'[c][u].topicsOnly && i in S'[c][u].matched
      ensures i in L' && c in L'[i]
    {
      if i in S[c][u].matched {
        assert i in L && c in L[i];
      } else {
        assert Covers(S[c][u], name) && i == id;
      }
    }
  }

  lemma AnnounceToMatchingFull(r: Reg, o: Oracle, id: TopicId, name: string)
    requires ValidOracle(o)
    requires Full(SubsOf(r.clients), r.subscribers)
    ensures var r1 := AnnounceToMatching(r, o, id, name).reg;
            Full(SubsOf(r1.clients), r1.subscribers)
  {
    hide Full, Covers, AnnounceTargets;
    var r1 := r.(clients := MatchAll(r.clients, id, name), ticks := r.ticks + 1);
    var order := o.order(r.ticks, r.clients.Keys);
    assert Enumerates(order, r.clients.Keys);
    var targets := MatchingClients(r1.clients, name, order);
    var L := AnnounceTargets(r1, id, name, targets).reg.subscribers;
    AnnounceTargetsShape(r1, id, name, targets);
    AnnounceTargetsFan(r1, id, name, targets);
    MatchingClientsMembers(r1.clients, name, order);
    var S: SubMap := SubsOf(r.clients);
    forall c, u | c in S && u in S[c] && Covers(S[c][u], name) && !S[c][u].topicsOnly ensures id in L && c in L[id] {
      CoversByPatterns(S[c][u], r1.clients[c].subs[u], name);
      assert HasMatch(r1.clients[c], name) && WantsValues(r1.clients[c], name);
    }
    MatchViews(r.clients, id, name);
    MatchFull(S, r.subscribers, L, id, name);
  }

  lemma AnnounceToMatchingQuietGen(r: Reg, o: Oracle, id: TopicId, name: string)
    ensures var r1 := AnnounceToMatching(r, o, id, name).reg;
            r1.generation == r.generation && r1.topics == r.topics && r1.byName == r.byName
            && r1.nameOf == r.nameOf && r1.clients.Keys == r.clients.Keys
  {
    var r1 := r.(clients := MatchAll(r.clients, id, name), ticks := r.ticks + 1);
    AnnounceTargetsShape(r1, id, name, MatchingClients(r1.clients, name, o.order(r.ticks, r.clients.Keys)));
  }

  // ------------------------------------------------------------------- values

  lemma StoreOk(t: Topic, value: Value, ts: nat)
    requires TopicOk(t) && XtDataType(value) == t.dataType
    ensures TopicOk(Store(t, value, ts))
  {
    if t.cached {
      var sv := Stamped(ts, value);
      var h := t.history + [sv];
      if Replaces(t, ts) {
        assert LatestOfHighest(h, sv) by {
          assert h[|t.history|] == sv;
          if t.current.Some? {
            var k :| 0 <= k < |t.history| && t.history[k] == t.current.value
                     && (forall j | 0 <= j < |t.history| :: t.history[j].ts <= t.current.value.ts);
          }
        }
      } else {
        var v := t.current.value;
        var k :| 0 <= k < |t.history| && t.history[k] == v
                 && (forall j | 0 <= j < |t.history| :: t.history[j].ts <= v.ts)
                 && (forall j | k < j < |t.history| :: t.history[j].ts < v.ts);
        assert h[k] == v;
        assert LatestOfHighest(h, v);
      }
    }
  }

  /** Frames of one value to clients that know the topic under its name. */
  lemma ValuesResolve(table: Table, list: seq<ClientId>, f: Frame)
    requires f.ValueFrame?
    requires forall c | c in list :: (c, f.id) in table && table[(c, f.id)] == f.topic
    ensures Resolves(table, ToEach(list, f))
    ensures Replay(table, ToEach(list, f)) == table
  {
    var routes := ToEach(list, f);
    ReplayQuiet(table, routes);
    forall k | 0 <= k < |routes| ensures ResolvesAt(Replay(table, routes[..k]), routes[k]) {
      ReplayQuiet(table, routes[..k]);
      assert list[k] in list;
    }
  }

  lemma {:induction false} TopicValueMid(r: Reg, h: History, pc: ClientId, pend: set<TopicId>, id: TopicId,
                                         value: Value, ts: nat)
    requires Mid(r, h, pc, pend)
    ensures Safe(h, TopicValue(r, id, value, ts), pc, pend)
  {
    hide Resolves, XtDataType;
    var out := TopicValue(r, id, value, ts);
    if id in r.topics && XtDataType(value) == r.topics[id].dataType {
      var t := r.topics[id];
      StoreOk(t, value, ts);
      SetTopicMid(r, h, pc, pend, id, Store(t, value, ts));
      assert Names(r.topics)[id] == t.name;
      ValuesResolve(h.table, ListAt(r.subscribers, id), ValueFrame(t.name, id, ts, value));
      assert Sent(h, out.routes) == h;
    } else {
      Quiet(h, r, pc, pend);
    }
  }

  lemma StoreRow(t: Topic, value: Value, ts: nat)
    requires TopicOk(t)
    requires !(t.cached && Replaces(t, ts) && t.persistent)
    ensures RowOf(Store(t, value, ts)) == RowOf(t)
  {
  }

  lemma TopicValueShape(r: Reg, id: TopicId, value: Value, ts: nat)
    ensures var r1 := TopicValue(r, id, value, ts).reg;
            && r1 == r.(topics := r1.topics, generation := r1.generation)
            && Names(r1.topics) == Names(r.topics)
            && Counts(r1.topics) == Counts(r.topics)
  {
    hide XtDataType, Replaces;
    if id in r.topics && XtDataType(value) == r.topics[id].dataType {
      TopicViews(r.topics, id, Store(r.topics[id], value, ts));
    }
  }

  lemma TopicValueSaves(r: Reg, id: TopicId, value: Value, ts: nat)
    requires TopicsOk(r.topics)
    ensures Saves(r, TopicValue(r, id, value, ts).reg)
  {
    hide XtDataType, RowOf, LatestOfHighest, PersistentSnapshot, Replaces;
    if id in r.topics && XtDataType(value) == r.topics[id].dataType {
      var t := r.topics[id];
      if !(t.cached && Replaces(t, ts) && t.persistent) {
        StoreRow(t, value, ts);
        SnapshotAt(r.topics, id, Store(t, value, ts));
      }
    }
  }

  lemma TopicValueKeeps(r: Reg, id: TopicId, value: Value, ts: nat)
    requires TopicsOk(r.topics)
    ensures Keeps(r, TopicValue(r, id, value, ts).reg)
  {
    hide Full, Complete, Saves, TopicValue, TopicsOk;
    TopicValueShape(r, id, value, ts);
    TopicValueSaves(r, id, value, ts);
  }

  // -------------------------------------------------------------- meta topics

  lemma EnsureMetaMid(r: Reg, o: Oracle, h: History, pc: ClientId, pend: set<TopicId>, name: string)
    requires Mid(r, h, pc, pend)
    ensures Safe(h, EnsureMetaTopic(r, o, name).0, pc, pend)
  {
    hide Mid, Resolves, AnnounceToMatching;
    var (a, id) := EnsureMetaTopic(r, o, name);
    if name in r.byName {
      Quiet(h, r, pc, pend);
    } else {
      CreateMid(r, h, pc, pend, MetaTopic(name));
      AnnounceToMatchingMid(Create(r, MetaTopic(name)).0, o, h, pc, pend, id, name);
    }
  }

  lemma {:induction false} PublishMetaMid(r: Reg, o: Oracle, h: History, pc: ClientId, pend: set<TopicId>, name: string)
    requires Mid(r, h, pc, pend)
    ensures Safe(h, PublishMeta(r, o, name), pc, pend)
  {
    hide Mid, Resolves, EnsureMetaTopic, TopicValue;
    var (a, id) := EnsureMetaTopic(r, o, name);
    EnsureMetaMid(r, o, h, pc, pend, name);
    var k := a.reg.ticks;
    var r1 := a.reg.(ticks := k + 1);
    TickMid(a.reg, Sent(h, a.routes), pc, pend, k + 1);
    if o.payload(k).Some? {
      TopicValueMid(r1, Sent(h, a.routes), pc, pend, id, Bytes(o.payload(k).value), o.now(k));
      Chain(h, a, TopicValue(r1, id, Bytes(o.payload(k).value), o.now(k)), pc, pend);
    }
  }

  /** A topic without a row, created and announced. */
  lemma CreateAnnouncedKeeps(r: Reg, o: Oracle, t: Topic)
    requires ValidOracle(o)
    requires IdsInv(Names(r.topics), r.byName, r.freed, r.nextId)
    requires t.name !in r.byName && RowOf(t).None?
    ensures var (r0, id) := Create(r, t);
            var r1 := AnnounceToMatching(r0, o, id, t.name).reg;
            && r1.topics == r.topics[id := t]
            && Keeps(r, r1)
  {
    hide Full, Complete, IdsInv, AnnounceToMatching, PersistentSnapshot, RowOf, Create, ValidOracle;
    CreateComplete(r, t);
    CreateShape(r, t);
    var (r0, id) := Create(r, t);
    if Complete(Names(r.topics), SubsOf(r.clients)) { AnnounceToMatchingComplete(r0, o, id, t.name); }
    if Full(SubsOf(r.clients), r.subscribers) { AnnounceToMatchingFull(r0, o, id, t.name); }
    AnnounceToMatchingQuietGen(r0, o, id, t.name);
  }

  lemma EnsureMetaKeeps(r: Reg, o: Oracle, name: string)
    requires ValidOracle(o)
    requires IdsInv(Names(r.topics), r.byName, r.freed, r.nextId) && TopicsOk(r.topics)
    ensures Keeps(r, EnsureMetaTopic(r, o, name).0.reg)
    ensures TopicsOk(EnsureMetaTopic(r, o, name).0.reg.topics)
  {
    hide Full, Complete, IdsInv, AnnounceToMatching, PersistentSnapshot, LatestOfHighest, Create, ValidOracle;
    if name !in r.byName {
      CreateAnnouncedKeeps(r, o, MetaTopic(name));
      assert TopicOk(MetaTopic(name));
    }
  }

  lemma PublishMetaKeeps(r: Reg, o: Oracle, name: string)
    requires ValidOracle(o)
    requires IdsInv(Names(r.topics), r.byName, r.freed, r.nextId) && TopicsOk(r.topics)
    ensures Keeps(r, PublishMeta(r, o, name).reg)
  {
    hide Full, Complete, IdsInv, TopicsOk, EnsureMetaTopic, TopicValue;
    var (a, id) := EnsureMetaTopic(r, o, name);
    EnsureMetaKeeps(r, o, name);
    var k := a.reg.ticks;
    var r1 := a.reg.(ticks := k + 1);
    if o.payload(k).Some? { TopicValueKeeps(r1, id, Bytes(o.payload(k).value), o.now(k)); }
  }

  lemma {:induction false} UpdateMetaSubsMid(r: Reg, o: Oracle, h: History, pc: ClientId, pend: set<TopicId>,
                                             names: seq<string>)
    requires Mid(r, h, pc, pend)
    ensures Safe(h, UpdateMetaSubs(r, o, names), pc, pend)
    ensures ValidOracle(o) ==> Keeps(r, UpdateMetaSubs(r, o, names).reg)
  {
    hide Mid, Resolves, Full, Complete, PersistentSnapshot, UpdateMetaSub, UpdateMetaPub, ValidOracle;
    if names == [] {
      Quiet(h, r, pc, pend);
    } else {
      var n := |names| - 1;
      var a := UpdateMetaSubs(r, o, names[..n]);
      UpdateMetaSubsMid(r, o, h, pc, pend, names[..n]);
      UpdateMetaSubMid(a.reg, o, Sent(h, a.routes), pc, pend, names[n]);
      Chain(h, a, UpdateMetaSub(a.reg, o, names[n]), pc, pend);
    }
  }

  lemma UpdateMetaSubMid(r: Reg, o: Oracle, h: History, pc: ClientId, pend: set<TopicId>, name: string)
    requires Mid(r, h, pc, pend)
    ensures Safe(h, UpdateMetaSub(r, o, name), pc, pend)
    ensures ValidOracle(o) ==> Keeps(r, UpdateMetaSub(r, o, name).reg)
  {
    if name in r.byName {
      PublishMetaMid(r, o, h, pc, pend, SubMeta(name));
      if ValidOracle(o) { PublishMetaKeeps(r, o, SubMeta(name)); }
    } else {
      Quiet(h, r, pc, pend);
    }
  }

  lemma UpdateMetaPubMid(r: Reg, o: Oracle, h: History, pc: ClientId, pend: set<TopicId>, name: string)
    requires Mid(r, h, pc, pend)
    ensures Safe(h, UpdateMetaPub(r, o, name), pc, pend)
    ensures ValidOracle(o) ==> Keeps(r, UpdateMetaPub(r, o, name).reg)
  {
    if name in r.byName {
      PublishMetaMid(r, o, h, pc, pend, PubMeta(name));
      if ValidOracle(o) { PublishMetaKeeps(r, o, PubMeta(name)); }
    } else {
      Quiet(h, r, pc, pend);
    }
  }

  lemma {:induction false} UpdateMetaPubsMid(r: Reg, o: Oracle, h: History, pc: ClientId, pend: set<TopicId>,
                                             names: seq<string>)
    requires Mid(r, h, pc, pend)
    ensures Safe(h, UpdateMetaPubs(r, o, names), pc, pend)
    ensures ValidOracle(o) ==> Keeps(r, UpdateMetaPubs(r, o, names).reg)
  {
    hide Mid, Resolves, Full, Complete, PersistentSnapshot, UpdateMetaSub, UpdateMetaPub, ValidOracle;
    if names == [] {
      Quiet(h, r, pc, pend);
    } else {
      var n := |names| - 1;
      var a := UpdateMetaPubs(r, o, names[..n]);
      UpdateMetaPubsMid(r, o, h, pc, pend, names[..n]);
      UpdateMetaPubMid(a.reg, o, Sent(h, a.routes), pc, pend, names[n]);
      Chain(h, a, UpdateMetaPub(a.reg, o, names[n]), pc, pend);
    }
  }

  lemma UpdateMetaSubForMid(r: Reg, o: Oracle, h: History, pc: ClientId, pend: set<TopicId>, ids: set<TopicId>)
    requires Mid(r, h, pc, pend)
    ensures Safe(h, UpdateMetaSubFor(r, o, ids), pc, pend)
    ensures ValidOracle(o) ==> Keeps(r, UpdateMetaSubFor(r, o, ids).reg)
  {
    hide Mid, Resolves, Full, Complete, PersistentSnapshot, UpdateMetaSubs, LiveNames, ValidOracle;
    var r1 := r.(ticks := r.ticks + 1);
    TickMid(r, h, pc, pend, r.ticks + 1);
    UpdateMetaSubsMid(r1, o, h, pc, pend, LiveNames(r, o.order(r.ticks, ids), true));
  }

  lemma UpdateMetaClientMid(r: Reg, o: Oracle, h: History, pc: ClientId, pend: set<TopicId>, c: ClientId)
    requires Mid(r, h, pc, pend)
    ensures Safe(h, UpdateMetaClientPub(r, o, c), pc, pend)
    ensures Safe(h, UpdateMetaClientSub(r, o, c), pc, pend)
    ensures ValidOracle(o) ==> Keeps(r, UpdateMetaClientPub(r, o, c).reg) && Keeps(r, UpdateMetaClientSub(r, o, c).reg)
  {
    if c in r.nameOf {
      PublishMetaMid(r, o, h, pc, pend, ClientPubMeta(r.nameOf[c]));
      PublishMetaMid(r, o, h, pc, pend, ClientSubMeta(r.nameOf[c]));
      if ValidOracle(o) {
        PublishMetaKeeps(r, o, ClientPubMeta(r.nameOf[c]));
        PublishMetaKeeps(r, o, ClientSubMeta(r.nameOf[c]));
      }
    } else {
      Quiet(h, r, pc, pend);
    }
  }
}
