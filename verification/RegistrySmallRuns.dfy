/** The first few steps of a run, seen from outside: what a connect and a publish under a
    new uid create and what they leave alone.
    Concerns core/src/websocket/protocol.rs, with core/src/websocket/server.rs as the
    step relation. */
module RegistrySmallRuns {
  import opened Values
  import ClientNames
  import opened Registry
  import opened RegistryInv
  import opened RegistryOps
  import opened RegistryPubs
  import opened RegistryPublish
  import opened RegistrySubs
  import opened RegistryConn
  import opened RegistryFrames
  import opened RegistryTrim
  import opened RegistryCounts
  import opened RegistryRuns
  import opened RegistryStrands
  import opened RegistryTallies
  import opened RegistryExact
  import opened RegistryTheorems

  // ------------------------------------------------------- runs, a step at a time

  lemma RunStep(o: Oracle, steps: seq<Step>, s: Step)
    ensures Run(o, steps + [s]) == Next(Run(o, steps), o, s)
    ensures NoStrands(o, steps + [s]) <==> NoStrands(o, steps) && !Strands(Run(o, steps).reg, s)
    ensures NoMisses(o, steps + [s]) <==> NoMisses(o, steps) && !Misses(Run(o, steps).reg, s)
    ensures NoLosses(o, steps + [s]) <==> NoLosses(o, steps) && !Loses(Run(o, steps).reg, s)
  {
    hide Next, Strands, Misses, Loses;
    assert (steps + [s])[..|steps|] == steps;
  }

  lemma LegalStep(o: Oracle, steps: seq<Step>, s: Step)
    requires Legal(o, steps) && EnabledIn(Run(o, steps), s)
    ensures Legal(o, steps + [s])
  {
    hide EnabledIn, ValidOracle, Run;
    var all := steps + [s];
    forall k | 0 <= k < |all| ensures EnabledIn(Run(o, all[..k]), all[k]) {
      if k < |steps| {
        assert all[..k] == steps[..k];
      } else {
        assert all[..k] == steps;
      }
    }
  }

  lemma LegalNone(o: Oracle)
    requires ValidOracle(o)
    ensures Legal(o, []) && NoStrands(o, []) && NoMisses(o, []) && NoLosses(o, [])
  {
    hide ValidOracle;
  }

  // -------------------------------------------------------- what the steps create

  /** A meta topic that is not there yet takes the next id. */
  lemma EnsureMetaNamed(r: Reg, o: Oracle, name: string)
    requires IdsIn(r)
    ensures var (a, id) := EnsureMetaTopic(r, o, name);
            && IdsIn(a.reg) && id in a.reg.topics && a.reg.topics[id].name == name
            && (name !in r.byName ==> id == AllocId(r).1)
  {
    hide IdsInv, AnnounceToMatching, Adds, AllocId, Names;
    EnsureMetaAdds(r, o, name);
    AddsIds(r, EnsureMetaTopic(r, o, name).0.reg, {name});
  }

  lemma PublishMetaNamed(r: Reg, o: Oracle, name: string)
    requires IdsIn(r) && IsMeta(name)
    ensures name in PublishMeta(r, o, name).reg.byName
    ensures name !in r.byName ==>
              AllocId(r).1 in PublishMeta(r, o, name).reg.topics
              && PublishMeta(r, o, name).reg.topics[AllocId(r).1].name == name
  {
    hide IdsInv, EnsureMetaTopic, TopicValue, AllocId, IsMeta, Names;
    var (a, id) := EnsureMetaTopic(r, o, name);
    EnsureMetaNamed(r, o, name);
    ByNameIs(a.reg, id);
    var k := a.reg.ticks;
    var r1 := a.reg.(ticks := k + 1);
    if o.payload(k).Some? {
      var v := Bytes(o.payload(k).value);
      TopicValueShape(r1, id, v, o.now(k));
      ViewsAt(r1.topics, id);
      ViewsAt(TopicValue(r1, id, v, o.now(k)).reg.topics, id);
    }
  }

  /** Publishing meta topics that are already there creates nothing. */
  lemma AddsNoNew(r: Reg, r': Reg, names: set<string>)
    requires IdsIn(r) && Adds(r, r', names) && names <= r.byName.Keys
    ensures r'.topics.Keys == r.topics.Keys && r'.byName.Keys == r.byName.Keys
  {
    hide IdsInv, AsksOf, PubsOf, Names;
    AddsSame(r, r', names);
    forall i | i in r'.topics ensures i in r.topics {
      LiveNamed(r', r'.topics[i].name);
      var n := r'.topics[i].name;
      NamedTopic(r, n);
      OneName(r', i, r.byName[n]);
    }
  }

  lemma ConnectNamed(r: Reg, o: Oracle, c: ClientId, base: string)
    requires IdsIn(r) && c !in r.clients
    ensures ClientPubMeta(ClientNames.Dedup(r.clientNames, base)) in OnConnect(r, o, c, base).reg.byName
  {
    hide IdsInv, Adds, PublishMeta, ClientNames.Dedup, ClientPubMeta, ClientSubMeta, PubsOf, AsksOf;
    var name := ClientNames.Dedup(r.clientNames, base);
    var r1 := Admit(r, c, base);
    AdmitIs(r, c, base);
    var a := PublishMeta(r1, o, "$clients").reg;
    PublishMetaAdds(r1, o, "$clients");
    AddsSame(r1, a, {"$clients"});
    var b := UpdateMetaClientPub(a, o, c).reg;
    MetaNames(name);
    PublishMetaNamed(a, o, ClientPubMeta(name));
    UpdateMetaClientAdds(a, o, c);
    AddsSame(a, b, {ClientPubMeta(name)});
    var d := UpdateMetaClientSub(b, o, c).reg;
    UpdateMetaClientAdds(b, o, c);
    AddsSame(b, d, {ClientSubMeta(name)});
    var e := PublishMeta(d, o, "$serversub").reg;
    PublishMetaAdds(d, o, "$serversub");
    AddsSame(d, e, {"$serversub"});
    PublishMetaAdds(e, o, "$serverpub");
    AddsSame(e, PublishMeta(e, o, "$serverpub").reg, {"$serverpub"});
  }

  /** From `r` to `r'` client `c` connected under `name`. */
  ghost predicate Joins(r: Reg, r': Reg, c: ClientId, name: string) {
    && IdsIn(r') && (Dense(r) ==> Dense(r'))
    && r'.clients.Keys == r.clients.Keys + {c}
    && PubsOf(r'.clients) == PubsOf(r.clients)[c := map[]]
    && AsksOf(r'.clients) == AsksOf(r.clients)[c := map[]]
    && r'.nameOf == r.nameOf[c := name]
    && r.byName.Keys <= r'.byName.Keys <= r.byName.Keys + ConnectMetas(name)
    && ClientPubMeta(name) in r'.byName
  }

  /** A connect, seen from outside. */
  lemma ConnectSees(r: Reg, o: Oracle, c: ClientId, base: string)
    requires IdsIn(r) && c !in r.clients
    ensures Joins(r, OnConnect(r, o, c, base).reg, c, ClientNames.Dedup(r.clientNames, base))
  {
    hide IdsInv, Adds, OnConnect, Admit, ConnectMetas, ClientNames.Dedup, PubsOf, AsksOf, ClientPubMeta, Dense;
    ConnectAdds(r, o, c, base);
    ConnectNamed(r, o, c, base);
    AdmitIs(r, c, base);
    var r1 := Admit(r, c, base);
    DenseSame(r, r1);
    AddsSame(r1, OnConnect(r, o, c, base).reg, ConnectMetas(ClientNames.Dedup(r.clientNames, base)));
  }

  lemma DenseSame(r: Reg, r': Reg)
    requires r'.topics.Keys == r.topics.Keys && r'.nextId == r.nextId
    ensures Dense(r) ==> Dense(r')
  {
  }

  // ---------------------------------------------------------------- first publish

  ghost predicate SameKind(t: Topic, t': Topic) {
    t'.name == t.name && t'.retained == t.retained && t'.properties == t.properties
  }

  /** The meta topics a publish refreshes. */
  function PublishMetas(r: Reg, c: ClientId, name: string): set<string> {
    (if c in r.nameOf then {ClientPubMeta(r.nameOf[c])} else {}) + {PubMeta(name)}
  }

  lemma FinishFirst(r: Reg, o: Oracle, c: ClientId, name: string, id: TopicId, isNew: bool)
    requires IdsIn(r) && name in r.byName
    ensures Adds(r, FinishPublish(r, o, c, name, id, isNew, None).reg, PublishMetas(r, c, name))
    ensures PubMeta(name) in FinishPublish(r, o, c, name, id, isNew, None).reg.byName
  {
    hide IdsInv, Adds, AnnounceToMatching, UpdateMetaClientPub, PublishMeta, PubMeta, ClientPubMeta, PubsOf, AsksOf;
    var a := if isNew then AnnounceToMatching(r, o, id, name).reg else r;
    if isNew { AnnounceAdds(r, o, id, name); } else { AddsNothing(r); }
    AddsSame(r, a, {});
    var own := if c in r.nameOf then {ClientPubMeta(r.nameOf[c])} else {};
    var d := UpdateMetaClientPub(a, o, c).reg;
    UpdateMetaClientAdds(a, o, c);
    AddsTrans(r, a, d, {}, own);
    AddsSame(a, d, own);
    assert {} + own == own;
    UpdateMetaTopicAdds(d, o, name);
    MetaNames(name);
    PublishMetaNamed(d, o, PubMeta(name));
    AddsTrans(r, d, UpdateMetaPub(d, o, name).reg, own, {PubMeta(name)});
  }

  lemma AsksPointed(r: Reg, c: ClientId, pubuid: nat, id: TopicId)
    requires c in r.clients
    ensures AsksOf(AddAnnounced(PointPub(r, c, pubuid, id), c, id).clients) == AsksOf(r.clients)
  {
    hide AddTo;
    var cl := r.clients[c].(pubs := r.clients[c].pubs[pubuid := id]);
    AsksSet(r.clients, c, cl);
  }

  lemma AsksSet(clients: map<ClientId, Client>, c: ClientId, cl: Client)
    requires c in clients && cl.subs == clients[c].subs
    ensures AsksOf(clients[c := cl]) == AsksOf(clients)
  {
  }

  lemma FirstPublishKinds(r: Reg, r1: Reg, c: ClientId, pubuid: nat, id: TopicId, r': Reg, names: set<string>)
    requires c in r1.clients && id in r1.topics && pubuid !in r1.clients[c].pubs
    requires Adds(Repointed(r1, c, pubuid, id), r', names)
    requires forall i | i in r.topics :: i in r1.topics && r1.topics[i] == r.topics[i]
    ensures forall i | i in r.topics :: i in r'.topics && SameKind(r.topics[i], r'.topics[i])
    ensures id in r'.topics && SameKind(r1.topics[id], r'.topics[id])
  {
    hide Adds, Repointed, PubsOf, WithPub, AsksOf, IdsInv;
    RepointedTopics(r1, c, pubuid, id);
    AddsSame(Repointed(r1, c, pubuid, id), r', names);
  }

  /** A publish under a new uid, seen from outside. */
  lemma {:induction false} FirstPublishSees(r: Reg, o: Oracle, c: ClientId, name: string, pubuid: nat,
                                            typeStr: string, props: Props)
    requires IdsIn(r) && c in r.clients && PublishAccepted(r, c, name, pubuid) && pubuid !in r.clients[c].pubs
    ensures var r' := HandlePublish(r, o, c, name, pubuid, typeStr, props).reg;
            && IdsIn(r') && (Dense(r) ==> Dense(r'))
            && r'.clients.Keys == r.clients.Keys && r'.nameOf == r.nameOf && AsksOf(r'.clients) == AsksOf(r.clients)
            && r.byName.Keys + {name} + {PubMeta(name)} <= r'.byName.Keys
            && r'.byName.Keys <= r.byName.Keys + {name} + PublishMetas(r, c, name)
            && (forall i | i in r.topics :: i in r'.topics && SameKind(r.topics[i], r'.topics[i]))
            && var (r1, id) := PublishTopic(r, name, typeStr, props);
               && PubsOf(r'.clients) == WithPub(PubsOf(r.clients), c, pubuid, id)
               && id in r1.topics && id in r'.topics && SameKind(r1.topics[id], r'.topics[id])
  {
    hide IdsInv, Adds, PublishTopic, PointPub, PubsOf, WithPub, AsksOf, PublishAccepted, HandlePublish, EnterPublish;
    hide FinishPublish, AddAnnounced, PublishMetas, Dense, Names, SameKind, PubMeta;
    var (r1, id) := PublishTopic(r, name, typeStr, props);
    PublishTopicAdds(r, name, typeStr, props);
    AddsSame(r, r1, {name});
    EnterPublishIs(r, c, name, pubuid, typeStr, props);
    HandlePublishIs(r, o, c, name, pubuid, typeStr, props);
    var r2 := AddAnnounced(PointPub(r1, c, pubuid, id), c, id);
    assert r2 == Repointed(r1, c, pubuid, id);
    EnteredIds(r1, c, pubuid, id);
    RepointedTopics(r1, c, pubuid, id);
    DenseSame(r1, r2);
    AsksPointed(r1, c, pubuid, id);
    PointedNames(r1, c, pubuid, id);
    FinishFirst(r2, o, c, name, id, name !in r.byName);
    var r' := HandlePublish(r, o, c, name, pubuid, typeStr, props).reg;
    PublishMetasSame(r, r2, c, name);
    AddsSame(r2, r', PublishMetas(r, c, name));
    FirstPublishKinds(r, r1, c, pubuid, id, r', PublishMetas(r, c, name));
  }

  lemma PublishMetasSame(r: Reg, r': Reg, c: ClientId, name: string)
    requires r'.nameOf == r.nameOf
    ensures PublishMetas(r', c, name) == PublishMetas(r, c, name)
  {
  }

  lemma PointedNames(r: Reg, c: ClientId, pubuid: nat, id: TopicId)
    requires c in r.clients
    ensures var r2 := AddAnnounced(PointPub(r, c, pubuid, id), c, id);
            r2.nameOf == r.nameOf && r2.clients.Keys == r.clients.Keys
  {
    hide AddTo, Lookup;
    assert SetPub(r, c, pubuid, id).clients.Keys == r.clients.Keys;
  }

  // ------------------------------------------------------------------- small runs

  lemma {:induction false} DistinctNames(ids: set<TopicId>, N: NameMap, names: set<string>)
    requires forall i | i in ids :: i in N && N[i] in names
    requires forall i, j | i in ids && j in ids && N[i] == N[j] :: i == j
    ensures |ids| <= |names|
    decreases |ids|
  {
    if ids != {} {
      var i :| i in ids;
      DistinctNames(ids - {i}, N, names - {N[i]});
    }
  }

  /** There are no more topics than names. */
  lemma TopicsBound(r: Reg)
    requires IdsIn(r)
    ensures |r.topics| <= |r.byName|
  {
    var N := Names(r.topics);
    assert forall i | i in r.topics.Keys :: i in N && N[i] in r.byName.Keys;
    assert forall i, j | i in r.topics.Keys && j in r.topics.Keys && N[i] == N[j] :: i == j;
    DistinctNames(r.topics.Keys, N, r.byName.Keys);
    assert |r.topics| == |r.topics.Keys| && |r.byName| == |r.byName.Keys|;
  }

  /** A reserved name that no `$pub$` or `$sub$` is in front of. */
  predicate Plain(n: string) { IsMeta(n) && !HasMetaPrefix(n) }

  lemma PlainAt(n: string, k: nat, ch: char)
    requires 1 <= k < 5 <= |n| && n[0] == '$' && n[k] == ch && ch != "$pub$"[k] && ch != "$sub$"[k]
    ensures Plain(n)
  {
    assert n[..5][k] == ch;
  }

  lemma PlainOne(n: string)
    requires Plain(n)
    ensures PlainNames({n}, 1)
  {
    hide Plain;
  }

  lemma ConnectMetasPlain(name: string)
    ensures PlainNames(ConnectMetas(name), 5)
  {
    hide Plain, PlainNames;
    var a, b := ClientPubMeta(name), ClientSubMeta(name);
    assert a[1] == 'c' && b[1] == 'c';
    PlainAt("$clients", 1, 'c');
    PlainAt(a, 1, 'c');
    PlainAt(b, 1, 'c');
    PlainAt("$serversub", 2, 'e');
    PlainAt("$serverpub", 2, 'e');
    hide ClientPubMeta, ClientSubMeta;
    PlainOne("$clients");
    PlainOne(a);
    PlainOne(b);
    PlainOne("$serversub");
    PlainOne("$serverpub");
    var two := {"$clients"} + {a};
    PlainMore({"$clients"}, two, {a}, 1, 1);
    PlainMore(two, two + {b}, {b}, 2, 1);
    PlainMore(two + {b}, two + {b} + {"$serversub"}, {"$serversub"}, 3, 1);
    PlainMore(two + {b} + {"$serversub"}, ConnectMetas(name), {"$serverpub"}, 4, 1);
  }

  const ConnectA: Step := Connect(1, "a")
  const ConnectB: Step := Connect(2, "b")
  const PublishX: Step := Publish(1, "x", 0, "int", map[])

  ghost function NoPubs(clients: set<ClientId>): PubMap { map c | c in clients :: map[] }
  ghost function NoSubs(clients: set<ClientId>): SubMap { map c | c in clients :: map[] }

  lemma NoneMore(clients: set<ClientId>, c: ClientId)
    ensures NoPubs(clients)[c := map[]] == NoPubs(clients + {c})
    ensures NoSubs(clients)[c := map[]] == NoSubs(clients + {c})
  {
  }

  lemma ConnectNext(w: World, o: Oracle, c: ClientId, base: string)
    ensures var w' := Next(w, o, Connect(c, base));
            && w'.reg == OnConnect(w.reg, o, c, base).reg
            && w'.hist.seen == w.hist.seen + {c} && w'.hist.accepted == w.hist.accepted
  {
    hide OnConnect, Replay;
  }

  /** A registry that has seen connects alone. */
  ghost predicate OpenedReg(r: Reg, clients: set<ClientId>, bound: nat) {
    && IdsIn(r) && Dense(r)
    && Bare(PubsOf(r.clients), AsksOf(r.clients), clients)
    && PlainNames(r.byName.Keys, bound)
    && r.clients.Keys == clients && r.nameOf.Keys == clients && OwnMetas(r)
  }

  /** No client has a publisher or a subscription. */
  ghost predicate Bare(P: PubMap, S: SubMap, clients: set<ClientId>) { P == NoPubs(clients) && S == NoSubs(clients) }

  ghost predicate PlainNames(names: set<string>, bound: nat) { |names| <= bound && forall n | n in names :: Plain(n) }

  /** Every named client has its `$clientpub$` topic. */
  ghost predicate OwnMetas(r: Reg) { forall c | c in r.nameOf :: ClientPubMeta(r.nameOf[c]) in r.byName }

  ghost predicate Opened(w: World, clients: set<ClientId>, bound: nat) {
    OpenedReg(w.reg, clients, bound) && w.hist.seen == clients && w.hist.accepted == map[]
  }

  lemma BareMore(r: Reg, r': Reg, clients: set<ClientId>, c: ClientId, name: string)
    requires Joins(r, r', c, name) && Bare(PubsOf(r.clients), AsksOf(r.clients), clients)
    ensures Bare(PubsOf(r'.clients), AsksOf(r'.clients), clients + {c})
  {
    hide NoPubs, NoSubs, IdsInv, PubsOf, AsksOf, ConnectMetas, ClientPubMeta, Dense;
    NoneMore(clients, c);
  }

  lemma JoinsKeys(r: Reg, r': Reg, c: ClientId, name: string)
    requires Joins(r, r', c, name)
    ensures IdsIn(r') && (Dense(r) ==> Dense(r'))
    ensures r'.clients.Keys == r.clients.Keys + {c} && r'.nameOf.Keys == r.nameOf.Keys + {c}
  {
    hide IdsInv, PubsOf, AsksOf, ConnectMetas, ClientPubMeta, Dense;
  }

  lemma JoinsPlain(r: Reg, r': Reg, c: ClientId, name: string, bound: nat)
    requires Joins(r, r', c, name) && PlainNames(r.byName.Keys, bound)
    ensures PlainNames(r'.byName.Keys, bound + 5)
  {
    hide IdsInv, PubsOf, AsksOf, ConnectMetas, ClientPubMeta, Dense, PlainNames;
    ConnectMetasPlain(name);
    PlainMore(r.byName.Keys, r'.byName.Keys, ConnectMetas(name), bound, 5);
  }

  lemma OpenedMore(r: Reg, r': Reg, clients: set<ClientId>, bound: nat, c: ClientId, name: string)
    requires OpenedReg(r, clients, bound) && Joins(r, r', c, name)
    ensures OpenedReg(r', clients + {c}, bound + 5)
  {
    hide IdsIn, Joins, PubsOf, AsksOf, Bare, Dense, PlainNames, OwnMetas;
    OwnMetasMore(r, r', c, name);
    JoinsKeys(r, r', c, name);
    JoinsPlain(r, r', c, name, bound);
    BareMore(r, r', clients, c, name);
  }

  lemma OwnMetasMore(r: Reg, r': Reg, c: ClientId, name: string)
    requires OwnMetas(r) && Joins(r, r', c, name)
    ensures OwnMetas(r')
  {
    hide IdsInv, PubsOf, AsksOf, ConnectMetas, ClientPubMeta, Dense;
  }

  lemma PlainMore(names: set<string>, names': set<string>, more: set<string>, bound: nat, k: nat)
    requires PlainNames(names, bound) && PlainNames(more, k) && names' <= names + more
    ensures PlainNames(names', bound + k)
  {
    hide Plain;
    assert names + more == names' + (names + more - names');
  }

  lemma ConnectOpened(w: World, o: Oracle, clients: set<ClientId>, bound: nat, c: ClientId, base: string)
    requires Opened(w, clients, bound) && c !in clients
    ensures Opened(Next(w, o, Connect(c, base)), clients + {c}, bound + 5)
  {
    hide IdsInv, OnConnect, PubsOf, AsksOf, NoPubs, NoSubs, Dense, ClientNames.Dedup, ConnectMetas, Plain;
    hide ClientPubMeta, Next;
    ConnectSees(w.reg, o, c, base);
    ConnectNext(w, o, c, base);
    OpenedMore(w.reg, OnConnect(w.reg, o, c, base).reg, clients, bound, c, ClientNames.Dedup(w.reg.clientNames, base));
  }

  lemma NamesBound(r: Reg, r': Reg, names: set<string>)
    requires r'.byName.Keys <= r.byName.Keys + names
    ensures |r'.byName| <= |r.byName| + |names|
  {
    var rest := r.byName.Keys + names - r'.byName.Keys;
    assert r.byName.Keys + names == r'.byName.Keys + rest;
    assert |r.byName| == |r.byName.Keys| && |r'.byName| == |r'.byName.Keys|;
  }

  lemma EmptyOpened()
    ensures Opened(Start, {}, 0)
  {
  }

  /** One client connects. */
  lemma OneConnected(o: Oracle)
    requires ValidOracle(o)
    ensures Legal(o, [ConnectA]) && NoStrands(o, [ConnectA]) && NoMisses(o, [ConnectA]) && NoLosses(o, [ConnectA])
    ensures Opened(Run(o, [ConnectA]), {1}, 5)
  {
    hide ValidOracle, Legal, NoStrands, NoMisses, NoLosses, Run, Next, Opened;
    LegalNone(o);
    RunNone(o);
    EmptyOpened();
    LegalStep(o, [], ConnectA);
    RunStep(o, [], ConnectA);
    ConnectOpened(Start, o, {}, 0, 1, "a");
    assert [] + [ConnectA] == [ConnectA];
    assert {} + {1} == {1};
  }

  lemma RunNone(o: Oracle)
    ensures Run(o, []) == Start
  {
  }

  // ------------------------------------------------------------- a plain publish

  /** A registry where connects were followed by one publish of "x". */
  ghost predicate HasX(w: World, clients: set<ClientId>, bound: nat) {
    && IdsIn(w.reg) && Dense(w.reg)
    && w.reg.clients.Keys == clients && w.reg.nameOf.Keys == clients && w.hist.seen == clients
    && w.hist.accepted == map[(1, 0) := "x"]
    && AsksOf(w.reg.clients) == NoSubs(clients)
    && "x" in w.reg.byName && PubMeta("x") in w.reg.byName
    && w.reg.byName["x"] in w.reg.topics && !IsRetained(w.reg.topics[w.reg.byName["x"]])
    && (forall n | n in w.reg.byName :: Plain(n) || n == "x" || n == PubMeta("x"))
    && |w.reg.byName| <= bound
    && OwnMetas(w.reg)
  }

  lemma PublishNext(w: World, o: Oracle, c: ClientId, name: string, pubuid: nat, typeStr: string, props: Props)
    requires c in w.reg.clients && PublishAccepted(w.reg, c, name, pubuid)
    ensures var w' := Next(w, o, Publish(c, name, pubuid, typeStr, props));
            && w'.reg == HandlePublish(w.reg, o, c, name, pubuid, typeStr, props).reg
            && w'.hist.seen == w.hist.seen && w'.hist.accepted == w.hist.accepted[(c, pubuid) := name]
  {
    hide HandlePublish, Replay, PublishAccepted;
  }

  lemma NewTopicIs(r: Reg, name: string, typeStr: string)
    requires IdsIn(r) && name !in r.byName
    ensures var (r1, id) := PublishTopic(r, name, typeStr, map[]);
            id in r1.topics && r1.topics[id].name == name && !IsRetained(r1.topics[id])
  {
    hide IdsInv, NoDup;
    CreateShape(r, PublishedTopic(name, typeStr, map[]));
  }

  lemma KindRetained(t: Topic, t': Topic)
    requires SameKind(t, t')
    ensures IsRetained(t') == IsRetained(t)
  {
  }

  lemma NoPubsAt(r: Reg, clients: set<ClientId>, c: ClientId)
    requires PubsOf(r.clients) == NoPubs(clients) && c in clients
    ensures c in r.clients && r.clients[c].pubs == map[]
  {
    assert c in PubsOf(r.clients);
  }

  lemma XPlain()
    ensures !Plain("x") && !Plain(PubMeta("x")) && "x" != PubMeta("x") && "x"[0] != '$' && !IsMeta("x")
  {
    MetaPrefixes("x");
  }

  /** The bound on names after a publish whose client's meta topic is already there. */
  lemma PublishBound(r: Reg, r': Reg, c: ClientId, name: string)
    requires c in r.nameOf && ClientPubMeta(r.nameOf[c]) in r.byName
    requires r'.byName.Keys <= r.byName.Keys + {name} + PublishMetas(r, c, name)
    ensures forall n | n in r'.byName :: n in r.byName || n == name || n == PubMeta(name)
    ensures |r'.byName| <= |r.byName| + 2
  {
    hide PubMeta, ClientPubMeta;
    NamesBound(r, r', {name, PubMeta(name)});
  }

  lemma {:induction false} PublishXSees(w: World, o: Oracle, clients: set<ClientId>, bound: nat)
    requires Opened(w, clients, bound) && 1 in clients && bound < MAX_TOPICS
    ensures HasX(Next(w, o, PublishX), clients, bound + 2)
    ensures EnabledIn(w, PublishX) && !Strands(w.reg, PublishX)
  {
    hide IdsInv, PubsOf, AsksOf, NoPubs, NoSubs, Dense, Plain, ClientPubMeta, PubMeta, Next, HandlePublish;
    hide PublishTopic;
    hide PublishMetas, WithPub, SameKind, IsRetained, IsMeta, Names;
    var r := w.reg;
    NoPubsAt(r, clients, 1);
    TopicsBound(r);
    assert PublishAccepted(r, 1, "x", 0);
    XPlain();
    assert "x" !in r.byName;
    PublishNext(w, o, 1, "x", 0, "int", map[]);
    FirstPublishSees(r, o, 1, "x", 0, "int", map[]);
    var r' := HandlePublish(r, o, 1, "x", 0, "int", map[]).reg;
    PublishBound(r, r', 1, "x");
    NewTopicIs(r, "x", "int");
    var (r1, id) := PublishTopic(r, "x", "int", map[]);
    XKept(r1, r', id);
  }

  lemma XKept(r1: Reg, r': Reg, id: TopicId)
    requires IdsIn(r') && id in r1.topics && id in r'.topics && SameKind(r1.topics[id], r'.topics[id])
    requires r1.topics[id].name == "x" && !IsRetained(r1.topics[id])
    ensures "x" in r'.byName && r'.byName["x"] == id && !IsRetained(r'.topics[id])
  {
    hide IdsInv, IsRetained;
    KindRetained(r1.topics[id], r'.topics[id]);
    ByNameIs(r', id);
  }
}
