/** Exactly which steps leave a matched set short of the brute-force scan, and which
    leave a client out of the fan-out of a topic it asked for.
    Concerns core/src/websocket/protocol.rs. */
module RegistryExact {
  import opened Values
  import opened Registry
  import opened RegistryInv
  import opened RegistryOps
  import opened RegistryPubs
  import opened RegistryPublish
  import opened RegistrySubs
  import opened RegistryConn
  import opened RegistryCounts
  import opened RegistryRuns

  ghost predicate CompleteIn(r: Reg) { Complete(Names(r.topics), SubsOf(r.clients)) }
  ghost predicate FullIn(r: Reg) { Full(SubsOf(r.clients), r.subscribers) }

  ghost predicate Covered(clients: map<ClientId, Client>, name: string) {
    exists c, u :: c in clients && u in clients[c].subs && Covers(clients[c].subs[u], name)
  }

  /** The steps that create a topic a live subscription covers without announcing it. */
  ghost predicate Misses(r: Reg, s: Step) {
    match s
    case Upsert(name, _, _) => name !in r.byName && |r.topics| < MAX_TOPICS && Covered(r.clients, name)
    case Restore(entries, _) =>
      exists k | 0 <= k < |entries| :: entries[k].name !in r.byName && Covered(r.clients, entries[k].name)
    case _ => false
  }

  // ------------------------------------------------------------ matched sets

  lemma SilentCreate(N: NameMap, clients: map<ClientId, Client>, id: TopicId, name: string)
    requires Sound(N, SubsOf(clients)) && Complete(N, SubsOf(clients)) && id !in N
    ensures Complete(N[id := name], SubsOf(clients)) <==> !Covered(clients, name)
  {
    hide Covers;
    var S: SubMap := SubsOf(clients);
    if Covered(clients, name) {
      var c, u :| c in clients && u in clients[c].subs && Covers(clients[c].subs[u], name);
      assert c in S && u in S[c] && Covers(S[c][u], N[id := name][id]);
      assert id !in S[c][u].matched;
    } else {
      forall c, u, i | c in S && u in S[c] && i in N[id := name] && Covers(S[c][u], N[id := name][i])
        ensures i in S[c][u].matched
      {
        assert S[c][u] == clients[c].subs[u];
      }
    }
  }

  lemma SoundIn(r: Reg, h: History)
    requires Inv(r, h)
    ensures Sound(Names(r.topics), SubsOf(r.clients))
    ensures IdsInv(Names(r.topics), r.byName, r.freed, r.nextId)
  {
  }

  lemma UpsertNew(r: Reg, name: string, value: Value, ts: nat)
    requires IdsInv(Names(r.topics), r.byName, r.freed, r.nextId)
    requires name !in r.byName && |r.topics| < MAX_TOPICS
    ensures var r1 := HandleUpsert(r, name, value, ts).reg;
            var id := Create(r, UpsertTopic(name, value)).1;
            id !in r.topics && r1.clients == r.clients && Names(r1.topics) == Names(r.topics)[id := name]
  {
    hide IdsInv, TopicValue, UpsertTopic, Create, Names, Counts, TopicOk, RowOf;
    var t := UpsertTopic(name, value);
    UpsertTopicOk(name, value);
    CreateShape(r, t);
    var (r1, id) := Create(r, t);
    TopicViews(r.topics, id, t);
    TopicValueShape(r1, id, value, ts);
  }

  lemma UpsertNewIff(r: Reg, h: History, name: string, value: Value, ts: nat)
    requires Inv(r, h) && CompleteIn(r) && name !in r.byName && |r.topics| < MAX_TOPICS
    ensures CompleteIn(HandleUpsert(r, name, value, ts).reg) <==> !Covered(r.clients, name)
  {
    hide Mid, IdsInv, Sound, Complete, Covered, TopicValue, UpsertTopic, Create, SubsOf, Names, HandleUpsert;
    SoundIn(r, h);
    UpsertNew(r, name, value, ts);
    var id := Create(r, UpsertTopic(name, value)).1;
    ViewsAt(r.topics, id);
    SilentCreate(Names(r.topics), r.clients, id, name);
  }

  lemma NamedLive(N: NameMap, r: Reg, name: string)
    requires N == Names(r.topics) && IdsInv(N, r.byName, r.freed, r.nextId) && name in r.byName
    ensures r.byName[name] in r.topics
  {
  }

  lemma UpsertOld(r: Reg, h: History, name: string, value: Value, ts: nat)
    requires Inv(r, h) && CompleteIn(r) && name in r.byName
    ensures CompleteIn(HandleUpsert(r, name, value, ts).reg)
  {
    hide Mid, Sound, Complete, TopicValue, UpsertTopic, Create, SubsOf, Names, IdsInv;
    SoundIn(r, h);
    NamedLive(Names(r.topics), r, name);
    TopicValueShape(r, r.byName[name], value, ts);
  }

  lemma UpsertRefused(r: Reg, name: string, value: Value, ts: nat)
    requires name !in r.byName && |r.topics| >= MAX_TOPICS
    ensures HandleUpsert(r, name, value, ts).reg == r
  {
    hide TopicValue, Create;
  }

  lemma {:induction false} UpsertCompleteIff(r: Reg, h: History, name: string, value: Value, ts: nat)
    requires Inv(r, h) && CompleteIn(r)
    ensures CompleteIn(HandleUpsert(r, name, value, ts).reg) <==> !Misses(r, Upsert(name, value, ts))
  {
    hide HandleUpsert, CompleteIn, Inv, Covered;
    if name in r.byName {
      UpsertOld(r, h, name, value, ts);
    } else if |r.topics| < MAX_TOPICS {
      UpsertNewIff(r, h, name, value, ts);
    } else {
      UpsertRefused(r, name, value, ts);
    }
  }

  lemma RestoreOne(r: Reg, h: History, e: Saved, ts: nat)
    requires Inv(r, h) && XtDataType(e.value) == DataTypeFromString(e.typeStr) && e.name !in r.byName
    ensures var r1 := Create(r, RestoredTopic(e, ts)).0;
            && r1.clients == r.clients
            && (forall i | i in r.topics :: i in r1.topics && r1.topics[i] == r.topics[i])
            && r1.byName.Keys == r.byName.Keys + {e.name}
  {
    hide Mid, RestoredTopic, TopicOk, XtDataType, DataTypeFromString, Names, Create, IdsInv;
    RestoredTopicOk(e, ts);
    SoundIn(r, h);
    CreateShape(r, RestoredTopic(e, ts));
  }

  ghost function EntryNames(entries: seq<Saved>): set<string> {
    set k | 0 <= k < |entries| :: entries[k].name
  }

  /** Restoring adds topics and changes none. */
  lemma {:induction false} RestoreEachShape(r: Reg, h: History, entries: seq<Saved>, ts: nat)
    requires Inv(r, h) && WellTyped(entries)
    ensures var r1 := RestoreEach(r, entries, ts);
            && r1.clients == r.clients
            && (forall i | i in r.topics :: i in r1.topics && r1.topics[i] == r.topics[i])
            && r1.byName.Keys == r.byName.Keys + EntryNames(entries)
  {
    hide Mid, RestoredTopic, XtDataType, DataTypeFromString, Create;
    if entries != [] {
      var n := |entries| - 1;
      RestoreEachShape(r, h, entries[..n], ts);
      RestoreEachMid(r, h, entries[..n], ts);
      var r1 := RestoreEach(r, entries[..n], ts);
      EntryNamesLast(entries);
      if entries[n].name !in r1.byName { RestoreOne(r1, h, entries[n], ts); }
    }
  }

  lemma EntryNamesLast(entries: seq<Saved>)
    requires entries != []
    ensures EntryNames(entries) == EntryNames(entries[..|entries| - 1]) + {entries[|entries| - 1].name}
  {
    var n := |entries| - 1;
    assert forall k | 0 <= k < n :: entries[..n][k] == entries[k];
  }

  lemma {:induction false} RestoreCompleteIff(r: Reg, h: History, entries: seq<Saved>, ts: nat)
    requires Inv(r, h) && CompleteIn(r) && WellTyped(entries)
    ensures CompleteIn(RestorePersistent(r, entries, ts)) <==> !Misses(r, Restore(entries, ts))
  {
    hide Mid, IdsInv, Sound, Complete, RestoreEach, Covers, WellTyped, Names, SubsOf;
    var r1 := RestoreEach(r, entries, ts);
    RestoreEachShape(r, h, entries, ts);
    RestoreEachMid(r, h, entries, ts);
    SoundIn(r, h);
    SoundIn(r1, h);
    if Misses(r, Restore(entries, ts)) {
      var k :| 0 <= k < |entries| && entries[k].name !in r.byName && Covered(r.clients, entries[k].name);
      var c, u :| c in r.clients && u in r.clients[c].subs && Covers(r.clients[c].subs[u], entries[k].name);
      assert entries[k].name in EntryNames(entries);
      RestoreMissed(r, r1, entries[k].name, c, u);
    } else {
      RestoreSeen(r, r1, EntryNames(entries));
    }
  }

  lemma RestoreMissed(r: Reg, r1: Reg, name: string, c: ClientId, u: nat)
    requires IdsInv(Names(r.topics), r.byName, r.freed, r.nextId)
    requires IdsInv(Names(r1.topics), r1.byName, r1.freed, r1.nextId)
    requires Sound(Names(r.topics), SubsOf(r.clients)) && r1.clients == r.clients
    requires forall i | i in r.topics :: i in r1.topics && r1.topics[i] == r.topics[i]
    requires name in r1.byName && name !in r.byName
    requires c in r.clients && u in r.clients[c].subs && Covers(r.clients[c].subs[u], name)
    ensures !CompleteIn(r1)
  {
    hide Covers, NoDup;
    var id := r1.byName[name];
    var N, S: SubMap := Names(r.topics), SubsOf(r.clients);
    assert id in Names(r1.topics) && Names(r1.topics)[id] == name;
    assert forall i | i in N :: N[i] in r.byName;
    assert id !in N;
    assert id !in S[c][u].matched;
  }

  lemma RestoreSeen(r: Reg, r1: Reg, added: set<string>)
    requires IdsInv(Names(r.topics), r.byName, r.freed, r.nextId)
    requires IdsInv(Names(r1.topics), r1.byName, r1.freed, r1.nextId)
    requires CompleteIn(r) && r1.clients == r.clients
    requires forall i | i in r.topics :: i in r1.topics && r1.topics[i] == r.topics[i]
    requires r1.byName.Keys == r.byName.Keys + added
    requires forall n | n in added && n !in r.byName :: !Covered(r.clients, n)
    ensures CompleteIn(r1)
  {
    hide Covers, NoDup;
    var N1, S: SubMap := Names(r1.topics), SubsOf(r.clients);
    forall c, u, i | c in S && u in S[c] && i in N1 && Covers(S[c][u], N1[i]) ensures i in S[c][u].matched {
      assert S[c][u] == r.clients[c].subs[u];
      assert Covered(r.clients, N1[i]);
      assert N1[i] in r1.byName.Keys;
      assert N1[i] in r.byName;
      var j := r.byName[N1[i]];
      assert j in Names(r.topics) && Names(r.topics)[j] == N1[i];
      assert j in N1 && N1[j] == N1[i];
      assert r1.byName[N1[i]] == i && r1.byName[N1[j]] == j;
    }
  }

  /** A step keeps every matched set equal to the scan exactly when it creates no
      covered topic in silence. */
  lemma {:induction false} StepCompleteIff(r: Reg, o: Oracle, h: History, s: Step)
    requires Inv(r, h) && Enabled(r, h, s) && ValidOracle(o) && CompleteIn(r)
    ensures CompleteIn(Apply(r, o, s).reg) <==> !Misses(r, s)
  {
    hide Mid, Safe, Saves, Full, Complete, Names, SubsOf, WellTyped, PublishAccepted, SubscribeAccepted, Forgotten;
    hide ValidOracle, DropSub, Covered;
    hide OnConnect, OnDisconnect, HandlePublish, HandleUnpublish, HandleSubscribe, HandleUnsubscribe;
    hide HandleSetProperties, HandleClientValue, TopicValue, HandleUpsert, RestorePersistent, SetRetained;
    MidTopicsOk(r, h, 0, {});
    match s
    case Connect(c, base) => OnConnectMid(r, o, h, c, base);
    case Disconnect(c) => OnDisconnectMid(r, o, h, c);
    case Publish(c, name, pubuid, typeStr, props) =>
      if PublishAccepted(r, c, name, pubuid) {
        HandlePublishKeeps(r, o, h, c, name, pubuid, typeStr, props);
      } else {
        PublishRefused(r, o, c, name, pubuid, typeStr, props);
      }
    case Unpublish(c, pubuid) => HandleUnpublishMid(r, o, h, c, pubuid);
    case Subscribe(c, patterns, subuid, prefix, topicsOnly) =>
      DropSubKeeps(r, c, subuid);
      if SubscribeAccepted(r, c, subuid) {
        HandleSubscribeKeeps(r, o, h, c, patterns, subuid, prefix, topicsOnly);
      } else {
        SubscribeRefused(r, o, c, patterns, subuid, prefix, topicsOnly);
      }
    case Unsubscribe(c, subuid) =>
      DropSubKeeps(r, c, subuid);
      HandleUnsubscribeMid(r, o, h, c, subuid);
    case SetProperties(c, name, update) => HandleSetPropertiesMid(r, h, c, name, update);
    case ClientValue(c, pubuid, value, sent, now) => ClientValueMid(r, o, h, c, pubuid, value, sent, now);
    case ServerValue(name, value, ts) => if name in r.byName { TopicValueKeeps(r, r.byName[name], value, ts); }
    case Upsert(name, value, ts) => UpsertCompleteIff(r, h, name, value, ts);
    case Restore(entries, ts) => RestoreCompleteIff(r, h, entries, ts);
    case Retain(name, retained) => SetRetainedMid(r, h, name, retained);
    case Timestamp(_, _, _) =>
  }

  // ------------------------------------------------------------------ fan-out

  /** Subscription `u` of `c` asks for the values of `i`, which do not go to `c`. */
  ghost predicate Gap(r: Reg, c: ClientId, u: nat, i: TopicId) {
    && c in r.clients && u in r.clients[c].subs
    && !r.clients[c].subs[u].topicsOnly && i in r.clients[c].subs[u].matched
    && !(i in r.subscribers && c in r.subscribers[i])
  }

  lemma GapOrFull(r: Reg)
    ensures FullIn(r) <==> forall c, u, i :: !Gap(r, c, u, i)
  {
    var S: SubMap := SubsOf(r.clients);
    if FullIn(r) {
      forall c, u, i ensures !Gap(r, c, u, i) {
        if c in r.clients && u in r.clients[c].subs && !r.clients[c].subs[u].topicsOnly
           && i in r.clients[c].subs[u].matched {
          assert c in S && u in S[c] && i in S[c][u].matched;
        }
      }
    } else {
      var c, u, i :| c in S && u in S[c] && !S[c][u].topicsOnly && i in S[c][u].matched
                     && !(i in r.subscribers && c in r.subscribers[i]);
      assert Gap(r, c, u, i);
    }
  }

  lemma {:induction false} AnnounceTargetsElsewhere(r: Reg, id: TopicId, name: string, targets: seq<ClientId>,
                                                    i: TopicId)
    requires i != id
    ensures var L := AnnounceTargets(r, id, name, targets).reg.subscribers;
            (i in L <==> i in r.subscribers) && (i in L ==> L[i] == r.subscribers[i])
  {
    if targets != [] { AnnounceTargetsElsewhere(r, id, name, targets[..|targets| - 1], i); }
  }

  lemma AnnounceGap(r: Reg, o: Oracle, id: TopicId, name: string, c: ClientId, u: nat, i: TopicId)
    requires Gap(r, c, u, i) && i != id
    ensures Gap(AnnounceToMatching(r, o, id, name).reg, c, u, i)
  {
    hide AnnounceTargets, MatchingClients, Covers;
    var r1 := r.(clients := MatchAll(r.clients, id, name), ticks := r.ticks + 1);
    var targets := MatchingClients(r1.clients, name, o.order(r.ticks, r.clients.Keys));
    AnnounceTargetsShape(r1, id, name, targets);
    AnnounceTargetsElsewhere(r1, id, name, targets, i);
  }

  /** Publishing a meta topic fills no gap. */
  lemma MetaGap(r: Reg, o: Oracle, h: History, name: string, c: ClientId, u: nat, i: TopicId)
    requires Inv(r, h) && Gap(r, c, u, i)
    ensures Gap(PublishMeta(r, o, name).reg, c, u, i)
  {
    hide FanInv, ListsInv, ClientNamesInv, TopicsOk, Covers, AnnounceToMatching, TopicValue, IdsInv, Create;
    assert i in Names(r.topics) by { assert i in SubsOf(r.clients)[c][u].matched; }
    var (a, id) := EnsureMetaTopic(r, o, name);
    if name !in r.byName {
      CreateShape(r, MetaTopic(name));
      AnnounceGap(Create(r, MetaTopic(name)).0, o, id, name, c, u, i);
    }
    var r1 := a.reg.(ticks := a.reg.ticks + 1);
    if o.payload(a.reg.ticks).Some? {
      TopicValueShape(r1, id, Bytes(o.payload(a.reg.ticks).value), o.now(a.reg.ticks));
    }
  }

  lemma {:induction false} MetaSubsListGap(r: Reg, o: Oracle, h: History, names: seq<string>, c: ClientId,
                                           u: nat, i: TopicId)
    requires Inv(r, h) && Gap(r, c, u, i)
    ensures Gap(UpdateMetaSubs(r, o, names).reg, c, u, i)
  {
    hide Mid, PublishMeta, Gap, Resolves, ValidOracle, Keeps;
    if names != [] {
      var n := |names| - 1;
      var a := UpdateMetaSubs(r, o, names[..n]);
      MetaSubsListGap(r, o, h, names[..n], c, u, i);
      UpdateMetaSubsMid(r, o, h, 0, {}, names[..n]);
      if names[n] in a.reg.byName { MetaGap(a.reg, o, Sent(h, a.routes), SubMeta(names[n]), c, u, i); }
    }
  }

  lemma MetaSubsGap(r: Reg, o: Oracle, h: History, d: ClientId, ids: set<TopicId>, c: ClientId, u: nat, i: TopicId)
    requires Inv(r, h) && Gap(r, c, u, i)
    ensures Gap(MetaSubs(r, o, d, ids).reg, c, u, i)
  {
    hide Mid, PublishMeta, Resolves, ValidOracle, Keeps, UpdateMetaSubs, LiveNames;
    var a := UpdateMetaClientSub(r, o, d);
    UpdateMetaClientMid(r, o, h, 0, {}, d);
    if d in r.nameOf { MetaGap(r, o, h, ClientSubMeta(r.nameOf[d]), c, u, i); }
    var r1 := a.reg.(ticks := a.reg.ticks + 1);
    TickMid(a.reg, Sent(h, a.routes), 0, {}, a.reg.ticks + 1);
    MetaSubsListGap(r1, o, Sent(h, a.routes), LiveNames(a.reg, o.order(a.reg.ticks, ids), true), c, u, i);
  }

  /** Unsubscribing leaves the fan-out full exactly when the client's other
      subscriptions ask for none of the dropped topics. */
  lemma {:induction false} UnsubscribeFullIff(r: Reg, o: Oracle, h: History, c: ClientId, u: nat)
    requires Inv(r, h) && ValidOracle(o) && FullIn(r) && c in r.clients && u in r.clients[c].subs
    ensures FullIn(HandleUnsubscribe(r, o, c, u).reg) <==> Alone(r.clients[c].subs, u)
  {
    hide Mid, Safe, Saves, Full, Complete, ValidOracle, DropSub, Alone, Gap, UpdateMetaClientSub, UpdateMetaSubFor;
    hide Touched, SubsOf, Names;
    DropSubFull(r, c, u);
    HandleUnsubscribeMid(r, o, h, c, u);
    var r1 := DropSub(r, c, u);
    if !Alone(r.clients[c].subs, u) {
      GapOrFull(r1);
      var d, v, i :| Gap(r1, d, v, i);
      DropSubMid(r, h, c, u);
      MetaSubsGap(r1, o, h, c, Touched(r, c, u), d, v, i);
      GapOrFull(HandleUnsubscribe(r, o, c, u).reg);
    }
  }

  // ------------------------------------------------- replacing a subscription

  /** Every topic another subscription of the client still wants, and the replaced
      one took away, is asked for again by the new one. */
  ghost predicate Refilled(r: Reg, subs: map<nat, Subscription>, u: nat, sub: Subscription)
    requires u in subs
  {
    forall v, i | v in subs && v != u && !subs[v].topicsOnly && i in subs[v].matched && i in subs[u].matched ::
      !sub.topicsOnly && i in r.topics && Covers(sub, r.topics[i].name)
  }

  lemma {:induction false} SubscribeEachElsewhere(r: Reg, c: ClientId, topicsOnly: bool, ids: seq<TopicId>, i: TopicId)
    requires topicsOnly || i !in ids
    ensures var L := SubscribeEach(r, c, topicsOnly, ids).reg.subscribers;
            (i in L <==> i in r.subscribers) && (i in L ==> L[i] == r.subscribers[i])
  {
    hide AnnounceFrame, Late;
    if ids != [] {
      var n := |ids| - 1;
      assert ids == ids[..n] + [ids[n]];
      SubscribeEachElsewhere(r, c, topicsOnly, ids[..n], i);
      SubscribeOneIs(SubscribeEach(r, c, topicsOnly, ids[..n]).reg, c, topicsOnly, ids[n]);
    }
  }

  /** Entering a subscription fills the gap at `i` exactly when it asks for `i`. */
  lemma EnterSubGap(r: Reg, c: ClientId, u: nat, sub: Subscription, v: nat, i: TopicId)
    requires c in r.clients && v != u && Gap(r, c, v, i)
    requires forall j :: j in Ascending(sub.matched, r.nextId) <==> j in sub.matched
    ensures Gap(EnterSub(r, c, u, sub).reg, c, v, i) <==> sub.topicsOnly || i !in sub.matched
  {
    hide SubscribeEach, Ascending;
    var ids := Ascending(sub.matched, r.nextId);
    SubscribeEachShape(r, c, sub.topicsOnly, ids);
    if sub.topicsOnly || i !in sub.matched {
      SubscribeEachElsewhere(r, c, sub.topicsOnly, ids, i);
    } else {
      SubscribeEachFan(r, c, sub.topicsOnly, ids);
    }
  }

  lemma DropSubGaps(r: Reg, c: ClientId, u: nat, d: ClientId, v: nat, i: TopicId)
    requires FullIn(r) && c in r.clients && u in r.clients[c].subs
    ensures Gap(DropSub(r, c, u), d, v, i) <==>
            d == c && v != u && v in r.clients[c].subs && !r.clients[c].subs[v].topicsOnly
            && i in r.clients[c].subs[v].matched && i in r.clients[c].subs[u].matched
  {
    hide DropSubscriber, NoDup;
    DropSubViews(r, c, u);
    DropSubscriberMembers(r.subscribers, c, r.clients[c].subs[u].matched);
    var S: SubMap := SubsOf(r.clients);
    if d in S && v in S[d] && !S[d][v].topicsOnly && i in S[d][v].matched {
      assert i in r.subscribers && d in r.subscribers[i];
    }
  }

  lemma MatchedLive(r: Reg, h: History, c: ClientId, u: nat, i: TopicId)
    requires Inv(r, h) && c in r.clients && u in r.clients[c].subs && i in r.clients[c].subs[u].matched
    ensures i in r.topics && Covers(r.clients[c].subs[u], r.topics[i].name)
  {
    hide Mid, IdsInv, Covers;
    SoundIn(r, h);
    assert c in SubsOf(r.clients) && u in SubsOf(r.clients)[c];
    ViewsAt(r.topics, i);
  }

  lemma NewSubAt(r: Reg, patterns: seq<string>, prefix: bool, topicsOnly: bool, i: TopicId)
    requires IdsInv(Names(r.topics), r.byName, r.freed, r.nextId) && i in r.topics
    ensures var sub := NewSub(r, patterns, prefix, topicsOnly);
            i in sub.matched <==> Covers(Subscription(patterns, prefix, topicsOnly, {}), r.topics[i].name)
  {
    hide IdsInv, Covers, Names;
    NewSubMatches(r, patterns, prefix, topicsOnly);
    ViewsAt(r.topics, i);
    CoversByPatterns(NewSub(r, patterns, prefix, topicsOnly), Subscription(patterns, prefix, topicsOnly, {}),
                     r.topics[i].name);
  }

  /** The gaps after the old subscription is gone and the new one entered. */
  lemma ReplacedGaps(r: Reg, h: History, c: ClientId, patterns: seq<string>, u: nat, prefix: bool,
                     topicsOnly: bool, v: nat, i: TopicId)
    requires Inv(r, h) && FullIn(r) && c in r.clients && u in r.clients[c].subs
    requires v in r.clients[c].subs && v != u && !r.clients[c].subs[v].topicsOnly
    requires i in r.clients[c].subs[v].matched && i in r.clients[c].subs[u].matched
    ensures var r1 := DropSub(r, c, u);
            && i in r.topics
            && (Gap(EnterSub(r1, c, u, NewSub(r1, patterns, prefix, topicsOnly)).reg, c, v, i)
                <==> topicsOnly || !Covers(Subscription(patterns, prefix, topicsOnly, {}), r.topics[i].name))
  {
    hide Mid, IdsInv, Covers, Names, SubsOf, EnterSub, NewSub, Gap, Full;
    var r1 := DropSub(r, c, u);
    MatchedLive(r, h, c, v, i);
    DropSubGaps(r, c, u, c, v, i);
    DropSubMid(r, h, c, u);
    SoundIn(r1, h);
    var sub := NewSub(r1, patterns, prefix, topicsOnly);
    NewSubMatches(r1, patterns, prefix, topicsOnly);
    EnterSubGap(r1, c, u, sub, v, i);
    NewSubAt(r1, patterns, prefix, topicsOnly, i);
  }

  /** A gap after entering the subscription was there before. */
  lemma EnterSubNoNewGap(r: Reg, c: ClientId, u: nat, sub: Subscription, d: ClientId, v: nat, i: TopicId)
    requires c in r.clients
    requires forall j :: j in Ascending(sub.matched, r.nextId) <==> j in sub.matched
    requires Gap(EnterSub(r, c, u, sub).reg, d, v, i)
    ensures (d != c || v != u) && Gap(r, d, v, i)
  {
    hide SubscribeEach, Ascending;
    var ids := Ascending(sub.matched, r.nextId);
    SubscribeEachShape(r, c, sub.topicsOnly, ids);
    SubscribeEachFan(r, c, sub.topicsOnly, ids);
  }

  /** Replacing a subscription leaves the fan-out full exactly when the new one asks
      again for every topic the client's other subscriptions shared with the old. */
  lemma {:induction false} ResubscribeFullIff(r: Reg, o: Oracle, h: History, c: ClientId, patterns: seq<string>,
                                              u: nat, prefix: bool, topicsOnly: bool)
    requires Inv(r, h) && ValidOracle(o) && FullIn(r) && c in r.clients && u in r.clients[c].subs
    ensures FullIn(HandleSubscribe(r, o, c, patterns, u, prefix, topicsOnly).reg)
            <==> Refilled(r, r.clients[c].subs, u, Subscription(patterns, prefix, topicsOnly, {}))
  {
    hide Mid, Safe, Saves, Full, Complete, ValidOracle, DropSub, Gap, MetaSubs, EnterSub, NewSub, Touched, SubsOf;
    hide Names, IdsInv, Covers, HandleSubscribe;
    var sub0 := Subscription(patterns, prefix, topicsOnly, {});
    var r1 := DropSub(r, c, u);
    var sub := NewSub(r1, patterns, prefix, topicsOnly);
    var a := EnterSub(r1, c, u, sub);
    var ids := Touched(r, c, u) + sub.matched;
    DropSubMid(r, h, c, u);
    DropSubGone(r, c, u);
    SoundIn(r1, h);
    NewSubMatches(r1, patterns, prefix, topicsOnly);
    EnterSubMid(r1, h, c, u, patterns, prefix, topicsOnly);
    HandleSubscribeIs(r, o, c, patterns, u, prefix, topicsOnly);
    assert Inv(a.reg, Sent(h, a.routes)) by { SafeInv(h, a); }
    MetaSubsMid(a.reg, o, Sent(h, a.routes), c, ids);
    GapOrFull(a.reg);
    GapOrFull(HandleSubscribe(r, o, c, patterns, u, prefix, topicsOnly).reg);
    if Refilled(r, r.clients[c].subs, u, sub0) {
      forall d, v, i ensures !Gap(a.reg, d, v, i) {
        if Gap(a.reg, d, v, i) {
          EnterSubNoNewGap(r1, c, u, sub, d, v, i);
          DropSubGaps(r, c, u, d, v, i);
          ReplacedGaps(r, h, c, patterns, u, prefix, topicsOnly, v, i);
        }
      }
    } else {
      var v, i :| v in r.clients[c].subs && v != u && !r.clients[c].subs[v].topicsOnly
                  && i in r.clients[c].subs[v].matched && i in r.clients[c].subs[u].matched
                  && !(!topicsOnly && i in r.topics && Covers(sub0, r.topics[i].name));
      ReplacedGaps(r, h, c, patterns, u, prefix, topicsOnly, v, i);
      MetaSubsGap(a.reg, o, Sent(h, a.routes), c, ids, c, v, i);
    }
  }

  lemma SafeInv(h: History, a: Out)
    requires Safe(h, a, 0, {})
    ensures Inv(a.reg, Sent(h, a.routes))
  {
    hide Mid;
  }

  /** The steps after which a client is left out of a fan-out it asked for. */
  ghost predicate Loses(r: Reg, s: Step) {
    match s
    case Unsubscribe(c, u) => c in r.clients && u in r.clients[c].subs && !Alone(r.clients[c].subs, u)
    case Subscribe(c, patterns, u, prefix, topicsOnly) =>
      && c in r.clients && u in r.clients[c].subs
      && !Refilled(r, r.clients[c].subs, u, Subscription(patterns, prefix, topicsOnly, {}))
    case _ => false
  }

  lemma FirstSubscribeFull(r: Reg, o: Oracle, h: History, c: ClientId, patterns: seq<string>, u: nat,
                           prefix: bool, topicsOnly: bool)
    requires Inv(r, h) && ValidOracle(o) && FullIn(r) && c in r.clients && u !in r.clients[c].subs
    ensures FullIn(HandleSubscribe(r, o, c, patterns, u, prefix, topicsOnly).reg)
  {
    hide Mid, Saves, Full, Complete, ValidOracle, SubsOf, Names, HandleSubscribe, SubscribeAccepted;
    if SubscribeAccepted(r, c, u) {
      HandleSubscribeKeeps(r, o, h, c, patterns, u, prefix, topicsOnly);
      assert DropSub(r, c, u) == r;
    } else {
      SubscribeRefused(r, o, c, patterns, u, prefix, topicsOnly);
    }
  }

  lemma UnsubscribeNothing(r: Reg, o: Oracle, h: History, c: ClientId, u: nat)
    requires Inv(r, h) && ValidOracle(o) && FullIn(r) && !(c in r.clients && u in r.clients[c].subs)
    ensures FullIn(HandleUnsubscribe(r, o, c, u).reg)
  {
    hide Mid, Safe, Saves, Full, Complete, ValidOracle, SubsOf, Names, HandleUnsubscribe;
    HandleUnsubscribeMid(r, o, h, c, u);
    assert DropSub(r, c, u) == r;
  }

  lemma UpsertFull(r: Reg, h: History, name: string, value: Value, ts: nat)
    requires Inv(r, h) && FullIn(r)
    ensures FullIn(HandleUpsert(r, name, value, ts).reg)
  {
    hide Mid, Full, TopicValue, UpsertTopic, Create, SubsOf, IdsInv, Names, TopicOk, RowOf;
    SoundIn(r, h);
    if name in r.byName {
      TopicValueShape(r, r.byName[name], value, ts);
    } else if |r.topics| < MAX_TOPICS {
      UpsertTopicOk(name, value);
      CreateShape(r, UpsertTopic(name, value));
      var (r1, id) := Create(r, UpsertTopic(name, value));
      TopicValueShape(r1, id, value, ts);
    }
  }

  lemma {:induction false} RestoreEachFull(r: Reg, entries: seq<Saved>, ts: nat)
    ensures RestoreEach(r, entries, ts).clients == r.clients
    ensures RestoreEach(r, entries, ts).subscribers == r.subscribers
  {
    hide RestoredTopic, Create;
    if entries != [] {
      var n := |entries| - 1;
      RestoreEachFull(r, entries[..n], ts);
      CreateKeepsLists(RestoreEach(r, entries[..n], ts), RestoredTopic(entries[n], ts));
    }
  }

  lemma CreateKeepsLists(r: Reg, t: Topic)
    ensures Create(r, t).0.clients == r.clients && Create(r, t).0.subscribers == r.subscribers
  {
    hide MinIndex;
  }

  /** A step keeps the fan-out full exactly when it is none of the losing ones. */
  lemma {:induction false} StepFullIff(r: Reg, o: Oracle, h: History, s: Step)
    requires Inv(r, h) && Enabled(r, h, s) && ValidOracle(o) && FullIn(r)
    ensures FullIn(Apply(r, o, s).reg) <==> !Loses(r, s)
  {
    hide Mid, Safe, Saves, Full, Complete, Names, SubsOf, WellTyped, PublishAccepted, SubscribeAccepted, Forgotten;
    hide ValidOracle, DropSub, Alone, Refilled;
    hide OnConnect, OnDisconnect, HandlePublish, HandleUnpublish, HandleSubscribe, HandleUnsubscribe;
    hide HandleSetProperties, HandleClientValue, TopicValue, HandleUpsert, RestoreEach, SetRetained;
    MidTopicsOk(r, h, 0, {});
    match s
    case Connect(c, base) => OnConnectMid(r, o, h, c, base);
    case Disconnect(c) => OnDisconnectMid(r, o, h, c);
    case Publish(c, name, pubuid, typeStr, props) =>
      if PublishAccepted(r, c, name, pubuid) {
        HandlePublishKeeps(r, o, h, c, name, pubuid, typeStr, props);
      } else {
        PublishRefused(r, o, c, name, pubuid, typeStr, props);
      }
    case Unpublish(c, pubuid) => HandleUnpublishMid(r, o, h, c, pubuid);
    case Subscribe(c, patterns, u, prefix, topicsOnly) =>
      if u in r.clients[c].subs {
        ResubscribeFullIff(r, o, h, c, patterns, u, prefix, topicsOnly);
      } else {
        FirstSubscribeFull(r, o, h, c, patterns, u, prefix, topicsOnly);
      }
    case Unsubscribe(c, u) =>
      if u in r.clients[c].subs {
        UnsubscribeFullIff(r, o, h, c, u);
      } else {
        UnsubscribeNothing(r, o, h, c, u);
      }
    case SetProperties(c, name, update) => HandleSetPropertiesMid(r, h, c, name, update);
    case ClientValue(c, pubuid, value, sent, now) => ClientValueMid(r, o, h, c, pubuid, value, sent, now);
    case ServerValue(name, value, ts) => if name in r.byName { TopicValueKeeps(r, r.byName[name], value, ts); }
    case Upsert(name, value, ts) => UpsertFull(r, h, name, value, ts);
    case Restore(entries, ts) => RestoreEachFull(r, entries, ts);
    case Retain(name, retained) => SetRetainedMid(r, h, name, retained);
    case Timestamp(_, _, _) =>
  }
}
