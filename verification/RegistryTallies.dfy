/** Publisher counts through every step: they stay exact if and only if the step strands
    nobody.  Concerns core/src/websocket/protocol.rs, with core/src/websocket/server.rs as
    the step relation. */
module RegistryTallies {
  import opened Values
  import ClientNames
  import opened Registry
  import opened RegistryInv
  import opened RegistryOps
  import opened RegistryPubs
  import opened RegistryPublish
  import opened RegistrySubs
  import opened RegistryConn
  import opened RegistryFrames
  import opened RegistryTrim
  import opened RegistryCounts
  import opened RegistryRuns
  import opened RegistryStrands
  import opened RegistryLeaving

  // --------------------------------------------------------------------- connect

  /** The meta topics a connect publishes. */
  function ConnectMetas(name: string): set<string> {
    {"$clients"} + {ClientPubMeta(name)} + {ClientSubMeta(name)} + {"$serversub"} + {"$serverpub"}
  }

  lemma AdmitIs(r: Reg, c: ClientId, base: string)
    requires c !in r.clients
    ensures var r1 := Admit(r, c, base);
            && r1 == r.(clients := r.clients[c := Client(map[], map[])], clientNames := r1.clientNames,
                        nameOf := r1.nameOf)
            && r1.nameOf == r.nameOf[c := ClientNames.Dedup(r.clientNames, base)]
            && PubsOf(r1.clients) == PubsOf(r.clients)[c := map[]]
            && AsksOf(r1.clients) == AsksOf(r.clients)[c := map[]]
  {
    hide ClientNames.Dedup, PubsOf, SubsOf, AsksOf;
    ClientViews(r.clients, c, Client(map[], map[]));
    AsksAdmit(r.clients, c);
  }

  lemma AsksAdmit(clients: map<ClientId, Client>, c: ClientId)
    ensures AsksOf(clients[c := Client(map[], map[])]) == AsksOf(clients)[c := map[]]
  {
  }

  lemma {:induction false} ConnectAdds(r: Reg, o: Oracle, c: ClientId, base: string)
    requires IdsIn(r) && c !in r.clients
    ensures Adds(Admit(r, c, base), OnConnect(r, o, c, base).reg, ConnectMetas(ClientNames.Dedup(r.clientNames, base)))
  {
    hide IdsInv, Adds, PublishMeta, ClientNames.Dedup, ClientPubMeta, ClientSubMeta, PubsOf, AsksOf;
    var name := ClientNames.Dedup(r.clientNames, base);
    var r1 := Admit(r, c, base);
    AdmitIs(r, c, base);
    var a := PublishMeta(r1, o, "$clients").reg;
    PublishMetaAdds(r1, o, "$clients");
    AddsIds(r1, a, {"$clients"});
    var b := UpdateMetaClientPub(a, o, c).reg;
    UpdateMetaClientAdds(a, o, c);
    AddsIds(a, b, {ClientPubMeta(name)});
    AddsTrans(r1, a, b, {"$clients"}, {ClientPubMeta(name)});
    var d := UpdateMetaClientSub(b, o, c).reg;
    UpdateMetaClientAdds(b, o, c);
    AddsIds(b, d, {ClientSubMeta(name)});
    AddsTrans(r1, b, d, {"$clients"} + {ClientPubMeta(name)}, {ClientSubMeta(name)});
    var e := PublishMeta(d, o, "$serversub").reg;
    PublishMetaAdds(d, o, "$serversub");
    AddsIds(d, e, {"$serversub"});
    AddsTrans(r1, d, e, {"$clients"} + {ClientPubMeta(name)} + {ClientSubMeta(name)}, {"$serversub"});
    PublishMetaAdds(e, o, "$serverpub");
    AddsTrans(r1, e, PublishMeta(e, o, "$serverpub").reg,
              {"$clients"} + {ClientPubMeta(name)} + {ClientSubMeta(name)} + {"$serversub"}, {"$serverpub"});
  }

  lemma ConnectCounted(r: Reg, o: Oracle, acc: Accepted, c: ClientId, base: string)
    requires IdsIn(r) && Counted(r, acc) && c !in r.clients
    ensures Counted(OnConnect(r, o, c, base).reg, acc)
  {
    hide IdsInv, CountedIn, Adds, OnConnect, Admit, ConnectMetas, ClientNames.Dedup, Names, Counts, AsksOf;
    var r1 := Admit(r, c, base);
    AdmitIs(r, c, base);
    AdmittedCounted(Names(r.topics), Counts(r.topics), PubsOf(r.clients), acc, c);
    assert Counted(r1, acc);
    ConnectAdds(r, o, c, base);
    AddsCounted(r1, OnConnect(r, o, c, base).reg, ConnectMetas(ClientNames.Dedup(r.clientNames, base)), acc);
  }

  // ------------------------------------------------------------------- subscribe

  /** The meta topics a subscribe or unsubscribe publishes. */
  ghost function SubscribeMetas(r: Reg, o: Oracle, c: ClientId, ids: set<TopicId>): set<string> {
    var d := UpdateMetaClientSub(r, o, c).reg;
    (if c in r.nameOf then {ClientSubMeta(r.nameOf[c])} else {})
    + SubMetas(LiveNames(d, o.order(d.ticks, ids), true))
  }

  lemma MetaSubsAdds(r: Reg, o: Oracle, c: ClientId, ids: set<TopicId>)
    requires IdsIn(r)
    ensures Adds(r, MetaSubs(r, o, c, ids).reg, SubscribeMetas(r, o, c, ids))
  {
    hide IdsInv, Adds, UpdateMetaClientSub, UpdateMetaSubFor, SubMetas, LiveNames, ClientSubMeta;
    var d := UpdateMetaClientSub(r, o, c).reg;
    var own := if c in r.nameOf then {ClientSubMeta(r.nameOf[c])} else {};
    UpdateMetaClientAdds(r, o, c);
    AddsIds(r, d, own);
    UpdateMetaSubForAdds(d, o, ids);
    AddsTrans(r, d, UpdateMetaSubFor(d, o, ids).reg, own, SubMetas(LiveNames(d, o.order(d.ticks, ids), true)));
  }

  /** A change of subscriptions and lists alone. */
  ghost predicate OnlySubs(r: Reg, r': Reg) {
    && r' == r.(clients := r'.clients, subscribers := r'.subscribers, announced := r'.announced)
    && PubsOf(r'.clients) == PubsOf(r.clients)
    && r'.clients.Keys == r.clients.Keys
  }

  lemma OnlySubsCounted(r: Reg, r': Reg, acc: Accepted)
    requires OnlySubs(r, r')
    ensures Counted(r, acc) ==> Counted(r', acc)
    ensures IdsIn(r) ==> IdsIn(r')
  {
    hide CountedIn, IdsInv, PubsOf, Names, Counts;
  }

  lemma DropSubOnly(r: Reg, c: ClientId, u: nat)
    ensures OnlySubs(r, DropSub(r, c, u))
  {
    hide DropSub, PubsOf, SubsOf, LessSub, DropSubscriber;
    if c in r.clients && u in r.clients[c].subs {
      DropSubViews(r, c, u);
    } else {
      DropSubNone(r, c, u);
    }
  }

  lemma DropSubNone(r: Reg, c: ClientId, u: nat)
    requires !(c in r.clients && u in r.clients[c].subs)
    ensures DropSub(r, c, u) == r
  {
  }

  lemma EnterSubOnly(r: Reg, c: ClientId, u: nat, sub: Subscription)
    requires c in r.clients
    ensures OnlySubs(r, EnterSub(r, c, u, sub).reg)
  {
    hide SubscribeEach, PubsOf, SubsOf, MoreSub, PutSub, Ascending;
    var ids := Ascending(sub.matched, r.nextId);
    var a := SubscribeEach(r, c, sub.topicsOnly, ids).reg;
    SubscribeEachShape(r, c, sub.topicsOnly, ids);
    PutSubViews(a, c, u, sub);
  }

  lemma OnlySubsTrans(r: Reg, r': Reg, r'': Reg)
    requires OnlySubs(r, r') && OnlySubs(r', r'')
    ensures OnlySubs(r, r'')
  {
    hide PubsOf;
  }

  lemma {:induction false} SubscribeCounted(r: Reg, o: Oracle, acc: Accepted, c: ClientId, patterns: seq<string>,
                                            subuid: nat, prefix: bool, topicsOnly: bool)
    requires IdsIn(r) && Counted(r, acc) && c in r.clients
    ensures Counted(HandleSubscribe(r, o, c, patterns, subuid, prefix, topicsOnly).reg, acc)
  {
    hide IdsInv, Counted, Adds, OnlySubs, DropSub, NewSub, EnterSub, MetaSubs, Touched, HandleSubscribe;
    hide SubscribeAccepted;
    hide SubscribeMetas, Names;
    if SubscribeAccepted(r, c, subuid) {
      var r1 := DropSub(r, c, subuid);
      var sub := NewSub(r1, patterns, prefix, topicsOnly);
      var a := EnterSub(r1, c, subuid, sub).reg;
      HandleSubscribeIs(r, o, c, patterns, subuid, prefix, topicsOnly);
      DropSubOnly(r, c, subuid);
      DropSubGone(r, c, subuid);
      EnterSubOnly(r1, c, subuid, sub);
      OnlySubsTrans(r, r1, a);
      OnlySubsCounted(r, a, acc);
      var ids := Touched(r, c, subuid) + sub.matched;
      MetaSubsAdds(a, o, c, ids);
      AddsCounted(a, MetaSubs(a, o, c, ids).reg, SubscribeMetas(a, o, c, ids), acc);
    } else {
      SubscribeRefused(r, o, c, patterns, subuid, prefix, topicsOnly);
    }
  }

  lemma UnsubscribeIs(r: Reg, o: Oracle, c: ClientId, subuid: nat)
    ensures HandleUnsubscribe(r, o, c, subuid) == MetaSubs(DropSub(r, c, subuid), o, c, Touched(r, c, subuid))
  {
    hide DropSub, Touched, UpdateMetaClientSub, UpdateMetaSubFor;
  }

  lemma UnsubscribeCounted(r: Reg, o: Oracle, acc: Accepted, c: ClientId, subuid: nat)
    requires IdsIn(r) && Counted(r, acc)
    ensures Counted(HandleUnsubscribe(r, o, c, subuid).reg, acc)
  {
    hide IdsInv, Counted, Adds, OnlySubs, DropSub, MetaSubs, Touched, HandleUnsubscribe, SubscribeMetas, Names;
    var r1 := DropSub(r, c, subuid);
    UnsubscribeIs(r, o, c, subuid);
    DropSubOnly(r, c, subuid);
    OnlySubsCounted(r, r1, acc);
    var ids := Touched(r, c, subuid);
    MetaSubsAdds(r1, o, c, ids);
    AddsCounted(r1, MetaSubs(r1, o, c, ids).reg, SubscribeMetas(r1, o, c, ids), acc);
  }

  // ------------------------------------------------------- values and one topic

  lemma ValueCounted(r: Reg, acc: Accepted, id: TopicId, value: Value, ts: nat)
    requires Counted(r, acc)
    ensures Counted(TopicValue(r, id, value, ts).reg, acc)
  {
    hide Counted, TopicValue, Names, Counts;
    TopicValueShape(r, id, value, ts);
    SameCounted(r, TopicValue(r, id, value, ts).reg, acc);
  }

  lemma ClientValueCounted(r: Reg, o: Oracle, acc: Accepted, c: ClientId, p: nat, value: Value, sent: nat, now: nat)
    requires Counted(r, acc)
    ensures Counted(HandleClientValue(r, o, c, p, value, sent, now).reg, acc)
  {
    hide Counted, TopicValue, Conformed, ArrivalTimestamp;
    if c in r.clients && p in r.clients[c].pubs {
      var id := r.clients[c].pubs[p];
      var v := if id in r.topics then Conformed(o.floats, value, r.topics[id].dataType) else value;
      ValueCounted(r, acc, id, v, ArrivalTimestamp(sent, now));
    }
  }

  lemma CreateCounted(r: Reg, acc: Accepted, t: Topic)
    requires IdsIn(r) && Counted(r, acc) && t.name !in r.byName && t.publishers == 0
    ensures IdsIn(Create(r, t).0) && Counted(Create(r, t).0, acc)
  {
    hide IdsInv, Counted, Adds, Create;
    CreateAdds(r, t);
    AddsIds(r, Create(r, t).0, {t.name});
    AddsCounted(r, Create(r, t).0, {t.name}, acc);
  }

  lemma UpsertCounted(r: Reg, acc: Accepted, name: string, value: Value, ts: nat)
    requires IdsIn(r) && Counted(r, acc)
    ensures Counted(HandleUpsert(r, name, value, ts).reg, acc)
  {
    hide IdsInv, Counted, TopicValue, Create, UpsertTopic;
    if name in r.byName {
      ValueCounted(r, acc, r.byName[name], value, ts);
    } else if |r.topics| < MAX_TOPICS {
      var t := UpsertTopic(name, value);
      UpsertTopicOk(name, value);
      CreateCounted(r, acc, t);
      var (r1, id) := Create(r, t);
      ValueCounted(r1, acc, id, value, ts);
    }
  }

  lemma RestoredName(e: Saved, ts: nat)
    ensures RestoredTopic(e, ts).name == e.name && RestoredTopic(e, ts).publishers == 0
  {
  }

  lemma {:induction false} RestoreCounted(r: Reg, acc: Accepted, entries: seq<Saved>, ts: nat)
    requires IdsIn(r) && Counted(r, acc)
    ensures IdsIn(RestoreEach(r, entries, ts)) && Counted(RestoreEach(r, entries, ts), acc)
    decreases |entries|
  {
    hide IdsInv, Counted, Create, RestoredTopic, Names;
    if entries != [] {
      var n := |entries| - 1;
      var r1 := RestoreEach(r, entries[..n], ts);
      RestoreCounted(r, acc, entries[..n], ts);
      if entries[n].name !in r1.byName {
        RestoredName(entries[n], ts);
        CreateCounted(r1, acc, RestoredTopic(entries[n], ts));
      }
    }
  }

  lemma SetTopicCounted(r: Reg, acc: Accepted, id: TopicId, t: Topic)
    requires Counted(r, acc) && id in r.topics
    requires t.name == r.topics[id].name && t.publishers == r.topics[id].publishers
    ensures Counted(SetTopic(r, id, t), acc)
  {
    hide CountedIn, Names, Counts, PubsOf;
    TopicViews(r.topics, id, t);
  }

  lemma GenerationCounted(r: Reg, acc: Accepted, g: nat)
    ensures Counted(r.(generation := g), acc) <==> Counted(r, acc)
  {
    hide CountedIn;
  }

  lemma SetPropertiesCounted(r: Reg, acc: Accepted, c: ClientId, name: string, update: Props)
    requires Counted(r, acc)
    ensures Counted(HandleSetProperties(r, c, name, update).reg, acc)
  {
    hide Counted, UpdateProps, PropertyRoutes, PropFlag;
    if name in r.byName && r.byName[name] in r.topics {
      var id := r.byName[name];
      var t := r.topics[id];
      var t1 := SyncProperties(t.(properties := UpdateProps(t.properties, update)));
      SetTopicCounted(r, acc, id, t1);
      GenerationCounted(SetTopic(r, id, t1), acc, HandleSetProperties(r, c, name, update).reg.generation);
    }
  }

  lemma RetainCounted(r: Reg, acc: Accepted, name: string, retained: bool)
    requires Counted(r, acc)
    ensures Counted(SetRetained(r, name, retained), acc)
  {
    hide Counted;
    if name in r.byName && r.byName[name] in r.topics {
      SetTopicCounted(r, acc, r.byName[name], r.topics[r.byName[name]].(retained := retained));
    }
  }

  // -------------------------------------------------------------------- one step

  lemma InvParts(r: Reg, h: History)
    requires Inv(r, h)
    ensures IdsIn(r) && r.nameOf.Keys == r.clients.Keys && r.clients.Keys <= h.seen
  {
    hide IdsInv, Sound, FanInv, ListsInv, TopicsOk;
  }

  lemma ForgetAbsent(acc: Accepted, k: (ClientId, nat))
    requires k !in acc
    ensures acc - {k} == acc
  {
  }

  /** An exactly counted registry is exactly counted after a step if and only if the step
      does not delete a topic under a remaining publisher. */
  lemma {:induction false} StepCountedIff(r: Reg, o: Oracle, h: History, s: Step)
    requires Inv(r, h) && Enabled(r, h, s) && ValidOracle(o) && Counted(r, h.accepted)
    ensures Counted(Apply(r, o, s).reg, Noted(r, h, s).accepted) <==> !Strands(r, s)
  {
    hide Mid, IdsInv, Counted, ValidOracle, Forgotten, PublishAccepted, WellTyped, Names;
    hide UnpublishStrands, PublishStrands, DisconnectStrands;
    hide OnConnect, OnDisconnect, HandlePublish, HandleUnpublish, HandleSubscribe, HandleUnsubscribe;
    hide HandleSetProperties;
    hide HandleClientValue, TopicValue, HandleUpsert, RestoreEach, SetRetained;
    InvParts(r, h);
    var acc := h.accepted;
    match s
    case Connect(c, base) => ConnectCounted(r, o, acc, c, base);
    case Disconnect(c) => DisconnectCountedIff(r, o, acc, c);
    case Publish(c, name, pubuid, typeStr, props) =>
      if PublishAccepted(r, c, name, pubuid) {
        PublishCountedIff(r, o, acc, c, name, pubuid, typeStr, props);
      } else {
        PublishRefused(r, o, c, name, pubuid, typeStr, props);
      }
    case Unpublish(c, pubuid) =>
      if pubuid in r.clients[c].pubs {
        UnpublishCountedIff(r, o, acc, c, pubuid);
      } else {
        UnpublishNothing(r, o, acc, c, pubuid);
      }
    case Subscribe(c, patterns, subuid, prefix, topicsOnly) =>
      SubscribeCounted(r, o, acc, c, patterns, subuid, prefix, topicsOnly);
    case Unsubscribe(c, subuid) => UnsubscribeCounted(r, o, acc, c, subuid);
    case SetProperties(c, name, update) => SetPropertiesCounted(r, acc, c, name, update);
    case ClientValue(c, pubuid, value, sent, now) => ClientValueCounted(r, o, acc, c, pubuid, value, sent, now);
    case ServerValue(name, value, ts) => if name in r.byName { ValueCounted(r, acc, r.byName[name], value, ts); }
    case Upsert(name, value, ts) => UpsertCounted(r, acc, name, value, ts);
    case Restore(entries, ts) =>
      RestoreCounted(r, acc, entries, ts);
      GenerationCounted(RestoreEach(r, entries, ts), acc, RestorePersistent(r, entries, ts).generation);
    case Retain(name, retained) => RetainCounted(r, acc, name, retained);
    case Timestamp(_, _, _) =>
  }

  lemma UnpublishNothing(r: Reg, o: Oracle, acc: Accepted, c: ClientId, pubuid: nat)
    requires Counted(r, acc) && c in r.clients && pubuid !in r.clients[c].pubs
    ensures HandleUnpublish(r, o, c, pubuid).reg == r && acc - {(c, pubuid)} == acc
  {
    hide Counted;
    AcceptedLive(r, acc);
    assert (c, pubuid).0 == c && (c, pubuid).1 == pubuid;
    ForgetAbsent(acc, (c, pubuid));
  }

  lemma AcceptedLive(r: Reg, acc: Accepted)
    requires Counted(r, acc)
    ensures forall k | k in acc :: k.0 in r.clients && k.1 in r.clients[k.0].pubs
  {
    forall k | k in acc ensures k.0 in r.clients && k.1 in r.clients[k.0].pubs {
      assert k.1 in PubsOf(r.clients)[k.0];
    }
  }

  lemma EmptyCounted()
    ensures Counted(Start.reg, Start.hist.accepted)
  {
  }
}
