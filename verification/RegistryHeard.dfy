/** The values a topic retains against the values a run delivered to it, for the topics
    clients name themselves: those without a `$` in front.
    Concerns core/src/websocket/protocol.rs. */
module RegistryHeard {
  import opened Values
  import ClientNames
  import opened Registry
  import opened RegistryInv
  import opened RegistryOps
  import opened RegistryPubs
  import opened RegistryPublish
  import opened RegistrySubs
  import opened RegistryConn
  import opened RegistryFrames
  import opened RegistryTrim
  import opened RegistryCounts
  import opened RegistryRuns
  import opened RegistryStrands
  import opened RegistryLeaving
  import opened RegistryTallies
  import opened RegistryTheorems

  // ------------------------------------------------------------ what a step says

  /** A value a topic takes in: it is cached and the value has its type. */
  function Kept(t: Topic, v: Value, ts: nat): seq<Stamped> {
    if t.cached && XtDataType(v) == t.dataType then [Stamped(ts, v)] else []
  }

  /** The values a step delivers to the live topic `i`. */
  ghost function Offered(r: Reg, o: Oracle, s: Step, i: TopicId): seq<Stamped>
    requires i in r.topics
  {
    var t := r.topics[i];
    match s
    case ClientValue(c, p, value, sent, now) =>
      if c in r.clients && p in r.clients[c].pubs && r.clients[c].pubs[p] == i
      then Kept(t, Conformed(o.floats, value, t.dataType), ArrivalTimestamp(sent, now)) else []
    case ServerValue(name, value, ts) => if t.name == name then Kept(t, value, ts) else []
    case Upsert(name, value, ts) => if t.name == name then Kept(t, value, ts) else []
    case _ => []
  }

  /** The first row of that name. */
  ghost function RowNamed(entries: seq<Saved>, name: string): Option<Saved> {
    if entries == [] then None
    else
      var n := |entries| - 1;
      var row := RowNamed(entries[..n], name);
      if row.Some? then row else if entries[n].name == name then Some(entries[n]) else None
  }

  /** The values a step delivers to a topic it creates. */
  ghost function FirstHeard(s: Step, name: string): seq<Stamped> {
    match s
    case Upsert(_, value, ts) => [Stamped(ts, value)]
    case Restore(entries, ts) =>
      var row := RowNamed(entries, name);
      if row.Some? then [Stamped(ts, row.value.value)] else []
    case _ => []
  }

  /** The values a run delivered to the topic now at `i`, oldest first. */
  ghost function Heard(o: Oracle, steps: seq<Step>, i: TopicId): seq<Stamped>
    requires i in Run(o, steps).reg.topics
  {
    if steps == [] then []
    else
      var n := |steps| - 1;
      var before, name := Run(o, steps[..n]).reg, Run(o, steps).reg.topics[i].name;
      if i in before.topics && before.topics[i].name == name
      then Heard(o, steps[..n], i) + Offered(before, o, steps[n], i)
      else FirstHeard(steps[n], name)
  }

  // ------------------------------------------------------------------ silent steps

  /** Every topic without a `$` in front is an old one with the values it had. */
  ghost predicate Hush(r: Reg, r': Reg) {
    forall i | i in r'.topics && !IsMeta(r'.topics[i].name) :: Unheard(r, r', i)
  }

  ghost predicate Unheard(r: Reg, r': Reg, i: TopicId)
    requires i in r'.topics
  {
    i in r.topics && r.topics[i].name == r'.topics[i].name && r.topics[i].history == r'.topics[i].history
  }

  lemma HushTrans(r: Reg, r': Reg, r'': Reg)
    requires Hush(r, r') && Hush(r', r'')
    ensures Hush(r, r'')
  {
    hide IsMeta;
  }

  lemma HushSame(r: Reg, r': Reg)
    requires forall i | i in r'.topics :: Unheard(r, r', i)
    ensures Hush(r, r')
  {
    hide IsMeta, Unheard;
  }

  lemma AddsHush(r: Reg, r': Reg, names: set<string>)
    requires IdsIn(r) && Adds(r, r', names) && forall n | n in names :: IsMeta(n)
    ensures Hush(r, r')
  {
    hide IdsInv, Adds, AsksOf, PubsOf, IsMeta, Names, Dense;
    AddsSame(r, r', names);
    forall i | i in r'.topics && !IsMeta(r'.topics[i].name) ensures Unheard(r, r', i) {
      var n := r'.topics[i].name;
      ByNameIs(r', i);
      assert n in r.byName.Keys;
      NamedTopic(r, n);
      var j := r.byName[n];
      assert r'.topics[j] == r.topics[j];
      OneName(r', i, j);
    }
  }

  lemma TrimsHush(r: Reg, r': Reg, roots: set<string>)
    requires Trims(r, r', roots)
    ensures Hush(r, r')
  {
    hide IdsInv, Hit, PubsOf, IsMeta;
  }

  lemma {:induction false} ReleaseHush(r: Reg, o: Oracle, id: TopicId)
    requires IdsIn(r)
    ensures Hush(r, ReleasePublisher(r, o, id).reg) && IdsIn(ReleasePublisher(r, o, id).reg)
  {
    hide IdsInv, Adds, Trims, IsRetained, Delete, UpdateMetaPub, DropPublisher, Names, Hush, PubMeta;
    if id in r.topics {
      var r0 := DropPublisher(r, id);
      DropPublisherIds(r, id);
      DropPublisherIs(r, id);
      HushSame(r, r0);
      var a := if Orphaned(r0, id) then DeleteTopic(r0, id) else Out(r0, []);
      var name := r.topics[id].name;
      if Orphaned(r0, id) {
        DeleteTrims(r0, id);
        TrimsHush(r0, a.reg, {name});
        TrimsIds(r0, a.reg, {name});
        HushTrans(r, r0, a.reg);
      }
      UpdateMetaTopicAdds(a.reg, o, name);
      MetaNames(name);
      var b := UpdateMetaPub(a.reg, o, name).reg;
      AddsSame(a.reg, b, {PubMeta(name)});
      AddsHush(a.reg, b, {PubMeta(name)});
      HushTrans(r, a.reg, b);
    } else {
      HushSame(r, r);
    }
  }

  lemma ClientMetaHush(r: Reg, o: Oracle, c: ClientId)
    requires IdsIn(r)
    ensures Hush(r, UpdateMetaClientPub(r, o, c).reg) && IdsIn(UpdateMetaClientPub(r, o, c).reg)
  {
    hide IdsInv, Adds, UpdateMetaClientPub, ClientPubMeta, Hush, Names;
    UpdateMetaClientAdds(r, o, c);
    var names := if c in r.nameOf then {ClientPubMeta(r.nameOf[c])} else {};
    if c in r.nameOf { MetaNames(r.nameOf[c]); }
    AddsSame(r, UpdateMetaClientPub(r, o, c).reg, names);
    AddsHush(r, UpdateMetaClientPub(r, o, c).reg, names);
  }

  lemma UnpublishHush(r: Reg, o: Oracle, c: ClientId, pubuid: nat)
    requires IdsIn(r)
    ensures Hush(r, HandleUnpublish(r, o, c, pubuid).reg)
  {
    hide IdsInv, ReleasePublisher, UpdateMetaClientPub, Hush, Names, ForgetTopic;
    if c in r.clients && pubuid in r.clients[c].pubs && r.clients[c].pubs[pubuid] in r.topics {
      var id := r.clients[c].pubs[pubuid];
      var r1 := SetClient(r, c, r.clients[c].(pubs := r.clients[c].pubs - {pubuid}));
      HushSame(r, r1);
      var a := ReleasePublisher(r1, o, id).reg;
      ReleaseHush(r1, o, id);
      HushTrans(r, r1, a);
      ClientMetaHush(a, o, c);
      HushTrans(r, a, UpdateMetaClientPub(a, o, c).reg);
    } else {
      HushSame(r, HandleUnpublish(r, o, c, pubuid).reg);
    }
  }

  lemma FinishHush(r: Reg, o: Oracle, c: ClientId, name: string, id: TopicId, isNew: bool, prev: Option<TopicId>)
    requires IdsIn(r)
    ensures Hush(r, FinishPublish(r, o, c, name, id, isNew, prev).reg)
  {
    hide IdsInv, Adds, AnnounceToMatching, ReleasePublisher, UpdateMetaClientPub, UpdateMetaPub, Hush, Names, PubMeta;
    var a := if isNew then AnnounceToMatching(r, o, id, name).reg else r;
    if isNew {
      AnnounceAdds(r, o, id, name);
      AddsSame(r, a, {});
    }
    HushSame(r, a);
    var b := if prev.Some? && prev.value != id then ReleasePublisher(a, o, prev.value).reg else a;
    if prev.Some? && prev.value != id { ReleaseHush(a, o, prev.value); } else { HushSame(a, b); }
    HushTrans(r, a, b);
    var d := UpdateMetaClientPub(b, o, c).reg;
    ClientMetaHush(b, o, c);
    HushTrans(r, b, d);
    UpdateMetaTopicAdds(d, o, name);
    MetaNames(name);
    AddsHush(d, UpdateMetaPub(d, o, name).reg, {PubMeta(name)});
    HushTrans(r, d, UpdateMetaPub(d, o, name).reg);
  }

  lemma ConnectHush(r: Reg, o: Oracle, c: ClientId, base: string)
    requires IdsIn(r) && c !in r.clients
    ensures Hush(r, OnConnect(r, o, c, base).reg)
  {
    hide IdsInv, Adds, OnConnect, Admit, ClientNames.Dedup, Hush, Names, PubsOf, AsksOf;
    var name := ClientNames.Dedup(r.clientNames, base);
    var r1 := Admit(r, c, base);
    AdmitIs(r, c, base);
    HushSame(r, r1);
    ConnectAdds(r, o, c, base);
    MetaNames(name);
    AddsHush(r1, OnConnect(r, o, c, base).reg, ConnectMetas(name));
    HushTrans(r, r1, OnConnect(r, o, c, base).reg);
  }

  lemma MetasAreMeta(names: seq<string>)
    ensures forall n | n in SubMetas(names) :: IsMeta(n)
    ensures forall n | n in PubMetas(names) :: IsMeta(n)
  {
  }

  lemma MetaSubsHush(r: Reg, r1: Reg, o: Oracle, c: ClientId, ids: set<TopicId>)
    requires IdsIn(r1) && r1.topics == r.topics
    ensures Hush(r, MetaSubs(r1, o, c, ids).reg)
  {
    hide IdsInv, Adds, MetaSubs, Hush, Names, UpdateMetaClientSub, SubMetas, LiveNames, IsMeta, ClientSubMeta;
    HushSame(r, r1);
    MetaSubsAdds(r1, o, c, ids);
    var d := UpdateMetaClientSub(r1, o, c).reg;
    MetasAreMeta(LiveNames(d, o.order(d.ticks, ids), true));
    if c in r1.nameOf { MetaNames(r1.nameOf[c]); }
    AddsHush(r1, MetaSubs(r1, o, c, ids).reg, SubscribeMetas(r1, o, c, ids));
    HushTrans(r, r1, MetaSubs(r1, o, c, ids).reg);
  }

  lemma {:induction false} SubscribeHush(r: Reg, o: Oracle, c: ClientId, patterns: seq<string>, subuid: nat,
                                         prefix: bool, topicsOnly: bool)
    requires IdsIn(r) && c in r.clients
    ensures Hush(r, HandleSubscribe(r, o, c, patterns, subuid, prefix, topicsOnly).reg)
  {
    hide IdsInv, Hush, DropSub, NewSub, EnterSub, MetaSubs, Touched, HandleSubscribe, SubscribeAccepted, Names, PubsOf;
    if SubscribeAccepted(r, c, subuid) {
      var r1 := DropSub(r, c, subuid);
      var sub := NewSub(r1, patterns, prefix, topicsOnly);
      var a := EnterSub(r1, c, subuid, sub).reg;
      HandleSubscribeIs(r, o, c, patterns, subuid, prefix, topicsOnly);
      DropSubOnly(r, c, subuid);
      DropSubGone(r, c, subuid);
      EnterSubOnly(r1, c, subuid, sub);
      OnlySubsTrans(r, r1, a);
      OnlySubsCounted(r, a, map[]);
      MetaSubsHush(r, a, o, c, Touched(r, c, subuid) + sub.matched);
    } else {
      SubscribeRefused(r, o, c, patterns, subuid, prefix, topicsOnly);
      HushSame(r, r);
    }
  }

  lemma UnsubscribeHush(r: Reg, o: Oracle, c: ClientId, subuid: nat)
    requires IdsIn(r)
    ensures Hush(r, HandleUnsubscribe(r, o, c, subuid).reg)
  {
    hide IdsInv, Hush, DropSub, MetaSubs, Touched, HandleUnsubscribe, Names, PubsOf;
    UnsubscribeIs(r, o, c, subuid);
    DropSubOnly(r, c, subuid);
    OnlySubsCounted(r, DropSub(r, c, subuid), map[]);
    MetaSubsHush(r, DropSub(r, c, subuid), o, c, Touched(r, c, subuid));
  }

  lemma {:induction false} DisconnectHush(r: Reg, o: Oracle, c: ClientId)
    requires IdsIn(r) && ValidOracle(o) && c in r.clients && c in r.nameOf
    ensures Hush(r, OnDisconnect(r, o, c).reg)
  {
    hide IdsInv, ValidOracle, Trims, Adds, Uncounted, Departed, Names, Hush, UidsOn, LastNames, ClientMetas;
    hide OnDisconnect, UpdateMetaSubFor, UpdateMetaPubs, PublishMeta, LiveNames, Published, SubMetas, PubMetas;
    var cl := r.clients[c];
    var r0, a := Uncounted(r, o, c), Departed(r, o, c).reg;
    UncountedIs(r, o, c);
    HushSame(r, r0);
    OnDisconnectIs(r, o, c);
    DepartedTrims(r, o, c);
    var roots := ClientMetas(r, c) + LastNames(r, cl);
    TrimsHush(r0, a, roots);
    TrimsIds(r0, a, roots);
    HushTrans(r, r0, a);
    var b := PublishMeta(a, o, "$clients").reg;
    PublishMetaAdds(a, o, "$clients");
    AddsHush(a, b, {"$clients"});
    AddsSame(a, b, {"$clients"});
    HushTrans(r, a, b);
    var ids := AllMatched(cl);
    var d := UpdateMetaSubFor(b, o, ids).reg;
    var subNames := LiveNames(b, o.order(b.ticks, ids), true);
    UpdateMetaSubForAdds(b, o, ids);
    MetasAreMeta(subNames);
    AddsHush(b, d, SubMetas(subNames));
    AddsSame(b, d, SubMetas(subNames));
    HushTrans(r, b, d);
    var pubNames := LiveNames(r, Published(cl.pubs, o.order(r.ticks, cl.pubs.Keys)), false);
    UpdateMetaPubsAdds(d, o, pubNames);
    MetasAreMeta(pubNames);
    AddsHush(d, UpdateMetaPubs(d, o, pubNames).reg, PubMetas(pubNames));
    HushTrans(r, d, UpdateMetaPubs(d, o, pubNames).reg);
  }

  // --------------------------------------------------------------- speaking steps

  /** What topic `i` retains after a step, against what the step delivered to it. */
  ghost predicate Grows(r: Reg, r': Reg, i: TopicId, more: seq<Stamped>, first: seq<Stamped>)
    requires i in r'.topics
  {
    var t' := r'.topics[i];
    if i in r.topics && r.topics[i].name == t'.name then t'.history == r.topics[i].history + more
    else t'.history == first
  }

  lemma HushGrows(r: Reg, r': Reg, i: TopicId, first: seq<Stamped>)
    requires Hush(r, r') && i in r'.topics && !IsMeta(r'.topics[i].name)
    ensures Grows(r, r', i, [], first)
  {
    hide IsMeta;
    assert Unheard(r, r', i);
    assert r.topics[i].history + [] == r.topics[i].history;
  }

  lemma {:induction false} PublishGrows(r: Reg, o: Oracle, c: ClientId, name: string, pubuid: nat, typeStr: string,
                                        props: Props, i: TopicId)
    requires IdsIn(r) && c in r.clients && PublishAccepted(r, c, name, pubuid)
    requires var r' := HandlePublish(r, o, c, name, pubuid, typeStr, props).reg;
             i in r'.topics && !IsMeta(r'.topics[i].name)
    ensures Grows(r, HandlePublish(r, o, c, name, pubuid, typeStr, props).reg, i, [], [])
  {
    hide IdsInv, Adds, PublishTopic, PointPub, PubsOf, WithPub, AsksOf, PublishAccepted, HandlePublish, EnterPublish;
    hide FinishPublish, Names, IsMeta, AddTo;
    var (r1, id) := PublishTopic(r, name, typeStr, props);
    PublishTopicAdds(r, name, typeStr, props);
    AddsSame(r, r1, {name});
    EnterPublishIs(r, c, name, pubuid, typeStr, props);
    HandlePublishIs(r, o, c, name, pubuid, typeStr, props);
    var r2 := AddAnnounced(PointPub(r1, c, pubuid, id), c, id);
    EnteredIds(r1, c, pubuid, id);
    PointPubViews(r1, c, pubuid, id);
    var r' := HandlePublish(r, o, c, name, pubuid, typeStr, props).reg;
    FinishHush(r2, o, c, name, id, name !in r.byName, Lookup(r.clients[c].pubs, pubuid));
    assert Unheard(r2, r', i);
    if i !in r.topics { NewTopicQuiet(r, name, typeStr, props); }
    if i in r.topics { assert r.topics[i].history + [] == r.topics[i].history; }
  }

  lemma NewTopicQuiet(r: Reg, name: string, typeStr: string, props: Props)
    requires IdsIn(r)
    ensures var (r1, id) := PublishTopic(r, name, typeStr, props);
            id in r1.topics && (id !in r.topics ==> r1.topics[id].history == [])
  {
    hide IdsInv, NoDup, Names;
    if name in r.byName {
      NamedTopic(r, name);
    } else {
      PublishedTopicName(name, typeStr, props);
      CreateShape(r, PublishedTopic(name, typeStr, props));
    }
  }

  lemma TopicValueGrows(r: Reg, id: TopicId, v: Value, ts: nat, i: TopicId)
    requires i in r.topics
    ensures var r' := TopicValue(r, id, v, ts).reg;
            && i in r'.topics && r'.topics[i].name == r.topics[i].name
            && r'.topics[i].history == r.topics[i].history + (if i == id then Kept(r.topics[i], v, ts) else [])
  {
    hide XtDataType, Replaces;
  }

  lemma TopicValueLive(r: Reg, id: TopicId, v: Value, ts: nat)
    ensures TopicValue(r, id, v, ts).reg.topics.Keys == r.topics.Keys
  {
    hide XtDataType, Store;
  }

  lemma UpsertGrows(r: Reg, name: string, value: Value, ts: nat, i: TopicId)
    requires IdsIn(r) && i in HandleUpsert(r, name, value, ts).reg.topics
    ensures Grows(r, HandleUpsert(r, name, value, ts).reg, i,
                  if i in r.topics && r.topics[i].name == name then Kept(r.topics[i], value, ts) else [],
                  [Stamped(ts, value)])
  {
    hide IdsInv, TopicValue, UpsertTopic, Create, NoDup, Names, Kept;
    if name in r.byName {
      NamedTopic(r, name);
      TopicValueLive(r, r.byName[name], value, ts);
      TopicValueGrows(r, r.byName[name], value, ts, i);
      if r.topics[i].name == name { OneName(r, i, r.byName[name]); }
    } else if |r.topics| < MAX_TOPICS {
      var t := UpsertTopic(name, value);
      UpsertTopicOk(name, value);
      CreateShape(r, t);
      var (r1, id) := Create(r, t);
      TopicValueLive(r1, id, value, ts);
      TopicValueGrows(r1, id, value, ts, i);
      if i == id { UpsertKept(name, value, ts); } else { ByNameIs(r, i); }
    } else {
      ByNameIs(r, i);
      assert r.topics[i].history + [] == r.topics[i].history;
    }
  }

  lemma UpsertKept(name: string, value: Value, ts: nat)
    ensures var t := UpsertTopic(name, value); t.history == [] && Kept(t, value, ts) == [Stamped(ts, value)]
  {
    hide XtDataType;
  }

  lemma {:induction false} RestoreGrows(r: Reg, entries: seq<Saved>, ts: nat, i: TopicId)
    requires IdsIn(r) && i in RestoreEach(r, entries, ts).topics
    ensures var t' := RestoreEach(r, entries, ts).topics[i];
            if i in r.topics then t' == r.topics[i]
            else RowNamed(entries, t'.name).Some? && t'.history == [Stamped(ts, RowNamed(entries, t'.name).value.value)]
    decreases |entries|
  {
    hide IdsInv, Create, RestoredTopic, NoDup, Names, RowNamed;
    if entries != [] {
      var n := |entries| - 1;
      var e := entries[n];
      var r1 := RestoreEach(r, entries[..n], ts);
      RestoreNames(r, entries[..n], ts);
      RestoredHeard(e, ts);
      if e.name !in r1.byName { CreateStep(r1, RestoredTopic(e, ts)); }
      if i in r1.topics {
        RestoreGrows(r, entries[..n], ts, i);
        RowLast(entries, r1.topics[i].name);
      } else {
        RowLast(entries, e.name);
      }
    }
  }

  lemma RowLast(entries: seq<Saved>, name: string)
    requires entries != []
    ensures var n := |entries| - 1;
            var row := RowNamed(entries[..n], name);
            RowNamed(entries, name) ==
            if row.Some? then row else if entries[n].name == name then Some(entries[n]) else None
  {
  }

  lemma RestoredHeard(e: Saved, ts: nat)
    ensures var t := RestoredTopic(e, ts); t.name == e.name && t.publishers == 0 && t.history == [Stamped(ts, e.value)]
  {
  }

  lemma CreateStep(r: Reg, t: Topic)
    requires IdsIn(r) && t.name !in r.byName
    ensures var (r1, id) := Create(r, t);
            && IdsIn(r1) && id !in r.topics
            && r1.topics == r.topics[id := t] && r1.byName.Keys == r.byName.Keys + {t.name}
  {
    hide IdsInv, NoDup, Create;
    CreateShape(r, t);
    CreateIds(r, t);
  }

  lemma {:induction false} RestoreNames(r: Reg, entries: seq<Saved>, ts: nat)
    requires IdsIn(r)
    ensures var r' := RestoreEach(r, entries, ts);
            && IdsIn(r')
            && (forall n :: n in r'.byName <==> n in r.byName || RowNamed(entries, n).Some?)
            && (forall j | j in r.topics :: j in r'.topics)
    decreases |entries|
  {
    hide IdsInv, Create, RestoredTopic, NoDup, Names;
    if entries != [] {
      var n := |entries| - 1;
      var r1 := RestoreEach(r, entries[..n], ts);
      RestoreNames(r, entries[..n], ts);
      RestoredHeard(entries[n], ts);
      if entries[n].name !in r1.byName { CreateStep(r1, RestoredTopic(entries[n], ts)); }
      assert forall m :: RowNamed(entries, m).Some? <==> RowNamed(entries[..n], m).Some? || m == entries[n].name;
    }
  }

  // ------------------------------------------------------------------ every step

  lemma ClientValueGrows(r: Reg, o: Oracle, c: ClientId, p: nat, value: Value, sent: nat, now: nat, i: TopicId)
    requires i in HandleClientValue(r, o, c, p, value, sent, now).reg.topics
    ensures i in r.topics
    ensures Grows(r, HandleClientValue(r, o, c, p, value, sent, now).reg, i,
                  Offered(r, o, ClientValue(c, p, value, sent, now), i), [])
  {
    hide TopicValue, Conformed, ArrivalTimestamp, Kept;
    if c in r.clients && p in r.clients[c].pubs {
      var id := r.clients[c].pubs[p];
      var v := if id in r.topics then Conformed(o.floats, value, r.topics[id].dataType) else value;
      TopicValueLive(r, id, v, ArrivalTimestamp(sent, now));
      TopicValueGrows(r, id, v, ArrivalTimestamp(sent, now), i);
    } else {
      assert r.topics[i].history + [] == r.topics[i].history;
    }
  }

  lemma ServerValueGrows(r: Reg, name: string, value: Value, ts: nat, i: TopicId)
    requires IdsIn(r) && i in FanOut(r, name, value, ts).reg.topics
    ensures i in r.topics
    ensures Grows(r, FanOut(r, name, value, ts).reg, i,
                  if r.topics[i].name == name then Kept(r.topics[i], value, ts) else [], [])
  {
    hide IdsInv, TopicValue, Kept, Names;
    if name in r.byName {
      NamedTopic(r, name);
      TopicValueLive(r, r.byName[name], value, ts);
      TopicValueGrows(r, r.byName[name], value, ts, i);
      if r.topics[i].name == name { OneName(r, i, r.byName[name]); }
    } else {
      ByNameIs(r, i);
      assert r.topics[i].history + [] == r.topics[i].history;
    }
  }

  lemma PropertiesHush(r: Reg, c: ClientId, name: string, update: Props)
    ensures Hush(r, HandleSetProperties(r, c, name, update).reg)
  {
    hide UpdateProps, PropertyRoutes, IsMeta, PropFlag;
    HushSame(r, HandleSetProperties(r, c, name, update).reg);
  }

  lemma RetainHush(r: Reg, name: string, retained: bool)
    ensures Hush(r, SetRetained(r, name, retained))
  {
    hide IsMeta;
    HushSame(r, SetRetained(r, name, retained));
  }

  /** One step adds to what a topic retains exactly what it delivers to that topic. */
  lemma {:induction false} StepHeard(r: Reg, o: Oracle, h: History, s: Step, i: TopicId)
    requires Inv(r, h) && Enabled(r, h, s) && ValidOracle(o)
    requires i in Apply(r, o, s).reg.topics && !IsMeta(Apply(r, o, s).reg.topics[i].name)
    ensures var r' := Apply(r, o, s).reg;
            Grows(r, r', i, if i in r.topics then Offered(r, o, s, i) else [], FirstHeard(s, r'.topics[i].name))
  {
    hide Mid, IdsInv, ValidOracle, PublishAccepted, WellTyped, Names, IsMeta, Hush, Kept, Conformed, ArrivalTimestamp;
    hide OnConnect, OnDisconnect, HandlePublish, HandleUnpublish, HandleSubscribe, HandleUnsubscribe;
    hide HandleSetProperties;
    hide HandleClientValue, TopicValue, HandleUpsert, RestoreEach, SetRetained, FanOut, RowNamed;
    InvParts(r, h);
    var r' := Apply(r, o, s).reg;
    match s
    case Connect(c, base) =>
      ConnectHush(r, o, c, base);
      HushGrows(r, r', i, []);
    case Disconnect(c) =>
      DisconnectHush(r, o, c);
      HushGrows(r, r', i, []);
    case Publish(c, name, pubuid, typeStr, props) =>
      if PublishAccepted(r, c, name, pubuid) {
        PublishGrows(r, o, c, name, pubuid, typeStr, props, i);
      } else {
        PublishRefused(r, o, c, name, pubuid, typeStr, props);
        HushSame(r, r);
        HushGrows(r, r', i, []);
      }
    case Unpublish(c, pubuid) =>
      UnpublishHush(r, o, c, pubuid);
      HushGrows(r, r', i, []);
    case Subscribe(c, patterns, subuid, prefix, topicsOnly) =>
      SubscribeHush(r, o, c, patterns, subuid, prefix, topicsOnly);
      HushGrows(r, r', i, []);
    case Unsubscribe(c, subuid) =>
      UnsubscribeHush(r, o, c, subuid);
      HushGrows(r, r', i, []);
    case SetProperties(c, name, update) =>
      PropertiesHush(r, c, name, update);
      HushGrows(r, r', i, []);
    case ClientValue(c, pubuid, value, sent, now) => ClientValueGrows(r, o, c, pubuid, value, sent, now, i);
    case ServerValue(name, value, ts) => ServerValueGrows(r, name, value, ts, i);
    case Upsert(name, value, ts) => UpsertGrows(r, name, value, ts, i);
    case Restore(entries, ts) => RestoreStepGrows(r, entries, ts, i);
    case Retain(name, retained) =>
      RetainHush(r, name, retained);
      HushGrows(r, r', i, []);
    case Timestamp(_, _, _) =>
      HushSame(r, r);
      HushGrows(r, r', i, []);
  }

  lemma RestoreStepGrows(r: Reg, entries: seq<Saved>, ts: nat, i: TopicId)
    requires IdsIn(r) && i in RestorePersistent(r, entries, ts).topics
    ensures var r' := RestorePersistent(r, entries, ts);
            Grows(r, r', i, [], FirstHeard(Restore(entries, ts), r'.topics[i].name))
  {
    hide IdsInv, RestoreEach, RowNamed, Names;
    RestoreGrows(r, entries, ts, i);
    if i in r.topics { assert r.topics[i].history + [] == r.topics[i].history; }
  }

  // ----------------------------------------------------------------- every run

  /** After every legal run, what a topic without a `$` in front retains is what the run
      delivered to it since it was created: every value of its type sent to it while it was
      cached, stamped, in the order of arrival, and nothing else. */
  lemma {:induction false} RetainsWhatItHeard(o: Oracle, steps: seq<Step>, i: TopicId)
    requires Legal(o, steps) && i in Run(o, steps).reg.topics && !IsMeta(Run(o, steps).reg.topics[i].name)
    ensures Run(o, steps).reg.topics[i].history == Heard(o, steps, i)
  {
    hide Mid, Apply, EnabledIn, Noted, ValidOracle, IsMeta, Offered, FirstHeard;
    if steps != [] {
      var n := |steps| - 1;
      LegalPrefix(o, steps, n);
      RunInv(o, steps[..n]);
      var w := Run(o, steps[..n]);
      assert EnabledIn(w, steps[n]);
      EnabledOpen(w, steps[n]);
      StepHeard(w.reg, o, w.hist, steps[n], i);
      if i in w.reg.topics && w.reg.topics[i].name == Run(o, steps).reg.topics[i].name {
        RetainsWhatItHeard(o, steps[..n], i);
      }
    }
  }
}
