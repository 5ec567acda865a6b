/** The invariant through connect, disconnect and the handlers that only touch one
    topic.  Concerns core/src/websocket/protocol.rs. */
module RegistryConn {
  import opened Values
  import ClientNames
  import opened Registry
  import opened RegistryInv
  import opened RegistryOps
  import opened RegistryPubs

  // ------------------------------------------------------------------- connect

  /** The registry right after a client got its name, before the meta updates. */
  function Admit(r: Reg, c: ClientId, base: string): Reg {
    var name := ClientNames.Dedup(r.clientNames, base);
    EnsureClient(r.(clientNames := r.clientNames + {name}, nameOf := r.nameOf[c := name]), c)
  }

  lemma AdmitNames(clientNames: set<string>, nameOf: map<ClientId, string>, connected: set<ClientId>,
                   seen: set<ClientId>, c: ClientId, base: string)
    requires ClientNamesInv(clientNames, nameOf, connected, seen) && c !in seen
    ensures var name := ClientNames.Dedup(clientNames, base);
            ClientNamesInv(clientNames + {name}, nameOf[c := name], connected + {c}, seen + {c})
  {
    hide ClientNames.Dedup;
    var name := ClientNames.Dedup(clientNames, base);
    ClientNames.DedupMeets(clientNames, base);
    var nameOf' := nameOf[c := name];
    forall n | n in clientNames + {name} ensures exists d :: d in nameOf' && nameOf'[d] == n {
      if n in clientNames {
        var d :| d in nameOf && nameOf[d] == n;
        assert d in nameOf' && nameOf'[d] == n;
      } else {
        assert c in nameOf' && nameOf'[c] == n;
      }
    }
  }

  lemma AdmitSubs(N: NameMap, S: SubMap, c: ClientId)
    requires c !in S
    ensures Sound(N, S) ==> Sound(N, S[c := map[]])
    ensures Complete(N, S) ==> Complete(N, S[c := map[]])
  {
    hide Covers;
  }

  /** A client that was never connected is in no list. */
  lemma AdmitLists(N: NameMap, S: SubMap, sub: Lists, ann: Lists, seen: set<ClientId>, table: Table, c: ClientId)
    requires c !in seen && c !in S
    requires FanInv(S, sub, 0, {}) && ListsInv(N, sub, ann, seen, table)
    ensures FanInv(S[c := map[]], sub, 0, {})
    ensures ListsInv(N, sub, ann, seen + {c}, table)
    ensures Full(S, sub) ==> Full(S[c := map[]], sub)
  {
    hide NoDup, Wanted;
    assert forall i | i in sub :: c !in sub[i];
  }

  lemma AdmitMid(r: Reg, h: History, c: ClientId, base: string)
    requires Inv(r, h) && c !in h.seen
    ensures Inv(Admit(r, c, base), h.(seen := h.seen + {c}))
    ensures Keeps(r, Admit(r, c, base))
    ensures c in Admit(r, c, base).clients && c !in r.clients
  {
    hide IdsInv, Sound, FanInv, ListsInv, TopicsOk, Names, Counts, Full, Complete, PersistentSnapshot;
    hide ClientNames.Dedup;
    assert c !in r.clients;
    ClientViews(r.clients, c, Client(map[], map[]));
    AdmitNames(r.clientNames, r.nameOf, r.clients.Keys, h.seen, c, base);
    AdmitSubs(Names(r.topics), SubsOf(r.clients), c);
    AdmitLists(Names(r.topics), SubsOf(r.clients), r.subscribers, r.announced, h.seen, h.table, c);
    assert r.clients[c := Client(map[], map[])].Keys == r.clients.Keys + {c};
  }

  lemma {:induction false} OnConnectMid(r: Reg, o: Oracle, h: History, c: ClientId, base: string)
    requires Inv(r, h) && c !in h.seen
    ensures Safe(h.(seen := h.seen + {c}), OnConnect(r, o, c, base), 0, {})
    ensures ValidOracle(o) ==> Keeps(r, OnConnect(r, o, c, base).reg)
  {
    hide Mid, Resolves, PublishMeta, UpdateMetaClientPub, UpdateMetaClientSub, ValidOracle, Full, Complete, Names;
    hide SubsOf, PersistentSnapshot, ClientNames.Dedup;
    var h0 := h.(seen := h.seen + {c});
    var r1 := Admit(r, c, base);
    AdmitMid(r, h, c, base);
    var a := UpdateMetaClients(r1, o);
    MetaMid(r1, o, h0, "$clients");
    var b := UpdateMetaClientPub(a.reg, o, c);
    var h1 := Sent(h0, a.routes);
    UpdateMetaClientMid(a.reg, o, h1, 0, {}, c);
    Chain(h0, a, b, 0, {});
    var ab := Out(b.reg, a.routes + b.routes);
    var d := UpdateMetaClientSub(b.reg, o, c);
    UpdateMetaClientMid(b.reg, o, Sent(h0, ab.routes), 0, {}, c);
    Chain(h0, ab, d, 0, {});
    var abd := Out(d.reg, ab.routes + d.routes);
    var e := PublishMeta(d.reg, o, "$serversub");
    MetaMid(d.reg, o, Sent(h0, abd.routes), "$serversub");
    Chain(h0, abd, e, 0, {});
    var abde := Out(e.reg, abd.routes + e.routes);
    var f := PublishMeta(e.reg, o, "$serverpub");
    MetaMid(e.reg, o, Sent(h0, abde.routes), "$serverpub");
    Chain(h0, abde, f, 0, {});
  }

  lemma MetaMid(r: Reg, o: Oracle, h: History, name: string)
    requires Inv(r, h)
    ensures Safe(h, PublishMeta(r, o, name), 0, {})
    ensures ValidOracle(o) ==> Keeps(r, PublishMeta(r, o, name).reg)
  {
    hide Mid, Resolves, PublishMeta, ValidOracle, Keeps;
    PublishMetaMid(r, o, h, 0, {}, name);
    MidTopicsOk(r, h, 0, {});
    if ValidOracle(o) { PublishMetaKeeps(r, o, name); }
  }

  // ---------------------------------------------------------------- disconnect

  lemma ForgetNames(clientNames: set<string>, nameOf: map<ClientId, string>, connected: set<ClientId>,
                    seen: set<ClientId>, c: ClientId)
    requires ClientNamesInv(clientNames, nameOf, connected, seen) && c in connected
    ensures ClientNamesInv(clientNames - {nameOf[c]}, nameOf - {c}, connected - {c}, seen)
  {
    var name := nameOf[c];
    forall n | n in clientNames - {name} ensures exists d :: d in nameOf - {c} && (nameOf - {c})[d] == n {
      var d :| d in nameOf && nameOf[d] == n;
      assert d in nameOf - {c} && (nameOf - {c})[d] == n;
    }
  }

  lemma ForgetSubs(N: NameMap, S: SubMap, L: Lists, c: ClientId)
    ensures Sound(N, S) ==> Sound(N, S - {c})
    ensures Complete(N, S) ==> Complete(N, S - {c})
    ensures FanInv(S, L, 0, {}) ==> FanInv(S - {c}, L, 0, {})
    ensures Full(S, L) ==> Full(S - {c}, L)
  {
    hide Covers, Wanted;
  }

  /** The registry without the client and its name, its meta topics still there. */
  function Leave(r: Reg, c: ClientId): Reg
    requires c in r.nameOf
  {
    r.(clients := r.clients - {c}, nameOf := r.nameOf - {c}, clientNames := r.clientNames - {r.nameOf[c]})
  }

  lemma LeaveMid(r: Reg, h: History, c: ClientId)
    requires Inv(r, h) && c in r.clients
    ensures c in r.nameOf
    ensures Inv(Leave(r, c), h)
    ensures Keeps(r, Leave(r, c))
  {
    hide IdsInv, Sound, FanInv, ListsInv, TopicsOk, Names, Counts, Full, Complete, PersistentSnapshot;
    ClientViews(r.clients, c, r.clients[c]);
    ForgetNames(r.clientNames, r.nameOf, r.clients.Keys, h.seen, c);
    ForgetSubs(Names(r.topics), SubsOf(r.clients), r.subscribers, c);
    assert (r.clients - {c}).Keys == r.clients.Keys - {c};
  }

  lemma ForgetClientMid(r: Reg, h: History, c: ClientId)
    requires Inv(r, h) && c in r.clients
    ensures Inv(ForgetClient(r, c), h)
    ensures Keeps(r, ForgetClient(r, c))
  {
    hide Mid, DeleteNamed, Full, Complete, Names, SubsOf, PersistentSnapshot;
    LeaveMid(r, h, c);
    var name := r.nameOf[c];
    var r1 := Leave(r, c);
    DeleteNamedMid(r1, h, 0, {}, ClientPubMeta(name));
    DeleteNamedMid(DeleteNamed(r1, ClientPubMeta(name)), h, 0, {}, ClientSubMeta(name));
    assert ForgetClient(r, c) == DeleteNamed(DeleteNamed(r1, ClientPubMeta(name)), ClientSubMeta(name));
  }

  lemma {:induction false} DropPublishersMid(r: Reg, h: History, ids: seq<TopicId>)
    requires Inv(r, h)
    ensures Inv(DropPublishers(r, ids), h)
    ensures Keeps(r, DropPublishers(r, ids))
    decreases |ids|
  {
    hide Mid, DropPublisher, Full, Complete, Names, SubsOf, PersistentSnapshot;
    if ids != [] {
      var n := |ids| - 1;
      DropPublishersMid(r, h, ids[..n]);
      var r1 := DropPublishers(r, ids[..n]);
      DropPublisherMid(r1, h, 0, {}, ids[n]);
      MidTopicsOk(r1, h, 0, {});
      DropPublisherKeeps(r1, ids[n]);
    }
  }

  lemma {:induction false} ReapOrphansMid(r: Reg, h: History, ids: seq<TopicId>)
    requires Inv(r, h)
    ensures Safe(h, ReapOrphans(r, ids), 0, {})
    ensures Keeps(r, ReapOrphans(r, ids).reg)
  {
    hide Mid, Resolves, DeleteTopic, Full, Complete, Names, SubsOf, PersistentSnapshot, IsRetained;
    if ids == [] {
      Quiet(h, r, 0, {});
    } else {
      var n := |ids| - 1;
      var a := ReapOrphans(r, ids[..n]);
      ReapOrphansMid(r, h, ids[..n]);
      if Orphaned(a.reg, ids[n]) {
        DeleteTopicMid(a.reg, Sent(h, a.routes), 0, {}, ids[n]);
        Chain(h, a, DeleteTopic(a.reg, ids[n]), 0, {});
      }
    }
  }

  /** The state of a disconnect before its meta updates. */
  function Departed(r: Reg, o: Oracle, c: ClientId): Out {
    var pubs := ClientAt(r, c).pubs;
    var published := Published(pubs, o.order(r.ticks, pubs.Keys));
    var r1 := ForgetClient(r.(ticks := r.ticks + 1), c);
    ReapOrphans(DropPublishers(r1, published), Candidates(r1.topics.Keys, published))
  }

  lemma DepartedMid(r: Reg, o: Oracle, h: History, c: ClientId)
    requires Inv(r, h) && c in r.clients
    ensures Safe(h, Departed(r, o, c), 0, {})
    ensures Keeps(r, Departed(r, o, c).reg)
  {
    hide Mid, Resolves, ForgetClient, ReapOrphans, DropPublishers, Published, Candidates, Full, Complete, Names;
    hide SubsOf, PersistentSnapshot;
    var pubs := r.clients[c].pubs;
    var published := Published(pubs, o.order(r.ticks, pubs.Keys));
    var r0 := r.(ticks := r.ticks + 1);
    TickMid(r, h, 0, {}, r.ticks + 1);
    ForgetClientMid(r0, h, c);
    var r1 := ForgetClient(r0, c);
    DropPublishersMid(r1, h, published);
    ReapOrphansMid(DropPublishers(r1, published), h, Candidates(r1.topics.Keys, published));
  }

  lemma OnDisconnectIs(r: Reg, o: Oracle, c: ClientId)
    ensures var cl := ClientAt(r, c);
            var pubNames := LiveNames(r, Published(cl.pubs, o.order(r.ticks, cl.pubs.Keys)), false);
            var a := Departed(r, o, c);
            var b := UpdateMetaClients(a.reg, o);
            var d := UpdateMetaSubFor(b.reg, o, AllMatched(cl));
            var e := UpdateMetaPubs(d.reg, o, pubNames);
            OnDisconnect(r, o, c) == Out(e.reg, a.routes + b.routes + d.routes + e.routes)
  {
    hide ForgetClient, ReapOrphans, DropPublishers, Published, Candidates, UpdateMetaSubFor, UpdateMetaPubs;
    hide UpdateMetaClients, LiveNames;
  }

  lemma {:induction false} OnDisconnectMid(r: Reg, o: Oracle, h: History, c: ClientId)
    requires Inv(r, h) && c in r.clients && ValidOracle(o)
    ensures Safe(h, OnDisconnect(r, o, c), 0, {})
    ensures Keeps(r, OnDisconnect(r, o, c).reg)
  {
    hide Mid, Resolves, Departed, OnDisconnect, UpdateMetaSubFor, UpdateMetaPubs, PublishMeta, LiveNames, Published;
    hide ValidOracle;
    hide Full, Complete, Names, SubsOf, PersistentSnapshot;
    var cl := ClientAt(r, c);
    var pubNames := LiveNames(r, Published(cl.pubs, o.order(r.ticks, cl.pubs.Keys)), false);
    OnDisconnectIs(r, o, c);
    DepartedMid(r, o, h, c);
    var a := Departed(r, o, c);
    var b := UpdateMetaClients(a.reg, o);
    MetaMid(a.reg, o, Sent(h, a.routes), "$clients");
    Chain(h, a, b, 0, {});
    var ab := Out(b.reg, a.routes + b.routes);
    var d := UpdateMetaSubFor(b.reg, o, AllMatched(cl));
    UpdateMetaSubForMid(b.reg, o, Sent(h, ab.routes), 0, {}, AllMatched(cl));
    Chain(h, ab, d, 0, {});
    var abd := Out(d.reg, ab.routes + d.routes);
    UpdateMetaPubsMid(d.reg, o, Sent(h, abd.routes), 0, {}, pubNames);
    Chain(h, abd, UpdateMetaPubs(d.reg, o, pubNames), 0, {});
  }

  // ---------------------------------------------------- handlers on one topic

  lemma {:induction false} HandleSetPropertiesMid(r: Reg, h: History, c: ClientId, name: string, update: Props)
    requires Inv(r, h)
    ensures Safe(h, HandleSetProperties(r, c, name, update), 0, {})
    ensures Keeps(r, HandleSetProperties(r, c, name, update).reg)
  {
    hide Mid, Resolves, Full, Complete, Names, SubsOf, PersistentSnapshot, UpdateProps, TopicOk, PropertyRoutes;
    if name in r.byName {
      MidTopicsOk(r, h, 0, {});
      NamedTopic(r, name);
      var id := r.byName[name];
      var t := r.topics[id];
      var t1 := SyncProperties(t.(properties := UpdateProps(t.properties, update)));
      TopicOkIn(r.topics, id);
      SyncOk(t, UpdateProps(t.properties, update));
      SetTopicMid(r, h, 0, {}, id, t1);
      var out := HandleSetProperties(r, c, name, update);
      GenMid(SetTopic(r, id, t1), h, out.reg.generation);
      PropertyFrames(ListAt(r.announced, id), c, name, update);
      QuietFrames(h, out.reg, out.routes, 0, {});
      TopicViews(r.topics, id, t1);
      if !t.persistent && !t1.persistent { SnapshotAt(r.topics, id, t1); }
    } else {
      Quiet(h, r, 0, {});
    }
  }

  lemma PropertyFrames(list: seq<ClientId>, c: ClientId, name: string, update: Props)
    ensures var routes := PropertyRoutes(list, c, name, update);
            forall k | 0 <= k < |routes| :: !routes[k].frame.Announce? && !routes[k].frame.ValueFrame?
  {
  }

  lemma SyncOk(t: Topic, props: Props)
    requires TopicOk(t)
    ensures var t1 := SyncProperties(t.(properties := props));
            && TopicOk(t1) && t1.name == t.name && t1.publishers == t.publishers
            && (!t.persistent ==> RowOf(t).None?) && (!t1.persistent ==> RowOf(t1).None?)
  {
  }

  lemma GenMid(r: Reg, h: History, g: nat)
    requires Inv(r, h)
    ensures Inv(r.(generation := g), h)
  {
  }

  lemma SetRetainedMid(r: Reg, h: History, name: string, retained: bool)
    requires Inv(r, h)
    ensures Inv(SetRetained(r, name, retained), h)
    ensures Keeps(r, SetRetained(r, name, retained))
  {
    hide Mid, Full, Complete, Names, SubsOf, PersistentSnapshot, TopicOk, RowOf;
    if name in r.byName {
      MidTopicsOk(r, h, 0, {});
      NamedTopic(r, name);
      var id := r.byName[name];
      var t := r.topics[id].(retained := retained);
      TopicOkIn(r.topics, id);
      TopicOkByParts(r.topics[id], t);
      SetTopicMid(r, h, 0, {}, id, t);
      TopicViews(r.topics, id, t);
      SnapshotAt(r.topics, id, t);
    }
  }

  lemma UpsertTopicOk(name: string, value: Value)
    ensures TopicOk(UpsertTopic(name, value)) && RowOf(UpsertTopic(name, value)).None?
    ensures UpsertTopic(name, value).name == name && UpsertTopic(name, value).publishers == 0
  {
  }

  lemma {:induction false} HandleUpsertMid(r: Reg, h: History, name: string, value: Value, ts: nat)
    requires Inv(r, h)
    ensures Safe(h, HandleUpsert(r, name, value, ts), 0, {})
    ensures Saves(r, HandleUpsert(r, name, value, ts).reg)
  {
    hide Mid, Resolves, TopicValue, UpsertTopic, Full, Complete, Names, SubsOf, PersistentSnapshot, TopicOk, RowOf;
    MidTopicsOk(r, h, 0, {});
    if name in r.byName {
      TopicValueMid(r, h, 0, {}, r.byName[name], value, ts);
      TopicValueSaves(r, r.byName[name], value, ts);
    } else if |r.topics| >= MAX_TOPICS {
      Quiet(h, r, 0, {});
    } else {
      var t := UpsertTopic(name, value);
      UpsertTopicOk(name, value);
      CreateMid(r, h, 0, {}, t);
      CreateComplete(r, t);
      var (r1, id) := Create(r, t);
      MidTopicsOk(r1, h, 0, {});
      TopicValueMid(r1, h, 0, {}, id, value, ts);
      TopicValueSaves(r1, id, value, ts);
    }
  }

  /** Saved values have the type their type string names, as the loader builds them. */
  ghost predicate WellTyped(entries: seq<Saved>) {
    forall k | 0 <= k < |entries| :: XtDataType(entries[k].value) == DataTypeFromString(entries[k].typeStr)
  }

  lemma RestoredTopicOk(e: Saved, ts: nat)
    requires XtDataType(e.value) == DataTypeFromString(e.typeStr)
    ensures TopicOk(RestoredTopic(e, ts))
    ensures RestoredTopic(e, ts).name == e.name && RestoredTopic(e, ts).publishers == 0
  {
    hide XtDataType, DataTypeFromString;
    var t := RestoredTopic(e, ts);
    assert t.history[0] == Stamped(ts, e.value);
    assert LatestOfHighest(t.history, t.history[0]);
  }

  lemma {:induction false} RestoreEachMid(r: Reg, h: History, entries: seq<Saved>, ts: nat)
    requires Inv(r, h) && WellTyped(entries)
    ensures Inv(RestoreEach(r, entries, ts), h)
    ensures RestoreEach(r, entries, ts).generation == r.generation
  {
    hide Mid, RestoredTopic, TopicOk, XtDataType, DataTypeFromString, Names;
    if entries != [] {
      var n := |entries| - 1;
      var r1 := RestoreEach(r, entries[..n], ts);
      RestoreEachMid(r, h, entries[..n], ts);
      if entries[n].name !in r1.byName {
        RestoredTopicOk(entries[n], ts);
        MidTopicsOk(r1, h, 0, {});
        CreateMid(r1, h, 0, {}, RestoredTopic(entries[n], ts));
        CreateShape(r1, RestoredTopic(entries[n], ts));
      }
    }
  }

  lemma {:induction false} RestorePersistentMid(r: Reg, h: History, entries: seq<Saved>, ts: nat)
    requires Inv(r, h) && WellTyped(entries)
    ensures Inv(RestorePersistent(r, entries, ts), h)
    ensures Saves(r, RestorePersistent(r, entries, ts))
  {
    hide Mid, RestoreEach, PersistentSnapshot, WellTyped;
    RestoreEachMid(r, h, entries, ts);
    var r1 := RestoreEach(r, entries, ts);
    GenMid(r1, h, r1.generation + 1);
  }
}
