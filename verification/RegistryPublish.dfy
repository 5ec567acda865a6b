/** The invariant through publish and unpublish.
    Concerns core/src/websocket/protocol.rs. */
module RegistryPublish {
  import opened Values
  import opened Registry
  import opened RegistryInv
  import opened RegistryOps
  import opened RegistryPubs

  /** The topic a publish is about, created when it does not exist yet. */
  function PublishTopic(r: Reg, name: string, typeStr: string, props: Props): (Reg, TopicId) {
    if name in r.byName then (r, r.byName[name]) else CreatePublished(r, name, typeStr, props)
  }

  lemma PublishedTopicOk(name: string, typeStr: string, props: Props)
    ensures TopicOk(PublishedTopic(name, typeStr, props))
    ensures RowOf(PublishedTopic(name, typeStr, props)).None?
  {
  }

  lemma GenerationMid(r: Reg, h: History, pc: ClientId, pend: set<TopicId>, g: nat)
    requires Mid(r, h, pc, pend)
    ensures Mid(r.(generation := g), h, pc, pend)
  {
  }

  lemma PublishTopicMid(r: Reg, h: History, name: string, typeStr: string, props: Props)
    requires Inv(r, h)
    ensures var (r1, id) := PublishTopic(r, name, typeStr, props);
            && Inv(r1, h)
            && id in r1.topics && r1.topics[id].name == name
            && r1.clients == r.clients && r1.subscribers == r.subscribers && r1.announced == r.announced
            && r1.nameOf == r.nameOf
            && Saves(r, r1)
            && (name !in r.byName ==> Names(r1.topics) - {id} == Names(r.topics))
            && (name in r.byName ==> r1 == r)
  {
    hide Mid, TopicOk, RowOf, PublishedTopic, PersistentSnapshot, Names, SubsOf, PubsOf, Counts, Create, IdsInv;
    hide Complete, NoDup;
    MidTopicsOk(r, h, 0, {});
    if name in r.byName {
      NamedTopic(r, name);
    } else {
      var t := PublishedTopic(name, typeStr, props);
      PublishedTopicName(name, typeStr, props);
      PublishedTopicOk(name, typeStr, props);
      CreateMid(r, h, 0, {}, t);
      CreateShape(r, t);
      CreateComplete(r, t);
      var r0 := Create(r, t).0;
      GenerationMid(r0, h, 0, {}, if t.persistent then r0.generation + 1 else r0.generation);
    }
  }

  lemma PublishedTopicName(name: string, typeStr: string, props: Props)
    ensures PublishedTopic(name, typeStr, props).name == name
    ensures PublishedTopic(name, typeStr, props).publishers == 0
  {
  }

  /** Points publisher uid `pubuid` at `id` and counts it there. */
  function PointPub(r: Reg, c: ClientId, pubuid: nat, id: TopicId): Reg
    requires c in r.clients
  {
    var r2 := SetPub(r, c, pubuid, id);
    if Lookup(r.clients[c].pubs, pubuid) != Some(id) then AddPublisher(r2, id) else r2
  }

  lemma SetPubViews(clients: map<ClientId, Client>, c: ClientId, pubuid: nat, id: TopicId)
    requires c in clients
    ensures var cl := clients[c].(pubs := clients[c].pubs[pubuid := id]);
            && SubsOf(clients[c := cl]) == SubsOf(clients)
            && clients[c := cl].Keys == clients.Keys
  {
    ClientViews(clients, c, clients[c].(pubs := clients[c].pubs[pubuid := id]));
  }

  lemma PointPubTopics(r: Reg, c: ClientId, pubuid: nat, id: TopicId)
    requires c in r.clients && id in r.topics && TopicsOk(r.topics)
    ensures var r1 := PointPub(r, c, pubuid, id);
            && r1 == r.(clients := r.clients[c := r.clients[c].(pubs := r.clients[c].pubs[pubuid := id])],
                        topics := r1.topics)
            && Names(r1.topics) == Names(r.topics)
            && TopicsOk(r1.topics)
            && PersistentSnapshot(r1.topics) == PersistentSnapshot(r.topics)
            && id in r1.topics && r1.topics[id].name == r.topics[id].name
  {
    hide TopicOk, TopicsOk, RowOf, PersistentSnapshot, Names;
    if Lookup(r.clients[c].pubs, pubuid) != Some(id) {
      var t := r.topics[id].(publishers := r.topics[id].publishers + 1);
      TopicViews(r.topics, id, t);
      TopicOkIn(r.topics, id);
      TopicOkByParts(r.topics[id], t);
      TopicsOkAt(r.topics, id, t);
      SnapshotAt(r.topics, id, t);
    }
  }

  lemma PointPubMid(r: Reg, h: History, c: ClientId, pubuid: nat, id: TopicId)
    requires Inv(r, h) && c in r.clients && id in r.topics
    ensures Inv(PointPub(r, c, pubuid, id), h)
  {
    hide IdsInv, Sound, FanInv, ListsInv, ClientNamesInv, TopicsOk, PointPub, Names, SubsOf;
    PointPubTopics(r, c, pubuid, id);
    SetPubViews(r.clients, c, pubuid, id);
  }

  /** The publisher's own announcement, which is sent whether or not it had one. */
  lemma OwnAnnounceMid(r: Reg, h: History, c: ClientId, id: TopicId, pubuid: nat)
    requires Mid(r, h, 0, {}) && c in r.clients && id in r.topics
    ensures var r1 := AddAnnounced(r, c, id);
            Safe(h, Out(r1, [Route(c, AnnounceFrame(r1, id, Some(pubuid)))]), 0, {})
  {
    hide IdsInv, Sound, FanInv, ListsInv, TopicsOk, Resolves, AddTo, Replay;
    var r1 := AddAnnounced(r, c, id);
    var rt := Route(c, AnnounceFrame(r1, id, Some(pubuid)));
    ViewsAt(r.topics, id);
    ListsAnnounce(Names(r.topics), r.subscribers, r.announced, h.seen, h.table, c, id);
    ReplayOne(h.table, rt);
    assert Sent(h, [rt]).table == h.table[(c, id) := Names(r.topics)[id]];
  }

  lemma EnterPublishIs(r: Reg, c: ClientId, name: string, pubuid: nat, typeStr: string, props: Props)
    requires c in r.clients
    ensures var (r1, id) := PublishTopic(r, name, typeStr, props);
            r1.clients == r.clients ==>
              EnterPublish(r, c, name, pubuid, typeStr, props) == (AddAnnounced(PointPub(r1, c, pubuid, id), c, id), id)
  {
  }

  /** Everything a publish does before it announces a new topic to others. */
  lemma EnterPublishMid(r: Reg, h: History, c: ClientId, name: string, pubuid: nat, typeStr: string, props: Props)
    requires Inv(r, h) && c in r.clients
    ensures var (r1, id) := EnterPublish(r, c, name, pubuid, typeStr, props);
            && Safe(h, Out(r1, [Route(c, AnnounceFrame(r1, id, Some(pubuid)))]), 0, {})
            && id in r1.topics && r1.topics[id].name == name
            && SubsOf(r1.clients) == SubsOf(r.clients) && r1.subscribers == r.subscribers && r1.nameOf == r.nameOf
            && Saves(r, r1)
            && (name !in r.byName ==> Names(r1.topics) - {id} == Names(r.topics))
            && (name in r.byName ==> Names(r1.topics) == Names(r.topics))
  {
    hide Mid, Safe, PointPub, PublishTopic, EnterPublish, TopicsOk, PersistentSnapshot, Names, SubsOf, PubsOf, Counts;
    var (r1, id) := PublishTopic(r, name, typeStr, props);
    PublishTopicMid(r, h, name, typeStr, props);
    EnterPublishIs(r, c, name, pubuid, typeStr, props);
    PointPubMid(r1, h, c, pubuid, id);
    MidTopicsOk(r1, h, 0, {});
    PointPubTopics(r1, c, pubuid, id);
    SetPubViews(r.clients, c, pubuid, id);
    var r2 := PointPub(r1, c, pubuid, id);
    OwnAnnounceMid(r2, h, c, id, pubuid);
  }

  // ------------------------------------------------------------------ handlers

  /** The frames and state of a publish once its own announcement is out. */
  function FinishPublish(r1: Reg, o: Oracle, c: ClientId, name: string, id: TopicId, isNew: bool,
                         prev: Option<TopicId>): Out {
    var a := if isNew then AnnounceToMatching(r1, o, id, name) else Out(r1, []);
    var b := if prev.Some? && prev.value != id then ReleasePublisher(a.reg, o, prev.value) else Out(a.reg, []);
    var d := UpdateMetaClientPub(b.reg, o, c);
    var e := UpdateMetaPub(d.reg, o, name);
    Out(e.reg, a.routes + b.routes + d.routes + e.routes)
  }

  lemma HandlePublishIs(r: Reg, o: Oracle, c: ClientId, name: string, pubuid: nat, typeStr: string, props: Props)
    requires c in r.clients && PublishAccepted(r, c, name, pubuid)
    ensures var (r1, id) := EnterPublish(r, c, name, pubuid, typeStr, props);
            var own := [Route(c, AnnounceFrame(r1, id, Some(pubuid)))];
            var f := FinishPublish(r1, o, c, name, id, name !in r.byName, Lookup(r.clients[c].pubs, pubuid));
            HandlePublish(r, o, c, name, pubuid, typeStr, props) == Out(f.reg, own + f.routes)
  {
    hide EnterPublish, AnnounceToMatching, ReleasePublisher, UpdateMetaClientPub, UpdateMetaPub, PublishAccepted;
    hide AnnounceFrame;
    var (r1, id) := EnterPublish(r, c, name, pubuid, typeStr, props);
    var prev := Lookup(r.clients[c].pubs, pubuid);
    var own := [Route(c, AnnounceFrame(r1, id, Some(pubuid)))];
    var a := if name !in r.byName then AnnounceToMatching(r1, o, id, name) else Out(r1, []);
    var b := if prev.Some? && prev.value != id then ReleasePublisher(a.reg, o, prev.value) else Out(a.reg, []);
    var d := UpdateMetaClientPub(b.reg, o, c);
    var e := UpdateMetaPub(d.reg, o, name);
    assert own + a.routes + b.routes + d.routes + e.routes == own + (a.routes + b.routes + d.routes + e.routes);
  }

  lemma FinishPublishMid(r: Reg, o: Oracle, h: History, c: ClientId, name: string, id: TopicId, isNew: bool,
                         prev: Option<TopicId>)
    requires Mid(r, h, 0, {}) && id in r.topics && r.topics[id].name == name
    ensures Safe(h, FinishPublish(r, o, c, name, id, isNew, prev), 0, {})
  {
    hide Mid, Resolves, AnnounceToMatching, ReleasePublisher, UpdateMetaClientPub, UpdateMetaPub;
    var a := if isNew then AnnounceToMatching(r, o, id, name) else Out(r, []);
    if isNew {
      AnnounceToMatchingMid(r, o, h, 0, {}, id, name);
    } else {
      Quiet(h, r, 0, {});
    }
    var b := if prev.Some? && prev.value != id then ReleasePublisher(a.reg, o, prev.value) else Out(a.reg, []);
    var h1 := Sent(h, a.routes);
    if prev.Some? && prev.value != id {
      ReleasePublisherMid(a.reg, o, h1, 0, {}, prev.value);
    } else {
      Quiet(h1, a.reg, 0, {});
    }
    Chain(h, a, b, 0, {});
    var ab := Out(b.reg, a.routes + b.routes);
    var d := UpdateMetaClientPub(b.reg, o, c);
    UpdateMetaClientMid(b.reg, o, Sent(h, ab.routes), 0, {}, c);
    Chain(h, ab, d, 0, {});
    var abd := Out(d.reg, ab.routes + d.routes);
    var e := UpdateMetaPub(d.reg, o, name);
    UpdateMetaPubMid(d.reg, o, Sent(h, abd.routes), 0, {}, name);
    Chain(h, abd, e, 0, {});
  }

  lemma {:induction false} HandlePublishMid(r: Reg, o: Oracle, h: History, c: ClientId, name: string,
                                            pubuid: nat, typeStr: string, props: Props)
    requires Inv(r, h) && c in r.clients && PublishAccepted(r, c, name, pubuid)
    ensures Safe(h, HandlePublish(r, o, c, name, pubuid, typeStr, props), 0, {})
  {
    hide Mid, Resolves, EnterPublish, FinishPublish, HandlePublish, PublishAccepted, Names, SubsOf;
    var (r1, id) := EnterPublish(r, c, name, pubuid, typeStr, props);
    var own := [Route(c, AnnounceFrame(r1, id, Some(pubuid)))];
    var prev := Lookup(r.clients[c].pubs, pubuid);
    HandlePublishIs(r, o, c, name, pubuid, typeStr, props);
    EnterPublishMid(r, h, c, name, pubuid, typeStr, props);
    FinishPublishMid(r1, o, Sent(h, own), c, name, id, name !in r.byName, prev);
    Chain(h, Out(r1, own), FinishPublish(r1, o, c, name, id, name !in r.byName, prev), 0, {});
  }

  lemma AnnounceNewKeeps(r: Reg, r1: Reg, o: Oracle, id: TopicId, name: string)
    requires ValidOracle(o)
    requires id in r1.topics && r1.topics[id].name == name
    requires SubsOf(r1.clients) == SubsOf(r.clients) && r1.subscribers == r.subscribers
    requires Names(r1.topics) - {id} == Names(r.topics)
    requires Saves(r, r1)
    ensures Keeps(r, AnnounceToMatching(r1, o, id, name).reg)
  {
    hide Full, Complete, ValidOracle, AnnounceToMatching, PersistentSnapshot, Names, SubsOf;
    if Complete(Names(r.topics), SubsOf(r.clients)) { AnnounceToMatchingComplete(r1, o, id, name); }
    if Full(SubsOf(r.clients), r.subscribers) { AnnounceToMatchingFull(r1, o, id, name); }
    AnnounceToMatchingQuietGen(r1, o, id, name);
  }

  lemma FinishPublishKeeps(r0: Reg, r: Reg, o: Oracle, h: History, c: ClientId, name: string, id: TopicId,
                           isNew: bool, prev: Option<TopicId>)
    requires ValidOracle(o)
    requires Mid(r, h, 0, {}) && id in r.topics && r.topics[id].name == name
    requires isNew ==> Keeps(r0, AnnounceToMatching(r, o, id, name).reg)
    requires !isNew ==> Keeps(r0, r)
    ensures Keeps(r0, FinishPublish(r, o, c, name, id, isNew, prev).reg)
  {
    hide Mid, Resolves, AnnounceToMatching, ReleasePublisher, UpdateMetaClientPub, UpdateMetaPub, Full, Complete;
    hide PersistentSnapshot, ValidOracle, Names, SubsOf;
    var a := if isNew then AnnounceToMatching(r, o, id, name) else Out(r, []);
    if isNew {
      AnnounceToMatchingMid(r, o, h, 0, {}, id, name);
    } else {
      Quiet(h, r, 0, {});
    }
    var b := if prev.Some? && prev.value != id then ReleasePublisher(a.reg, o, prev.value) else Out(a.reg, []);
    var h1 := Sent(h, a.routes);
    if prev.Some? && prev.value != id {
      ReleasePublisherMid(a.reg, o, h1, 0, {}, prev.value);
    } else {
      Quiet(h1, a.reg, 0, {});
    }
    var h2 := Sent(h1, b.routes);
    UpdateMetaClientMid(b.reg, o, h2, 0, {}, c);
    var d := UpdateMetaClientPub(b.reg, o, c);
    UpdateMetaPubMid(d.reg, o, Sent(h2, d.routes), 0, {}, name);
  }

  lemma HandlePublishKeeps(r: Reg, o: Oracle, h: History, c: ClientId, name: string, pubuid: nat,
                           typeStr: string, props: Props)
    requires ValidOracle(o)
    requires Inv(r, h) && c in r.clients && PublishAccepted(r, c, name, pubuid)
    ensures Keeps(r, HandlePublish(r, o, c, name, pubuid, typeStr, props).reg)
  {
    hide Mid, Resolves, EnterPublish, FinishPublish, HandlePublish, PublishAccepted, Full, Complete;
    hide PersistentSnapshot, ValidOracle, Names, SubsOf, AnnounceToMatching;
    var (r1, id) := EnterPublish(r, c, name, pubuid, typeStr, props);
    var own := [Route(c, AnnounceFrame(r1, id, Some(pubuid)))];
    var prev := Lookup(r.clients[c].pubs, pubuid);
    HandlePublishIs(r, o, c, name, pubuid, typeStr, props);
    EnterPublishMid(r, h, c, name, pubuid, typeStr, props);
    if name !in r.byName { AnnounceNewKeeps(r, r1, o, id, name); }
    FinishPublishKeeps(r, r1, o, Sent(h, own), c, name, id, name !in r.byName, prev);
  }

  /** Taking pubuids away from clients, whichever they are. */
  lemma LessPubsMid(r: Reg, h: History, clients: map<ClientId, Client>)
    requires Inv(r, h) && SubsOf(clients) == SubsOf(r.clients) && clients.Keys == r.clients.Keys
    ensures Inv(r.(clients := clients), h)
    ensures Keeps(r, r.(clients := clients))
  {
    hide IdsInv, Sound, FanInv, ListsInv, ClientNamesInv, TopicsOk, Full, Complete, PersistentSnapshot, Names, SubsOf;
  }

  lemma UnsetPubViews(clients: map<ClientId, Client>, c: ClientId, pubuid: nat, id: TopicId)
    requires c in clients
    ensures var some := clients[c := clients[c].(pubs := clients[c].pubs - {pubuid})];
            && SubsOf(some) == SubsOf(clients) && some.Keys == clients.Keys
            && SubsOf(ForgetTopic(some, id)) == SubsOf(clients) && ForgetTopic(some, id).Keys == clients.Keys
  {
    ClientViews(clients, c, clients[c].(pubs := clients[c].pubs - {pubuid}));
  }

  lemma {:induction false} HandleUnpublishMid(r: Reg, o: Oracle, h: History, c: ClientId, pubuid: nat)
    requires Inv(r, h)
    ensures Safe(h, HandleUnpublish(r, o, c, pubuid), 0, {})
    ensures ValidOracle(o) ==> Keeps(r, HandleUnpublish(r, o, c, pubuid).reg)
  {
    hide Mid, Resolves, ReleasePublisher, UpdateMetaClientPub, Full, Complete, PersistentSnapshot, ValidOracle, Names;
    hide SubsOf, ForgetTopic;
    if c in r.clients && pubuid in r.clients[c].pubs {
      var id := r.clients[c].pubs[pubuid];
      var r1 := SetClient(r, c, r.clients[c].(pubs := r.clients[c].pubs - {pubuid}));
      UnsetPubViews(r.clients, c, pubuid, id);
      if id !in r.topics {
        LessPubsMid(r, h, ForgetTopic(r1.clients, id));
        Quiet(h, r1.(clients := ForgetTopic(r1.clients, id)), 0, {});
      } else {
        LessPubsMid(r, h, r1.clients);
        var a := ReleasePublisher(r1, o, id);
        ReleasePublisherMid(r1, o, h, 0, {}, id);
        UpdateMetaClientMid(a.reg, o, Sent(h, a.routes), 0, {}, c);
        Chain(h, a, UpdateMetaClientPub(a.reg, o, c), 0, {});
      }
    } else {
      Quiet(h, r, 0, {});
    }
  }
}
