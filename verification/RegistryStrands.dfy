/** When a step leaves a publisher uid behind on a deleted topic.  Deleting a topic deletes
    its `$pub$` and `$sub$` topics by name, and a disconnect deletes `$clientpub$` and
    `$clientsub$` by name, whoever publishes them.
    Concerns core/src/websocket/protocol.rs, with core/src/websocket/server.rs as the
    step relation. */
module RegistryStrands {
  import opened Values
  import opened Registry
  import opened RegistryInv
  import opened RegistryOps
  import opened RegistryPubs
  import opened RegistryPublish
  import opened RegistrySubs
  import opened RegistryConn
  import opened RegistryFrames
  import opened RegistryTrim
  import opened RegistryCounts
  import opened RegistryRuns

  // -------------------------------------------------------------- the condition

  /** Taking `k` publishers off `id` leaves it without any, and nothing else keeps it. */
  predicate Last(r: Reg, id: TopicId, k: nat) {
    id in r.topics && r.topics[id].publishers <= k && !IsRetained(r.topics[id])
  }

  /** A publisher uid outside `leaving` is on a topic that goes when `roots` are deleted. */
  ghost predicate Strikes(r: Reg, live: set<string>, roots: set<string>, leaving: set<(ClientId, nat)>) {
    exists d, q ::
      && d in r.clients && q in r.clients[d].pubs && (d, q) !in leaving
      && r.clients[d].pubs[q] in r.topics
      && Hit(live, roots, r.topics[r.clients[d].pubs[q]].name)
  }

  /** The topics a leaving client is the last to publish. */
  function LastNames(r: Reg, cl: Client): set<string> {
    set p | p in cl.pubs && Last(r, cl.pubs[p], |UidsOn(cl.pubs, cl.pubs[p])|) :: r.topics[cl.pubs[p]].name
  }

  /** The meta topics named after a connected client. */
  function ClientMetas(r: Reg, c: ClientId): set<string> {
    if c in r.nameOf then {ClientPubMeta(r.nameOf[c])} + {ClientSubMeta(r.nameOf[c])} else {}
  }

  function UidPairs(c: ClientId, cl: Client): set<(ClientId, nat)> { set p | p in cl.pubs :: (c, p) }

  ghost predicate UnpublishStrands(r: Reg, c: ClientId, pubuid: nat)
    requires c in r.clients && pubuid in r.clients[c].pubs
  {
    var id := r.clients[c].pubs[pubuid];
    Last(r, id, 1) && Strikes(r, r.byName.Keys, {r.topics[id].name}, {(c, pubuid)})
  }

  ghost predicate PublishStrands(r: Reg, c: ClientId, name: string, pubuid: nat)
    requires c in r.clients && pubuid in r.clients[c].pubs
  {
    var prev := r.clients[c].pubs[pubuid];
    && Last(r, prev, 1) && r.topics[prev].name != name
    && var live := r.byName.Keys + {name};
       var roots := {r.topics[prev].name};
       Hit(live, roots, name) || Strikes(r, live, roots, {(c, pubuid)})
  }

  ghost predicate DisconnectStrands(r: Reg, c: ClientId)
    requires c in r.clients
  {
    var cl := r.clients[c];
    Strikes(r, r.byName.Keys, ClientMetas(r, c) + LastNames(r, cl), UidPairs(c, cl))
  }

  /** The step deletes, by name, a topic that a remaining publisher uid points at. */
  ghost predicate Strands(r: Reg, s: Step) {
    match s
    case Unpublish(c, pubuid) =>
      c in r.clients && pubuid in r.clients[c].pubs && UnpublishStrands(r, c, pubuid)
    case Publish(c, name, pubuid, _, _) =>
      && c in r.clients && PublishAccepted(r, c, name, pubuid) && pubuid in r.clients[c].pubs
      && PublishStrands(r, c, name, pubuid)
    case Disconnect(c) => c in r.clients && DisconnectStrands(r, c)
    case _ => false
  }

  // ------------------------------------------------------------------- releasing

  /** The topics that go when `id` is left without a publisher. */
  ghost function Released(r: Reg, id: TopicId): set<TopicId> {
    if Orphaned(r, id) then Struck(r, {r.topics[id].name}) else {}
  }

  lemma DropPublisherIds(r: Reg, id: TopicId)
    requires IdsIn(r)
    ensures IdsIn(DropPublisher(r, id))
  {
    hide IdsInv, Names;
    if id in r.topics {
      var n := r.topics[id].publishers;
      TopicViews(r.topics, id, r.topics[id].(publishers := if n == 0 then 0 else n - 1));
    }
  }

  lemma {:induction false} ReleaseSettles(r: Reg, o: Oracle, id: TopicId)
    requires IdsIn(r) && id in r.topics
    ensures var r0 := DropPublisher(r, id);
            && Settles(r0, ReleasePublisher(r, o, id).reg, Released(r0, id))
            && IdsIn(ReleasePublisher(r, o, id).reg)
  {
    hide IdsInv, Settles, Adds, Trims, Struck, IsRetained, Delete, UpdateMetaPub, DropPublisher, Names;
    var r0 := DropPublisher(r, id);
    DropPublisherIds(r, id);
    DropPublisherIs(r, id);
    var a := if Orphaned(r0, id) then DeleteTopic(r0, id) else Out(r0, []);
    var name := r.topics[id].name;
    if Orphaned(r0, id) {
      DeleteTrims(r0, id);
      TrimsSettles(r0, a.reg, {name});
      TrimsIds(r0, a.reg, {name});
    } else {
      SettlesNothing(r0);
    }
    UpdateMetaTopicAdds(a.reg, o, name);
    var b := UpdateMetaPub(a.reg, o, name).reg;
    AddsIds(a.reg, b, {PubMeta(name)});
    SettlesTrans(r0, a.reg, b, Released(r0, id), {});
    assert Released(r0, id) + {} == Released(r0, id);
  }

  lemma SettlesNothing(r: Reg)
    ensures Settles(r, r, {})
  {
  }

  lemma SettlesAdds(r: Reg, r': Reg, r'': Reg, gone: set<TopicId>, names: set<string>)
    requires Settles(r, r', gone) && Adds(r', r'', names)
    ensures Settles(r, r'', gone)
  {
    hide Settles, IdsInv, AsksOf;
    SettlesTrans(r, r', r'', gone, {});
    assert gone + {} == gone;
  }

  // ------------------------------------------------------------------- unpublish

  lemma WithdrawViews(r: Reg, c: ClientId, pubuid: nat)
    requires c in r.clients && pubuid in r.clients[c].pubs && r.clients[c].pubs[pubuid] in r.topics
    ensures var id := r.clients[c].pubs[pubuid];
            var r1 := SetClient(r, c, r.clients[c].(pubs := r.clients[c].pubs - {pubuid}));
            var r0 := DropPublisher(r1, id);
            && PubsOf(r0.clients) == WithoutPub(PubsOf(r.clients), c, pubuid)
            && Names(r0.topics) == Names(r.topics)
            && Counts(r0.topics) == Counts(r.topics)[id := Minus(Counts(r.topics)[id], 1)]
            && r0.byName == r.byName
            && r0.topics == r.topics[id := Lowered(r.topics[id], 1)]
  {
    var id := r.clients[c].pubs[pubuid];
    ClientViews(r.clients, c, r.clients[c].(pubs := r.clients[c].pubs - {pubuid}));
    TopicViews(r.topics, id, Lowered(r.topics[id], 1));
    ViewsAt(r.topics, id);
    hide Names, Counts, SubsOf;
  }

  lemma {:induction false} UnpublishCountedIff(r: Reg, o: Oracle, acc: Accepted, c: ClientId, pubuid: nat)
    requires IdsIn(r) && Counted(r, acc) && c in r.clients && pubuid in r.clients[c].pubs
    ensures Counted(HandleUnpublish(r, o, c, pubuid).reg, acc - {(c, pubuid)}) <==> !UnpublishStrands(r, c, pubuid)
  {
    hide IdsInv, CountedIn, Settles, Adds, Strikes, PointsInto, Struck, IsRetained, Names, Counts, WithoutPub;
    hide ReleasePublisher, UpdateMetaClientPub, DropPublisher;
    var id := r.clients[c].pubs[pubuid];
    var r1 := SetClient(r, c, r.clients[c].(pubs := r.clients[c].pubs - {pubuid}));
    assert PubsOf(r.clients)[c] == r.clients[c].pubs;
    hide PubsOf;
    ViewKeys(r.topics);
    WithdrawnCounted(Names(r.topics), Counts(r.topics), PubsOf(r.clients), acc, c, pubuid);
    var r0 := DropPublisher(r1, id);
    WithdrawViews(r, c, pubuid);
    assert Counted(r0, acc - {(c, pubuid)});
    var a := ReleasePublisher(r1, o, id).reg;
    ReleaseSettles(r1, o, id);
    UpdateMetaClientAdds(a, o, c);
    var b := UpdateMetaClientPub(a, o, c).reg;
    SettlesAdds(r0, a, b, Released(r0, id), if c in a.nameOf then {ClientPubMeta(a.nameOf[c])} else {});
    SettlesCountedIff(r0, b, Released(r0, id), acc - {(c, pubuid)});
    LastOrphaned(r, r0, id);
    if Last(r, id, 1) {
      UnpublishStruck(r, r0, c, pubuid);
    } else {
      PointsIntoNone(PubsOf(r0.clients));
    }
  }

  lemma ViewKeys(topics: map<TopicId, Topic>)
    ensures Names(topics).Keys == topics.Keys && Counts(topics).Keys == topics.Keys
  {
  }

  lemma PointsIntoNone(P: PubMap)
    ensures !PointsInto(P, {})
  {
  }

  lemma LastOrphaned(r: Reg, r0: Reg, id: TopicId)
    requires id in r.topics && id in r0.topics && r0.topics[id] == Lowered(r.topics[id], 1)
    ensures Orphaned(r0, id) <==> Last(r, id, 1)
  {
  }

  lemma UnpublishStruck(r: Reg, r0: Reg, c: ClientId, pubuid: nat)
    requires c in r.clients && pubuid in r.clients[c].pubs && r.clients[c].pubs[pubuid] in r.topics
    requires r0.byName == r.byName && Names(r0.topics) == Names(r.topics)
    requires PubsOf(r0.clients) == WithoutPub(PubsOf(r.clients), c, pubuid)
    ensures var roots := {r.topics[r.clients[c].pubs[pubuid]].name};
            PointsInto(PubsOf(r0.clients), Struck(r0, roots)) <==> Strikes(r, r.byName.Keys, roots, {(c, pubuid)})
  {
    hide Hit;
    var roots := {r.topics[r.clients[c].pubs[pubuid]].name};
    StruckNames(r, r0, roots, r.byName.Keys);
    hide Struck, Names;
    var P := PubsOf(r0.clients);
    if PointsInto(P, Struck(r0, roots)) {
      var d, q :| d in P && q in P[d] && P[d][q] in Struck(r0, roots);
      assert r.clients[d].pubs[q] == P[d][q];
      assert (d, q) != (c, pubuid);
    }
    if Strikes(r, r.byName.Keys, roots, {(c, pubuid)}) {
      var d, q :| d in r.clients && q in r.clients[d].pubs && (d, q) !in {(c, pubuid)}
          && r.clients[d].pubs[q] in r.topics && Hit(r.byName.Keys, roots, r.topics[r.clients[d].pubs[q]].name);
      assert d in P && q in P[d] && P[d][q] == r.clients[d].pubs[q];
    }
  }

  /** What is struck depends on names alone. */
  lemma StruckNames(r: Reg, r0: Reg, roots: set<string>, live: set<string>)
    requires r0.byName.Keys == live && Names(r0.topics) == Names(r.topics)
    ensures forall i :: i in Struck(r0, roots) <==> i in r.topics && Hit(live, roots, r.topics[i].name)
  {
    hide Hit;
    forall i ensures i in Struck(r0, roots) <==> i in r.topics && Hit(live, roots, r.topics[i].name) {
      ViewsAt(r.topics, i);
      ViewsAt(r0.topics, i);
    }
  }

  // --------------------------------------------------------------------- publish

  lemma PublishTopicAdds(r: Reg, name: string, typeStr: string, props: Props)
    requires IdsIn(r)
    ensures var (r1, id) := PublishTopic(r, name, typeStr, props);
            && Adds(r, r1, {name})
            && r1.clients == r.clients
            && id in r1.topics && r1.topics[id].name == name
            && r1.byName.Keys == r.byName.Keys + {name}
            && (forall i | i in r1.topics && i != id :: i in r.topics)
            && (name in r.byName ==> id == r.byName[name])
            && (forall i | i in r.topics :: i in r1.topics && r1.topics[i] == r.topics[i])
  {
    hide IdsInv, Adds, NoDup, PublishedTopic, Create, Names;
    if name in r.byName {
      AddsNothing(r);
      AddsMore(r, r, {}, {name});
      NamedTopic(r, name);
    } else {
      var t := PublishedTopic(name, typeStr, props);
      PublishedTopicName(name, typeStr, props);
      CreateAdds(r, t);
      CreateShape(r, t);
      var (r0, _) := Create(r, t);
      AddsGeneration(r, r0, {name}, if t.persistent then r0.generation + 1 else r0.generation);
    }
  }

  lemma AddsGeneration(r: Reg, r': Reg, names: set<string>, g: nat)
    requires Adds(r, r', names)
    ensures Adds(r, r'.(generation := g), names)
  {
    hide IdsInv;
  }

  /** The state of a publish once every count is right and nothing is deleted yet. */
  function Repointed(r: Reg, c: ClientId, pubuid: nat, id: TopicId): Reg
    requires c in r.clients
  {
    var prev := Lookup(r.clients[c].pubs, pubuid);
    var r2 := AddAnnounced(PointPub(r, c, pubuid, id), c, id);
    if prev.Some? && prev.value != id then DropPublisher(r2, prev.value) else r2
  }

  lemma PointPubClients(r: Reg, c: ClientId, pubuid: nat, id: TopicId)
    requires c in r.clients
    ensures PubsOf(PointPub(r, c, pubuid, id).clients) == WithPub(PubsOf(r.clients), c, pubuid, id)
  {
    hide SubsOf;
    ClientViews(r.clients, c, r.clients[c].(pubs := r.clients[c].pubs[pubuid := id]));
  }

  lemma PointPubViews(r: Reg, c: ClientId, pubuid: nat, id: TopicId)
    requires c in r.clients && id in r.topics
    ensures var r2 := PointPub(r, c, pubuid, id);
            && PubsOf(r2.clients) == WithPub(PubsOf(r.clients), c, pubuid, id)
            && r2 == r.(clients := r2.clients, topics := r2.topics)
            && r2.topics.Keys == r.topics.Keys
            && (forall i | i in r.topics ::
                  r2.topics[i] == if i == id && Lookup(r.clients[c].pubs, pubuid) != Some(id)
                                  then r.topics[i].(publishers := r.topics[i].publishers + 1)
                                  else r.topics[i])
  {
    hide PubsOf, WithPub;
    PointPubClients(r, c, pubuid, id);
  }

  /** How a publish moves one topic's count. */
  function Shift(t: Topic, i: TopicId, prev: Option<TopicId>, id: TopicId): Topic {
    if prev == Some(id) then t
    else if i == id then t.(publishers := t.publishers + 1)
    else if prev == Some(i) then Lowered(t, 1)
    else t
  }

  lemma RepointedTopics(r: Reg, c: ClientId, pubuid: nat, id: TopicId)
    requires c in r.clients && id in r.topics
    ensures var r4 := Repointed(r, c, pubuid, id);
            && PubsOf(r4.clients) == WithPub(PubsOf(r.clients), c, pubuid, id)
            && r4.byName == r.byName && r4.freed == r.freed && r4.nextId == r.nextId
            && r4.topics.Keys == r.topics.Keys
            && (forall i | i in r.topics ::
                  r4.topics[i] == Shift(r.topics[i], i, Lookup(r.clients[c].pubs, pubuid), id))
  {
    hide PubsOf, WithPub, PointPub, DropPublisher, AddTo;
    PointPubViews(r, c, pubuid, id);
    var prev := Lookup(r.clients[c].pubs, pubuid);
    var r2 := AddAnnounced(PointPub(r, c, pubuid, id), c, id);
    if prev.Some? && prev.value != id { DropPublisherIs(r2, prev.value); }
  }

  lemma RepointedViews(r: Reg, c: ClientId, pubuid: nat, id: TopicId)
    requires c in r.clients && id in r.topics
    ensures var r4 := Repointed(r, c, pubuid, id);
            && Names(r4.topics) == Names(r.topics)
            && Counts(r4.topics) == Shifted(Counts(r.topics), Lookup(r.clients[c].pubs, pubuid), id)
  {
    hide Repointed, PubsOf, WithPub, Lookup;
    RepointedTopics(r, c, pubuid, id);
    ShiftViews(r.topics, Repointed(r, c, pubuid, id).topics, Lookup(r.clients[c].pubs, pubuid), id);
  }

  lemma ShiftViews(topics: map<TopicId, Topic>, topics': map<TopicId, Topic>, prev: Option<TopicId>, id: TopicId)
    requires topics'.Keys == topics.Keys
    requires forall i | i in topics :: topics'[i] == Shift(topics[i], i, prev, id)
    ensures Names(topics') == Names(topics) && Counts(topics') == Shifted(Counts(topics), prev, id)
  {
    hide Shift;
    forall i | i in topics
      ensures Names(topics')[i] == Names(topics)[i]
      ensures Counts(topics')[i] == Shifted(Counts(topics), prev, id)[i]
    {
      ShiftCount(topics[i], i, prev, id);
    }
  }

  lemma ShiftCount(t: Topic, i: TopicId, prev: Option<TopicId>, id: TopicId)
    ensures Shift(t, i, prev, id).name == t.name
    ensures Shift(t, i, prev, id).publishers ==
            if prev == Some(id) then t.publishers
            else if i == id then t.publishers + 1
            else if prev == Some(i) && t.publishers > 0 then t.publishers - 1
            else t.publishers
  {
  }

  lemma RepointedCounted(r: Reg, acc: Accepted, c: ClientId, pubuid: nat, id: TopicId)
    requires Counted(r, acc) && c in r.clients && id in r.topics
    ensures Counted(Repointed(r, c, pubuid, id), acc[(c, pubuid) := r.topics[id].name])
  {
    hide Repointed, CountedIn, Shifted, WithPub;
    RepointedTopics(r, c, pubuid, id);
    RepointedViews(r, c, pubuid, id);
    ViewsAt(r.topics, id);
    assert PubsOf(r.clients)[c] == r.clients[c].pubs;
    hide Names, Counts, PubsOf;
    PointedCounted(Names(r.topics), Counts(r.topics), PubsOf(r.clients), acc, c, pubuid, id);
  }

  /** What a publish deletes, from the state with every count right. */
  ghost function Displaced(r: Reg, prev: Option<TopicId>, id: TopicId): set<TopicId> {
    if prev.Some? && prev.value != id then Released(r, prev.value) else {}
  }

  lemma SettlesFrom(r: Reg, s: Reg, r': Reg, gone: set<TopicId>)
    requires s.topics == r.topics && PubsOf(s.clients) == PubsOf(r.clients) && Settles(s, r', gone)
    ensures Settles(r, r', gone)
  {
    hide PubsOf;
  }

  lemma ReleasedSame(r: Reg, s: Reg, id: TopicId)
    requires s.topics == r.topics && s.byName.Keys == r.byName.Keys
    ensures Released(s, id) == Released(r, id)
  {
    hide Hit, IsRetained;
  }

  lemma DropSame(r: Reg, s: Reg, id: TopicId)
    requires s.topics == r.topics && s.byName.Keys == r.byName.Keys && PubsOf(s.clients) == PubsOf(r.clients)
    ensures var r', s' := DropPublisher(r, id), DropPublisher(s, id);
            s'.topics == r'.topics && s'.byName.Keys == r'.byName.Keys && PubsOf(s'.clients) == PubsOf(r'.clients)
  {
    hide PubsOf;
  }

  lemma AddsSameNames(r: Reg, r': Reg)
    requires Adds(r, r', {})
    ensures r'.byName.Keys == r.byName.Keys && PubsOf(r'.clients) == PubsOf(r.clients) && IdsIn(r')
  {
    hide IdsInv, PubsOf, AsksOf;
  }

  /** From the state after a publish has pointed its uid to the state it ends in. */
  lemma {:induction false} FinishSettles(r: Reg, o: Oracle, c: ClientId, name: string, id: TopicId, isNew: bool,
                                         prev: Option<TopicId>)
    requires IdsIn(r)
    requires prev.Some? && prev.value != id ==> prev.value in r.topics
    ensures var r4 := if prev.Some? && prev.value != id then DropPublisher(r, prev.value) else r;
            Settles(r4, FinishPublish(r, o, c, name, id, isNew, prev).reg, Displaced(r4, prev, id))
  {
    hide IdsInv, Settles, Adds, Released, AnnounceToMatching, ReleasePublisher, UpdateMetaClientPub, UpdateMetaPub;
    hide DropPublisher, PubsOf, Names;
    var moved := prev.Some? && prev.value != id;
    var r4 := if moved then DropPublisher(r, prev.value) else r;
    var a := if isNew then AnnounceToMatching(r, o, id, name).reg else r;
    if isNew {
      AnnounceAdds(r, o, id, name);
      AddsSameNames(r, a);
    }
    var b := if moved then ReleasePublisher(a, o, prev.value).reg else a;
    if moved {
      ReleaseSettles(a, o, prev.value);
      DropSame(r, a, prev.value);
      var s := DropPublisher(a, prev.value);
      ReleasedSame(r4, s, prev.value);
      SettlesFrom(r4, s, b, Released(s, prev.value));
    } else {
      SettlesNothing(a);
      SettlesFrom(r4, a, b, {});
    }
    UpdateMetaClientAdds(b, o, c);
    var d := UpdateMetaClientPub(b, o, c).reg;
    var names := if c in b.nameOf then {ClientPubMeta(b.nameOf[c])} else {};
    SettlesAdds(r4, b, d, Displaced(r4, prev, id), names);
    AddsIds(b, d, names);
    UpdateMetaTopicAdds(d, o, name);
    SettlesAdds(r4, d, UpdateMetaPub(d, o, name).reg, Displaced(r4, prev, id), {PubMeta(name)});
  }

  lemma EnteredIds(r: Reg, c: ClientId, pubuid: nat, id: TopicId)
    requires IdsIn(r) && c in r.clients && id in r.topics
    ensures var r2 := AddAnnounced(PointPub(r, c, pubuid, id), c, id);
            IdsIn(r2) && r2.topics.Keys == r.topics.Keys
  {
    hide IdsInv, PointPub, PubsOf, WithPub, AddTo;
    PointPubViews(r, c, pubuid, id);
    assert Names(PointPub(r, c, pubuid, id).topics) == Names(r.topics);
  }

  /** In a counted state every uid points at a live topic of the name it was accepted for. */
  lemma CountedLive(r: Reg, acc: Accepted)
    requires Counted(r, acc)
    ensures forall d, q | d in r.clients && q in r.clients[d].pubs ::
              && r.clients[d].pubs[q] in r.topics
              && (d, q) in acc && acc[(d, q)] == r.topics[r.clients[d].pubs[q]].name
  {
    forall d, q | d in r.clients && q in r.clients[d].pubs
      ensures r.clients[d].pubs[q] in r.topics && (d, q) in acc
              && acc[(d, q)] == r.topics[r.clients[d].pubs[q]].name
    {
      assert PubsOf(r.clients)[d][q] in Names(r.topics);
    }
  }

  lemma MovedStruck(r: Reg, r1: Reg, gone: set<TopicId>, live: set<string>, roots: set<string>,
                    c: ClientId, pubuid: nat, id: TopicId)
    requires c in r.clients && id in r1.topics
    requires forall i :: i in gone <==> i in r1.topics && Hit(live, roots, r1.topics[i].name)
    requires forall i | i in r.topics :: i in r1.topics && r1.topics[i] == r.topics[i]
    requires forall d, q | d in r.clients && q in r.clients[d].pubs :: r.clients[d].pubs[q] in r.topics
    ensures PointsInto(WithPub(PubsOf(r.clients), c, pubuid, id), gone) <==>
            Hit(live, roots, r1.topics[id].name) || Strikes(r, live, roots, {(c, pubuid)})
  {
    hide Hit;
    var P := WithPub(PubsOf(r.clients), c, pubuid, id);
    if PointsInto(P, gone) {
      var d, q :| d in P && q in P[d] && P[d][q] in gone;
      if (d, q) != (c, pubuid) { assert r.clients[d].pubs[q] == P[d][q]; }
    }
    if Hit(live, roots, r1.topics[id].name) {
      assert c in P && pubuid in P[c] && P[c][pubuid] in gone;
    } else if Strikes(r, live, roots, {(c, pubuid)}) {
      var d, q :| d in r.clients && q in r.clients[d].pubs && (d, q) !in {(c, pubuid)}
          && r.clients[d].pubs[q] in r.topics && Hit(live, roots, r.topics[r.clients[d].pubs[q]].name);
      assert d in P && q in P[d] && P[d][q] == r.clients[d].pubs[q];
    }
  }

  /** Two live topics of one name are one topic. */
  lemma OneName(r: Reg, i: TopicId, j: TopicId)
    requires IdsIn(r) && i in r.topics && j in r.topics && r.topics[i].name == r.topics[j].name
    ensures i == j
  {
    assert i in Names(r.topics) && j in Names(r.topics);
  }

  lemma PublishStruck(r: Reg, c: ClientId, name: string, pubuid: nat, typeStr: string, props: Props)
    requires IdsIn(r) && c in r.clients
    requires forall d, q | d in r.clients && q in r.clients[d].pubs :: r.clients[d].pubs[q] in r.topics
    ensures var (r1, id) := PublishTopic(r, name, typeStr, props);
            var prev := Lookup(r.clients[c].pubs, pubuid);
            c in r1.clients && id in r1.topics &&
            var r4 := Repointed(r1, c, pubuid, id);
            PointsInto(PubsOf(r4.clients), Displaced(r4, prev, id)) <==>
            pubuid in r.clients[c].pubs && PublishStrands(r, c, name, pubuid)
  {
    hide IdsInv, Adds, PublishTopic, Repointed, PubsOf, WithPub, PointsInto, Hit, Struck, IsRetained, Strikes, Names;
    var (r1, id) := PublishTopic(r, name, typeStr, props);
    PublishTopicAdds(r, name, typeStr, props);
    AddsIds(r, r1, {name});
    var r4 := Repointed(r1, c, pubuid, id);
    RepointedTopics(r1, c, pubuid, id);
    RepointedViews(r1, c, pubuid, id);
    PointsIntoNone(PubsOf(r4.clients));
    if pubuid in r.clients[c].pubs {
      var prev := r.clients[c].pubs[pubuid];
      if prev != id {
        if r.topics[prev].name == name { OneName(r1, prev, id); }
        LastOrphaned(r, r4, prev);
        var roots := {r.topics[prev].name};
        StruckNames(r1, r4, roots, r.byName.Keys + {name});
        MovedStruck(r, r1, Struck(r4, roots), r.byName.Keys + {name}, roots, c, pubuid, id);
      }
    }
  }

  lemma {:induction false} PublishCountedIff(r: Reg, o: Oracle, acc: Accepted, c: ClientId, name: string,
                                             pubuid: nat, typeStr: string, props: Props)
    requires IdsIn(r) && Counted(r, acc) && c in r.clients && PublishAccepted(r, c, name, pubuid)
    ensures Counted(HandlePublish(r, o, c, name, pubuid, typeStr, props).reg, acc[(c, pubuid) := name]) <==>
            !(pubuid in r.clients[c].pubs && PublishStrands(r, c, name, pubuid))
  {
    hide IdsInv, Counted, Settles, Adds, Displaced, PublishTopic, PointPub, Names, PubsOf, PointsInto;
    hide PublishStrands, PublishAccepted, HandlePublish, EnterPublish, FinishPublish, DropPublisher, AddAnnounced;
    var (r1, id) := PublishTopic(r, name, typeStr, props);
    var prev := Lookup(r.clients[c].pubs, pubuid);
    CountedLive(r, acc);
    PublishTopicAdds(r, name, typeStr, props);
    AddsIds(r, r1, {name});
    AddsCounted(r, r1, {name}, acc);
    EnterPublishIs(r, c, name, pubuid, typeStr, props);
    HandlePublishIs(r, o, c, name, pubuid, typeStr, props);
    var r2 := AddAnnounced(PointPub(r1, c, pubuid, id), c, id);
    EnteredIds(r1, c, pubuid, id);
    FinishSettles(r2, o, c, name, id, name !in r.byName, prev);
    RepointedCounted(r1, acc, c, pubuid, id);
    var r4 := Repointed(r1, c, pubuid, id);
    SettlesCountedIff(r4, HandlePublish(r, o, c, name, pubuid, typeStr, props).reg, Displaced(r4, prev, id),
                      acc[(c, pubuid) := name]);
    PublishStruck(r, c, name, pubuid, typeStr, props);
  }
}
