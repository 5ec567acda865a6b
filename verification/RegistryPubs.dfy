/** Deleting topics and releasing publishers: the invariant through both.  Concerns core/src/websocket/protocol.rs. */
module RegistryPubs {
  import opened Values
  import opened Registry
  import opened RegistryInv
  import opened RegistryOps

  // ---------------------------------------------------------------- deletion

  lemma RemoveTopicMid(r: Reg, h: History, pc: ClientId, pend: set<TopicId>, id: TopicId)
    requires Mid(r, h, pc, pend) && id in r.topics
    ensures Mid(RemoveTopic(r, id), h, pc, pend)
  {
    hide IdsInv, Sound, FanInv, ListsInv, ClientNamesInv, UnmatchAll, UnmatchSubs, TopicOk;
    var N, S := Names(r.topics), SubsOf(r.clients);
    RemoveIds(r, id);
    TopicViews(r.topics, id, r.topics[id]);
    UnmatchViews(r.clients, id);
    UnmatchSound(N, S, id);
    UnmatchFan(S, r.subscribers, pc, pend, id);
    ListsRemove(N, r.subscribers, r.announced, h.seen, h.table, id);
  }

  lemma RemoveTopicKeeps(r: Reg, id: TopicId)
    requires TopicsOk(r.topics) && id in r.topics
    ensures Keeps(r, RemoveTopic(r, id))
  {
    hide Full, Complete, PersistentSnapshot, UnmatchAll, UnmatchSubs, LatestOfHighest;
    TopicViews(r.topics, id, r.topics[id]);
    UnmatchViews(r.clients, id);
    var N, S := Names(r.topics), SubsOf(r.clients);
    if Complete(N, S) { UnmatchComplete(N, S, id); }
    if Full(S, r.subscribers) { UnmatchFull(S, r.subscribers, id); }
    if !r.topics[id].persistent { SnapshotWithout(r.topics, id); }
  }

  lemma {:induction false} DeleteMid(r: Reg, h: History, pc: ClientId, pend: set<TopicId>, id: TopicId)
    requires Mid(r, h, pc, pend)
    ensures Mid(Delete(r, id), h, pc, pend)
    ensures Keeps(r, Delete(r, id))
    decreases |r.topics|, 0
  {
    hide IdsInv, Sound, FanInv, ListsInv, ClientNamesInv, Full, Complete, PersistentSnapshot, TopicsOk, RemoveTopic;
    if id in r.topics {
      var r1 := RemoveTopic(r, id);
      RemoveShrinks(r, id);
      var name := r.topics[id].name;
      RemoveTopicMid(r, h, pc, pend, id);
      RemoveTopicKeeps(r, id);
      DeleteNamedMid(r1, h, pc, pend, PubMeta(name));
      DeleteNamedMid(DeleteNamed(r1, PubMeta(name)), h, pc, pend, SubMeta(name));
    }
  }

  lemma RemoveShrinks(r: Reg, id: TopicId)
    requires id in r.topics
    ensures |RemoveTopic(r, id).topics| < |r.topics|
  {
    assert RemoveTopic(r, id).topics.Keys == r.topics.Keys - {id};
  }

  lemma NamedTopic(r: Reg, name: string)
    requires IdsInv(Names(r.topics), r.byName, r.freed, r.nextId) && name in r.byName
    ensures r.byName[name] in r.topics && r.topics[r.byName[name]].name == name
  {
    assert r.byName[name] in Names(r.topics);
  }

  lemma {:induction false} DeleteNamedMid(r: Reg, h: History, pc: ClientId, pend: set<TopicId>, name: string)
    requires Mid(r, h, pc, pend)
    ensures Mid(DeleteNamed(r, name), h, pc, pend)
    ensures Keeps(r, DeleteNamed(r, name))
    decreases |r.topics|, 1
  {
    hide IdsInv, Sound, FanInv, ListsInv, ClientNamesInv, Full, Complete, PersistentSnapshot, TopicsOk;
    if name in r.byName {
      NamedTopic(r, name);
      DeleteMid(r, h, pc, pend, r.byName[name]);
    }
  }

  lemma QuietFrames(h: History, r: Reg, routes: seq<Route>, pc: ClientId, pend: set<TopicId>)
    requires Mid(r, h, pc, pend)
    requires forall k | 0 <= k < |routes| :: !routes[k].frame.Announce? && !routes[k].frame.ValueFrame?
    ensures Safe(h, Out(r, routes), pc, pend)
  {
    ReplayQuiet(h.table, routes);
    assert Sent(h, routes) == h;
  }

  lemma DeleteTopicMid(r: Reg, h: History, pc: ClientId, pend: set<TopicId>, id: TopicId)
    requires Mid(r, h, pc, pend)
    ensures Safe(h, DeleteTopic(r, id), pc, pend)
    ensures Keeps(r, DeleteTopic(r, id).reg)
  {
    hide Mid, Full, Complete, PersistentSnapshot, Resolves, Delete;
    if id in r.topics {
      DeleteMid(r, h, pc, pend, id);
      QuietFrames(h, Delete(r, id), ToEach(ListAt(r.announced, id), Unannounce(id, r.topics[id].name)), pc, pend);
    } else {
      Quiet(h, r, pc, pend);
    }
  }

  // ------------------------------------------------------------------ release

  lemma DropPublisherMid(r: Reg, h: History, pc: ClientId, pend: set<TopicId>, id: TopicId)
    requires Mid(r, h, pc, pend)
    ensures Mid(DropPublisher(r, id), h, pc, pend)
  {
    hide Mid, TopicOk, RowOf;
    if id in r.topics {
      var n := r.topics[id].publishers;
      var t := r.topics[id].(publishers := if n == 0 then 0 else n - 1);
      MidTopicsOk(r, h, pc, pend);
      TopicOkIn(r.topics, id);
      TopicOkByParts(r.topics[id], t);
      SetTopicMid(r, h, pc, pend, id, t);
    }
  }

  lemma DropPublisherKeeps(r: Reg, id: TopicId)
    requires TopicsOk(r.topics)
    ensures Keeps(r, DropPublisher(r, id))
  {
    hide Full, Complete, PersistentSnapshot, RowOf, TopicOk, Names, Counts, SubsOf, PubsOf;
    if id in r.topics {
      var n := r.topics[id].publishers;
      var t := r.topics[id].(publishers := if n == 0 then 0 else n - 1);
      TopicViews(r.topics, id, t);
      TopicOkByParts(r.topics[id], t);
      SnapshotAt(r.topics, id, t);
    }
  }

  lemma MidTopicsOk(r: Reg, h: History, pc: ClientId, pend: set<TopicId>)
    requires Mid(r, h, pc, pend)
    ensures TopicsOk(r.topics)
    ensures IdsInv(Names(r.topics), r.byName, r.freed, r.nextId)
  {
  }

  lemma {:induction false} ReleasePublisherMid(r: Reg, o: Oracle, h: History, pc: ClientId, pend: set<TopicId>,
                                               id: TopicId)
    requires Mid(r, h, pc, pend)
    ensures Safe(h, ReleasePublisher(r, o, id), pc, pend)
    ensures ValidOracle(o) ==> Keeps(r, ReleasePublisher(r, o, id).reg)
  {
    hide Mid, Full, Complete, PersistentSnapshot, Resolves, DeleteTopic, UpdateMetaPub, DropPublisher, IsRetained;
    hide ValidOracle;
    if id !in r.topics {
      Quiet(h, r, pc, pend);
    } else {
      DropPublisherMid(r, h, pc, pend, id);
      MidTopicsOk(r, h, pc, pend);
      DropPublisherKeeps(r, id);
      var r1 := DropPublisher(r, id);
      var a := if Orphaned(r1, id) then DeleteTopic(r1, id) else Out(r1, []);
      if Orphaned(r1, id) {
        DeleteTopicMid(r1, h, pc, pend, id);
      } else {
        Quiet(h, r1, pc, pend);
      }
      var name := r.topics[id].name;
      UpdateMetaPubMid(a.reg, o, Sent(h, a.routes), pc, pend, name);
      Chain(h, a, UpdateMetaPub(a.reg, o, name), pc, pend);
    }
  }
}
