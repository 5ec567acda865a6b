/** What the operations of the registry leave alone: which topics a delete takes with it,
    and that nothing after it touches publishers.
    Concerns core/src/websocket/protocol.rs. */
module RegistryFrames {
  import opened Values
  import opened Registry
  import opened RegistryInv
  import opened RegistryOps
  import opened RegistryPubs

  ghost predicate IdsIn(r: Reg) { IdsInv(Names(r.topics), r.byName, r.freed, r.nextId) }

  // ------------------------------------------------------------------ the frame

  /** Two states of one topic between which nothing moved but the values of a meta topic. */
  predicate Alike(t: Topic, t': Topic) {
    if IsMeta(t.name) then t' == t.(current := t'.current, history := t'.history) else t' == t
  }

  /** No publisher uid changes hands from `r` to `r'`: the topics in `gone` are deleted, the
      others stay, and whatever is new, under a freed id or not, has no publisher. */
  ghost predicate Settles(r: Reg, r': Reg, gone: set<TopicId>) {
    && PubsOf(r'.clients) == PubsOf(r.clients)
    && (forall i | i in r.topics && i !in gone :: i in r'.topics && Alike(r.topics[i], r'.topics[i]))
    && (forall i | i in r'.topics :: (i in r.topics && i !in gone) || r'.topics[i].publishers == 0)
  }

  lemma SettlesTrans(r: Reg, r': Reg, r'': Reg, gone: set<TopicId>, more: set<TopicId>)
    requires Settles(r, r', gone) && Settles(r', r'', more)
    ensures Settles(r, r'', gone + more)
  {
  }

  /** What a subscription asks for, apart from what it matches at the moment. */
  ghost function AsksOf(clients: map<ClientId, Client>): map<ClientId, map<nat, Subscription>> {
    map c | c in clients :: map u | u in clients[c].subs :: clients[c].subs[u].(matched := {})
  }

  /** A change that at most creates the topics `names`: nobody's publishers, subscriptions or
      name are touched, and no topic goes. */
  ghost predicate Adds(r: Reg, r': Reg, names: set<string>) {
    && Settles(r, r', {})
    && AsksOf(r'.clients) == AsksOf(r.clients)
    && r'.nameOf == r.nameOf
    && r.byName.Keys <= r'.byName.Keys <= r.byName.Keys + names
    && IdsIn(r')
    && (Dense(r) ==> Dense(r'))
  }

  /** No id handed out so far is free. */
  ghost predicate Dense(r: Reg) { forall i: nat | i < r.nextId :: i in r.topics }

  /** What no addition changes. */
  lemma AddsSame(r: Reg, r': Reg, names: set<string>)
    requires Adds(r, r', names)
    ensures IdsIn(r') && PubsOf(r'.clients) == PubsOf(r.clients) && AsksOf(r'.clients) == AsksOf(r.clients)
    ensures r'.clients.Keys == r.clients.Keys && r'.nameOf == r.nameOf
    ensures r.byName.Keys <= r'.byName.Keys <= r.byName.Keys + names
    ensures forall i | i in r.topics :: i in r'.topics && Alike(r.topics[i], r'.topics[i])
    ensures Dense(r) ==> Dense(r')
  {
    hide IdsInv, AsksOf;
    assert PubsOf(r'.clients).Keys == r'.clients.Keys && PubsOf(r.clients).Keys == r.clients.Keys;
  }

  lemma AddsTrans(r: Reg, r': Reg, r'': Reg, names: set<string>, more: set<string>)
    requires Adds(r, r', names) && Adds(r', r'', more)
    ensures Adds(r, r'', names + more)
  {
    hide IdsInv, Settles, AsksOf;
    var none: set<TopicId> := {};
    SettlesTrans(r, r', r'', none, none);
    assert none + none == none;
  }

  lemma AddsMore(r: Reg, r': Reg, names: set<string>, more: set<string>)
    requires Adds(r, r', names) && names <= more
    ensures Adds(r, r', more)
  {
    hide IdsInv, Settles, AsksOf;
  }

  lemma AddsNothing(r: Reg)
    requires IdsIn(r)
    ensures Adds(r, r, {})
  {
    hide IdsInv;
  }

  lemma AddsTick(r: Reg, k: nat)
    requires IdsIn(r)
    ensures Adds(r, r.(ticks := k), {})
  {
    hide IdsInv;
  }

  // ------------------------------------------------------------------ meta topics

  lemma MatchAsks(clients: map<ClientId, Client>, id: TopicId, name: string)
    ensures AsksOf(MatchAll(clients, id, name)) == AsksOf(clients)
  {
    hide Covers;
    var after := MatchAll(clients, id, name);
    forall c | c in clients ensures AsksOf(after)[c] == AsksOf(clients)[c] {
      assert forall u | u in clients[c].subs ::
          after[c].subs[u].(matched := {}) == clients[c].subs[u].(matched := {});
    }
  }

  lemma AnnounceAdds(r: Reg, o: Oracle, id: TopicId, name: string)
    requires IdsIn(r)
    ensures Adds(r, AnnounceToMatching(r, o, id, name).reg, {})
    ensures AnnounceToMatching(r, o, id, name).reg.topics == r.topics
  {
    hide IdsInv, MatchAll, MatchingClients, AnnounceTargets, AsksOf, PubsOf, SubsOf;
    var r1 := r.(clients := MatchAll(r.clients, id, name), ticks := r.ticks + 1);
    AnnounceTargetsShape(r1, id, name, MatchingClients(r1.clients, name, o.order(r.ticks, r.clients.Keys)));
    MatchViews(r.clients, id, name);
    MatchAsks(r.clients, id, name);
  }

  lemma TopicValueSettles(r: Reg, id: TopicId, value: Value, ts: nat)
    requires id in r.topics ==> IsMeta(r.topics[id].name)
    ensures Settles(r, TopicValue(r, id, value, ts).reg, {})
  {
    hide XtDataType, Replaces, PubsOf;
  }

  lemma TopicValueAdds(r: Reg, id: TopicId, value: Value, ts: nat)
    requires IdsIn(r) && (id in r.topics ==> IsMeta(r.topics[id].name))
    ensures Adds(r, TopicValue(r, id, value, ts).reg, {})
  {
    hide IdsInv, TopicValue, AsksOf, Names, PubsOf, Alike;
    TopicValueShape(r, id, value, ts);
    TopicValueSettles(r, id, value, ts);
  }

  lemma CreateDense(r: Reg, t: Topic)
    requires IdsIn(r) && Dense(r) && t.name !in r.byName
    ensures Dense(Create(r, t).0)
  {
    CreateShape(r, t);
    hide IdsInv, Create;
  }

  lemma CreateAdds(r: Reg, t: Topic)
    requires IdsIn(r) && t.name !in r.byName && t.publishers == 0
    ensures Adds(r, Create(r, t).0, {t.name})
  {
    hide IdsInv, AsksOf, PubsOf, NoDup, Create;
    CreateShape(r, t);
    CreateIds(r, t);
    if Dense(r) { CreateDense(r, t); }
  }

  lemma EnsureMetaAdds(r: Reg, o: Oracle, name: string)
    requires IdsIn(r)
    ensures Adds(r, EnsureMetaTopic(r, o, name).0.reg, {name})
    ensures var (a, id) := EnsureMetaTopic(r, o, name); id in a.reg.topics && a.reg.topics[id].name == name
  {
    hide IdsInv, Adds, AnnounceToMatching, Create, NoDup, Names;
    if name in r.byName {
      AddsNothing(r);
      AddsMore(r, r, {}, {name});
      NamedTopic(r, name);
    } else {
      var (r1, id) := Create(r, MetaTopic(name));
      CreateShape(r, MetaTopic(name));
      CreateAdds(r, MetaTopic(name));
      assert IdsIn(r1) by { AddsIds(r, r1, {name}); }
      AnnounceAdds(r1, o, id, name);
      AddsTrans(r, r1, AnnounceToMatching(r1, o, id, name).reg, {name}, {});
      assert {name} + {} == {name};
    }
  }

  lemma AddsIds(r: Reg, r': Reg, names: set<string>)
    requires Adds(r, r', names)
    ensures IdsIn(r') && Settles(r, r', {}) && r'.nameOf == r.nameOf
  {
    hide IdsInv, Settles;
  }

  lemma MetaNames(name: string)
    ensures IsMeta(PubMeta(name)) && IsMeta(SubMeta(name))
    ensures IsMeta(ClientPubMeta(name)) && IsMeta(ClientSubMeta(name))
  {
  }

  lemma {:induction false} PublishMetaAdds(r: Reg, o: Oracle, name: string)
    requires IdsIn(r) && IsMeta(name)
    ensures Adds(r, PublishMeta(r, o, name).reg, {name})
  {
    hide IdsInv, Adds, EnsureMetaTopic, TopicValue;
    var (a, id) := EnsureMetaTopic(r, o, name);
    var k := a.reg.ticks;
    var r1 := a.reg.(ticks := k + 1);
    EnsureMetaAdds(r, o, name);
    AddsIds(r, a.reg, {name});
    AddsTick(a.reg, k + 1);
    AddsTrans(r, a.reg, r1, {name}, {});
    assert {name} + {} == {name};
    if o.payload(k).Some? {
      AddsIds(r, r1, {name});
      var b := TopicValue(r1, id, Bytes(o.payload(k).value), o.now(k));
      TopicValueAdds(r1, id, Bytes(o.payload(k).value), o.now(k));
      AddsTrans(r, r1, b.reg, {name}, {});
    }
  }

  lemma UpdateMetaClientAdds(r: Reg, o: Oracle, c: ClientId)
    requires IdsIn(r)
    ensures var names := if c in r.nameOf then {ClientPubMeta(r.nameOf[c])} else {};
            Adds(r, UpdateMetaClientPub(r, o, c).reg, names)
    ensures var names := if c in r.nameOf then {ClientSubMeta(r.nameOf[c])} else {};
            Adds(r, UpdateMetaClientSub(r, o, c).reg, names)
  {
    hide IdsInv, Adds, PublishMeta, ClientPubMeta, ClientSubMeta;
    if c in r.nameOf {
      MetaNames(r.nameOf[c]);
      PublishMetaAdds(r, o, ClientPubMeta(r.nameOf[c]));
      PublishMetaAdds(r, o, ClientSubMeta(r.nameOf[c]));
    } else {
      AddsNothing(r);
    }
  }

  lemma UpdateMetaTopicAdds(r: Reg, o: Oracle, name: string)
    requires IdsIn(r)
    ensures Adds(r, UpdateMetaPub(r, o, name).reg, {PubMeta(name)})
    ensures Adds(r, UpdateMetaSub(r, o, name).reg, {SubMeta(name)})
  {
    hide IdsInv, Adds, PublishMeta, PubMeta, SubMeta;
    MetaNames(name);
    if name in r.byName {
      PublishMetaAdds(r, o, PubMeta(name));
      PublishMetaAdds(r, o, SubMeta(name));
    } else {
      AddsNothing(r);
      AddsMore(r, r, {}, {PubMeta(name)});
      AddsMore(r, r, {}, {SubMeta(name)});
    }
  }

  ghost function PubMetas(names: seq<string>): set<string> { set k | 0 <= k < |names| :: PubMeta(names[k]) }

  ghost function SubMetas(names: seq<string>): set<string> { set k | 0 <= k < |names| :: SubMeta(names[k]) }

  lemma MetasLast(names: seq<string>)
    requires names != []
    ensures var n := |names| - 1; PubMetas(names) == PubMetas(names[..n]) + {PubMeta(names[n])}
    ensures var n := |names| - 1; SubMetas(names) == SubMetas(names[..n]) + {SubMeta(names[n])}
  {
    hide PubMeta, SubMeta;
    var n := |names| - 1;
    assert forall k | 0 <= k < n :: names[..n][k] == names[k];
  }

  lemma {:induction false} UpdateMetaSubsAdds(r: Reg, o: Oracle, names: seq<string>)
    requires IdsIn(r)
    ensures Adds(r, UpdateMetaSubs(r, o, names).reg, SubMetas(names))
    decreases |names|
  {
    hide IdsInv, Adds, UpdateMetaSub, SubMeta;
    if names == [] {
      AddsNothing(r);
      assert SubMetas(names) == {};
    } else {
      var n := |names| - 1;
      var a := UpdateMetaSubs(r, o, names[..n]);
      UpdateMetaSubsAdds(r, o, names[..n]);
      AddsIds(r, a.reg, SubMetas(names[..n]));
      UpdateMetaTopicAdds(a.reg, o, names[n]);
      AddsTrans(r, a.reg, UpdateMetaSub(a.reg, o, names[n]).reg, SubMetas(names[..n]), {SubMeta(names[n])});
      MetasLast(names);
    }
  }

  lemma {:induction false} UpdateMetaPubsAdds(r: Reg, o: Oracle, names: seq<string>)
    requires IdsIn(r)
    ensures Adds(r, UpdateMetaPubs(r, o, names).reg, PubMetas(names))
    decreases |names|
  {
    hide IdsInv, Adds, UpdateMetaPub, PubMeta;
    if names == [] {
      AddsNothing(r);
      assert PubMetas(names) == {};
    } else {
      var n := |names| - 1;
      var a := UpdateMetaPubs(r, o, names[..n]);
      UpdateMetaPubsAdds(r, o, names[..n]);
      AddsIds(r, a.reg, PubMetas(names[..n]));
      UpdateMetaTopicAdds(a.reg, o, names[n]);
      AddsTrans(r, a.reg, UpdateMetaPub(a.reg, o, names[n]).reg, PubMetas(names[..n]), {PubMeta(names[n])});
      MetasLast(names);
    }
  }

  lemma UpdateMetaSubForAdds(r: Reg, o: Oracle, ids: set<TopicId>)
    requires IdsIn(r)
    ensures Adds(r, UpdateMetaSubFor(r, o, ids).reg, SubMetas(LiveNames(r, o.order(r.ticks, ids), true)))
  {
    hide IdsInv, Adds, UpdateMetaSubs, LiveNames, SubMetas;
    var names := LiveNames(r, o.order(r.ticks, ids), true);
    var r1 := r.(ticks := r.ticks + 1);
    AddsTick(r, r.ticks + 1);
    AddsIds(r, r1, {});
    UpdateMetaSubsAdds(r1, o, names);
    AddsTrans(r, r1, UpdateMetaSubs(r1, o, names).reg, {}, SubMetas(names));
    assert {} + SubMetas(names) == SubMetas(names);
  }
}
