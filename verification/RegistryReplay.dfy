/** What a subscriber is sent of a topic's past.
    Concerns core/src/websocket/protocol.rs. */
module RegistryReplay {
  import opened Values
  import opened Registry
  import opened RegistryInv
  import opened RegistryOps
  import opened RegistryPubs
  import opened RegistrySubs
  import opened RegistryConn
  import opened RegistryFrames
  import opened RegistryTrim
  import opened RegistryRuns
  import opened RegistryStrands
  import opened RegistryTallies
  import opened RegistryTheorems
  import opened RegistryHeard

  /** The values of topic `name` among `routes`, in order. */
  ghost function ValuesFor(routes: seq<Route>, name: string): seq<Route> {
    if routes == [] then []
    else
      var n := |routes| - 1;
      var f := routes[n].frame;
      ValuesFor(routes[..n], name) + (if f.ValueFrame? && f.topic == name then [routes[n]] else [])
  }

  lemma {:induction false} ValuesSplit(a: seq<Route>, b: seq<Route>, name: string)
    ensures ValuesFor(a + b, name) == ValuesFor(a, name) + ValuesFor(b, name)
    decreases |b|
  {
    if b == [] {
      assert a + b == a;
    } else {
      var n := |b| - 1;
      assert (a + b)[..|a + b| - 1] == a + b[..n];
      ValuesSplit(a, b[..n], name);
    }
  }

  lemma ValuesOne(rt: Route, name: string)
    ensures ValuesFor([rt], name) == if rt.frame.ValueFrame? && rt.frame.topic == name then [rt] else []
  {
    assert [rt][..0] == [];
  }

  /** No value but a meta topic's. */
  ghost predicate MetaValues(routes: seq<Route>) {
    forall k | 0 <= k < |routes| :: routes[k].frame.ValueFrame? ==> IsMeta(routes[k].frame.topic)
  }

  lemma {:induction false} MetaValuesNone(routes: seq<Route>, name: string)
    requires MetaValues(routes) && !IsMeta(name)
    ensures ValuesFor(routes, name) == []
  {
    hide IsMeta;
    if routes != [] { MetaValuesNone(routes[..|routes| - 1], name); }
  }

  lemma {:induction false} TargetsMeta(r: Reg, id: TopicId, name: string, targets: seq<ClientId>)
    ensures MetaValues(AnnounceTargets(r, id, name, targets).routes)
    decreases |targets|
  {
    hide IsMeta, WantsValues, AddTo;
    if targets != [] { TargetsMeta(r, id, name, targets[..|targets| - 1]); }
  }

  lemma TopicValueMeta(r: Reg, id: TopicId, value: Value, ts: nat)
    requires id in r.topics ==> IsMeta(r.topics[id].name)
    ensures MetaValues(TopicValue(r, id, value, ts).routes)
  {
    hide XtDataType, Store, Replaces, IsMeta;
  }

  lemma {:induction false} PublishMetaValues(r: Reg, o: Oracle, name: string)
    requires IdsIn(r) && IsMeta(name)
    ensures MetaValues(PublishMeta(r, o, name).routes)
  {
    hide IdsInv, Adds, TopicValue, AnnounceTargets, MatchAll, MatchingClients, Create, IsMeta, Names;
    var (a, id) := EnsureMetaTopic(r, o, name);
    EnsureMetaAdds(r, o, name);
    if name !in r.byName {
      var r0 := Create(r, MetaTopic(name)).0;
      var r1 := r0.(clients := MatchAll(r0.clients, id, name), ticks := r0.ticks + 1);
      TargetsMeta(r1, id, name, MatchingClients(r1.clients, name, o.order(r0.ticks, r0.clients.Keys)));
    }
    var k := a.reg.ticks;
    if o.payload(k).Some? { TopicValueMeta(a.reg.(ticks := k + 1), id, Bytes(o.payload(k).value), o.now(k)); }
  }

  lemma {:induction false} MetaSubsListValues(r: Reg, o: Oracle, names: seq<string>)
    requires IdsIn(r)
    ensures MetaValues(UpdateMetaSubs(r, o, names).routes)
    decreases |names|
  {
    hide IdsInv, Adds, PublishMeta, SubMeta, SubMetas, IsMeta, Names;
    if names != [] {
      var n := |names| - 1;
      var a := UpdateMetaSubs(r, o, names[..n]);
      MetaSubsListValues(r, o, names[..n]);
      UpdateMetaSubsAdds(r, o, names[..n]);
      AddsIds(r, a.reg, SubMetas(names[..n]));
      MetaNames(names[n]);
      PublishMetaValues(a.reg, o, SubMeta(names[n]));
    }
  }

  lemma MetaSubsValues(r: Reg, o: Oracle, c: ClientId, ids: set<TopicId>)
    requires IdsIn(r)
    ensures MetaValues(MetaSubs(r, o, c, ids).routes)
  {
    hide IdsInv, Adds, PublishMeta, UpdateMetaSubs, ClientSubMeta, IsMeta, Names, LiveNames;
    var d := UpdateMetaClientSub(r, o, c);
    UpdateMetaClientAdds(r, o, c);
    AddsIds(r, d.reg, if c in r.nameOf then {ClientSubMeta(r.nameOf[c])} else {});
    if c in r.nameOf {
      MetaNames(r.nameOf[c]);
      PublishMetaValues(r, o, ClientSubMeta(r.nameOf[c]));
    }
    AddsTick(d.reg, d.reg.ticks + 1);
    AddsIds(d.reg, d.reg.(ticks := d.reg.ticks + 1), {});
    MetaSubsListValues(d.reg.(ticks := d.reg.ticks + 1), o, LiveNames(d.reg, o.order(d.reg.ticks, ids), true));
  }

  // --------------------------------------------------------------- the replay

  lemma AnnounceOnceValues(r: Reg, c: ClientId, id: TopicId, name: string)
    ensures ValuesFor(AnnounceOnce(r, c, id).routes, name) == []
  {
    hide AddTo;
    ValuesOne(Route(c, AnnounceFrame(r, id, None)), name);
  }

  lemma LateValues(r: Reg, c: ClientId, id: TopicId, name: string)
    requires id in r.topics
    ensures ValuesFor(Late(r, c, id), name) == if r.topics[id].name == name then Late(r, c, id) else []
  {
    hide ValuesFor;
    if Late(r, c, id) != [] {
      ValuesOne(Late(r, c, id)[0], name);
    } else {
      ValuesNone(name);
    }
  }

  lemma ValuesNone(name: string)
    ensures ValuesFor([], name) == []
  {
  }

  lemma SubscribeOneValues(r: Reg, c: ClientId, topicsOnly: bool, id: TopicId, name: string)
    requires id in r.topics
    ensures ValuesFor(SubscribeOne(r, c, topicsOnly, id).routes, name) ==
            if !topicsOnly && r.topics[id].name == name then Late(r, c, id) else []
  {
    hide AnnounceOnce, Late, ValuesFor, SubscribeOne;
    var a, b := AnnounceOnce(r, c, id).routes, if topicsOnly then [] else Late(r, c, id);
    SubscribeOneIs(r, c, topicsOnly, id);
    ValuesSplit(a, b, name);
    AnnounceOnceValues(r, c, id, name);
    LateValues(r, c, id, name);
    ValuesNone(name);
  }

  lemma LateSame(r: Reg, r': Reg, c: ClientId, id: TopicId)
    requires r'.topics == r.topics
    ensures Late(r', c, id) == Late(r, c, id)
  {
  }

  /** Subscribing to each of `ids` replays one topic at most once. */
  lemma {:induction false} SubscribeEachValues(r: Reg, c: ClientId, topicsOnly: bool, ids: seq<TopicId>, i: TopicId)
    requires IdsIn(r) && i in r.topics && NoDup(ids) && forall k | 0 <= k < |ids| :: ids[k] in r.topics
    ensures ValuesFor(SubscribeEach(r, c, topicsOnly, ids).routes, r.topics[i].name) ==
            if !topicsOnly && i in ids then Late(r, c, i) else []
    decreases |ids|
  {
    hide IdsInv, SubscribeOne, Late, Names;
    var name := r.topics[i].name;
    if ids != [] {
      var n := |ids| - 1;
      var a := SubscribeEach(r, c, topicsOnly, ids[..n]);
      SubscribeEachValues(r, c, topicsOnly, ids[..n], i);
      SubscribeEachShape(r, c, topicsOnly, ids[..n]);
      SubscribeOneValues(a.reg, c, topicsOnly, ids[n], name);
      ValuesSplit(a.routes, SubscribeOne(a.reg, c, topicsOnly, ids[n]).routes, name);
      LateSame(r, a.reg, c, ids[n]);
      if r.topics[ids[n]].name == name { OneName(r, i, ids[n]); }
      assert ids == ids[..n] + [ids[n]];
      InPrefix(ids, i);
    }
  }

  lemma InPrefix(ids: seq<TopicId>, i: TopicId)
    requires ids != [] && NoDup(ids)
    ensures i in ids <==> i in ids[..|ids| - 1] || i == ids[|ids| - 1]
    ensures i == ids[|ids| - 1] ==> i !in ids[..|ids| - 1]
  {
    assert ids == ids[..|ids| - 1] + [ids[|ids| - 1]];
  }

  lemma EnterSubValues(r: Reg, c: ClientId, u: nat, patterns: seq<string>, prefix: bool, topicsOnly: bool, i: TopicId)
    requires IdsIn(r) && i in r.topics
    ensures var sub := NewSub(r, patterns, prefix, topicsOnly);
            ValuesFor(EnterSub(r, c, u, sub).routes, r.topics[i].name) ==
            if !topicsOnly && Covers(sub, r.topics[i].name) then Late(r, c, i) else []
  {
    hide IdsInv, SubscribeEach, NewSub, Covers, Ascending, Late, Names;
    var sub := NewSub(r, patterns, prefix, topicsOnly);
    var ids := Ascending(sub.matched, r.nextId);
    NewSubMatches(r, patterns, prefix, topicsOnly);
    AscendingMembers(sub.matched, r.nextId);
    forall k | 0 <= k < |ids| ensures ids[k] in r.topics {
      assert ids[k] in ids;
      ViewsAt(r.topics, ids[k]);
    }
    ViewsAt(r.topics, i);
    SubscribeEachValues(r, c, topicsOnly, ids, i);
  }

  /** Of a topic without a `$` in front, a subscriber is sent one value exactly when it asks
      for values, covers the name and the topic is cached and was sent something; that value
      is the latest to arrive among the highest-stamped the run delivered to the topic. */
  lemma {:induction false} SubscriberIsSentLatest(o: Oracle, steps: seq<Step>, c: ClientId, patterns: seq<string>,
                                                  u: nat, prefix: bool, topicsOnly: bool, i: TopicId)
    requires Legal(o, steps) && c in Run(o, steps).reg.clients && SubscribeAccepted(Run(o, steps).reg, c, u)
    requires i in Run(o, steps).reg.topics && !IsMeta(Run(o, steps).reg.topics[i].name)
    ensures var r := Run(o, steps).reg;
            var t := r.topics[i];
            var values := ValuesFor(Apply(r, o, Subscribe(c, patterns, u, prefix, topicsOnly)).routes, t.name);
            if !topicsOnly && Covers(Subscription(patterns, prefix, topicsOnly, {}), t.name) && t.cached
               && Heard(o, steps, i) != []
            then exists v :: LatestOfHighest(Heard(o, steps, i), v)
                             && values == [Route(c, ValueFrame(t.name, i, v.ts, v.value))]
            else values == []
  {
    hide Run, Legal, Mid, IdsInv, IsMeta, Heard, Covers, DropSub, NewSub, EnterSub, MetaSubs, Touched, HandleSubscribe;
    hide SubscribeAccepted, LatestOfHighest, Late, PubsOf, Names;
    RunInv(o, steps);
    var w := Run(o, steps);
    var r := w.reg;
    InvParts(r, w.hist);
    RetainsWhatItHeard(o, steps, i);
    LateValueIsLatest(o, steps, c, i);
    var name := r.topics[i].name;
    var r1 := DropSub(r, c, u);
    DropSubOnly(r, c, u);
    DropSubGone(r, c, u);
    HandleSubscribeIs(r, o, c, patterns, u, prefix, topicsOnly);
    var sub := NewSub(r1, patterns, prefix, topicsOnly);
    var a := EnterSub(r1, c, u, sub);
    EnterSubOnly(r1, c, u, sub);
    OnlySubsIds(r, r1);
    OnlySubsIds(r1, a.reg);
    EnterSubValues(r1, c, u, patterns, prefix, topicsOnly, i);
    NewSubCovers(r1, patterns, prefix, topicsOnly, name);
    LateSame(r, r1, c, i);
    var ids := Touched(r, c, u) + sub.matched;
    var b := MetaSubs(a.reg, o, c, ids);
    MetaSubsValues(a.reg, o, c, ids);
    MetaValuesNone(b.routes, name);
    ValuesSplit(a.routes, b.routes, name);
  }

  lemma OnlySubsIds(r: Reg, r': Reg)
    requires OnlySubs(r, r') && IdsIn(r)
    ensures IdsIn(r') && r'.topics == r.topics && r'.clients.Keys == r.clients.Keys
  {
    hide IdsInv, PubsOf, Names;
  }

  lemma NewSubCovers(r: Reg, patterns: seq<string>, prefix: bool, topicsOnly: bool, name: string)
    ensures Covers(NewSub(r, patterns, prefix, topicsOnly), name) ==
            Covers(Subscription(patterns, prefix, topicsOnly, {}), name)
  {
    CoversByPatterns(NewSub(r, patterns, prefix, topicsOnly), Subscription(patterns, prefix, topicsOnly, {}), name);
  }
}
