/** The registry as the server keeps it: one object whose handlers update its maps in
    place.  Each handler is proved to do what its specification in module Registry
    says, and `Serve` ties the object to the runs the main results are about.
    Models core/src/websocket/protocol.rs. */
module RegistryClass {
  import opened Values
  import ClientNames
  import opened Registry
  import opened RegistryInv
  import opened RegistryOps
  import opened RegistryRuns
  import opened RegistryTheorems

  /** Matching twice is matching once, and does not change which names are covered. */
  lemma MatchCovers(cl: Client, id: TopicId, name: string)
    ensures Match(cl, id, name).subs.Keys == cl.subs.Keys
    ensures HasMatch(Match(cl, id, name), name) <==> HasMatch(cl, name)
    ensures WantsValues(Match(cl, id, name), name) <==> WantsValues(cl, name)
  {
    var m := Match(cl, id, name);
    forall u | u in cl.subs ensures Covers(m.subs[u], name) == Covers(cl.subs[u], name) {
      CoversByPatterns(m.subs[u], cl.subs[u], name);
    }
  }

  /** The clients a new topic is announced to, each with whether it asks for values. */
  ghost function Targets(clients: map<ClientId, Client>, name: string, order: seq<ClientId>): seq<(ClientId, bool)> {
    if order == [] then []
    else
      var n := |order| - 1;
      var c := order[n];
      Targets(clients, name, order[..n])
      + (if c in clients && HasMatch(clients[c], name) then [(c, WantsValues(clients[c], name))] else [])
  }

  lemma {:induction false} TargetsMatch(clients: map<ClientId, Client>, name: string, order: seq<ClientId>)
    ensures var ts, ms := Targets(clients, name, order), MatchingClients(clients, name, order);
            && |ts| == |ms|
            && forall k | 0 <= k < |ts| ::
                 ts[k].0 == ms[k] && ts[k].0 in clients && (ts[k].1 <==> WantsValues(clients[ts[k].0], name))
  {
    hide HasMatch, WantsValues;
    if order != [] { TargetsMatch(clients, name, order[..|order| - 1]); }
  }

  lemma Fewer(topics: map<TopicId, Topic>, id: TopicId)
    requires id in topics
    ensures |topics - {id}| < |topics|
  {
    assert (topics - {id}).Keys == topics.Keys - {id};
    assert |(topics - {id}).Keys| == |topics - {id}| && |topics.Keys| == |topics|;
  }

  ghost predicate AllKnown(frames: seq<Frame>) { forall k | 0 <= k < |frames| :: KnownAs(frames, k) }

  class NtRegistry {
    var topics: map<TopicId, Topic>
    var byName: map<string, TopicId>
    var clients: map<ClientId, Client>
    var subscribers: map<TopicId, seq<ClientId>>
    var announced: map<TopicId, seq<ClientId>>
    var freed: seq<TopicId>
    var nextId: nat
    var clientNames: set<string>
    var nameOf: map<ClientId, string>
    var generation: nat
    var ticks: nat
    ghost var steps: seq<Step>
    ghost var sent: seq<Route>

    ghost function State(): Reg
      reads this
    {
      Reg(topics, byName, clients, subscribers, announced, freed, nextId, clientNames, nameOf, generation, ticks)
    }

    /** The object is where the legal run `steps` leads and `sent` is what it emitted on the
        way, so what holds of every legal run holds of it. */
    ghost predicate Valid(o: Oracle)
      reads this
    {
      Legal(o, steps) && State() == Run(o, steps).reg && sent == Emitted(o, steps)
    }

    constructor ()
      ensures State() == Empty && steps == [] && sent == []
      ensures forall o: Oracle | ValidOracle(o) :: Valid(o)
    {
      topics, byName, clients := map[], map[], map[];
      subscribers, announced, freed := map[], map[], [];
      nextId, clientNames, nameOf, generation, ticks := 0, {}, map[], 0, 0;
      steps, sent := [], [];
    }

    // ------------------------------------------------------------- topic ids

    /** Takes the lowest freed id, or a new one when none is free. */
    method AllocId() returns (id: TopicId)
      modifies this
      ensures (State(), id) == Registry.AllocId(old(State()))
    {
      if freed == [] {
        id := nextId;
        nextId := nextId + 1;
      } else {
        var pos, k := 0, 1;
        while k < |freed|
          invariant 1 <= k <= |freed| && pos < k
          invariant pos == MinIndex(freed[..k])
          invariant State() == old(State())
        {
          assert freed[..k + 1][..k] == freed[..k];
          if freed[k] < freed[pos] { pos := k; }
          k := k + 1;
        }
        assert freed[..k] == freed;
        id := freed[pos];
        freed := freed[..pos] + freed[pos + 1..];
      }
    }

    method Create(t: Topic) returns (id: TopicId)
      modifies this
      ensures (State(), id) == Registry.Create(old(State()), t)
    {
      id := AllocId();
      topics := topics[id := t];
      byName := byName[t.name := id];
    }

    /** Deletes a topic and the meta topics named after it. */
    method DeleteTopic(id: TopicId) returns (routes: seq<Route>)
      modifies this
      ensures Out(State(), routes) == Registry.DeleteTopic(old(State()), id)
      decreases |topics|, 0
    {
      hide RemoveTopic;
      if id !in topics { return []; }
      var t := topics[id];
      var list := TakeOut(id);
      routes := ToEach(list, Unannounce(id, t.name));
      DeleteTopicIfExists(PubMeta(t.name));
      DeleteTopicIfExists(SubMeta(t.name));
    }

    /** Takes one topic out of every index, frees its id and gives the clients that
        were announced it. */
    method TakeOut(id: TopicId) returns (list: seq<ClientId>)
      requires id in topics
      modifies this
      ensures State() == RemoveTopic(old(State()), id)
      ensures list == ListAt(old(announced), id)
      ensures |topics| < |old(topics)|
    {
      hide UnmatchAll, ListAt;
      Fewer(topics, id);
      list := LeaveRoutes(id);
      LeaveTopics(id);
    }

    /** Forgets the topic itself and frees its id. */
    method LeaveTopics(id: TopicId)
      requires id in topics
      modifies this`topics, this`byName, this`generation, this`freed
      ensures topics == old(topics) - {id} && byName == old(byName) - {old(topics)[id].name}
      ensures freed == old(freed) + [id]
      ensures generation == if old(topics)[id].persistent then old(generation) + 1 else old(generation)
    {
      var t := topics[id];
      topics := topics - {id};
      if t.persistent { generation := generation + 1; }
      byName := byName - {t.name};
      freed := freed + [id];
    }

    /** Forgets whom the topic was announced and sent to. */
    method LeaveRoutes(id: TopicId) returns (list: seq<ClientId>)
      modifies this`subscribers, this`announced, this`clients
      ensures list == ListAt(old(announced), id)
      ensures subscribers == old(subscribers) - {id} && announced == old(announced) - {id}
      ensures clients == UnmatchAll(old(clients), id)
    {
      hide UnmatchAll;
      subscribers := subscribers - {id};
      list := ListAt(announced, id);
      announced := announced - {id};
      UnmatchEverywhere(id);
    }

    method DeleteTopicIfExists(name: string)
      modifies this
      ensures State() == DeleteNamed(old(State()), name)
      decreases |topics|, 1
    {
      if name in byName {
        var _ := DeleteTopic(byName[name]);
      }
    }

    /** Takes `id` out of the matched set of every subscription. */
    method UnmatchEverywhere(id: TopicId)
      modifies this`clients
      ensures clients == UnmatchAll(old(clients), id)
    {
      var todo := clients.Keys;
      while todo != {}
        invariant todo <= clients.Keys == old(clients).Keys
        invariant forall c | c in clients ::
                    clients[c] == if c in todo then old(clients)[c] else Unmatch(old(clients)[c], id)
        decreases todo
      {
        var c :| c in todo;
        var cl := UnmatchOne(clients[c], id);
        clients := clients[c := cl];
        todo := todo - {c};
      }
    }

    static method UnmatchOne(cl: Client, id: TopicId) returns (cl': Client)
      ensures cl' == Unmatch(cl, id)
    {
      var subs := cl.subs;
      var todo := subs.Keys;
      while todo != {}
        invariant todo <= subs.Keys == cl.subs.Keys
        invariant forall u | u in subs ::
                    subs[u] == if u in todo then cl.subs[u] else cl.subs[u].(matched := cl.subs[u].matched - {id})
        decreases todo
      {
        var u :| u in todo;
        subs := subs[u := subs[u].(matched := subs[u].matched - {id})];
        todo := todo - {u};
      }
      cl' := cl.(subs := subs);
    }

    // ------------------------------------------------ announce and fan-out lists

    method AddAnnounced(c: ClientId, id: TopicId) returns (first: bool)
      modifies this`announced
      ensures announced == AddTo(old(announced), c, id)
      ensures first <==> c !in ListAt(old(announced), id)
    {
      var list := ListAt(announced, id);
      first := c !in list;
      announced := announced[id := if first then list + [c] else list];
    }

    method AddSubscriber(c: ClientId, id: TopicId)
      modifies this`subscribers
      ensures subscribers == AddTo(old(subscribers), c, id)
    {
      var list := ListAt(subscribers, id);
      subscribers := subscribers[id := if c in list then list else list + [c]];
    }

    method AnnounceJson(id: TopicId, pubuid: Option<nat>) returns (f: Frame)
      ensures f == AnnounceFrame(State(), id, pubuid)
    {
      if id in topics {
        var t := topics[id];
        f := Announce(id, t.name, t.typeStr, t.properties, pubuid);
      } else {
        f := Announce(id, "", "", map[], pubuid);
      }
    }

    /** Marks a new topic in one client's subscriptions, reporting whether any covers
        it and whether one of those asks for values. */
    static method MatchOne(cl: Client, id: TopicId, name: string) returns (cl': Client, matched: bool, wants: bool)
      ensures cl' == Match(cl, id, name)
      ensures matched <==> HasMatch(cl, name)
      ensures wants <==> WantsValues(cl, name)
    {
      var subs := cl.subs;
      var todo := subs.Keys;
      matched, wants := false, false;
      while todo != {}
        invariant todo <= subs.Keys == cl.subs.Keys
        invariant forall u | u in subs ::
                    subs[u] == if u !in todo && Covers(cl.subs[u], name)
                               then cl.subs[u].(matched := cl.subs[u].matched + {id}) else cl.subs[u]
        invariant matched <==> exists u | u in cl.subs :: u !in todo && Covers(cl.subs[u], name)
        invariant wants <==> exists u | u in cl.subs :: u !in todo && Covers(cl.subs[u], name) && !cl.subs[u].topicsOnly
        decreases todo
      {
        var u :| u in todo;
        if Covers(subs[u], name) {
          subs := subs[u := subs[u].(matched := subs[u].matched + {id})];
          matched := true;
          wants := wants || !cl.subs[u].topicsOnly;
        }
        todo := todo - {u};
      }
      cl' := cl.(subs := subs);
    }

    /** Marks a new topic in every matching subscription and announces it there. */
    method AnnounceToMatching(o: Oracle, id: TopicId, name: string) returns (routes: seq<Route>)
      requires ValidOracle(o)
      modifies this
      ensures Out(State(), routes) == Registry.AnnounceToMatching(old(State()), o, id, name)
    {
      hide Covers, ValidOracle, MatchAll, HasMatch, WantsValues, Targets, MatchingClients, AnnounceTarget;
      var order := Walk(o, clients.Keys);
      var targets := MarkAll(order, id, name);
      ghost var r1 := State();
      ghost var ts := MatchingClients(r1.clients, name, order);
      TargetsMatch(r1.clients, name, order);
      routes := [];
      for k := 0 to |targets|
        invariant Out(State(), routes) == AnnounceTargets(r1, id, name, ts[..k])
      {
        assert ts[..k + 1][..k] == ts[..k];
        AnnounceTargetsShape(r1, id, name, ts[..k]);
        var more := AnnounceTo(targets[k].0, targets[k].1, id, name);
        routes := routes + more;
      }
      assert ts[..|targets|] == ts;
    }

    /** The order in which a hash map with these keys is walked this time. */
    method Walk(o: Oracle, keys: set<nat>) returns (order: seq<nat>)
      requires ValidOracle(o)
      modifies this`ticks
      ensures ticks == old(ticks) + 1
      ensures order == o.order(old(ticks), keys) && Enumerates(order, keys)
    {
      order := o.order(ticks, keys);
      ticks := ticks + 1;
    }

    method AnnounceTo(c: ClientId, wants: bool, id: TopicId, name: string) returns (routes: seq<Route>)
      requires c in clients && (wants <==> WantsValues(clients[c], name))
      modifies this
      ensures Out(State(), routes) == AnnounceTarget(old(State()), id, name, c)
    {
      hide WantsValues, AddTo;
      routes := AnnounceUnlessKnown(c, id);
      if wants { AddSubscriber(c, id); }
    }

    method AnnounceUnlessKnown(c: ClientId, id: TopicId) returns (routes: seq<Route>)
      modifies this`announced
      ensures Out(State(), routes) == AnnounceOnce(old(State()), c, id)
    {
      hide AddTo;
      var f := AnnounceJson(id, None);
      var first := AddAnnounced(c, id);
      routes := if first then [Route(c, f)] else [];
    }

    /** Marks the new topic in every client and lists those it matched, each with
        whether it asks for values. */
    method MarkAll(order: seq<ClientId>, id: TopicId, name: string) returns (targets: seq<(ClientId, bool)>)
      requires Enumerates(order, clients.Keys)
      modifies this`clients
      ensures clients == MatchAll(old(clients), id, name)
      ensures targets == Targets(clients, name, order)
    {
      hide Covers, HasMatch, WantsValues, Match;
      ghost var done := MatchAll(clients, id, name);
      ghost var todo := clients.Keys;
      targets := [];
      for k := 0 to |order|
        invariant clients.Keys == old(clients).Keys == done.Keys
        invariant forall c | c in clients :: clients[c] == if c in todo then old(clients)[c] else done[c]
        invariant forall j | 0 <= j < |order| :: order[j] in todo <==> j >= k
        invariant targets == Targets(done, name, order[..k])
      {
        var c := order[k];
        assert order[..k + 1][..k] == order[..k];
        assert c in clients.Keys by { assert order[k] in order; }
        var cl, matched, wants := MatchOne(clients[c], id, name);
        MatchCovers(clients[c], id, name);
        clients := clients[c := cl];
        todo := todo - {c};
        if matched { targets := targets + [(c, wants)]; }
      }
      assert order[..|order|] == order;
      forall c | c in clients ensures c !in todo {
        assert c in order;
      }
      assert clients == done;
    }

    // --------------------------------------------------------------- values

    /** Fans a value out on a topic id and retains it; one of the wrong type is ignored. */
    method HandleTopicValue(id: TopicId, value: Value, ts: nat) returns (routes: seq<Route>)
      modifies this`topics, this`generation
      ensures Out(State(), routes) == TopicValue(old(State()), id, value, ts)
    {
      hide XtDataType;
      if id !in topics || XtDataType(value) != topics[id].dataType { return []; }
      var t := topics[id];
      var retain := t.current.None? || ts >= t.current.value.ts;
      if t.cached {
        var sv := Stamped(ts, value);
        t := t.(history := t.history + [sv]);
        if retain {
          t := t.(current := Some(sv));
          if t.persistent { generation := generation + 1; }
        }
      }
      topics := topics[id := t];
      routes := ToEach(ListAt(subscribers, id), ValueFrame(t.name, id, ts, value));
    }

    // ------------------------------------------------------------ meta topics

    method EnsureMetaTopic(o: Oracle, name: string) returns (id: TopicId, routes: seq<Route>)
      requires ValidOracle(o)
      modifies this
      ensures (Out(State(), routes), id) == Registry.EnsureMetaTopic(old(State()), o, name)
    {
      hide Registry.AnnounceToMatching, Registry.Create, ValidOracle;
      if name in byName { return byName[name], []; }
      id := Create(MetaTopic(name));
      routes := AnnounceToMatching(o, id, name);
    }

    method PublishMeta(o: Oracle, name: string) returns (routes: seq<Route>)
      requires ValidOracle(o)
      modifies this
      ensures Out(State(), routes) == Registry.PublishMeta(old(State()), o, name)
    {
      hide Registry.EnsureMetaTopic, TopicValue, ValidOracle;
      var id;
      id, routes := EnsureMetaTopic(o, name);
      var payload, now := o.payload(ticks), o.now(ticks);
      ticks := ticks + 1;
      if payload.Some? {
        var more := HandleTopicValue(id, Bytes(payload.value), now);
        routes := routes + more;
      }
    }

    method UpdateMetaClientPub(o: Oracle, c: ClientId) returns (routes: seq<Route>)
      requires ValidOracle(o)
      modifies this
      ensures Out(State(), routes) == Registry.UpdateMetaClientPub(old(State()), o, c)
    {
      hide Registry.PublishMeta, ValidOracle;
      if c !in nameOf { return []; }
      routes := PublishMeta(o, ClientPubMeta(nameOf[c]));
    }

    method UpdateMetaClientSub(o: Oracle, c: ClientId) returns (routes: seq<Route>)
      requires ValidOracle(o)
      modifies this
      ensures Out(State(), routes) == Registry.UpdateMetaClientSub(old(State()), o, c)
    {
      hide Registry.PublishMeta, ValidOracle;
      if c !in nameOf { return []; }
      routes := PublishMeta(o, ClientSubMeta(nameOf[c]));
    }

    method UpdateMetaSub(o: Oracle, name: string) returns (routes: seq<Route>)
      requires ValidOracle(o)
      modifies this
      ensures Out(State(), routes) == Registry.UpdateMetaSub(old(State()), o, name)
    {
      hide Registry.PublishMeta, ValidOracle;
      if name !in byName { return []; }
      routes := PublishMeta(o, SubMeta(name));
    }

    method UpdateMetaPub(o: Oracle, name: string) returns (routes: seq<Route>)
      requires ValidOracle(o)
      modifies this
      ensures Out(State(), routes) == Registry.UpdateMetaPub(old(State()), o, name)
    {
      hide Registry.PublishMeta, ValidOracle;
      if name !in byName { return []; }
      routes := PublishMeta(o, PubMeta(name));
    }

    method NamesOf(ids: seq<TopicId>, plain: bool) returns (names: seq<string>)
      ensures names == LiveNames(State(), ids, plain)
    {
      names := [];
      for k := 0 to |ids|
        invariant names == LiveNames(State(), ids[..k], plain)
      {
        assert ids[..k + 1][..k] == ids[..k];
        if ids[k] in topics && !(plain && IsMeta(topics[ids[k]].name)) { names := names + [topics[ids[k]].name]; }
      }
      assert ids[..|ids|] == ids;
    }

    method UpdateMetaSubFor(o: Oracle, ids: set<TopicId>) returns (routes: seq<Route>)
      requires ValidOracle(o)
      modifies this
      ensures Out(State(), routes) == Registry.UpdateMetaSubFor(old(State()), o, ids)
    {
      hide Registry.UpdateMetaSub, ValidOracle, LiveNames;
      ghost var r := State();
      var order := Walk(o, ids);
      ghost var r1 := State();
      var names := NamesOf(order, true);
      LiveNamesByTopics(r, r1, order, true);
      routes := [];
      for k := 0 to |names|
        invariant Out(State(), routes) == UpdateMetaSubs(r1, o, names[..k])
      {
        assert names[..k + 1][..k] == names[..k];
        var more := UpdateMetaSub(o, names[k]);
        routes := routes + more;
      }
      assert names[..|names|] == names;
    }

    method UpdateMetaPubs(o: Oracle, names: seq<string>) returns (routes: seq<Route>)
      requires ValidOracle(o)
      modifies this
      ensures Out(State(), routes) == Registry.UpdateMetaPubs(old(State()), o, names)
    {
      hide Registry.UpdateMetaPub, ValidOracle;
      routes := [];
      for k := 0 to |names|
        invariant Out(State(), routes) == Registry.UpdateMetaPubs(old(State()), o, names[..k])
      {
        assert names[..k + 1][..k] == names[..k];
        var more := UpdateMetaPub(o, names[k]);
        routes := routes + more;
      }
      assert names[..|names|] == names;
    }

    // ---------------------------------------------------------------- publish

    /** Drops one publisher from a topic, deleting it when it was the last one on a
        topic nothing retains. */
    method ReleasePublisher(o: Oracle, id: TopicId) returns (routes: seq<Route>)
      requires ValidOracle(o)
      modifies this
      ensures Out(State(), routes) == Registry.ReleasePublisher(old(State()), o, id)
    {
      hide Registry.DeleteTopic, Registry.UpdateMetaPub, ValidOracle, IsRetained;
      if id !in topics { return []; }
      var t := topics[id];
      t := t.(publishers := if t.publishers == 0 then 0 else t.publishers - 1);
      topics := topics[id := t];
      routes := [];
      if t.publishers == 0 && !IsRetained(t) {
        routes := DeleteTopic(id);
      }
      var more := UpdateMetaPub(o, t.name);
      routes := routes + more;
    }

    /** The topic a publish names, created when new. */
    method PublishTopic(name: string, typeStr: string, props: Props) returns (id: TopicId)
      modifies this
      ensures (State(), id) == if name in old(byName) then (old(State()), old(byName)[name])
                               else CreatePublished(old(State()), name, typeStr, props)
      ensures clients == old(clients)
    {
      hide SyncProperties, MinIndex;
      if name in byName { return byName[name]; }
      var t := PublishedTopic(name, typeStr, props);
      id := Create(t);
      if t.persistent { generation := generation + 1; }
    }

    /** The topic a publish names, with the uid pointed at it and counted there. */
    method EnterPublish(c: ClientId, name: string, pubuid: nat, typeStr: string, props: Props)
      returns (id: TopicId, previous: Option<TopicId>)
      requires c in clients
      modifies this
      ensures (State(), id) == Registry.EnterPublish(old(State()), c, name, pubuid, typeStr, props)
      ensures previous == Lookup(old(clients)[c].pubs, pubuid)
    {
      hide AddTo, CreatePublished;
      id := PublishTopic(name, typeStr, props);
      previous := Lookup(clients[c].pubs, pubuid);
      clients := clients[c := clients[c].(pubs := clients[c].pubs[pubuid := id])];
      if previous != Some(id) && id in topics {
        topics := topics[id := topics[id].(publishers := topics[id].publishers + 1)];
      }
      var _ := AddAnnounced(c, id);
    }

    method HandlePublish(o: Oracle, c: ClientId, name: string, pubuid: nat, typeStr: string, props: Props)
      returns (routes: seq<Route>)
      requires ValidOracle(o)
      modifies this
      ensures Out(State(), routes) == Registry.HandlePublish(old(State()), o, c, name, pubuid, typeStr, props)
    {
      hide Registry.EnterPublish, Registry.AnnounceToMatching, Registry.ReleasePublisher;
      hide Registry.UpdateMetaClientPub, Registry.UpdateMetaPub, ValidOracle, AnnounceFrame;
      EnsureClient(c);
      if pubuid !in clients[c].pubs && |clients[c].pubs| >= MAX_PER_CLIENT { return []; }
      var isNew := name !in byName;
      if isNew && |topics| >= MAX_TOPICS { return []; }
      var id, previous := EnterPublish(c, name, pubuid, typeStr, props);
      var own := AnnounceJson(id, Some(pubuid));
      routes := [Route(c, own)];
      var a: seq<Route>, b: seq<Route> := [], [];
      if isNew { a := AnnounceToMatching(o, id, name); }
      if previous.Some? && previous.value != id { b := ReleasePublisher(o, previous.value); }
      var d := UpdateMetaClientPub(o, c);
      var e := UpdateMetaPub(o, name);
      routes := routes + a + b + d + e;
    }

    method EnsureClient(c: ClientId)
      modifies this`clients
      ensures State() == Registry.EnsureClient(old(State()), c)
      ensures c in clients
    {
      if c !in clients { clients := clients[c := Client(map[], map[])]; }
    }

    method HandleUnpublish(o: Oracle, c: ClientId, pubuid: nat) returns (routes: seq<Route>)
      requires ValidOracle(o)
      modifies this
      ensures Out(State(), routes) == Registry.HandleUnpublish(old(State()), o, c, pubuid)
    {
      hide Registry.ReleasePublisher, Registry.UpdateMetaClientPub, ValidOracle;
      if c !in clients || pubuid !in clients[c].pubs { return []; }
      var id := clients[c].pubs[pubuid];
      clients := clients[c := clients[c].(pubs := clients[c].pubs - {pubuid})];
      if id !in topics {
        clients := ForgetTopic(clients, id);
        return [];
      }
      routes := ReleasePublisher(o, id);
      var more := UpdateMetaClientPub(o, c);
      routes := routes + more;
    }

    // -------------------------------------------------------------- subscribe

    /** Takes a subscription away and the client out of its topics' fan-out lists. */
    method RemoveSub(c: ClientId, subuid: nat) returns (touched: set<TopicId>)
      modifies this
      ensures State() == DropSub(old(State()), c, subuid)
      ensures touched == Touched(old(State()), c, subuid)
    {
      hide Without;
      touched := {};
      if c in clients && subuid in clients[c].subs {
        touched := clients[c].subs[subuid].matched;
        clients := clients[c := clients[c].(subs := clients[c].subs - {subuid})];
        LeaveLists(c, touched);
      }
    }

    method LeaveLists(c: ClientId, ids: set<TopicId>)
      modifies this`subscribers
      ensures subscribers == DropSubscriber(old(subscribers), c, ids)
    {
      hide Without;
      var todo := ids;
      while todo != {}
        invariant todo <= ids && subscribers.Keys == old(subscribers).Keys
        invariant forall i | i in subscribers ::
                    subscribers[i] ==
                    if i in ids && i !in todo then Without(old(subscribers)[i], c) else old(subscribers)[i]
        decreases todo
      {
        var id :| id in todo;
        if id in subscribers { subscribers := subscribers[id := Without(subscribers[id], c)]; }
        todo := todo - {id};
      }
    }

    /** The ids of the names the subscription covers, ascending. */
    method CollectMatches(sub: Subscription) returns (ids: set<TopicId>, sorted: seq<TopicId>)
      ensures ids == MatchedIds(byName, sub)
      ensures sorted == Ascending(ids, nextId)
    {
      hide Covers;
      ids := {};
      var todo := byName.Keys;
      while todo != {}
        invariant todo <= byName.Keys
        invariant ids == set nm | nm in byName && nm !in todo && Covers(sub, nm) :: byName[nm]
        decreases todo
      {
        var nm :| nm in todo;
        if Covers(sub, nm) { ids := ids + {byName[nm]}; }
        todo := todo - {nm};
      }
      sorted := [];
      for n := 0 to nextId
        invariant sorted == Ascending(ids, n)
      {
        if n in ids { sorted := sorted + [n]; }
      }
    }

    method SubscribeOne(c: ClientId, topicsOnly: bool, id: TopicId) returns (routes: seq<Route>)
      modifies this
      ensures Out(State(), routes) == Registry.SubscribeOne(old(State()), c, topicsOnly, id)
    {
      hide AnnounceFrame, AddTo;
      if !topicsOnly { AddSubscriber(c, id); }
      routes := AnnounceUnlessKnown(c, id);
      if !topicsOnly && id in topics && topics[id].cached && topics[id].current.Some? {
        var t := topics[id];
        routes := routes + [Route(c, ValueFrame(t.name, id, t.current.value.ts, t.current.value.value))];
      }
    }

    method SubscribeEach(c: ClientId, topicsOnly: bool, ids: seq<TopicId>) returns (routes: seq<Route>)
      modifies this
      ensures Out(State(), routes) == Registry.SubscribeEach(old(State()), c, topicsOnly, ids)
    {
      hide Registry.SubscribeOne;
      routes := [];
      for k := 0 to |ids|
        invariant Out(State(), routes) == Registry.SubscribeEach(old(State()), c, topicsOnly, ids[..k])
      {
        assert ids[..k + 1][..k] == ids[..k];
        var more := SubscribeOne(c, topicsOnly, ids[k]);
        routes := routes + more;
      }
      assert ids[..|ids|] == ids;
    }

    method HandleSubscribe(o: Oracle, c: ClientId, patterns: seq<string>, subuid: nat, prefix: bool,
                           topicsOnly: bool) returns (routes: seq<Route>)
      requires ValidOracle(o)
      modifies this
      ensures Out(State(), routes) == Registry.HandleSubscribe(old(State()), o, c, patterns, subuid, prefix, topicsOnly)
    {
      hide DropSub, Registry.SubscribeEach, MatchedIds, Ascending, Registry.UpdateMetaClientSub;
      hide Registry.UpdateMetaSubFor, ValidOracle, Touched;
      EnsureClient(c);
      if subuid !in clients[c].subs && |clients[c].subs| >= MAX_PER_CLIENT { return []; }
      var touched := RemoveSub(c, subuid);
      var sub := Subscription(patterns, prefix, topicsOnly, {});
      var ids, sorted := CollectMatches(sub);
      var a := SubscribeEach(c, topicsOnly, sorted);
      if c in clients {
        clients := clients[c := clients[c].(subs := clients[c].subs[subuid := sub.(matched := ids)])];
      }
      var d := UpdateMetaClientSub(o, c);
      var e := UpdateMetaSubFor(o, touched + ids);
      routes := a + d + e;
    }

    method HandleUnsubscribe(o: Oracle, c: ClientId, subuid: nat) returns (routes: seq<Route>)
      requires ValidOracle(o)
      modifies this
      ensures Out(State(), routes) == Registry.HandleUnsubscribe(old(State()), o, c, subuid)
    {
      hide DropSub, Registry.UpdateMetaClientSub, Registry.UpdateMetaSubFor, ValidOracle, Touched;
      var touched := RemoveSub(c, subuid);
      var d := UpdateMetaClientSub(o, c);
      var e := UpdateMetaSubFor(o, touched);
      routes := d + e;
    }

    // ---------------------------------------------------------- other handlers

    method HandleUpsertValue(name: string, value: Value, ts: nat) returns (routes: seq<Route>)
      modifies this
      ensures Out(State(), routes) == HandleUpsert(old(State()), name, value, ts)
    {
      hide TopicValue, UpsertTopic, Registry.AllocId;
      var id;
      if name in byName {
        id := byName[name];
      } else {
        if |topics| >= MAX_TOPICS { return []; }
        id := Create(UpsertTopic(name, value));
      }
      routes := HandleTopicValue(id, value, ts);
    }

    static method MergeProperties(props: Props, update: Props) returns (merged: Props)
      ensures merged == UpdateProps(props, update)
    {
      merged := props;
      var todo := update.Keys;
      while todo != {}
        invariant todo <= update.Keys
        invariant forall k ::
                    k in merged <==>
                    (k in props || k in update) && (if k in update && k !in todo then !update[k].Null? else k in props)
        invariant forall k | k in merged ::
                    merged[k] ==
                    if k in update && k !in todo then update[k] else if k in props then props[k] else merged[k]
        decreases todo
      {
        var key :| key in todo;
        merged := if update[key].Null? then merged - {key} else merged[key := update[key]];
        todo := todo - {key};
      }
    }

    method HandleSetProperties(c: ClientId, name: string, update: Props) returns (routes: seq<Route>)
      modifies this
      ensures Out(State(), routes) == Registry.HandleSetProperties(old(State()), c, name, update)
    {
      hide UpdateProps, SyncProperties;
      if name !in byName { return []; }
      var id := byName[name];
      if id in topics {
        var t := topics[id];
        var was := t.persistent;
        var props := MergeProperties(t.properties, update);
        t := SyncProperties(t.(properties := props));
        topics := topics[id := t];
        if was || t.persistent { generation := generation + 1; }
      }
      routes := PropertyRoutes(ListAt(announced, id), c, name, update);
    }

    /** A client's value: found by its publisher uid, reshaped to the topic's type and
        stamped on arrival. */
    method HandleClientValue(o: Oracle, c: ClientId, pubuid: nat, value: Value, sent: nat, now: nat)
      returns (routes: seq<Route>)
      modifies this`topics, this`generation
      ensures Out(State(), routes) == Registry.HandleClientValue(old(State()), o, c, pubuid, value, sent, now)
    {
      hide TopicValue, Conformed;
      if c !in clients || pubuid !in clients[c].pubs { return []; }
      var id := clients[c].pubs[pubuid];
      var v := value;
      if id in topics { v := Conformed(o.floats, value, topics[id].dataType); }
      var ts := sent;
      if sent == 0 || sent > now { ts := now; }
      routes := HandleTopicValue(id, v, ts);
    }

    method FanOut(name: string, value: Value, ts: nat) returns (routes: seq<Route>)
      modifies this`topics, this`generation
      ensures Out(State(), routes) == Registry.FanOut(old(State()), name, value, ts)
    {
      hide TopicValue;
      if name !in byName { return []; }
      routes := HandleTopicValue(byName[name], value, ts);
    }

    method SetRetained(name: string, retained: bool)
      modifies this`topics
      ensures State() == Registry.SetRetained(old(State()), name, retained)
    {
      if name in byName && byName[name] in topics {
        var t := topics[byName[name]];
        topics := topics[byName[name] := t.(retained := retained)];
      }
    }

    /** Every persistent topic with a value, as rows to save. */
    method PersistentRows() returns (rows: set<Saved>)
      ensures rows == PersistentSnapshot(topics)
    {
      hide RowOf;
      rows := {};
      var todo := topics.Keys;
      while todo != {}
        invariant todo <= topics.Keys
        invariant forall i | i in topics && i !in todo && RowOf(topics[i]).Some? :: RowOf(topics[i]).value in rows
        invariant rows <= PersistentSnapshot(topics)
        decreases todo
      {
        var i :| i in todo;
        var row := RowOf(topics[i]);
        if row.Some? { rows := rows + {row.value}; }
        todo := todo - {i};
      }
    }

    method RestorePersistent(entries: seq<Saved>, ts: nat)
      modifies this
      ensures State() == Registry.RestorePersistent(old(State()), entries, ts)
    {
      hide RestoredTopic, Registry.Create;
      for k := 0 to |entries|
        invariant State() == RestoreEach(old(State()), entries[..k], ts)
      {
        assert entries[..k + 1][..k] == entries[..k];
        if entries[k].name !in byName {
          var _ := Create(RestoredTopic(entries[k], ts));
        }
      }
      assert entries[..|entries|] == entries;
      generation := generation + 1;
    }

    // ------------------------------------------------------ connect, disconnect

    method OnConnect(o: Oracle, c: ClientId, base: string) returns (routes: seq<Route>)
      requires ValidOracle(o)
      modifies this
      ensures Out(State(), routes) == Registry.OnConnect(old(State()), o, c, base)
    {
      hide Registry.PublishMeta, Registry.UpdateMetaClientPub, Registry.UpdateMetaClientSub, ValidOracle;
      hide ClientNames.Dedup;
      var name, names := ClientNames.DedupClientName(clientNames, base);
      clientNames := names;
      nameOf := nameOf[c := name];
      EnsureClient(c);
      var a := PublishMeta(o, "$clients");
      var b := UpdateMetaClientPub(o, c);
      var d := UpdateMetaClientSub(o, c);
      var e := PublishMeta(o, "$serversub");
      var f := PublishMeta(o, "$serverpub");
      routes := a + b + d + e + f;
    }

    static method TopicsPublished(pubs: map<nat, TopicId>, order: seq<nat>) returns (ids: seq<TopicId>)
      ensures ids == Published(pubs, order)
    {
      ids := [];
      for k := 0 to |order|
        invariant ids == Published(pubs, order[..k])
      {
        assert order[..k + 1][..k] == order[..k];
        if order[k] in pubs { ids := ids + [pubs[order[k]]]; }
      }
      assert order[..|order|] == order;
    }

    /** Forgets the client, its name and the meta topics named after it. */
    method Forget(c: ClientId)
      modifies this
      ensures State() == ForgetClient(old(State()), c)
    {
      hide DeleteNamed;
      clients := clients - {c};
      if c in nameOf {
        var name := nameOf[c];
        nameOf := nameOf - {c};
        clientNames := clientNames - {name};
        DeleteTopicIfExists(ClientPubMeta(name));
        DeleteTopicIfExists(ClientSubMeta(name));
      } else {
        assert nameOf - {c} == nameOf;
      }
    }

    /** Counts down the publishers of `ids` and lists the live ones, each once. */
    method CountDown(ids: seq<TopicId>) returns (candidates: seq<TopicId>)
      modifies this`topics
      ensures State() == DropPublishers(old(State()), ids)
      ensures candidates == Candidates(old(topics).Keys, ids)
    {
      candidates := [];
      for k := 0 to |ids|
        invariant State() == DropPublishers(old(State()), ids[..k])
        invariant topics.Keys == old(topics).Keys
        invariant candidates == Candidates(old(topics).Keys, ids[..k])
      {
        assert ids[..k + 1][..k] == ids[..k];
        var id := ids[k];
        if id in topics {
          var t := topics[id];
          topics := topics[id := t.(publishers := if t.publishers == 0 then 0 else t.publishers - 1)];
          if id !in candidates { candidates := candidates + [id]; }
        }
      }
      assert ids[..|ids|] == ids;
    }

    method DeleteOrphans(ids: seq<TopicId>) returns (routes: seq<Route>)
      modifies this
      ensures Out(State(), routes) == ReapOrphans(old(State()), ids)
    {
      hide Registry.DeleteTopic, IsRetained;
      routes := [];
      for k := 0 to |ids|
        invariant Out(State(), routes) == ReapOrphans(old(State()), ids[..k])
      {
        assert ids[..k + 1][..k] == ids[..k];
        if ids[k] in topics && topics[ids[k]].publishers == 0 && !IsRetained(topics[ids[k]]) {
          var more := DeleteTopic(ids[k]);
          routes := routes + more;
        }
      }
      assert ids[..|ids|] == ids;
    }

    method OnDisconnect(o: Oracle, c: ClientId) returns (routes: seq<Route>)
      requires ValidOracle(o)
      modifies this
      ensures Out(State(), routes) == Registry.OnDisconnect(old(State()), o, c)
    {
      hide Published, LiveNames, ForgetClient, DropPublishers, Candidates, ReapOrphans, Registry.PublishMeta;
      hide Registry.UpdateMetaSubFor, Registry.UpdateMetaPubs, ValidOracle;
      ghost var r := State();
      var cl := if c in clients then clients[c] else Client(map[], map[]);
      var order := Walk(o, cl.pubs.Keys);
      var published := TopicsPublished(cl.pubs, order);
      var pubNames := NamesOf(published, false);
      LiveNamesByTopics(r, State(), published, false);
      Forget(c);
      var candidates := CountDown(published);
      var a := DeleteOrphans(candidates);
      var b := PublishMeta(o, "$clients");
      var d := UpdateMetaSubFor(o, AllMatched(cl));
      var e := UpdateMetaPubs(o, pubNames);
      routes := a + b + d + e;
    }

    // ----------------------------------------------------------------- any step

    /** Serves one step: the run this object has made grows by it, the frames are the ones
        the run's step emits, the invariant holds of the object again, and over everything
        it ever sent each value frame's id is one its receiver knows under that topic's name. */
    method Serve(o: Oracle, s: Step) returns (routes: seq<Route>)
      requires Valid(o) && EnabledIn(Run(o, steps), s)
      modifies this
      ensures Valid(o) && steps == old(steps) + [s] && sent == old(sent) + routes
      ensures Out(State(), routes) == Apply(old(State()), o, s)
      ensures Inv(State(), Run(o, steps).hist)
      ensures forall c :: AllKnown(FramesTo(c, sent))
    {
      hide Legal, Run, Emitted, Mid, Apply, EnabledIn, AllKnown, FramesTo, ValidOracle;
      ghost var made, before := steps, sent;
      Extends(o, made, s);
      routes := Dispatch(o, s);
      steps, sent := made + [s], before + routes;
    }

    /** Hands a step to its handler. */
    method Dispatch(o: Oracle, s: Step) returns (routes: seq<Route>)
      requires ValidOracle(o)
      modifies this
      ensures Out(State(), routes) == Apply(old(State()), o, s)
    {
      hide ValidOracle, Registry.OnConnect, Registry.OnDisconnect, Registry.HandlePublish, Registry.HandleUnpublish;
      hide Registry.HandleSubscribe, Registry.HandleUnsubscribe, Registry.HandleSetProperties, HandleUpsert;
      hide Registry.HandleClientValue, Registry.FanOut, Registry.RestorePersistent, Registry.SetRetained;
      routes := [];
      match s
      case Connect(c, base) => routes := OnConnect(o, c, base);
      case Disconnect(c) => routes := OnDisconnect(o, c);
      case Publish(c, name, pubuid, typeStr, props) => routes := HandlePublish(o, c, name, pubuid, typeStr, props);
      case Unpublish(c, pubuid) => routes := HandleUnpublish(o, c, pubuid);
      case Subscribe(c, patterns, subuid, prefix, topicsOnly) =>
        routes := HandleSubscribe(o, c, patterns, subuid, prefix, topicsOnly);
      case Unsubscribe(c, subuid) => routes := HandleUnsubscribe(o, c, subuid);
      case SetProperties(c, name, update) => routes := HandleSetProperties(c, name, update);
      case ClientValue(c, pubuid, value, sent, now) => routes := HandleClientValue(o, c, pubuid, value, sent, now);
      case ServerValue(name, value, ts) => routes := FanOut(name, value, ts);
      case Upsert(name, value, ts) => routes := HandleUpsertValue(name, value, ts);
      case Restore(entries, ts) => RestorePersistent(entries, ts);
      case Retain(name, retained) => SetRetained(name, retained);
      case Timestamp(c, value, ts) => routes := [Route(c, RttFrame(ts, value))];
    }
  }

  lemma {:induction false} LiveNamesByTopics(r: Reg, r': Reg, ids: seq<TopicId>, plain: bool)
    requires r.topics == r'.topics
    ensures LiveNames(r, ids, plain) == LiveNames(r', ids, plain)
  {
    if ids != [] { LiveNamesByTopics(r, r', ids[..|ids| - 1], plain); }
  }

  /** A legal run goes on with any step enabled after it. */
  lemma Longer(o: Oracle, steps: seq<Step>, s: Step)
    requires Legal(o, steps) && EnabledIn(Run(o, steps), s)
    ensures Legal(o, steps + [s]) && Run(o, steps + [s]) == Next(Run(o, steps), o, s)
    ensures Emitted(o, steps + [s]) == Emitted(o, steps) + Apply(Run(o, steps).reg, o, s).routes
  {
    hide EnabledIn, ValidOracle, Next, Apply;
    var all := steps + [s];
    assert all[..|steps|] == steps;
    forall k | 0 <= k < |all| ensures EnabledIn(Run(o, all[..k]), all[k]) {
      assert all[..k] == steps[..k];
    }
  }

  lemma Extends(o: Oracle, steps: seq<Step>, s: Step)
    requires Legal(o, steps) && EnabledIn(Run(o, steps), s)
    ensures ValidOracle(o)
    ensures var all := steps + [s];
            && Legal(o, all)
            && Run(o, all).reg == Apply(Run(o, steps).reg, o, s).reg
            && Emitted(o, all) == Emitted(o, steps) + Apply(Run(o, steps).reg, o, s).routes
            && Inv(Run(o, all).reg, Run(o, all).hist)
            && forall c :: AllKnown(FramesTo(c, Emitted(o, all)))
  {
    hide Run, Emitted, Mid, EnabledIn, FramesTo, ValidOracle, Apply, Noted, KnownAs;
    var all := steps + [s];
    Longer(o, steps, s);
    RunInv(o, all);
    forall c ensures AllKnown(FramesTo(c, Emitted(o, all))) { AnnouncedBeforeValue(o, all, c); }
  }
}
