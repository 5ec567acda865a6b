/** Legal runs in which the exact conditions fail: a publisher left on a deleted topic, a
    matched set that misses a topic, and a subscriber left out of a fan-out list.
    Concerns core/src/websocket/protocol.rs, with core/src/websocket/server.rs as the
    step relation. */
module RegistryFailures {
  import opened Values
  import opened Registry
  import opened RegistryInv
  import opened RegistryOps
  import opened RegistryPubs
  import opened RegistryPublish
  import opened RegistrySubs
  import opened RegistryConn
  import opened RegistryFrames
  import opened RegistryTrim
  import opened RegistryCounts
  import opened RegistryRuns
  import opened RegistryStrands
  import opened RegistryTallies
  import opened RegistryExact
  import opened RegistryTheorems
  import opened RegistrySmallRuns

  // ---------------------------------------------------------- a stranded publisher

  const PublishOnX: Step := Publish(2, PubMeta("x"), 0, "int", map[])
  const UnpublishX: Step := Unpublish(1, 0)
  const PublishY: Step := Publish(1, "y", 0, "int", map[])

  const XPublished: seq<Step> := [ConnectA, ConnectB, PublishX]
  const BothPublished: seq<Step> := XPublished + [PublishOnX]

  /** Client 1 publishes "x", client 2 publishes "$pub$x", client 1 unpublishes. */
  const Stranding: seq<Step> := BothPublished + [UnpublishX]

  lemma XPublishedRun(o: Oracle)
    requires ValidOracle(o)
    ensures Legal(o, XPublished) && NoStrands(o, XPublished) && HasX(Run(o, XPublished), {1, 2}, 12)
  {
    hide ValidOracle, Legal, NoStrands, NoMisses, NoLosses, Run, Next, Opened, HasX;
    OneConnected(o);
    var s1, s2 := [ConnectA], [ConnectA, ConnectB];
    assert s1 + [ConnectB] == s2 && s2 + [PublishX] == XPublished;
    OpenedUnseen(Run(o, s1), {1}, 5, 2, "b");
    RunStep(o, s1, ConnectB);
    LegalStep(o, s1, ConnectB);
    ConnectOpened(Run(o, s1), o, {1}, 5, 2, "b");
    assert {1} + {2} == {1, 2};
    PublishXSees(Run(o, s2), o, {1, 2}, 10);
    RunStep(o, s2, PublishX);
    LegalStep(o, s2, PublishX);
  }

  lemma OpenedUnseen(w: World, clients: set<ClientId>, bound: nat, c: ClientId, base: string)
    requires Opened(w, clients, bound) && c !in clients
    ensures EnabledIn(w, Connect(c, base)) && !Strands(w.reg, Connect(c, base))
    ensures !Misses(w.reg, Connect(c, base)) && !Loses(w.reg, Connect(c, base))
  {
    hide OpenedReg;
  }

  /** The state of the run with both publishers in place, against the one before. */
  ghost predicate Staged(r: Reg, w: World) {
    && IdsIn(w.reg) && w.reg.clients.Keys == {1, 2} && w.reg.nameOf == r.nameOf
    && w.hist.accepted == map[(1, 0) := "x", (2, 0) := PubMeta("x")]
    && r.byName.Keys <= w.reg.byName.Keys && |w.reg.byName| <= 14
    && (forall n | n in w.reg.byName :: n in r.byName || n == PubMeta(PubMeta("x")))
    && (forall i | i in r.topics :: i in w.reg.topics && SameKind(r.topics[i], w.reg.topics[i]))
  }

  /** In a counted state a client without an accepted name has no uid. */
  lemma NoUids(r: Reg, acc: Accepted, c: ClientId)
    requires Counted(r, acc) && c in r.clients && forall p: nat :: (c, p) !in acc
    ensures r.clients[c].pubs == map[]
  {
    hide Counted;
    CountedLive(r, acc);
    assert forall p :: p !in r.clients[c].pubs;
  }

  lemma {:induction false} BothPublishedRun(o: Oracle)
    requires ValidOracle(o)
    ensures Legal(o, BothPublished) && NoStrands(o, BothPublished)
    ensures Staged(Run(o, XPublished).reg, Run(o, BothPublished))
  {
    hide ValidOracle, Legal, NoStrands, NoMisses, NoLosses, Run, Next, Counted, IdsInv, PubsOf, AsksOf, NoSubs, Dense;
    hide Plain, ClientPubMeta, PubMeta, HandlePublish, PublishTopic, PublishMetas, WithPub, SameKind, IsRetained, Names;
    XPublishedRun(o);
    var w := Run(o, XPublished);
    var r := w.reg;
    CountedIffNoStrands(o, XPublished);
    assert CountedAfter(w);
    NoUids(r, w.hist.accepted, 2);
    TopicsBound(r);
    var name := PubMeta("x");
    assert PublishAccepted(r, 2, name, 0);
    assert !Strands(r, PublishOnX);
    RunStep(o, XPublished, PublishOnX);
    LegalStep(o, XPublished, PublishOnX);
    PublishNext(w, o, 2, name, 0, "int", map[]);
    FirstPublishSees(r, o, 2, name, 0, "int", map[]);
    PublishBound(r, HandlePublish(r, o, 2, name, 0, "int", map[]).reg, 2, name);
  }

  /** Where the two uids are once both are published. */
  ghost predicate Poised(r: Reg, x: TopicId, px: TopicId) {
    && IdsIn(r) && 1 in r.clients && 2 in r.clients && 1 in r.nameOf
    && r.clients[1].pubs == map[0 := x] && r.clients[2].pubs == map[0 := px]
    && x in r.topics && r.topics[x].name == "x" && px in r.topics && r.topics[px].name == PubMeta("x")
    && Last(r, x, 1)
    && ClientPubMeta(r.nameOf[1]) in r.byName
  }

  lemma PairIs(r: Reg, x: TopicId, k: (ClientId, nat))
    requires k in PairsOn(PubsOf(r.clients), x)
    ensures k.0 in r.clients && k.1 in r.clients[k.0].pubs && r.clients[k.0].pubs[k.1] == x
  {
  }

  lemma OnePair(r: Reg, acc: Accepted, x: TopicId)
    requires Counted(r, acc) && x in r.topics && r.topics[x].name == "x"
    requires acc == map[(1, 0) := "x", (2, 0) := PubMeta("x")]
    ensures r.topics[x].publishers <= 1
  {
    hide PairsOn, PubMeta, PubsOf, Points, Counts, Names;
    MetaPrefixes("x");
    CountedLive(r, acc);
    ViewsAt(r.topics, x);
    var pairs := PairsOn(PubsOf(r.clients), x);
    forall k | k in pairs ensures k == (1, 0) {
      PairIs(r, x, k);
      assert (k.0, k.1) in acc && acc[(k.0, k.1)] == "x";
    }
    SubsetOfOne(pairs, (1, 0));
  }

  lemma SubsetOfOne(xs: set<(ClientId, nat)>, k: (ClientId, nat))
    requires xs <= {k}
    ensures |xs| <= 1
  {
    if k in xs { assert xs == {k}; } else { assert xs == {}; }
  }

  lemma OnlyUid(r: Reg, acc: Accepted, c: ClientId, name: string)
    requires Counted(r, acc) && c in r.clients
    requires forall p: nat :: (c, p) in acc <==> p == 0
    requires acc[(c, 0)] == name
    ensures 0 in r.clients[c].pubs && r.clients[c].pubs == map[0 := r.clients[c].pubs[0]]
    ensures r.clients[c].pubs[0] in r.topics && r.topics[r.clients[c].pubs[0]].name == name
  {
    hide Counted;
    CountedLive(r, acc);
    AcceptedLive(r, acc);
    assert (c, 0).0 == c && (c, 0).1 == 0;
    assert forall p | p in r.clients[c].pubs :: p == 0;
  }

  lemma {:induction false} PoisedRun(o: Oracle) returns (x: TopicId, px: TopicId)
    requires ValidOracle(o)
    ensures Poised(Run(o, BothPublished).reg, x, px)
    ensures var r := Run(o, XPublished).reg;
            "x" in r.byName && r.byName["x"] == x && PubMeta("x") in r.byName && r.byName[PubMeta("x")] == px
  {
    hide ValidOracle, Legal, NoStrands, NoMisses, NoLosses, Run, Counted, IdsInv, AsksOf, NoSubs, Dense;
    hide Plain, ClientPubMeta, PubMeta, IsRetained, Names, PubsOf;
    XPublishedRun(o);
    BothPublishedRun(o);
    CountedIffNoStrands(o, BothPublished);
    var w3, w := Run(o, XPublished), Run(o, BothPublished);
    assert CountedAfter(w);
    var r := w.reg;
    OnlyUid(r, w.hist.accepted, 1, "x");
    OnlyUid(r, w.hist.accepted, 2, PubMeta("x"));
    x, px := r.clients[1].pubs[0], r.clients[2].pubs[0];
    NamedTopic(w3.reg, "x");
    OneName(r, x, w3.reg.byName["x"]);
    NamedTopic(w3.reg, PubMeta("x"));
    OneName(r, px, w3.reg.byName[PubMeta("x")]);
    KindRetained(w3.reg.topics[x], r.topics[x]);
    OnePair(r, w.hist.accepted, x);
  }

  // ---- the unpublish

  lemma XHits(live: set<string>, n: string)
    requires "x" in live && n in live
    ensures n == "x" || n == PubMeta("x") ==> Hit(live, {"x"}, n)
    ensures Plain(n) ==> !Hit(live, {"x"}, n)
    ensures n == "x" || HasMetaPrefix(n) || !Hit(live, {"x"}, n)
  {
    MetaPrefixes("x");
    assert "x" in {"x"} && Reach(live, "x", "x");
    if n == PubMeta("x") { assert Reach(live, "x", n); }
  }

  /** Withdrawing the last uid of a topic whose client's own meta topic stays: exactly the
      topics chained to it go, and nothing comes. */
  lemma {:induction false} LastUnpublish(r: Reg, o: Oracle, c: ClientId, pubuid: nat)
    requires IdsIn(r) && c in r.clients && pubuid in r.clients[c].pubs && Last(r, r.clients[c].pubs[pubuid], 1)
    requires c in r.nameOf && ClientPubMeta(r.nameOf[c]) in r.byName
    requires !Hit(r.byName.Keys, {r.topics[r.clients[c].pubs[pubuid]].name}, ClientPubMeta(r.nameOf[c]))
    ensures var r' := HandleUnpublish(r, o, c, pubuid).reg;
            var roots := {r.topics[r.clients[c].pubs[pubuid]].name};
            && IdsIn(r') && r'.nameOf == r.nameOf
            && PubsOf(r'.clients) == WithoutPub(PubsOf(r.clients), c, pubuid)
            && (forall i :: i in r'.topics <==> i in r.topics && !Hit(r.byName.Keys, roots, r.topics[i].name))
            && (forall n :: n in r'.byName <==> n in r.byName && !Hit(r.byName.Keys, roots, n))
  {
    hide IdsInv, Adds, Hit, IsRetained, Names, Counts, WithoutPub, PubsOf, AsksOf, PublishMeta, ClientPubMeta, Delete;
    var id := r.clients[c].pubs[pubuid];
    var name := r.topics[id].name;
    var r1 := SetClient(r, c, r.clients[c].(pubs := r.clients[c].pubs - {pubuid}));
    var r0 := DropPublisher(r1, id);
    WithdrawViews(r, c, pubuid);
    DropPublisherIds(r1, id);
    LastOrphaned(r, r0, id);
    var a := Delete(r0, id);
    DeleteTrims(r0, id);
    TrimsNames(r0, a, {name});
    HitSelf(r.byName.Keys, name, r, id);
    assert name !in a.byName;
    var b := UpdateMetaClientPub(a, o, c).reg;
    assert HandleUnpublish(r, o, c, pubuid).reg == b;
    UpdateMetaClientAdds(a, o, c);
    AddsSame(a, b, {ClientPubMeta(r.nameOf[c])});
    AddsNoNew(a, b, {ClientPubMeta(r.nameOf[c])});
  }

  lemma HitSelf(live: set<string>, name: string, r: Reg, id: TopicId)
    requires IdsIn(r) && id in r.topics && name == r.topics[id].name && live == r.byName.Keys
    ensures Hit(live, {name}, name)
  {
    ByNameIs(r, id);
    assert name in {name} && Reach(live, name, name);
  }

  lemma UnpublishNext(w: World, o: Oracle, c: ClientId, pubuid: nat)
    ensures var w' := Next(w, o, Unpublish(c, pubuid));
            && w'.reg == HandleUnpublish(w.reg, o, c, pubuid).reg
            && w'.hist.accepted == w.hist.accepted - {(c, pubuid)} && w'.hist.seen == w.hist.seen
  {
    hide HandleUnpublish, Replay;
  }

  lemma PoisedStrands(r: Reg, x: TopicId, px: TopicId)
    requires Poised(r, x, px)
    ensures Strands(r, UnpublishX)
  {
    hide IdsInv, Hit, IsRetained, PubMeta;
    ByNameIs(r, x);
    ByNameIs(r, px);
    XHits(r.byName.Keys, PubMeta("x"));
    assert 2 in r.clients && 0 in r.clients[2].pubs && (2, 0) !in {(1, 0)} && r.clients[2].pubs[0] in r.topics;
  }

  lemma WithoutAt(r: Reg, r': Reg, c: ClientId, p: nat)
    requires c in r.clients && PubsOf(r'.clients) == WithoutPub(PubsOf(r.clients), c, p)
    ensures r'.clients.Keys == r.clients.Keys
    ensures r'.clients[c].pubs == r.clients[c].pubs - {p}
    ensures forall d | d in r.clients && d != c :: r'.clients[d].pubs == r.clients[d].pubs
  {
    assert PubsOf(r'.clients).Keys == r'.clients.Keys && PubsOf(r.clients).Keys == r.clients.Keys;
    assert PubsOf(r'.clients)[c] == r'.clients[c].pubs;
    forall d | d in r.clients && d != c ensures r'.clients[d].pubs == r.clients[d].pubs {
      assert PubsOf(r'.clients)[d] == r'.clients[d].pubs;
    }
  }

  lemma {:induction false} StrandedAfter(r: Reg, o: Oracle, x: TopicId, px: TopicId)
    requires Poised(r, x, px)
    ensures var r' := HandleUnpublish(r, o, 1, 0).reg;
            && IdsIn(r') && r'.nameOf == r.nameOf && r'.clients.Keys == r.clients.Keys
            && r'.clients[1].pubs == map[] && r'.clients[2].pubs == map[0 := px]
            && x !in r'.topics && px !in r'.topics
            && (forall i :: i in r'.topics <==> i in r.topics && !Hit(r.byName.Keys, {"x"}, r.topics[i].name))
            && (forall n :: n in r'.byName <==> n in r.byName && !Hit(r.byName.Keys, {"x"}, n))
  {
    hide IdsInv, Hit, IsRetained, PubMeta, PubsOf, WithoutPub, HandleUnpublish, ClientPubMeta, Names;
    var live := r.byName.Keys;
    ByNameIs(r, x);
    ByNameIs(r, px);
    XHits(live, "x");
    XHits(live, PubMeta("x"));
    ClientMetaPlain(r.nameOf[1]);
    XHits(live, ClientPubMeta(r.nameOf[1]));
    LastUnpublish(r, o, 1, 0);
    WithoutAt(r, HandleUnpublish(r, o, 1, 0).reg, 1, 0);
    assert map[0 := x] - {0} == map[];
  }

  lemma ClientMetaPlain(name: string)
    ensures Plain(ClientPubMeta(name))
  {
    hide Plain;
    ConnectMetasPlain(name);
  }

  /** A publisher is stranded: in this legal run client 2's uid is left on no topic at all. */
  lemma {:induction false} StrandedRun(o: Oracle)
    requires ValidOracle(o)
    ensures Legal(o, Stranding) && !NoStrands(o, Stranding)
    ensures var w := Run(o, Stranding);
            && (2, 0) in w.hist.accepted
            && 2 in w.reg.clients && 0 in w.reg.clients[2].pubs && w.reg.clients[2].pubs[0] !in w.reg.topics
  {
    hide ValidOracle, Legal, NoStrands, NoMisses, NoLosses, Run, Next, HandleUnpublish, Hit, IdsInv, Strands, PubMeta;
    BothPublishedRun(o);
    var x, px := PoisedRun(o);
    var w := Run(o, BothPublished);
    PoisedStrands(w.reg, x, px);
    RunStep(o, BothPublished, UnpublishX);
    LegalStep(o, BothPublished, UnpublishX);
    UnpublishNext(w, o, 1, 0);
    StrandedAfter(w.reg, o, x, px);
  }

  // ---- the freed ids are handed out again

  /** Below `bound` exactly `x` and `y` are free. */
  ghost predicate TwoFree(r: Reg, bound: nat, x: TopicId, y: TopicId) {
    && x != y && x < bound && y < bound
    && forall i: nat | i < bound :: i in r.topics <==> i != x && i != y
  }

  lemma AllocFree(r: Reg, bound: nat, free: set<TopicId>)
    requires IdsIn(r) && free != {}
    requires forall i: nat | i < bound :: i in r.topics <==> i !in free
    requires forall i | i in free :: i < bound
    ensures AllocId(r).1 in free
  {
    hide AllocId, IdsInv, Names;
    AllocIdLeast(r);
    var i :| i in free;
    assert i !in r.topics;
  }

  lemma FillSecond(r: Reg, o: Oracle, c: ClientId, name: string, id: TopicId, bound: nat, hole: TopicId)
    requires IdsIn(r) && name in r.byName && PubMeta(name) !in r.byName
    requires c in r.nameOf && ClientPubMeta(r.nameOf[c]) in r.byName
    requires hole < bound && forall i: nat | i < bound :: i in r.topics <==> i != hole
    ensures var r' := FinishPublish(r, o, c, name, id, true, None).reg;
            hole in r'.topics && r'.topics[hole].name == PubMeta(name)
  {
    hide IdsInv, Adds, AnnounceToMatching, PublishMeta, PubMeta, ClientPubMeta, PubsOf, AsksOf, AllocId, Names;
    var a := AnnounceToMatching(r, o, id, name).reg;
    AnnounceAdds(r, o, id, name);
    AddsSame(r, a, {});
    var own := {ClientPubMeta(r.nameOf[c])};
    var d := UpdateMetaClientPub(a, o, c).reg;
    UpdateMetaClientAdds(a, o, c);
    AddsSame(a, d, own);
    AddsNoNew(a, d, own);
    AllocFree(d, bound, {hole});
    MetaNames(name);
    PublishMetaNamed(d, o, PubMeta(name));
  }

  lemma NewTopicId(r: Reg, name: string, typeStr: string, props: Props)
    requires IdsIn(r) && name !in r.byName
    ensures var (r1, id) := PublishTopic(r, name, typeStr, props);
            && id == AllocId(r).1 && r1.topics.Keys == r.topics.Keys + {id} && id !in r.topics
            && r1.nameOf == r.nameOf
  {
    hide IdsInv, NoDup, PublishedTopic, AllocId;
    PublishedTopicName(name, typeStr, props);
    CreateShape(r, PublishedTopic(name, typeStr, props));
  }

  /** The new topic and its meta topic take the two free ids. */
  lemma {:induction false} FillsBoth(r: Reg, o: Oracle, c: ClientId, name: string, pubuid: nat, bound: nat,
                                     x: TopicId, y: TopicId)
    requires IdsIn(r) && c in r.clients && PublishAccepted(r, c, name, pubuid) && pubuid !in r.clients[c].pubs
    requires name !in r.byName && PubMeta(name) !in r.byName
    requires c in r.nameOf && ClientPubMeta(r.nameOf[c]) in r.byName
    requires TwoFree(r, bound, x, y)
    ensures var r' := HandlePublish(r, o, c, name, pubuid, "int", map[]).reg;
            y in r'.topics && (r'.topics[y].name == name || r'.topics[y].name == PubMeta(name))
  {
    hide IdsInv, Adds, PublishTopic, PointPub, PubsOf, WithPub, AsksOf, PublishAccepted, HandlePublish, EnterPublish;
    hide FinishPublish, AddAnnounced, PublishMetas, Dense, Names, AllocId, PubMeta, ClientPubMeta, Repointed;
    var (r1, id) := PublishTopic(r, name, "int", map[]);
    PublishTopicAdds(r, name, "int", map[]);
    AddsSame(r, r1, {name});
    NewTopicId(r, name, "int", map[]);
    AllocFree(r, bound, {x, y});
    EnterPublishIs(r, c, name, pubuid, "int", map[]);
    HandlePublishIs(r, o, c, name, pubuid, "int", map[]);
    FirstPublishSees(r, o, c, name, pubuid, "int", map[]);
    var r2 := AddAnnounced(PointPub(r1, c, pubuid, id), c, id);
    EnteredIds(r1, c, pubuid, id);
    PointedNames(r1, c, pubuid, id);
    EnteredNames(r1, c, pubuid, id);
    var hole := if id == x then y else x;
    NotMeta(name);
    FillSecond(r2, o, c, name, id, bound, hole);
  }

  lemma NotMeta(name: string)
    ensures PubMeta(name) != name
  {
    MetaPrefixes(name);
  }

  lemma EnteredNames(r: Reg, c: ClientId, pubuid: nat, id: TopicId)
    requires c in r.clients
    ensures AddAnnounced(PointPub(r, c, pubuid, id), c, id).byName == r.byName
  {
    hide AddTo, Lookup;
  }

  lemma YNames(n: string)
    requires Plain(n) || n == "x" || n == PubMeta("x") || n == PubMeta(PubMeta("x"))
    ensures n != "y" && n != PubMeta("y")
  {
    MetaPrefixes("x");
    MetaPrefixes("y");
    MetaPrefixes(PubMeta("x"));
    assert PubMeta("x")[5..] == "x" && PubMeta("y")[5..] == "y" && PubMeta(PubMeta("x"))[5..] == PubMeta("x");
  }

  lemma {:induction false} TwoFreed(r3: Reg, w: World, r': Reg, x: TopicId, px: TopicId)
    requires IdsIn(r3) && Dense(r3) && Staged(r3, w) && IdsIn(w.reg)
    requires forall n | n in r3.byName :: Plain(n) || n == "x" || n == PubMeta("x")
    requires "x" in r3.byName && r3.byName["x"] == x && PubMeta("x") in r3.byName && r3.byName[PubMeta("x")] == px
    requires forall i :: i in r'.topics <==> i in w.reg.topics && !Hit(w.reg.byName.Keys, {"x"}, w.reg.topics[i].name)
    ensures TwoFree(r', r3.nextId, x, px)
  {
    hide IdsInv, Hit, PubMeta, Plain, Names;
    MetaPrefixes("x");
    NamedTopic(r3, "x");
    NamedTopic(r3, PubMeta("x"));
    BelowNext(r3, x);
    BelowNext(r3, px);
    forall i: nat | i < r3.nextId ensures i in r'.topics <==> i != x && i != px {
      var n := r3.topics[i].name;
      ByNameIs(r3, i);
      assert w.reg.topics[i].name == n;
      XHits(w.reg.byName.Keys, n);
    }
  }

  lemma BelowNext(r: Reg, i: TopicId)
    requires IdsIn(r) && i in r.topics
    ensures i < r.nextId
  {
    assert i in Names(r.topics);
  }

  lemma {:induction false} YRefills(o: Oracle, x: TopicId, px: TopicId)
    requires ValidOracle(o) && Poised(Run(o, BothPublished).reg, x, px)
    requires var r := Run(o, XPublished).reg;
             "x" in r.byName && r.byName["x"] == x && PubMeta("x") in r.byName && r.byName[PubMeta("x")] == px
    ensures var r := Run(o, Stranding).reg;
            && 1 in r.clients && 2 in r.clients && IdsIn(r) && PublishAccepted(r, 1, "y", 0) && 0 !in r.clients[1].pubs
            && r.clients[2].pubs == map[0 := px]
            && var r' := HandlePublish(r, o, 1, "y", 0, "int", map[]).reg;
               px in r'.topics && (r'.topics[px].name == "y" || r'.topics[px].name == PubMeta("y"))
  {
    hide ValidOracle, Legal, NoStrands, NoMisses, NoLosses, Run, Next, HandleUnpublish, HandlePublish, Hit, IdsInv;
    hide PubMeta;
    hide ClientPubMeta, Plain, Dense, Names, IsRetained, AsksOf, NoSubs, SameKind;
    XPublishedRun(o);
    BothPublishedRun(o);
    var r3, w := Run(o, XPublished).reg, Run(o, BothPublished);
    RunStep(o, BothPublished, UnpublishX);
    UnpublishNext(w, o, 1, 0);
    StrandedAfter(w.reg, o, x, px);
    var r := Run(o, Stranding).reg;
    TwoFreed(r3, w, r, x, px);
    NamesBound(w.reg, r, {});
    TopicsBound(r);
    forall n | n in r.byName ensures n != "y" && n != PubMeta("y") { YNames(n); }
    ClientMetaPlain(r.nameOf[1]);
    XHits(w.reg.byName.Keys, ClientPubMeta(r.nameOf[1]));
    FillsBoth(r, o, 1, "y", 0, r3.nextId, x, px);
  }

  /** The stranded uid wakes up elsewhere: once client 1 publishes "y", client 2's uid, which
      was accepted for "$pub$x", is on a topic of another name. */
  lemma {:induction false} StrandedUidMoves(o: Oracle)
    requires ValidOracle(o)
    ensures Legal(o, Stranding + [PublishY])
    ensures var w := Run(o, Stranding + [PublishY]);
            && (2, 0) in w.hist.accepted && w.hist.accepted[(2, 0)] == PubMeta("x")
            && 2 in w.reg.clients && 0 in w.reg.clients[2].pubs && w.reg.clients[2].pubs[0] in w.reg.topics
            && w.reg.topics[w.reg.clients[2].pubs[0]].name in {"y", PubMeta("y")}
  {
    hide ValidOracle, Legal, NoStrands, NoMisses, NoLosses, Run, Next, HandlePublish, IdsInv, PubMeta, PublishAccepted;
    hide HandleUnpublish, PubsOf, WithPub, PublishTopic, AsksOf, Dense, PublishMetas, SameKind;
    BothPublishedRun(o);
    var x, px := PoisedRun(o);
    StrandedRun(o);
    YRefills(o, x, px);
    var w4, w := Run(o, BothPublished), Run(o, Stranding);
    RunStep(o, BothPublished, UnpublishX);
    UnpublishNext(w4, o, 1, 0);
    RunStep(o, Stranding, PublishY);
    LegalStep(o, Stranding, PublishY);
    PublishNext(w, o, 1, "y", 0, "int", map[]);
    FirstPublishSees(w.reg, o, 1, "y", 0, "int", map[]);
    var id := PublishTopic(w.reg, "y", "int", map[]).1;
    WithAt(w.reg, HandlePublish(w.reg, o, 1, "y", 0, "int", map[]).reg, 1, 0, id);
  }

  lemma WithAt(r: Reg, r': Reg, c: ClientId, p: nat, id: TopicId)
    requires c in r.clients && PubsOf(r'.clients) == WithPub(PubsOf(r.clients), c, p, id)
    ensures r'.clients.Keys == r.clients.Keys
    ensures forall d | d in r.clients && d != c :: r'.clients[d].pubs == r.clients[d].pubs
  {
    assert PubsOf(r'.clients).Keys == r'.clients.Keys && PubsOf(r.clients).Keys == r.clients.Keys;
    forall d | d in r.clients && d != c ensures r'.clients[d].pubs == r.clients[d].pubs {
      assert PubsOf(r'.clients)[d] == r'.clients[d].pubs;
    }
  }

  // ------------------------------------------------------------ subscribing, seen

  lemma AsksAt(r: Reg, c: ClientId)
    requires c in r.clients
    ensures c in AsksOf(r.clients) && AsksOf(r.clients)[c].Keys == r.clients[c].subs.Keys
    ensures forall u | u in r.clients[c].subs :: AsksOf(r.clients)[c][u] == r.clients[c].subs[u].(matched := {})
  {
  }

  lemma AsksPut(clients: map<ClientId, Client>, c: ClientId, u: nat, sub: Subscription)
    requires c in clients
    ensures var cl := clients[c].(subs := clients[c].subs[u := sub]);
            var asks: map<nat, Subscription> := AsksOf(clients)[c];
            AsksOf(clients[c := cl]) == AsksOf(clients)[c := asks[u := sub.(matched := {})]]
  {
    var cl := clients[c].(subs := clients[c].subs[u := sub]);
    var asks: map<nat, Subscription> := AsksOf(clients)[c];
    assert AsksOf(clients[c := cl])[c] == asks[u := sub.(matched := {})];
    forall d | d in clients && d != c ensures AsksOf(clients[c := cl])[d] == AsksOf(clients)[d] {
      assert clients[c := cl][d] == clients[d];
    }
  }

  /** A subscribe under a new uid, seen from outside. */
  lemma {:induction false} SubscribeSees(r: Reg, o: Oracle, c: ClientId, patterns: seq<string>, u: nat,
                                         prefix: bool, topicsOnly: bool)
    requires IdsIn(r) && c in r.clients && u !in r.clients[c].subs && SubscribeAccepted(r, c, u)
    ensures var r' := HandleSubscribe(r, o, c, patterns, u, prefix, topicsOnly).reg;
            var asks: map<nat, Subscription> := AsksOf(r.clients)[c];
            && IdsIn(r') && r'.clients.Keys == r.clients.Keys
            && AsksOf(r'.clients) == AsksOf(r.clients)[c := asks[u := Subscription(patterns, prefix, topicsOnly, {})]]
            && r.byName.Keys <= r'.byName.Keys
            && var sub := NewSub(r, patterns, prefix, topicsOnly);
               r'.byName.Keys <= r.byName.Keys + SubscribeMetas(EnterSub(r, c, u, sub).reg, o, c, sub.matched)
  {
    hide IdsInv, Adds, DropSub, NewSub, MetaSubs, Touched, HandleSubscribe, SubscribeAccepted, SubscribeMetas, Names;
    hide SubscribeEach, Ascending, PubsOf, AsksOf;
    var sub := NewSub(r, patterns, prefix, topicsOnly);
    HandleSubscribeIs(r, o, c, patterns, u, prefix, topicsOnly);
    DropSubNone(r, c, u);
    TouchedNone(r, c, u);
    SubscribeEachShape(r, c, sub.topicsOnly, Ascending(sub.matched, r.nextId));
    var a := EnterSub(r, c, u, sub).reg;
    EnterSubOnly(r, c, u, sub);
    OnlySubsCounted(r, a, map[]);
    AsksPut(r.clients, c, u, sub);
    NewSubAsks(r, patterns, prefix, topicsOnly);
    assert {} + sub.matched == sub.matched;
    MetaSubsAdds(a, o, c, sub.matched);
    AddsSame(a, MetaSubs(a, o, c, sub.matched).reg, SubscribeMetas(a, o, c, sub.matched));
  }

  lemma TouchedNone(r: Reg, c: ClientId, u: nat)
    requires c in r.clients && u !in r.clients[c].subs
    ensures Touched(r, c, u) == {}
  {
  }

  lemma NewSubAsks(r: Reg, patterns: seq<string>, prefix: bool, topicsOnly: bool)
    ensures NewSub(r, patterns, prefix, topicsOnly).(matched := {}) == Subscription(patterns, prefix, topicsOnly, {})
  {
  }

  lemma SubscribeNext(w: World, o: Oracle, c: ClientId, patterns: seq<string>, u: nat, prefix: bool, topicsOnly: bool)
    ensures var w' := Next(w, o, Subscribe(c, patterns, u, prefix, topicsOnly));
            w'.reg == HandleSubscribe(w.reg, o, c, patterns, u, prefix, topicsOnly).reg && w'.hist.seen == w.hist.seen
  {
    hide HandleSubscribe, Replay;
  }

  // -------------------------------------------------------------- a missed topic

  const SubscribeX: Step := Subscribe(1, ["x"], 0, false, false)
  const XAsked: Subscription := Subscription(["x"], false, false, {})

  lemma XAskedCovers(sub: Subscription, n: string)
    requires sub.(matched := {}) == XAsked
    ensures Covers(sub, n) <==> n == "x"
  {
    assert "x" in sub.patterns;
    assert !IsMeta("x");
  }

  /** Client 1 subscribes to "x" and the server upserts "x". */
  function Missing(value: Value, ts: nat): seq<Step> { [ConnectA, SubscribeX] + [Upsert("x", value, ts)] }

  lemma NothingCovered(r: Reg)
    requires forall n | n in r.byName :: Plain(n)
    ensures NewSub(r, ["x"], false, false).matched == {}
  {
    forall n | n in r.byName ensures !Covers(XAsked, n) {
      XAskedCovers(XAsked, n);
      XPlain();
    }
    hide Covers;
  }

  lemma NoSubMetas(r: Reg, o: Oracle, c: ClientId)
    requires ValidOracle(o) && c in r.nameOf
    ensures SubscribeMetas(r, o, c, {}) == {ClientSubMeta(r.nameOf[c])}
  {
    hide UpdateMetaClientSub, ValidOracle;
    var d := UpdateMetaClientSub(r, o, c).reg;
    OrderOfNone(o, d.ticks);
    assert SubMetas(LiveNames(d, [], true)) == {};
  }

  lemma {:induction false} DistinctSize(q: seq<nat>, xs: set<nat>)
    requires NoDup(q) && forall x | x in q :: x in xs
    ensures |q| <= |xs|
    decreases |q|
  {
    if q != [] {
      var n := |q| - 1;
      assert q[n] in q;
      forall x | x in q[..n] ensures x in xs - {q[n]} { assert x in q; }
      DistinctSize(q[..n], xs - {q[n]});
    }
  }

  lemma OrderOfNone(o: Oracle, k: nat)
    requires ValidOracle(o)
    ensures o.order(k, {}) == []
  {
    assert Enumerates(o.order(k, {}), {});
    DistinctSize(o.order(k, {}), {});
  }

  /** What client 1 asks for after subscribing to "x" with nothing there. */
  ghost predicate AsksX(r: Reg) {
    && IdsIn(r) && 1 in r.clients && 0 in r.clients[1].subs && r.clients[1].subs[0].(matched := {}) == XAsked
    && "x" !in r.byName && |r.topics| < MAX_TOPICS
  }

  lemma AsksIs(r: Reg, c: ClientId, u: nat)
    requires c in AsksOf(r.clients) && u in AsksOf(r.clients)[c]
    ensures c in r.clients && u in r.clients[c].subs
    ensures AsksOf(r.clients)[c][u] == r.clients[c].subs[u].(matched := {})
  {
  }

  lemma NoSubsAt(r: Reg, clients: set<ClientId>, c: ClientId)
    requires AsksOf(r.clients) == NoSubs(clients) && c in clients
    ensures c in r.clients && r.clients[c].subs == map[]
  {
    assert c in AsksOf(r.clients);
    AsksAt(r, c);
    assert r.clients[c].subs.Keys == {};
  }

  lemma {:induction false} AskedRun(o: Oracle)
    requires ValidOracle(o)
    ensures var steps := [ConnectA, SubscribeX];
            Legal(o, steps) && NoMisses(o, steps) && AsksX(Run(o, steps).reg)
  {
    hide ValidOracle, Legal, NoStrands, NoMisses, NoLosses, Run, Next, HandleSubscribe, IdsInv, PubsOf, AsksOf;
    hide NoSubs, NoPubs;
    hide Dense, NewSub, EnterSub, SubscribeMetas, Plain, ClientPubMeta, ClientSubMeta, Names, ConnectMetas;
    OneConnected(o);
    var s1, w := [ConnectA], Run(o, [ConnectA]);
    var r := w.reg;
    assert s1 + [SubscribeX] == [ConnectA, SubscribeX];
    NoSubsAt(r, {1}, 1);
    RunStep(o, s1, SubscribeX);
    LegalStep(o, s1, SubscribeX);
    SubscribeNext(w, o, 1, ["x"], 0, false, false);
    SubscribeSees(r, o, 1, ["x"], 0, false, false);
    NothingCovered(r);
    var sub := NewSub(r, ["x"], false, false);
    var a := EnterSub(r, 1, 0, sub).reg;
    EnterSubOnly(r, 1, 0, sub);
    NoSubMetas(a, o, 1);
    var r' := HandleSubscribe(r, o, 1, ["x"], 0, false, false).reg;
    NamesBound(r, r', {ClientSubMeta(r.nameOf[1])});
    TopicsBound(r');
    XPlain();
    ClientSubPlain(r.nameOf[1]);
    AsksIs(r', 1, 0);
  }

  lemma ClientSubPlain(name: string)
    ensures Plain(ClientSubMeta(name))
  {
    hide Plain;
    ConnectMetasPlain(name);
  }

  lemma UpsertSees(r: Reg, value: Value, ts: nat)
    requires IdsIn(r) && "x" !in r.byName && |r.topics| < MAX_TOPICS
    ensures var r' := HandleUpsert(r, "x", value, ts).reg;
            && r'.clients == r.clients && "x" in r'.byName && r'.byName["x"] in r'.topics
            && r'.byName["x"] !in r.topics && r'.topics[r'.byName["x"]].name == "x"
  {
    hide IdsInv, NoDup, UpsertTopic, TopicValue, Names;
    UpsertTopicOk("x", value);
    var t := UpsertTopic("x", value);
    CreateShape(r, t);
    var (r1, id) := Create(r, t);
    TopicValueShape(r1, id, value, ts);
    ViewsAt(r1.topics, id);
    ViewsAt(TopicValue(r1, id, value, ts).reg.topics, id);
  }

  /** A silent creation: in this legal run client 1's subscription covers the live topic "x"
      and does not have it in its matched set. */
  lemma {:induction false} MissedRun(o: Oracle, value: Value, ts: nat)
    requires ValidOracle(o)
    ensures Legal(o, Missing(value, ts)) && !NoMisses(o, Missing(value, ts))
    ensures var r := Run(o, Missing(value, ts)).reg;
            && 1 in r.clients && 0 in r.clients[1].subs && "x" in r.byName
            && r.byName["x"] in Scan(r.topics, r.clients[1].subs[0])
            && r.byName["x"] !in r.clients[1].subs[0].matched
  {
    hide ValidOracle, Legal, NoStrands, NoMisses, NoLosses, Run, HandleUpsert, IdsInv, Mid, Names, Replay, Covers;
    AskedRun(o);
    var steps, s := [ConnectA, SubscribeX], Upsert("x", value, ts);
    var w := Run(o, steps);
    RunInv(o, steps);
    RunStep(o, steps, s);
    LegalStep(o, steps, s);
    UpsertSees(w.reg, value, ts);
    var sub := w.reg.clients[1].subs[0];
    XAskedCovers(sub, "x");
    assert Covered(w.reg.clients, "x");
    forall i | i in sub.matched ensures i in w.reg.topics { MatchedLive(w.reg, w.hist, 1, 0, i); }
  }

  // ---------------------------------------------------------- a lost subscriber

  const SubscribeAgain: Step := Subscribe(1, ["x"], 1, false, false)

  /** Client 1 publishes "x", subscribes to it twice and takes one subscription back. */
  const Losing: seq<Step> := [ConnectA, PublishX, SubscribeX, SubscribeAgain] + [Unsubscribe(1, 0)]

  lemma XRun(o: Oracle)
    requires ValidOracle(o)
    ensures var steps := [ConnectA, PublishX];
            Legal(o, steps) && NoMisses(o, steps) && NoLosses(o, steps) && HasX(Run(o, steps), {1}, 7)
  {
    hide ValidOracle, Legal, NoStrands, NoMisses, NoLosses, Run, Next, Opened, HasX, Strands;
    OneConnected(o);
    var s1 := [ConnectA];
    assert s1 + [PublishX] == [ConnectA, PublishX];
    PublishXSees(Run(o, s1), o, {1}, 5);
    RunStep(o, s1, PublishX);
    LegalStep(o, s1, PublishX);
  }

  /** The subscriptions of client 1, each to "x", and that "x" is live. */
  ghost predicate AsksThrough(r: Reg, uids: set<nat>) {
    && IdsIn(r) && r.clients.Keys == {1} && "x" in r.byName && r.clients[1].subs.Keys == uids
    && forall u | u in uids :: r.clients[1].subs[u].(matched := {}) == XAsked
  }

  lemma {:induction false} SubscribeMore(w: World, o: Oracle, uids: set<nat>, u: nat)
    requires AsksThrough(w.reg, uids) && u !in uids && |uids| < MAX_PER_CLIENT
    ensures var s := Subscribe(1, ["x"], u, false, false);
            && EnabledIn(w, s) && !Misses(w.reg, s) && !Loses(w.reg, s)
            && AsksThrough(Next(w, o, s).reg, uids + {u})
  {
    hide HandleSubscribe, IdsInv, AsksOf, NewSub, EnterSub, SubscribeMetas, Names, Next;
    var r := w.reg;
    assert |r.clients[1].subs| == |r.clients[1].subs.Keys|;
    SubscribeNext(w, o, 1, ["x"], u, false, false);
    SubscribeSees(r, o, 1, ["x"], u, false, false);
    var r' := HandleSubscribe(r, o, 1, ["x"], u, false, false).reg;
    AsksAt(r, 1);
    AsksAt(r', 1);
    forall v | v in uids + {u} ensures r'.clients[1].subs[v].(matched := {}) == XAsked { AsksIs(r', 1, v); }
  }

  lemma {:induction false} TwiceRun(o: Oracle)
    requires ValidOracle(o)
    ensures var steps := [ConnectA, PublishX, SubscribeX, SubscribeAgain];
            Legal(o, steps) && NoMisses(o, steps) && NoLosses(o, steps) && AsksThrough(Run(o, steps).reg, {0, 1})
  {
    hide ValidOracle, Legal, NoStrands, NoMisses, NoLosses, Run, Next, IdsInv, AsksOf, NoSubs, Dense, Plain;
    hide ClientPubMeta, PubMeta, Names, IsRetained, EnabledIn, Misses, Loses, Strands;
    XRun(o);
    var s2, s3 := [ConnectA, PublishX], [ConnectA, PublishX, SubscribeX];
    assert s2 + [SubscribeX] == s3 && s3 + [SubscribeAgain] == [ConnectA, PublishX, SubscribeX, SubscribeAgain];
    var w2 := Run(o, s2);
    NoSubsAt(w2.reg, {1}, 1);
    SubscribeMore(w2, o, {}, 0);
    assert {} + {0} == {0} && {0} + {1} == {0, 1};
    RunStep(o, s2, SubscribeX);
    LegalStep(o, s2, SubscribeX);
    SubscribeMore(Run(o, s3), o, {0}, 1);
    RunStep(o, s3, SubscribeAgain);
    LegalStep(o, s3, SubscribeAgain);
  }

  /** A losing unsubscribe: in this legal run client 1 still asks for the values of "x" and
      is no longer in its fan-out list. */
  lemma {:induction false} LostRun(o: Oracle)
    requires ValidOracle(o)
    ensures Legal(o, Losing) && !NoLosses(o, Losing)
    ensures var r := Run(o, Losing).reg;
            "x" in r.byName && AsksFor(r, 1, r.byName["x"]) && 1 !in ListAt(r.subscribers, r.byName["x"])
  {
    hide ValidOracle, Legal, NoStrands, NoMisses, NoLosses, Run, Next, HandleUnsubscribe, IdsInv, Covers, Names;
    TwiceRun(o);
    var steps, s := [ConnectA, PublishX, SubscribeX, SubscribeAgain], Unsubscribe(1, 0);
    var w := Run(o, steps);
    var r := w.reg;
    NamedTopic(r, "x");
    forall u | u in {0, 1} ensures r.byName["x"] in r.clients[1].subs[u].matched {
      MatchedIsScan(o, steps, 1, u);
      XAskedCovers(r.clients[1].subs[u], "x");
    }
    assert Loses(r, s);
    RunStep(o, steps, s);
    LegalStep(o, steps, s);
    assert steps + [s] == Losing;
    FullIffNoLosses(o, steps);
    FullIffNoLosses(o, Losing);
    UnsubscribeSees(r, o);
    UnsubscribeNext(w, o, 1, 0);
    RunInv(o, Losing);
    var w' := Run(o, Losing);
    assert !FullIn(w'.reg);
    LostGap(w'.reg, w'.hist);
  }

  lemma UnsubscribeNext(w: World, o: Oracle, c: ClientId, u: nat)
    ensures Next(w, o, Unsubscribe(c, u)).reg == HandleUnsubscribe(w.reg, o, c, u).reg
  {
    hide HandleUnsubscribe, Replay;
  }

  lemma UnsubscribeSees(r: Reg, o: Oracle)
    requires AsksThrough(r, {0, 1})
    ensures AsksThrough(HandleUnsubscribe(r, o, 1, 0).reg, {1})
  {
    hide IdsInv, MetaSubs, HandleUnsubscribe, Touched, Adds, SubscribeMetas, AsksOf, PubsOf, Names, DropSubscriber;
    var r1 := DropSub(r, 1, 0);
    UnsubscribeIs(r, o, 1, 0);
    DropSubOnly(r, 1, 0);
    OnlySubsCounted(r, r1, map[]);
    var ids := Touched(r, 1, 0);
    MetaSubsAdds(r1, o, 1, ids);
    var r' := MetaSubs(r1, o, 1, ids).reg;
    AddsSame(r1, r', SubscribeMetas(r1, o, 1, ids));
    assert r1.clients[1].subs.Keys == {1};
    AsksAt(r1, 1);
    AsksAt(r', 1);
  }

  lemma LostGap(r: Reg, h: History)
    requires AsksThrough(r, {1}) && Inv(r, h) && !FullIn(r)
    ensures "x" in r.byName && AsksFor(r, 1, r.byName["x"]) && 1 !in ListAt(r.subscribers, r.byName["x"])
  {
    hide IdsInv, Mid, Covers, FullIn, Names;
    GapOrFull(r);
    var c, u, i :| Gap(r, c, u, i);
    MatchedLive(r, h, c, u, i);
    XAskedCovers(r.clients[1].subs[1], r.topics[i].name);
    ByNameIs(r, i);
  }
}
