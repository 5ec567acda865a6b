/** Publisher counts through a disconnect.  Concerns core/src/websocket/protocol.rs. */
module RegistryLeaving {
  import opened Values
  import opened Registry
  import opened RegistryInv
  import opened RegistryOps
  import opened RegistryPubs
  import opened RegistryPublish
  import opened RegistrySubs
  import opened RegistryConn
  import opened RegistryFrames
  import opened RegistryTrim
  import opened RegistryCounts
  import opened RegistryStrands

  // ---------------------------------------------------------- what a leave deletes

  lemma ForgetTrims(r: Reg, c: ClientId)
    requires IdsIn(r) && c in r.nameOf
    ensures Trims(Leave(r, c), ForgetClient(r, c), ClientMetas(r, c))
  {
    hide IdsInv, Trims, DeleteNamed, ClientPubMeta, ClientSubMeta;
    var r0 := Leave(r, c);
    var a, b := ClientPubMeta(r.nameOf[c]), ClientSubMeta(r.nameOf[c]);
    var r1 := DeleteNamed(r0, a);
    DeleteNamedTrims(r0, a);
    TrimsIds(r0, r1, {a});
    DeleteNamedTrims(r1, b);
    TrimsTrans(r0, r1, DeleteNamed(r1, b), {a}, {b});
    assert ForgetClient(r, c) == DeleteNamed(r1, b);
  }

  lemma DropIds(r: Reg, ids: seq<TopicId>)
    requires IdsIn(r)
    ensures IdsIn(DropPublishers(r, ids)) && Names(DropPublishers(r, ids).topics) == Names(r.topics)
  {
    hide IdsInv, DropPublishers;
    DropPublishersIs(r, ids);
    assert Names(DropPublishers(r, ids).topics) == Names(r.topics);
  }

  /** Lowering counts and deleting by name do not disturb each other. */
  lemma DropTrims(r: Reg, r': Reg, roots: set<string>, ids: seq<TopicId>)
    requires Trims(r, r', roots)
    ensures Trims(DropPublishers(r, ids), DropPublishers(r', ids), roots)
  {
    hide IdsInv, DropPublishers, Hit, PubsOf, Names;
    DropPublishersIs(r, ids);
    DropPublishersIs(r', ids);
    DropIds(r', ids);
  }

  lemma {:induction false} CandidatesMembers(live: set<TopicId>, ids: seq<TopicId>, i: TopicId)
    ensures i in Candidates(live, ids) <==> i in live && i in ids
    decreases |ids|
  {
    if ids != [] {
      var n := |ids| - 1;
      CandidatesMembers(live, ids[..n], i);
      assert ids == ids[..n] + [ids[n]];
    }
  }

  lemma PublishedMembers(pubs: map<nat, TopicId>, order: seq<nat>, i: TopicId)
    requires Enumerates(order, pubs.Keys)
    ensures i in Published(pubs, order) <==> exists p :: p in pubs && pubs[p] == i
  {
    PublishedUids(pubs, order, i);
    assert i in Published(pubs, order) <==> multiset(Published(pubs, order))[i] > 0;
    if p :| p in pubs && pubs[p] == i { assert p in UidsOn(pubs, i); }
    if UidsOn(pubs, i) != {} {
      var p :| p in UidsOn(pubs, i);
      assert p in pubs && pubs[p] == i;
    }
  }

  lemma LoweredOrphaned(r: Reg, r': Reg, i: TopicId, k: nat)
    requires i in r.topics && i in r'.topics && r'.topics[i] == Lowered(r.topics[i], k)
    ensures Orphaned(r', i) <==> Last(r, i, k)
  {
  }

  /** The state of a disconnect with the client's uids off every count, nothing deleted yet. */
  function Uncounted(r: Reg, o: Oracle, c: ClientId): Reg
    requires c in r.clients && c in r.nameOf
  {
    var pubs := r.clients[c].pubs;
    DropPublishers(Leave(r.(ticks := r.ticks + 1), c), Published(pubs, o.order(r.ticks, pubs.Keys)))
  }

  lemma UncountedIs(r: Reg, o: Oracle, c: ClientId)
    requires ValidOracle(o) && c in r.clients && c in r.nameOf
    ensures var r0 := Uncounted(r, o, c);
            && r0.byName == r.byName && r0.freed == r.freed && r0.nextId == r.nextId
            && r0.clients == r.clients - {c}
            && r0.topics.Keys == r.topics.Keys
            && forall i | i in r.topics :: r0.topics[i] == Lowered(r.topics[i], |UidsOn(r.clients[c].pubs, i)|)
  {
    hide DropPublishers, Lowered, UidsOn, ValidOracle, Published;
    var pubs := r.clients[c].pubs;
    var order := o.order(r.ticks, pubs.Keys);
    OrderEnumerates(o, r.ticks, pubs.Keys);
    DropPublishersIs(Leave(r.(ticks := r.ticks + 1), c), Published(pubs, order));
    forall i | i in r.topics ensures multiset(Published(pubs, order))[i] == |UidsOn(pubs, i)| {
      PublishedUids(pubs, order, i);
    }
  }

  lemma OrderEnumerates(o: Oracle, k: nat, xs: set<nat>)
    requires ValidOracle(o)
    ensures Enumerates(o.order(k, xs), xs)
  {
    hide Enumerates;
  }

  /** What is reaped is what the leaving client was the last to publish, apart from what
      went with its own meta topics. */
  lemma ReapedNames(r: Reg, r2: Reg, cl: Client, order: seq<nat>, ids: seq<TopicId>)
    requires Enumerates(order, cl.pubs.Keys) && ids == Candidates(r2.topics.Keys, Published(cl.pubs, order))
    requires forall i | i in r2.topics :: i in r.topics && r2.topics[i] == Lowered(r.topics[i], |UidsOn(cl.pubs, i)|)
    ensures OrphanNames(r2, ids) <= LastNames(r, cl)
    ensures forall p | p in cl.pubs && cl.pubs[p] in r2.topics && Last(r, cl.pubs[p], |UidsOn(cl.pubs, cl.pubs[p])|) ::
              r.topics[cl.pubs[p]].name in OrphanNames(r2, ids)
  {
    hide Lowered, UidsOn, Last, Orphaned, Published, Candidates, Enumerates;
    forall i ensures i in ids <==> i in r2.topics && exists p :: p in cl.pubs && cl.pubs[p] == i {
      CandidatesMembers(r2.topics.Keys, Published(cl.pubs, order), i);
      PublishedMembers(cl.pubs, order, i);
    }
    forall i | i in r2.topics
      ensures Orphaned(r2, i) <==> Last(r, i, |UidsOn(cl.pubs, i)|)
      ensures r2.topics[i].name == r.topics[i].name
    {
      LoweredOrphaned(r, r2, i, |UidsOn(cl.pubs, i)|);
      LoweredName(r.topics[i], |UidsOn(cl.pubs, i)|);
    }
    forall n | n in OrphanNames(r2, ids) ensures n in LastNames(r, cl) {
      var k :| 0 <= k < |ids| && Orphaned(r2, ids[k]) && r2.topics[ids[k]].name == n;
      assert ids[k] in ids;
      var p :| p in cl.pubs && cl.pubs[p] == ids[k];
      assert Last(r, cl.pubs[p], |UidsOn(cl.pubs, cl.pubs[p])|);
    }
    forall p | p in cl.pubs && cl.pubs[p] in r2.topics && Last(r, cl.pubs[p], |UidsOn(cl.pubs, cl.pubs[p])|)
      ensures r.topics[cl.pubs[p]].name in OrphanNames(r2, ids)
    {
      assert cl.pubs[p] in ids;
      var k :| 0 <= k < |ids| && ids[k] == cl.pubs[p];
      assert Orphaned(r2, ids[k]);
    }
  }

  lemma LoweredName(t: Topic, k: nat)
    ensures Lowered(t, k).name == t.name
  {
  }

  lemma HitRoot(live: set<string>, roots: set<string>, more: set<string>, y: string)
    requires y in live && (y in roots || Hit(live, more, y))
    ensures Hit(live, more + roots, y)
  {
    if y in roots {
      assert Reach(live, y, y) && y in more + roots;
    } else {
      var x :| x in more && Reach(live, x, y);
      assert x in more + roots;
    }
  }

  /** A disconnect deletes exactly what the client's meta topics and the topics it was the
      last to publish reach. */
  lemma {:induction false} DepartedTrims(r: Reg, o: Oracle, c: ClientId)
    requires IdsIn(r) && ValidOracle(o) && c in r.clients && c in r.nameOf
    ensures Trims(Uncounted(r, o, c), Departed(r, o, c).reg, ClientMetas(r, c) + LastNames(r, r.clients[c]))
  {
    hide IdsInv, Trims, DropPublishers, ForgetClient, ReapOrphans, Published, Candidates, Names, ValidOracle, Hit;
    hide OrphanNames, LastNames, ClientMetas, Lowered, UidsOn, Uncounted;
    var cl := r.clients[c];
    var order := o.order(r.ticks, cl.pubs.Keys);
    OrderEnumerates(o, r.ticks, cl.pubs.Keys);
    var ids := Published(cl.pubs, order);
    var t := r.(ticks := r.ticks + 1);
    var r1 := ForgetClient(t, c);
    var r0, r2 := Uncounted(r, o, c), DropPublishers(r1, ids);
    UncountedDef(r, o, c);
    ForgetTrims(t, c);
    ClientMetasTick(r, c, r.ticks + 1);
    var metas := ClientMetas(r, c);
    DropTrims(Leave(t, c), r1, metas, ids);
    DropIds(Leave(t, c), ids);
    TrimsIds(r0, r2, metas);
    DropPublishersIs(r1, ids);
    var cands := Candidates(r1.topics.Keys, ids);
    ReapTrims(r2, cands);
    UncountedIs(r, o, c);
    forall i ensures i in r2.topics ==> i in r0.topics && r2.topics[i] == r0.topics[i]
             ensures i in r0.topics && i !in r2.topics ==> Hit(r0.byName.Keys, metas, r0.topics[i].name) {
      TrimsKept(r0, r2, metas, i);
    }
    ReapedNames(r, r2, cl, order, cands);
    var reaped := OrphanNames(r2, cands);
    TrimsTrans(r0, r2, ReapOrphans(r2, cands).reg, metas, reaped);
    forall y | y in LastNames(r, cl) && y in r0.byName ensures Hit(r0.byName.Keys, metas + reaped, y) {
      LastNameHit(r, r0, r2, cl, metas, reaped, y);
    }
    TrimsMore(r0, ReapOrphans(r2, cands).reg, metas + reaped, LastNames(r, cl));
    assert metas + reaped + LastNames(r, cl) == metas + LastNames(r, cl);
  }

  lemma UncountedDef(r: Reg, o: Oracle, c: ClientId)
    requires c in r.clients && c in r.nameOf
    ensures var pubs := r.clients[c].pubs;
            Uncounted(r, o, c) ==
            DropPublishers(Leave(r.(ticks := r.ticks + 1), c), Published(pubs, o.order(r.ticks, pubs.Keys)))
  {
    hide DropPublishers, Published;
  }

  lemma ClientMetasTick(r: Reg, c: ClientId, k: nat)
    ensures ClientMetas(r.(ticks := k), c) == ClientMetas(r, c)
  {
  }

  lemma LastNameHit(r: Reg, r0: Reg, r2: Reg, cl: Client, metas: set<string>, reaped: set<string>, y: string)
    requires y in LastNames(r, cl) && y in r0.byName
    requires r0.topics.Keys == r.topics.Keys
    requires forall i | i in r.topics :: r0.topics[i] == Lowered(r.topics[i], |UidsOn(cl.pubs, i)|)
    requires forall i | i in r0.topics && i !in r2.topics :: Hit(r0.byName.Keys, metas, r0.topics[i].name)
    requires forall p | p in cl.pubs && cl.pubs[p] in r2.topics && Last(r, cl.pubs[p], |UidsOn(cl.pubs, cl.pubs[p])|) ::
               r.topics[cl.pubs[p]].name in reaped
    ensures Hit(r0.byName.Keys, metas + reaped, y)
  {
    hide Hit, UidsOn, IsRetained, Lowered;
    var p :| p in cl.pubs && Last(r, cl.pubs[p], |UidsOn(cl.pubs, cl.pubs[p])|) && r.topics[cl.pubs[p]].name == y;
    LoweredName(r.topics[cl.pubs[p]], |UidsOn(cl.pubs, cl.pubs[p])|);
    HitRoot(r0.byName.Keys, reaped, metas, y);
  }

  // ------------------------------------------------------------------ disconnect

  lemma UncountedViews(r: Reg, o: Oracle, c: ClientId)
    requires ValidOracle(o) && c in r.clients && c in r.nameOf
    ensures var r0 := Uncounted(r, o, c);
            && Names(r0.topics) == Names(r.topics)
            && Counts(r0.topics) == Lessened(Counts(r.topics), r.clients[c].pubs)
  {
    hide Uncounted, UidsOn, ValidOracle;
    UncountedIs(r, o, c);
  }

  lemma UncountedCounted(r: Reg, o: Oracle, acc: Accepted, c: ClientId)
    requires ValidOracle(o) && c in r.clients && c in r.nameOf && Counted(r, acc)
    ensures Counted(Uncounted(r, o, c), Forgotten(acc, c))
  {
    hide Uncounted, UidsOn, ValidOracle, CountedIn, Names, Counts, Lessened, Forgotten;
    UncountedIs(r, o, c);
    UncountedViews(r, o, c);
    assert PubsOf(r.clients)[c] == r.clients[c].pubs;
    hide PubsOf;
    ClientViews(r.clients, c, r.clients[c]);
    LeftCounted(Names(r.topics), Counts(r.topics), PubsOf(r.clients), acc, c);
  }

  lemma LeaveStruck(r: Reg, r0: Reg, c: ClientId, roots: set<string>)
    requires c in r.clients && r0.clients == r.clients - {c}
    requires r0.byName == r.byName && Names(r0.topics) == Names(r.topics)
    ensures PointsInto(PubsOf(r0.clients), Struck(r0, roots)) <==>
            Strikes(r, r.byName.Keys, roots, UidPairs(c, r.clients[c]))
  {
    hide Hit;
    StruckNames(r, r0, roots, r.byName.Keys);
    hide Struck, Names;
    var P := PubsOf(r0.clients);
    if PointsInto(P, Struck(r0, roots)) {
      var d, q :| d in P && q in P[d] && P[d][q] in Struck(r0, roots);
      assert r.clients[d].pubs[q] == P[d][q];
      assert (d, q) !in UidPairs(c, r.clients[c]);
    }
    if Strikes(r, r.byName.Keys, roots, UidPairs(c, r.clients[c])) {
      var d, q :| d in r.clients && q in r.clients[d].pubs && (d, q) !in UidPairs(c, r.clients[c])
          && r.clients[d].pubs[q] in r.topics && Hit(r.byName.Keys, roots, r.topics[r.clients[d].pubs[q]].name);
      assert d in P && q in P[d] && P[d][q] == r.clients[d].pubs[q];
    }
  }

  lemma {:induction false} DisconnectCountedIff(r: Reg, o: Oracle, acc: Accepted, c: ClientId)
    requires IdsIn(r) && ValidOracle(o) && Counted(r, acc) && c in r.clients && c in r.nameOf
    ensures Counted(OnDisconnect(r, o, c).reg, Forgotten(acc, c)) <==> !DisconnectStrands(r, c)
  {
    hide IdsInv, ValidOracle, Counted, Trims, Settles, Adds, Uncounted, Departed, Forgotten, Names, Hit, Struck;
    hide PointsInto;
    hide OnDisconnect, UpdateMetaSubFor, UpdateMetaPubs, PublishMeta, LiveNames, Published, Strikes, LastNames;
    hide ClientMetas;
    hide SubMetas, PubMetas, PubsOf;
    var cl := r.clients[c];
    var roots := ClientMetas(r, c) + LastNames(r, cl);
    var r0 := Uncounted(r, o, c);
    UncountedIs(r, o, c);
    UncountedViews(r, o, c);
    UncountedCounted(r, o, acc, c);
    OnDisconnectIs(r, o, c);
    var a := Departed(r, o, c).reg;
    DepartedTrims(r, o, c);
    TrimsSettles(r0, a, roots);
    TrimsIds(r0, a, roots);
    var gone := Struck(r0, roots);
    var b := PublishMeta(a, o, "$clients").reg;
    PublishMetaAdds(a, o, "$clients");
    SettlesAdds(r0, a, b, gone, {"$clients"});
    AddsIds(a, b, {"$clients"});
    var ids := AllMatched(cl);
    var d := UpdateMetaSubFor(b, o, ids).reg;
    var subNames := SubMetas(LiveNames(b, o.order(b.ticks, ids), true));
    UpdateMetaSubForAdds(b, o, ids);
    SettlesAdds(r0, b, d, gone, subNames);
    AddsIds(b, d, subNames);
    var pubNames := LiveNames(r, Published(cl.pubs, o.order(r.ticks, cl.pubs.Keys)), false);
    UpdateMetaPubsAdds(d, o, pubNames);
    var e := UpdateMetaPubs(d, o, pubNames).reg;
    SettlesAdds(r0, d, e, gone, PubMetas(pubNames));
    SettlesCountedIff(r0, e, gone, Forgotten(acc, c));
    LeaveStruck(r, r0, c, roots);
  }
}
