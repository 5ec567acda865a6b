/** Publisher counts: that each topic counts exactly the publisher uids pointing at it, and
    what pointing, withdrawing and deleting do to that.
    Concerns core/src/websocket/protocol.rs. */
module RegistryCounts {
  import opened Values
  import opened Registry
  import opened RegistryInv
  import opened RegistryOps
  import opened RegistryPubs
  import opened RegistryFrames

  type Accepted = map<(ClientId, nat), string>

  /** The publisher uids that point at topic `i`. */
  ghost function PairsOn(P: PubMap, i: TopicId): set<(ClientId, nat)> {
    set c, p | c in P && p in P[c] && P[c][p] == i :: (c, p)
  }

  /** Every publisher uid points at a live topic of the name it was accepted for. */
  ghost predicate Points(N: NameMap, P: PubMap, acc: Accepted) {
    && (forall c, p | c in P && p in P[c] ::
          P[c][p] in N && (c, p) in acc && acc[(c, p)] == N[P[c][p]])
    && (forall k | k in acc :: k.0 in P && k.1 in P[k.0])
  }

  /** Every live topic counts the uids that point at it. */
  ghost predicate Tallies(K: map<TopicId, nat>, P: PubMap) {
    forall i | i in K :: K[i] == |PairsOn(P, i)|
  }

  ghost predicate CountedIn(N: NameMap, K: map<TopicId, nat>, P: PubMap, acc: Accepted) {
    Points(N, P, acc) && Tallies(K, P)
  }

  /** No publisher uid dangles, each lands on the name it was accepted for, and every count
      is the number of uids. */
  ghost predicate Counted(r: Reg, acc: Accepted) {
    CountedIn(Names(r.topics), Counts(r.topics), PubsOf(r.clients), acc)
  }

  /** Some publisher uid points into `gone`. */
  ghost predicate PointsInto(P: PubMap, gone: set<TopicId>) {
    exists c, p :: c in P && p in P[c] && P[c][p] in gone
  }

  // -------------------------------------------------------------------- settling

  lemma AlikeCounts(t: Topic, t': Topic)
    requires Alike(t, t')
    ensures t'.name == t.name && t'.publishers == t.publishers
  {
  }

  lemma SettledKeeps(r: Reg, r': Reg, gone: set<TopicId>, acc: Accepted)
    requires Counted(r, acc) && Settles(r, r', gone) && !PointsInto(PubsOf(r.clients), gone)
    ensures Counted(r', acc)
  {
    hide PubsOf, Alike, PairsOn;
    var P := PubsOf(r.clients);
    forall i | i in r.topics && i !in gone
      ensures r'.topics[i].name == r.topics[i].name && r'.topics[i].publishers == r.topics[i].publishers
    {
      AlikeCounts(r.topics[i], r'.topics[i]);
    }
    forall c, p | c in P && p in P[c]
      ensures P[c][p] in Names(r'.topics) && (c, p) in acc && acc[(c, p)] == Names(r'.topics)[P[c][p]]
    {
      assert P[c][p] in Names(r.topics);
    }
    var K, K' := Counts(r.topics), Counts(r'.topics);
    forall i | i in K' ensures K'[i] == |PairsOn(P, i)| {
      if i in r.topics && i !in gone {
        assert i in K && K'[i] == K[i];
      } else {
        assert PairsOn(P, i) == {} by { NoPairs(Names(r.topics), P, acc, gone, i); }
      }
    }
  }

  lemma NoPairs(N: NameMap, P: PubMap, acc: Accepted, gone: set<TopicId>, i: TopicId)
    requires Points(N, P, acc) && !PointsInto(P, gone) && (i !in N || i in gone)
    ensures PairsOn(P, i) == {}
  {
    assert forall k :: k !in PairsOn(P, i);
  }

  /** A uid left pointing at a deleted topic points at none, or at one that counts none. */
  lemma StrandedUncounted(r: Reg, r': Reg, gone: set<TopicId>, acc: Accepted)
    requires Settles(r, r', gone) && PointsInto(PubsOf(r.clients), gone)
    ensures !Counted(r', acc)
  {
    hide PubsOf;
    var P := PubsOf(r.clients);
    var c, p :| c in P && p in P[c] && P[c][p] in gone;
    var i := P[c][p];
    ViewsAt(r'.topics, i);
    assert (c, p) in PairsOn(P, i);
    hide PairsOn, Names, Counts;
  }

  /** Deletions leave the counts exact if and only if no uid points at a deleted topic: a
      topic made anew under a freed id has no publisher, but the uid would still point there. */
  lemma {:induction false} SettlesCountedIff(r: Reg, r': Reg, gone: set<TopicId>, acc: Accepted)
    requires Counted(r, acc) && Settles(r, r', gone)
    ensures Counted(r', acc) <==> !PointsInto(PubsOf(r.clients), gone)
  {
    hide PubsOf, Counted, Settles;
    if PointsInto(PubsOf(r.clients), gone) {
      StrandedUncounted(r, r', gone, acc);
    } else {
      SettledKeeps(r, r', gone, acc);
    }
  }

  lemma AddsCounted(r: Reg, r': Reg, names: set<string>, acc: Accepted)
    requires Counted(r, acc) && Adds(r, r', names)
    ensures Counted(r', acc)
  {
    hide Counted, Settles, IdsInv, AsksOf;
    AddsIds(r, r', names);
    SettlesCountedIff(r, r', {}, acc);
  }

  lemma SameCounted(r: Reg, r': Reg, acc: Accepted)
    requires Counted(r, acc)
    requires Names(r'.topics) == Names(r.topics) && Counts(r'.topics) == Counts(r.topics)
    requires PubsOf(r'.clients) == PubsOf(r.clients)
    ensures Counted(r', acc)
  {
  }

  // -------------------------------------------------------------- pointing a uid

  ghost function WithPub(P: PubMap, c: ClientId, p: nat, id: TopicId): PubMap
    requires c in P
  {
    var pubs: map<nat, TopicId> := P[c];
    P[c := pubs[p := id]]
  }

  lemma PairsSet(P: PubMap, c: ClientId, p: nat, id: TopicId, i: TopicId)
    requires c in P
    ensures PairsOn(WithPub(P, c, p, id), i) == if i == id then PairsOn(P, i) + {(c, p)} else PairsOn(P, i) - {(c, p)}
    ensures (c, p) in PairsOn(P, i) <==> Lookup(P[c], p) == Some(i)
  {
  }

  /** The counts after a uid moved from `prev` to `id`. */
  ghost function Shifted(K: map<TopicId, nat>, prev: Option<TopicId>, id: TopicId): map<TopicId, nat> {
    map i | i in K :: if prev == Some(id) then K[i]
                      else if i == id then K[i] + 1
                      else if prev == Some(i) && K[i] > 0 then K[i] - 1
                      else K[i]
  }

  lemma ShiftedAt(K: map<TopicId, nat>, P: PubMap, c: ClientId, p: nat, id: TopicId, i: TopicId)
    requires c in P && i in K && K[i] == |PairsOn(P, i)|
    ensures Shifted(K, Lookup(P[c], p), id)[i] == |PairsOn(WithPub(P, c, p, id), i)|
  {
    PairsSet(P, c, p, id, i);
    hide PairsOn, WithPub;
  }

  lemma PointedCounted(N: NameMap, K: map<TopicId, nat>, P: PubMap, acc: Accepted, c: ClientId, p: nat, id: TopicId)
    requires CountedIn(N, K, P, acc) && c in P && id in N
    ensures CountedIn(N, Shifted(K, Lookup(P[c], p), id), WithPub(P, c, p, id), acc[(c, p) := N[id]])
  {
    hide PairsOn;
    var K' := Shifted(K, Lookup(P[c], p), id);
    forall i | i in K' ensures K'[i] == |PairsOn(WithPub(P, c, p, id), i)| {
      ShiftedAt(K, P, c, p, id, i);
    }
  }

  // ----------------------------------------------------------- withdrawing a uid

  ghost function WithoutPub(P: PubMap, c: ClientId, p: nat): PubMap
    requires c in P
  {
    P[c := P[c] - {p}]
  }

  lemma PairsUnset(P: PubMap, c: ClientId, p: nat, i: TopicId)
    requires c in P
    ensures PairsOn(WithoutPub(P, c, p), i) == PairsOn(P, i) - {(c, p)}
    ensures (c, p) in PairsOn(P, i) <==> Lookup(P[c], p) == Some(i)
  {
  }

  lemma WithdrawnCounted(N: NameMap, K: map<TopicId, nat>, P: PubMap, acc: Accepted, c: ClientId, p: nat)
    requires CountedIn(N, K, P, acc) && K.Keys == N.Keys && c in P && p in P[c]
    ensures P[c][p] in K && K[P[c][p]] > 0
    ensures CountedIn(N, K[P[c][p] := K[P[c][p]] - 1], WithoutPub(P, c, p), acc - {(c, p)})
  {
    hide PairsOn;
    var id := P[c][p];
    PairsUnset(P, c, p, id);
    var K' := K[id := K[id] - 1];
    forall i | i in K' ensures K'[i] == |PairsOn(WithoutPub(P, c, p), i)| {
      PairsUnset(P, c, p, i);
    }
  }

  // ------------------------------------------------------------ a client leaving

  /** One client's uids on topic `i`, among those in `order`. */
  ghost function UidsAmong(pubs: map<nat, TopicId>, order: seq<nat>, i: TopicId): set<nat> {
    set p | p in order && p in pubs && pubs[p] == i
  }

  function UidsOn(pubs: map<nat, TopicId>, i: TopicId): set<nat> {
    set p | p in pubs && pubs[p] == i
  }

  lemma UidsAmongLast(pubs: map<nat, TopicId>, order: seq<nat>, p: nat, i: TopicId)
    requires p !in order && p in pubs
    ensures UidsAmong(pubs, order + [p], i) == UidsAmong(pubs, order, i) + (if pubs[p] == i then {p} else {})
    ensures p !in UidsAmong(pubs, order, i)
  {
  }

  lemma {:induction false} PublishedCount(pubs: map<nat, TopicId>, order: seq<nat>, i: TopicId)
    requires NoDup(order) && forall k | 0 <= k < |order| :: order[k] in pubs
    ensures multiset(Published(pubs, order))[i] == |UidsAmong(pubs, order, i)|
  {
    if order != [] {
      var n := |order| - 1;
      var p := order[n];
      assert order == order[..n] + [p];
      PublishedCount(pubs, order[..n], i);
      UidsAmongLast(pubs, order[..n], p, i);
      assert multiset(Published(pubs, order)) == multiset(Published(pubs, order[..n])) + multiset{pubs[p]};
    } else {
      assert UidsAmong(pubs, order, i) == {};
    }
  }

  /** A leaving client's list names each topic once for each of its uids there. */
  lemma PublishedUids(pubs: map<nat, TopicId>, order: seq<nat>, i: TopicId)
    requires Enumerates(order, pubs.Keys)
    ensures multiset(Published(pubs, order))[i] == |UidsOn(pubs, i)|
  {
    assert forall k | 0 <= k < |order| :: order[k] in order;
    PublishedCount(pubs, order, i);
    assert UidsAmong(pubs, order, i) == UidsOn(pubs, i);
  }

  ghost function Tag(c: ClientId, ps: set<nat>): set<(ClientId, nat)> { set p | p in ps :: (c, p) }

  lemma {:induction false} TagSize(c: ClientId, ps: set<nat>)
    ensures |Tag(c, ps)| == |ps|
    decreases |ps|
  {
    if ps != {} {
      var p :| p in ps;
      TagSize(c, ps - {p});
      assert Tag(c, ps) == Tag(c, ps - {p}) + {(c, p)};
      assert (c, p) !in Tag(c, ps - {p});
    }
  }

  lemma PairsWithoutSets(P: PubMap, c: ClientId, i: TopicId)
    requires c in P
    ensures PairsOn(P, i) == PairsOn(P - {c}, i) + Tag(c, UidsOn(P[c], i))
    ensures PairsOn(P - {c}, i) !! Tag(c, UidsOn(P[c], i))
  {
    forall k ensures k in PairsOn(P, i) <==> k in PairsOn(P - {c}, i) || k in Tag(c, UidsOn(P[c], i)) {
      if k in PairsOn(P, i) && k.0 == c { assert k == (c, k.1) && k.1 in UidsOn(P[c], i); }
    }
  }

  /** Taking a client away takes away as many pairs as it had uids on the topic. */
  lemma PairsWithout(P: PubMap, c: ClientId, i: TopicId)
    requires c in P
    ensures |PairsOn(P, i)| == |PairsOn(P - {c}, i)| + |UidsOn(P[c], i)|
  {
    hide PairsOn, Tag, UidsOn;
    PairsWithoutSets(P, c, i);
    TagSize(c, UidsOn(P[c], i));
  }

  /** The names a client was accepted under are forgotten with it. */
  ghost function Forgotten(accepted: Accepted, c: ClientId): Accepted {
    map k | k in accepted && k.0 != c :: accepted[k]
  }

  /** The counts less one client's uids. */
  ghost function Lessened(K: map<TopicId, nat>, pubs: map<nat, TopicId>): map<TopicId, nat> {
    map i | i in K :: Minus(K[i], |UidsOn(pubs, i)|)
  }

  function Minus(n: nat, k: nat): nat { if n <= k then 0 else n - k }

  lemma LeftCounted(N: NameMap, K: map<TopicId, nat>, P: PubMap, acc: Accepted, c: ClientId)
    requires CountedIn(N, K, P, acc) && c in P
    ensures CountedIn(N, Lessened(K, P[c]), P - {c}, Forgotten(acc, c))
  {
    hide PairsOn, UidsOn;
    var K' := Lessened(K, P[c]);
    forall i | i in K' ensures K'[i] == |PairsOn(P - {c}, i)| {
      PairsWithout(P, c, i);
    }
  }

  /** A client that was never connected has no uid. */
  lemma AdmittedCounted(N: NameMap, K: map<TopicId, nat>, P: PubMap, acc: Accepted, c: ClientId)
    requires CountedIn(N, K, P, acc) && c !in P
    ensures CountedIn(N, K, P[c := map[]], acc)
  {
    hide PairsOn;
    forall i | i in K ensures PairsOn(P[c := map[]], i) == PairsOn(P, i) {
      AdmittedPairs(P, c, i);
    }
  }

  lemma AdmittedPairs(P: PubMap, c: ClientId, i: TopicId)
    requires c !in P
    ensures PairsOn(P[c := map[]], i) == PairsOn(P, i)
  {
  }

  // -------------------------------------------------------- lowering the counts

  /** A topic with `k` publishers taken off, none left below zero. */
  function Lowered(t: Topic, k: nat): Topic { t.(publishers := Minus(t.publishers, k)) }

  lemma DropPublisherIs(r: Reg, id: TopicId)
    ensures var r1 := DropPublisher(r, id);
            && r1 == r.(topics := r1.topics)
            && r1.topics.Keys == r.topics.Keys
            && forall i | i in r.topics :: r1.topics[i] == if i == id then Lowered(r.topics[i], 1) else r.topics[i]
  {
  }

  lemma LoweredMore(t: Topic, k: nat)
    ensures Lowered(Lowered(t, k), 1) == Lowered(t, k + 1)
    ensures Lowered(t, 0) == t
  {
  }

  lemma {:induction false} DropPublishersIs(r: Reg, ids: seq<TopicId>)
    ensures var r1 := DropPublishers(r, ids);
            && r1 == r.(topics := r1.topics)
            && r1.topics.Keys == r.topics.Keys
    ensures forall i | i in r.topics :: DropPublishers(r, ids).topics[i] == Lowered(r.topics[i], multiset(ids)[i])
    decreases |ids|
  {
    hide DropPublisher, Lowered;
    if ids == [] {
      forall i | i in r.topics ensures r.topics[i] == Lowered(r.topics[i], 0) { LoweredMore(r.topics[i], 0); }
    } else {
      var n := |ids| - 1;
      var r1 := DropPublishers(r, ids[..n]);
      DropPublishersIs(r, ids[..n]);
      DropPublisherIs(r1, ids[n]);
      assert ids == ids[..n] + [ids[n]];
      assert multiset(ids) == multiset(ids[..n]) + multiset{ids[n]};
      forall i | i in r.topics ensures DropPublisher(r1, ids[n]).topics[i] == Lowered(r.topics[i], multiset(ids)[i]) {
        LoweredMore(r.topics[i], multiset(ids[..n])[i]);
      }
    }
  }
}
