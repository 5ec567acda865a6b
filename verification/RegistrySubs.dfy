/** The invariant through subscribe and unsubscribe, and exactly when they leave the
    fan-out lists full.  Concerns core/src/websocket/protocol.rs. */
module RegistrySubs {
  import opened Values
  import opened Registry
  import opened RegistryInv
  import opened RegistryOps
  import opened RegistryPubs

  // --------------------------------------------------------- dropping a client

  lemma {:induction false} WithoutMembers(list: seq<ClientId>, c: ClientId)
    ensures forall d :: d in Without(list, c) <==> d in list && d != c
    ensures NoDup(list) ==> NoDup(Without(list, c))
  {
    if list != [] {
      var n := |list| - 1;
      WithoutMembers(list[..n], c);
      assert list == list[..n] + [list[n]];
      assert NoDup(list) ==> list[n] !in list[..n];
    }
  }

  lemma DropSubscriberMembers(L: Lists, c: ClientId, ids: set<TopicId>)
    ensures var L' := DropSubscriber(L, c, ids);
            && L'.Keys == L.Keys
            && (forall i, d | i in L :: d in L'[i] <==> d in L[i] && !(d == c && i in ids))
            && (forall i | i in L && NoDup(L[i]) :: NoDup(L'[i]))
  {
    hide NoDup;
    forall i | i in L ensures forall d :: d in DropSubscriber(L, c, ids)[i] <==> d in L[i] && !(d == c && i in ids) {
      WithoutMembers(L[i], c);
    }
    forall i | i in L && NoDup(L[i]) ensures NoDup(DropSubscriber(L, c, ids)[i]) {
      WithoutMembers(L[i], c);
    }
  }

  /** The subscriptions of everyone once `c` has dropped `u`. */
  ghost function LessSub(S: SubMap, c: ClientId, u: nat): SubMap
    requires c in S
  {
    S[c := S[c] - {u}]
  }

  lemma DropFan(S: SubMap, L: Lists, c: ClientId, u: nat)
    requires FanInv(S, L, 0, {}) && c in S && u in S[c]
    ensures FanInv(LessSub(S, c, u), DropSubscriber(L, c, S[c][u].matched), 0, {})
  {
    hide NoDup;
    var ids := S[c][u].matched;
    var L' := DropSubscriber(L, c, ids);
    var S': SubMap := LessSub(S, c, u);
    DropSubscriberMembers(L, c, ids);
    forall i, d | i in L' && d in L'[i] && d in S' ensures Wanted(S'[d], i) {
      assert Wanted(S[d], i);
      var v :| v in S[d] && !S[d][v].topicsOnly && i in S[d][v].matched;
      assert v in S'[d] && S'[d][v] == S[d][v];
    }
  }

  lemma DropLists(N: NameMap, L: Lists, ann: Lists, seen: set<ClientId>, table: Table, c: ClientId, ids: set<TopicId>)
    requires ListsInv(N, L, ann, seen, table)
    ensures ListsInv(N, DropSubscriber(L, c, ids), ann, seen, table)
  {
    hide NoDup;
    DropSubscriberMembers(L, c, ids);
  }

  lemma DropSubViews(r: Reg, c: ClientId, u: nat)
    requires c in r.clients && u in r.clients[c].subs
    ensures var r1 := DropSub(r, c, u);
            && r1 == r.(clients := r1.clients,
                        subscribers := DropSubscriber(r.subscribers, c, r.clients[c].subs[u].matched))
            && c in SubsOf(r.clients) && SubsOf(r.clients)[c] == r.clients[c].subs
            && SubsOf(r1.clients) == LessSub(SubsOf(r.clients), c, u)
            && PubsOf(r1.clients) == PubsOf(r.clients)
            && r1.clients.Keys == r.clients.Keys
  {
    ClientViews(r.clients, c, r.clients[c].(subs := r.clients[c].subs - {u}));
  }

  lemma DropSubMid(r: Reg, h: History, c: ClientId, u: nat)
    requires Inv(r, h)
    ensures Inv(DropSub(r, c, u), h)
    ensures DropSub(r, c, u).clients.Keys == r.clients.Keys
  {
    hide IdsInv, FanInv, ListsInv, ClientNamesInv, TopicsOk, DropSubscriber, Names, Counts, PubsOf, SubsOf, Covers;
    if c in r.clients && u in r.clients[c].subs {
      DropSubViews(r, c, u);
      DropFan(SubsOf(r.clients), r.subscribers, c, u);
      DropLists(Names(r.topics), r.subscribers, r.announced, h.seen, h.table, c, r.clients[c].subs[u].matched);
    }
  }

  lemma DropSubKeeps(r: Reg, c: ClientId, u: nat)
    ensures Saves(r, DropSub(r, c, u))
    ensures Complete(Names(r.topics), SubsOf(r.clients)) ==>
              Complete(Names(DropSub(r, c, u).topics), SubsOf(DropSub(r, c, u).clients))
  {
    hide PersistentSnapshot, DropSubscriber, Covers;
    if c in r.clients && u in r.clients[c].subs { DropSubViews(r, c, u); }
  }

  // ------------------------------------------------------- full fan-out, exactly

  /** No other subscription of `c` that asks for values matches a topic `u` matches. */
  ghost predicate Alone(subs: map<nat, Subscription>, u: nat)
    requires u in subs
  {
    forall v, i | v in subs && v != u && !subs[v].topicsOnly && i in subs[v].matched :: i !in subs[u].matched
  }

  /** Dropping a subscription leaves the fan-out full exactly when no other
      subscription of the client asks for one of its topics. */
  lemma DropSubFull(r: Reg, c: ClientId, u: nat)
    requires Full(SubsOf(r.clients), r.subscribers)
    requires c in r.clients && u in r.clients[c].subs
    ensures var r1 := DropSub(r, c, u);
            Full(SubsOf(r1.clients), r1.subscribers) <==> Alone(r.clients[c].subs, u)
  {
    hide DropSub, DropSubscriber, SubsOf;
    DropSubViews(r, c, u);
    var S: SubMap := SubsOf(r.clients);
    DropSubscriberMembers(r.subscribers, c, S[c][u].matched);
    FullAfterDrop(S, r.subscribers, c, u);
  }

  lemma FullAfterDrop(S: SubMap, L: Lists, c: ClientId, u: nat)
    requires Full(S, L) && c in S && u in S[c]
    ensures Full(LessSub(S, c, u), DropSubscriber(L, c, S[c][u].matched)) <==> Alone(S[c], u)
  {
    hide NoDup, DropSubscriber;
    var L' := DropSubscriber(L, c, S[c][u].matched);
    var S': SubMap := LessSub(S, c, u);
    DropSubscriberMembers(L, c, S[c][u].matched);
    if Alone(S[c], u) {
      forall d, v, i | d in S' && v in S'[d] && !S'[d][v].topicsOnly && i in S'[d][v].matched
        ensures i in L' && d in L'[i]
      {
        assert S'[d][v] == S[d][v];
        assert i in L && d in L[i];
      }
    } else {
      var v, i :| v in S[c] && v != u && !S[c][v].topicsOnly && i in S[c][v].matched && i in S[c][u].matched;
      assert c in S' && v in S'[c] && S'[c][v] == S[c][v];
      assert !(i in L' && c in L'[i]);
    }
  }

  // -------------------------------------------------------------- subscribing

  lemma {:induction false} AscendingMembers(ids: set<TopicId>, n: nat)
    ensures forall i: nat :: i in Ascending(ids, n) <==> i in ids && i < n
    ensures forall k | 0 <= k < |Ascending(ids, n)| :: Ascending(ids, n)[k] < n
    ensures forall j, k | 0 <= j < k < |Ascending(ids, n)| :: Ascending(ids, n)[j] < Ascending(ids, n)[k]
  {
    if n > 0 { AscendingMembers(ids, n - 1); }
  }

  /** The scan through the name index is the scan through the topics. */
  lemma MatchedIdsScan(N: NameMap, byName: map<string, TopicId>, freed: seq<TopicId>, next: nat, sub: Subscription)
    requires IdsInv(N, byName, freed, next)
    ensures forall i :: i in MatchedIds(byName, sub) <==> i in N && Covers(sub, N[i])
    ensures forall i | i in MatchedIds(byName, sub) :: i < next
  {
    hide Covers, NoDup;
    var ids := MatchedIds(byName, sub);
    forall i ensures i in ids <==> i in N && Covers(sub, N[i]) {
      if i in ids {
        var nm :| nm in byName && Covers(sub, nm) && byName[nm] == i;
        assert N[i] == nm;
      }
      if i in N && Covers(sub, N[i]) {
        assert N[i] in byName && byName[N[i]] == i;
      }
    }
  }

  lemma SubscribeOneIs(r: Reg, c: ClientId, topicsOnly: bool, id: TopicId)
    ensures var a := AnnounceOnce(r, c, id);
            SubscribeOne(r, c, topicsOnly, id)
            == Out(if topicsOnly then a.reg else AddSubscriber(a.reg, c, id),
                   a.routes + (if topicsOnly then [] else Late(r, c, id)))
  {
  }

  lemma LateResolves(r: Reg, table: Table, c: ClientId, id: TopicId)
    requires id in r.topics && (c, id) in table && table[(c, id)] == r.topics[id].name
    ensures Resolves(table, Late(r, c, id)) && Replay(table, Late(r, c, id)) == table
  {
    if Late(r, c, id) != [] { ReplayOne(table, Late(r, c, id)[0]); }
  }

  lemma SubscribeOneMid(r: Reg, h: History, c: ClientId, topicsOnly: bool, id: TopicId, pend: set<TopicId>)
    requires Mid(r, h, c, pend) && c in r.clients && id in r.topics
    requires !topicsOnly ==> id in pend
    ensures Safe(h, SubscribeOne(r, c, topicsOnly, id), c, pend)
  {
    hide IdsInv, Sound, FanInv, TopicsOk, Resolves, Replay, SubscribeOne, Late, AddTo, Names, Counts, SubsOf, PubsOf;
    SubscribeOneIs(r, c, topicsOnly, id);
    var a := AnnounceOnce(r, c, id);
    AnnounceOnceMid(r, h, c, pend, c, id);
    if !topicsOnly {
      var h1 := Sent(h, a.routes);
      SubscriberMid(a.reg, h1, c, pend, c, id);
      ViewsAt(r.topics, id);
      assert h1.table[(c, id)] == r.topics[id].name;
      LateResolves(r, h1.table, c, id);
      var b := Out(AddSubscriber(a.reg, c, id), Late(r, c, id));
      assert Sent(h1, b.routes) == h1;
      Chain(h, a, b, c, pend);
    } else {
      assert a.routes + [] == a.routes;
    }
  }

  lemma {:induction false} SubscribeEachShape(r: Reg, c: ClientId, topicsOnly: bool, ids: seq<TopicId>)
    ensures var r1 := SubscribeEach(r, c, topicsOnly, ids).reg;
            r1 == r.(subscribers := r1.subscribers, announced := r1.announced)
  {
    if ids != [] {
      SubscribeEachShape(r, c, topicsOnly, ids[..|ids| - 1]);
      SubscribeOneIs(SubscribeEach(r, c, topicsOnly, ids[..|ids| - 1]).reg, c, topicsOnly, ids[|ids| - 1]);
    }
  }

  lemma {:induction false} SubscribeEachMid(r: Reg, h: History, c: ClientId, topicsOnly: bool, ids: seq<TopicId>,
                                            pend: set<TopicId>)
    requires Mid(r, h, c, pend) && c in r.clients
    requires forall k | 0 <= k < |ids| :: ids[k] in r.topics && (!topicsOnly ==> ids[k] in pend)
    ensures Safe(h, SubscribeEach(r, c, topicsOnly, ids), c, pend)
  {
    hide Mid, Resolves, SubscribeOne;
    if ids == [] {
      Quiet(h, r, c, pend);
    } else {
      var n := |ids| - 1;
      var a := SubscribeEach(r, c, topicsOnly, ids[..n]);
      SubscribeEachMid(r, h, c, topicsOnly, ids[..n], pend);
      SubscribeEachShape(r, c, topicsOnly, ids[..n]);
      SubscribeOneMid(a.reg, Sent(h, a.routes), c, topicsOnly, ids[n], pend);
      Chain(h, a, SubscribeOne(a.reg, c, topicsOnly, ids[n]), c, pend);
    }
  }

  /** Subscribing takes nobody out of a list, and values subscribers are in. */
  lemma {:induction false} SubscribeEachFan(r: Reg, c: ClientId, topicsOnly: bool, ids: seq<TopicId>)
    ensures var L := SubscribeEach(r, c, topicsOnly, ids).reg.subscribers;
            && (forall i, d | i in r.subscribers && d in r.subscribers[i] :: i in L && d in L[i])
            && (!topicsOnly ==> forall i | i in ids :: i in L && c in L[i])
  {
    hide AnnounceFrame, Late;
    if ids != [] {
      var n := |ids| - 1;
      SubscribeEachFan(r, c, topicsOnly, ids[..n]);
      SubscribeOneIs(SubscribeEach(r, c, topicsOnly, ids[..n]).reg, c, topicsOnly, ids[n]);
      assert ids == ids[..n] + [ids[n]];
    }
  }

  // ------------------------------------------------------ entering the subscription

  ghost function MoreSub(S: SubMap, c: ClientId, u: nat, sub: Subscription): SubMap
    requires c in S
  {
    var subs: map<nat, Subscription> := S[c];
    S[c := subs[u := sub]]
  }

  lemma PutSubViews(r: Reg, c: ClientId, u: nat, sub: Subscription)
    requires c in r.clients
    ensures var r1 := PutSub(r, c, u, sub);
            && r1 == r.(clients := r1.clients)
            && c in SubsOf(r.clients) && SubsOf(r.clients)[c] == r.clients[c].subs
            && SubsOf(r1.clients) == MoreSub(SubsOf(r.clients), c, u, sub)
            && PubsOf(r1.clients) == PubsOf(r.clients)
            && r1.clients.Keys == r.clients.Keys
  {
    ClientViews(r.clients, c, r.clients[c].(subs := r.clients[c].subs[u := sub]));
  }

  lemma PutFan(S: SubMap, L: Lists, c: ClientId, u: nat, sub: Subscription, pend: set<TopicId>)
    requires FanInv(S, L, c, pend) && c in S && u !in S[c]
    requires pend != {} ==> !sub.topicsOnly && pend <= sub.matched
    ensures FanInv(MoreSub(S, c, u, sub), L, 0, {})
  {
    var S': SubMap := MoreSub(S, c, u, sub);
    forall i, d | i in L && d in L[i] && d in S' ensures Wanted(S'[d], i) {
      if Wanted(S[d], i) {
        var v :| v in S[d] && !S[d][v].topicsOnly && i in S[d][v].matched;
        assert v in S'[d] && S'[d][v] == S[d][v];
      } else {
        assert u in S'[d] && S'[d][u] == sub;
      }
    }
  }

  lemma PutSound(N: NameMap, S: SubMap, c: ClientId, u: nat, sub: Subscription)
    requires c in S
    requires forall i :: i in sub.matched <==> i in N && Covers(sub, N[i])
    ensures Sound(N, S) ==> Sound(N, MoreSub(S, c, u, sub))
    ensures Complete(N, S) ==> Complete(N, MoreSub(S, c, u, sub))
  {
    hide Covers;
  }

  lemma PutFull(S: SubMap, L: Lists, L': Lists, c: ClientId, u: nat, sub: Subscription)
    requires Full(S, L) && c in S
    requires forall i, d | i in L && d in L[i] :: i in L' && d in L'[i]
    requires !sub.topicsOnly ==> forall i | i in sub.matched :: i in L' && c in L'[i]
    ensures Full(MoreSub(S, c, u, sub), L')
  {
    var S': SubMap := MoreSub(S, c, u, sub);
    forall d, v, i | d in S' && v in S'[d] && !S'[d][v].topicsOnly && i in S'[d][v].matched
      ensures i in L' && d in L'[i]
    {
      if d != c || v != u {
        assert S'[d][v] == S[d][v];
        assert i in L && d in L[i];
      }
    }
  }

  /** The subscription entered, with its matched set found by the scan. */
  function NewSub(r: Reg, patterns: seq<string>, prefix: bool, topicsOnly: bool): Subscription {
    var sub := Subscription(patterns, prefix, topicsOnly, {});
    sub.(matched := MatchedIds(r.byName, sub))
  }

  /** Announcing the matched topics and entering the subscription. */
  function EnterSub(r: Reg, c: ClientId, u: nat, sub: Subscription): Out {
    var a := SubscribeEach(r, c, sub.topicsOnly, Ascending(sub.matched, r.nextId));
    Out(if c in a.reg.clients then PutSub(a.reg, c, u, sub) else a.reg, a.routes)
  }

  lemma NewSubMatches(r: Reg, patterns: seq<string>, prefix: bool, topicsOnly: bool)
    requires IdsInv(Names(r.topics), r.byName, r.freed, r.nextId)
    ensures var sub := NewSub(r, patterns, prefix, topicsOnly);
            var N := Names(r.topics);
            && (forall i :: i in sub.matched <==> i in N && Covers(sub, N[i]))
            && (forall i :: i in Ascending(sub.matched, r.nextId) <==> i in sub.matched)
            && sub.topicsOnly == topicsOnly
  {
    hide IdsInv, Covers, Names, MatchedIds;
    var sub := Subscription(patterns, prefix, topicsOnly, {});
    var N := Names(r.topics);
    var ids := MatchedIds(r.byName, sub);
    MatchedIdsScan(N, r.byName, r.freed, r.nextId, sub);
    AscendingMembers(ids, r.nextId);
    forall i | i in N ensures Covers(sub.(matched := ids), N[i]) == Covers(sub, N[i]) {
      CoversByPatterns(sub.(matched := ids), sub, N[i]);
    }
  }

  lemma WeakenMid(r: Reg, h: History, c: ClientId, pend: set<TopicId>)
    requires Inv(r, h)
    ensures Mid(r, h, c, pend)
  {
    hide IdsInv, Sound, ListsInv, ClientNamesInv, TopicsOk, Names, Counts, SubsOf, PubsOf, Wanted;
  }

  lemma EnterSubMid(r: Reg, h: History, c: ClientId, u: nat, patterns: seq<string>, prefix: bool, topicsOnly: bool)
    requires Inv(r, h) && c in r.clients && u !in r.clients[c].subs
    ensures Safe(h, EnterSub(r, c, u, NewSub(r, patterns, prefix, topicsOnly)), 0, {})
  {
    hide IdsInv, Sound, FanInv, ListsInv, ClientNamesInv, TopicsOk, Names, Counts, SubsOf, PubsOf;
    hide Covers, Ascending, SubscribeEach, NewSub, Resolves, PutSub, MoreSub;
    var sub := NewSub(r, patterns, prefix, topicsOnly);
    NewSubMatches(r, patterns, prefix, topicsOnly);
    var pend := if topicsOnly then {} else sub.matched;
    WeakenMid(r, h, c, pend);
    var ids := Ascending(sub.matched, r.nextId);
    forall k | 0 <= k < |ids| ensures ids[k] in r.topics && (!topicsOnly ==> ids[k] in pend) {
      assert ids[k] in ids;
      ViewsAt(r.topics, ids[k]);
    }
    var a := SubscribeEach(r, c, topicsOnly, ids);
    SubscribeEachMid(r, h, c, topicsOnly, ids, pend);
    SubscribeEachShape(r, c, topicsOnly, ids);
    PutSubViews(a.reg, c, u, sub);
    PutFan(SubsOf(r.clients), a.reg.subscribers, c, u, sub, pend);
    PutSound(Names(r.topics), SubsOf(r.clients), c, u, sub);
  }

  lemma EnterSubKeeps(r: Reg, c: ClientId, u: nat, patterns: seq<string>, prefix: bool, topicsOnly: bool)
    requires IdsInv(Names(r.topics), r.byName, r.freed, r.nextId) && c in r.clients
    ensures Keeps(r, EnterSub(r, c, u, NewSub(r, patterns, prefix, topicsOnly)).reg)
  {
    hide IdsInv, Complete, Full, Names, SubsOf, PubsOf, Covers, Ascending, SubscribeEach, NewSub, PutSub, MoreSub;
    hide PersistentSnapshot;
    var sub := NewSub(r, patterns, prefix, topicsOnly);
    NewSubMatches(r, patterns, prefix, topicsOnly);
    var ids := Ascending(sub.matched, r.nextId);
    var a := SubscribeEach(r, c, topicsOnly, ids);
    SubscribeEachShape(r, c, topicsOnly, ids);
    SubscribeEachFan(r, c, topicsOnly, ids);
    PutSubViews(a.reg, c, u, sub);
    PutSound(Names(r.topics), SubsOf(r.clients), c, u, sub);
    if Full(SubsOf(r.clients), r.subscribers) {
      PutFull(SubsOf(r.clients), r.subscribers, a.reg.subscribers, c, u, sub);
    }
  }

  // ------------------------------------------------------------------ handlers

  /** The meta updates a subscribe or unsubscribe ends with. */
  function MetaSubs(r: Reg, o: Oracle, c: ClientId, ids: set<TopicId>): Out {
    var d := UpdateMetaClientSub(r, o, c);
    var e := UpdateMetaSubFor(d.reg, o, ids);
    Out(e.reg, d.routes + e.routes)
  }

  lemma MetaSubsMid(r: Reg, o: Oracle, h: History, c: ClientId, ids: set<TopicId>)
    requires Inv(r, h)
    ensures Safe(h, MetaSubs(r, o, c, ids), 0, {})
    ensures ValidOracle(o) ==> Keeps(r, MetaSubs(r, o, c, ids).reg)
  {
    hide Mid, Resolves, UpdateMetaClientSub, UpdateMetaSubFor, ValidOracle, Full, Complete, Names, SubsOf;
    hide PersistentSnapshot;
    var d := UpdateMetaClientSub(r, o, c);
    UpdateMetaClientMid(r, o, h, 0, {}, c);
    UpdateMetaSubForMid(d.reg, o, Sent(h, d.routes), 0, {}, ids);
    Chain(h, d, UpdateMetaSubFor(d.reg, o, ids), 0, {});
  }

  predicate SubscribeAccepted(r: Reg, c: ClientId, subuid: nat)
    requires c in r.clients
  {
    subuid in r.clients[c].subs || |r.clients[c].subs| < MAX_PER_CLIENT
  }

  lemma HandleSubscribeIs(r: Reg, o: Oracle, c: ClientId, patterns: seq<string>, subuid: nat, prefix: bool,
                          topicsOnly: bool)
    requires c in r.clients && SubscribeAccepted(r, c, subuid)
    ensures var r1 := DropSub(r, c, subuid);
            var sub := NewSub(r1, patterns, prefix, topicsOnly);
            var a := EnterSub(r1, c, subuid, sub);
            var b := MetaSubs(a.reg, o, c, Touched(r, c, subuid) + sub.matched);
            HandleSubscribe(r, o, c, patterns, subuid, prefix, topicsOnly) == Out(b.reg, a.routes + b.routes)
  {
    hide DropSub, SubscribeEach, UpdateMetaClientSub, UpdateMetaSubFor, MatchedIds, Ascending, Touched, PutSub;
    var r1 := DropSub(r, c, subuid);
    var sub := NewSub(r1, patterns, prefix, topicsOnly);
    var a := EnterSub(r1, c, subuid, sub);
    var d := UpdateMetaClientSub(a.reg, o, c);
    var e := UpdateMetaSubFor(d.reg, o, Touched(r, c, subuid) + sub.matched);
    assert a.routes + d.routes + e.routes == a.routes + (d.routes + e.routes);
  }

  lemma DropSubGone(r: Reg, c: ClientId, subuid: nat)
    requires c in r.clients
    ensures var r1 := DropSub(r, c, subuid); c in r1.clients && subuid !in r1.clients[c].subs
  {
  }

  lemma {:induction false} HandleSubscribeMid(r: Reg, o: Oracle, h: History, c: ClientId, patterns: seq<string>,
                                              subuid: nat, prefix: bool, topicsOnly: bool)
    requires Inv(r, h) && c in r.clients && SubscribeAccepted(r, c, subuid)
    ensures Safe(h, HandleSubscribe(r, o, c, patterns, subuid, prefix, topicsOnly), 0, {})
  {
    hide Mid, Resolves, DropSub, NewSub, EnterSub, MetaSubs, Touched, HandleSubscribe, SubscribeAccepted;
    var r1 := DropSub(r, c, subuid);
    var sub := NewSub(r1, patterns, prefix, topicsOnly);
    var a := EnterSub(r1, c, subuid, sub);
    HandleSubscribeIs(r, o, c, patterns, subuid, prefix, topicsOnly);
    DropSubMid(r, h, c, subuid);
    DropSubGone(r, c, subuid);
    EnterSubMid(r1, h, c, subuid, patterns, prefix, topicsOnly);
    var ids := Touched(r, c, subuid) + sub.matched;
    MetaSubsMid(a.reg, o, Sent(h, a.routes), c, ids);
    Chain(h, a, MetaSubs(a.reg, o, c, ids), 0, {});
  }

  /** A subscribe keeps the matched sets complete, and from the state after its old
      subscription is dropped it keeps the fan-out full. */
  lemma HandleSubscribeKeeps(r: Reg, o: Oracle, h: History, c: ClientId, patterns: seq<string>, subuid: nat,
                             prefix: bool, topicsOnly: bool)
    requires ValidOracle(o)
    requires Inv(r, h) && c in r.clients && SubscribeAccepted(r, c, subuid)
    ensures Keeps(DropSub(r, c, subuid), HandleSubscribe(r, o, c, patterns, subuid, prefix, topicsOnly).reg)
  {
    hide Mid, Resolves, DropSub, NewSub, EnterSub, MetaSubs, Touched, HandleSubscribe, SubscribeAccepted;
    hide Full, Complete, Names, SubsOf, PersistentSnapshot, ValidOracle;
    var r1 := DropSub(r, c, subuid);
    var sub := NewSub(r1, patterns, prefix, topicsOnly);
    var a := EnterSub(r1, c, subuid, sub);
    HandleSubscribeIs(r, o, c, patterns, subuid, prefix, topicsOnly);
    DropSubMid(r, h, c, subuid);
    MidTopicsOk(r1, h, 0, {});
    DropSubGone(r, c, subuid);
    EnterSubMid(r1, h, c, subuid, patterns, prefix, topicsOnly);
    EnterSubKeeps(r1, c, subuid, patterns, prefix, topicsOnly);
    MetaSubsMid(a.reg, o, Sent(h, a.routes), c, Touched(r, c, subuid) + sub.matched);
  }

  lemma {:induction false} HandleUnsubscribeMid(r: Reg, o: Oracle, h: History, c: ClientId, subuid: nat)
    requires Inv(r, h)
    ensures Safe(h, HandleUnsubscribe(r, o, c, subuid), 0, {})
    ensures ValidOracle(o) ==> Keeps(DropSub(r, c, subuid), HandleUnsubscribe(r, o, c, subuid).reg)
  {
    hide Mid, Resolves, DropSub, Touched, UpdateMetaClientSub, UpdateMetaSubFor, Full, Complete, Names, SubsOf;
    hide PersistentSnapshot, ValidOracle;
    DropSubMid(r, h, c, subuid);
    MetaSubsMid(DropSub(r, c, subuid), o, h, c, Touched(r, c, subuid));
  }
}
