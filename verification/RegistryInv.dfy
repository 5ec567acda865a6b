/** What every step of the registry keeps, stated over the parts of the state each
    clause depends on, with the lemmas that carry each clause through each kind of
    change.  Concerns core/src/websocket/protocol.rs. */
module RegistryInv {
  import opened Values
  import opened Registry

  type NameMap = map<TopicId, string>
  type SubMap = map<ClientId, map<nat, Subscription>>
  type PubMap = map<ClientId, map<nat, TopicId>>
  type Lists = map<TopicId, seq<ClientId>>

  /** A client's table of announced topics, for every client at once: the last
      announcement of an id wins, as in the client's reader. */
  type Table = map<(ClientId, TopicId), string>

  /** What a run remembers beside the registry: the client ids ever connected, the
      tables the clients have built from the frames sent to them, and the name each
      live publisher uid was last accepted for. */
  datatype History = History(
    seen: set<ClientId>,
    table: Table,
    accepted: map<(ClientId, nat), string>)

  // ------------------------------------------------------------------- views

  ghost function Names(topics: map<TopicId, Topic>): NameMap { map i | i in topics :: topics[i].name }
  ghost function Counts(topics: map<TopicId, Topic>): map<TopicId, nat> { map i | i in topics :: topics[i].publishers }
  ghost function SubsOf(clients: map<ClientId, Client>): SubMap { map c | c in clients :: clients[c].subs }
  ghost function PubsOf(clients: map<ClientId, Client>): PubMap { map c | c in clients :: clients[c].pubs }

  lemma TopicViews(topics: map<TopicId, Topic>, id: TopicId, t: Topic)
    ensures Names(topics[id := t]) == Names(topics)[id := t.name]
    ensures Counts(topics[id := t]) == Counts(topics)[id := t.publishers]
    ensures Names(topics - {id}) == Names(topics) - {id}
    ensures Counts(topics - {id}) == Counts(topics) - {id}
    ensures id in topics && t.name == topics[id].name ==> Names(topics[id := t]) == Names(topics)
    ensures id in topics && t.publishers == topics[id].publishers ==> Counts(topics[id := t]) == Counts(topics)
  {
  }

  lemma ViewsAt(topics: map<TopicId, Topic>, id: TopicId)
    ensures id in Names(topics) <==> id in topics
    ensures id in Counts(topics) <==> id in topics
    ensures id in topics ==> Names(topics)[id] == topics[id].name && Counts(topics)[id] == topics[id].publishers
  {
  }

  lemma ClientViews(clients: map<ClientId, Client>, c: ClientId, cl: Client)
    ensures SubsOf(clients[c := cl]) == SubsOf(clients)[c := cl.subs]
    ensures PubsOf(clients[c := cl]) == PubsOf(clients)[c := cl.pubs]
    ensures SubsOf(clients - {c}) == SubsOf(clients) - {c}
    ensures PubsOf(clients - {c}) == PubsOf(clients) - {c}
    ensures c in clients && cl.subs == clients[c].subs ==> SubsOf(clients[c := cl]) == SubsOf(clients)
    ensures c in clients && cl.pubs == clients[c].pubs ==> PubsOf(clients[c := cl]) == PubsOf(clients)
  {
  }

  // -------------------------------------------------------------- invariants

  /** Names and ids are inverse, and the ids below `next` split into live and freed. */
  ghost predicate IdsInv(N: NameMap, byName: map<string, TopicId>, freed: seq<TopicId>, next: nat) {
    && (forall n | n in byName :: byName[n] in N && N[byName[n]] == n)
    && (forall i | i in N :: N[i] in byName && byName[N[i]] == i)
    && (forall i | i in N :: i < next)
    && NoDup(freed)
    && (forall i | i in freed :: i < next && i !in N)
    && (forall i: nat | i < next :: i in N || i in freed)
  }

  /** A matched id is live and its name is one the subscription covers. */
  ghost predicate Sound(N: NameMap, S: SubMap) {
    forall c, u, i | c in S && u in S[c] && i in S[c][u].matched :: i in N && Covers(S[c][u], N[i])
  }

  /** Every live topic a subscription covers is in its matched set. */
  ghost predicate Complete(N: NameMap, S: SubMap) {
    forall c, u, i | c in S && u in S[c] && i in N && Covers(S[c][u], N[i]) :: i in S[c][u].matched
  }

  /** Some subscription matches `i` and asks for values. */
  ghost predicate Wanted(subs: map<nat, Subscription>, i: TopicId) {
    exists u | u in subs :: !subs[u].topicsOnly && i in subs[u].matched
  }

  /** A connected client in a fan-out list has a subscription that asks for the
      topic's values.  While client `pc` is subscribing, `pend` is excepted. */
  ghost predicate FanInv(S: SubMap, subscribers: Lists, pc: ClientId, pend: set<TopicId>) {
    forall i, c | i in subscribers && c in subscribers[i] && c in S :: Wanted(S[c], i) || (c == pc && i in pend)
  }

  /** Every client that asks for a topic's values is in its fan-out list. */
  ghost predicate Full(S: SubMap, subscribers: Lists) {
    forall c, u, i | c in S && u in S[c] && !S[c][u].topicsOnly && i in S[c][u].matched ::
      i in subscribers && c in subscribers[i]
  }

  /** The lists belong to live topics, hold no client twice, name only clients that
      were connected, fan-out goes only to clients that were sent the announcement,
      and an announced client's table has the topic's present name. */
  ghost predicate ListsInv(N: NameMap, subscribers: Lists, announced: Lists, seen: set<ClientId>, table: Table) {
    && subscribers.Keys <= N.Keys
    && announced.Keys <= N.Keys
    && (forall i | i in subscribers :: NoDup(subscribers[i]))
    && (forall i | i in announced :: NoDup(announced[i]))
    && (forall i, c | i in announced && c in announced[i] ::
          c in seen && (c, i) in table && table[(c, i)] == N[i])
    && (forall i, c | i in subscribers && c in subscribers[i] :: i in announced && c in announced[i])
  }

  /** The names in use are exactly the connected clients' names, pairwise distinct. */
  ghost predicate ClientNamesInv(clientNames: set<string>, nameOf: map<ClientId, string>,
                                 connected: set<ClientId>, seen: set<ClientId>) {
    && nameOf.Keys == connected
    && connected <= seen
    && (forall c | c in nameOf :: nameOf[c] in clientNames)
    && (forall n | n in clientNames :: exists c :: c in nameOf && nameOf[c] == n)
    && (forall c, d | c in nameOf && d in nameOf && nameOf[c] == nameOf[d] :: c == d)
  }

  /** `v` is the latest-arriving among the highest-stamped of `h`. */
  ghost predicate LatestOfHighest(h: seq<Stamped>, v: Stamped) {
    exists k | 0 <= k < |h| ::
      && h[k] == v
      && (forall j | 0 <= j < |h| :: h[j].ts <= v.ts)
      && (forall j | k < j < |h| :: h[j].ts < v.ts)
  }

  ghost predicate TopicOk(t: Topic) {
    && t.cached == PropFlag(t.properties, "cached", true)
    && t.persistent == PropFlag(t.properties, "persistent", false)
    && (forall k | 0 <= k < |t.history| :: XtDataType(t.history[k].value) == t.dataType)
    && (t.current.None? <==> t.history == [])
    && (t.current.Some? ==> LatestOfHighest(t.history, t.current.value))
  }

  lemma TopicOkByParts(t: Topic, t': Topic)
    requires TopicOk(t)
    requires t' == t.(publishers := t'.publishers, retained := t'.retained)
    ensures TopicOk(t')
    ensures RowOf(t') == RowOf(t)
  {
  }

  ghost predicate TopicsOk(topics: map<TopicId, Topic>) {
    forall i | i in topics :: TopicOk(topics[i])
  }

  lemma TopicOkIn(topics: map<TopicId, Topic>, id: TopicId)
    requires TopicsOk(topics) && id in topics
    ensures TopicOk(topics[id])
  {
    hide TopicOk;
  }

  lemma TopicsOkAt(topics: map<TopicId, Topic>, id: TopicId, t: Topic)
    requires TopicsOk(topics) && TopicOk(t)
    ensures TopicsOk(topics[id := t])
  {
    hide TopicOk;
  }

  /** The invariant in the middle of a step, while client `pc` is being subscribed to
      `pend`. */
  ghost predicate Mid(r: Reg, h: History, pc: ClientId, pend: set<TopicId>) {
    && IdsInv(Names(r.topics), r.byName, r.freed, r.nextId)
    && Sound(Names(r.topics), SubsOf(r.clients))
    && FanInv(SubsOf(r.clients), r.subscribers, pc, pend)
    && ListsInv(Names(r.topics), r.subscribers, r.announced, h.seen, h.table)
    && ClientNamesInv(r.clientNames, r.nameOf, r.clients.Keys, h.seen)
    && TopicsOk(r.topics)
  }

  /** The invariant between steps. */
  ghost predicate Inv(r: Reg, h: History) { Mid(r, h, 0, {}) }

  // ---------------------------------------------------------- replaying frames

  ghost function Learn(table: Table, rt: Route): Table {
    match rt.frame
    case Announce(id, name, _, _, _) => table[(rt.to, id) := name]
    case _ => table
  }

  ghost function Replay(table: Table, routes: seq<Route>): Table {
    if routes == [] then table else Learn(Replay(table, routes[..|routes| - 1]), routes[|routes| - 1])
  }

  ghost predicate ResolvesAt(table: Table, rt: Route) {
    rt.frame.ValueFrame? ==> (rt.to, rt.frame.id) in table && table[(rt.to, rt.frame.id)] == rt.frame.topic
  }

  /** Every value frame names, in its receiver's table at that moment, the topic it
      was emitted for. */
  ghost predicate Resolves(table: Table, routes: seq<Route>) {
    forall k | 0 <= k < |routes| :: ResolvesAt(Replay(table, routes[..k]), routes[k])
  }

  lemma {:induction false} ReplaySplit(table: Table, a: seq<Route>, b: seq<Route>)
    ensures Replay(table, a + b) == Replay(Replay(table, a), b)
    decreases |b|
  {
    if b == [] {
      assert a + b == a;
    } else {
      var n := |b| - 1;
      assert (a + b)[..|a + b| - 1] == a + b[..n];
      ReplaySplit(table, a, b[..n]);
    }
  }

  lemma ResolvesSplit(table: Table, a: seq<Route>, b: seq<Route>)
    requires Resolves(table, a) && Resolves(Replay(table, a), b)
    ensures Resolves(table, a + b)
  {
    forall k | 0 <= k < |a + b| ensures ResolvesAt(Replay(table, (a + b)[..k]), (a + b)[k]) {
      if k < |a| {
        assert (a + b)[..k] == a[..k];
      } else {
        assert (a + b)[..k] == a + b[..k - |a|];
        ReplaySplit(table, a, b[..k - |a|]);
      }
    }
  }

  /** Frames that announce nothing teach nothing. */
  lemma {:induction false} ReplayQuiet(table: Table, routes: seq<Route>)
    requires forall k | 0 <= k < |routes| :: !routes[k].frame.Announce?
    ensures Replay(table, routes) == table
  {
    if routes != [] { ReplayQuiet(table, routes[..|routes| - 1]); }
  }

  lemma ReplayOne(table: Table, rt: Route)
    ensures Replay(table, [rt]) == Learn(table, rt)
    ensures ResolvesAt(table, rt) ==> Resolves(table, [rt])
  {
    assert [rt][..0] == [];
    assert Replay(table, [rt][..0]) == table;
  }

  /** The history after the frames in `routes` went out. */
  ghost function Sent(h: History, routes: seq<Route>): History {
    h.(table := Replay(h.table, routes))
  }

  // ------------------------------------------------------------------ topic ids

  /** The allocated id is the least one no live topic holds. */
  lemma {:induction false} AllocIdLeast(r: Reg)
    requires IdsInv(Names(r.topics), r.byName, r.freed, r.nextId)
    ensures AllocId(r).1 !in r.topics
    ensures forall j: nat | j < AllocId(r).1 :: j in r.topics
  {
    var id := AllocId(r).1;
    var N := Names(r.topics);
    if r.freed != [] {
      var k := MinIndex(r.freed);
      assert r.freed[k] in r.freed;
      forall j: nat | j < id ensures j in r.topics {
        assert j !in r.freed;
        assert j in N;
      }
    } else {
      assert id !in N;
      forall j: nat | j < id ensures j in r.topics { assert j in N; }
    }
  }

  lemma {:induction false} TakeOut(freed: seq<TopicId>, k: nat)
    requires k < |freed| && NoDup(freed)
    ensures var rest := freed[..k] + freed[k + 1..];
            && NoDup(rest)
            && forall i :: i in rest <==> i in freed && i != freed[k]
  {
    var rest := freed[..k] + freed[k + 1..];
    assert forall j | 0 <= j < |rest| :: rest[j] == if j < k then freed[j] else freed[j + 1];
    forall i | i in freed && i != freed[k] ensures i in rest {
      var m :| 0 <= m < |freed| && freed[m] == i;
      assert rest[if m < k then m else m - 1] == i;
    }
  }

  /** What taking an id changes: the least freed one is used up, or a new one made. */
  lemma AllocShape(r: Reg)
    requires NoDup(r.freed)
    ensures var (r1, id) := AllocId(r);
            && r1 == r.(freed := r1.freed, nextId := r1.nextId)
            && NoDup(r1.freed)
            && (forall i :: i in r1.freed ==> i in r.freed)
            && (forall i | i in r.freed && i != id :: i in r1.freed)
            && (r.freed != [] ==> r1.nextId == r.nextId && id in r.freed && id !in r1.freed)
            && (r.freed == [] ==> id == r.nextId && r1.nextId == id + 1 && r1.freed == [])
  {
    if r.freed != [] {
      var k := MinIndex(r.freed);
      assert r.freed[k] in r.freed;
      TakeOut(r.freed, k);
    }
  }

  lemma CreateShape(r: Reg, t: Topic)
    requires IdsInv(Names(r.topics), r.byName, r.freed, r.nextId)
    requires t.name !in r.byName
    ensures var (r1, id) := Create(r, t);
            && id !in r.topics
            && r1 == r.(topics := r.topics[id := t], byName := r.byName[t.name := id],
                        freed := r1.freed, nextId := r1.nextId)
            && r1.nextId >= r.nextId && id < r1.nextId
            && NoDup(r1.freed)
            && (forall i :: i in r1.freed ==> i in r.freed && i != id)
            && (r1.nextId == r.nextId || (id == r.nextId && r1.nextId == id + 1))
            && (forall i | i in r.freed && i != id :: i in r1.freed)
  {
    AllocIdLeast(r);
    AllocShape(r);
    hide AllocId, NoDup, Names;
  }

  lemma {:induction false} CreateIds(r: Reg, t: Topic)
    requires IdsInv(Names(r.topics), r.byName, r.freed, r.nextId)
    requires t.name !in r.byName
    ensures var (r1, id) := Create(r, t);
            IdsInv(Names(r1.topics), r1.byName, r1.freed, r1.nextId)
  {
    var (r1, id) := Create(r, t);
    CreateShape(r, t);
    TopicViews(r.topics, id, t);
    EnterName(Names(r.topics), r.byName, r.freed, r.nextId, id, t.name, r1.freed, r1.nextId);
  }

  lemma EnterName(N: NameMap, byName: map<string, TopicId>, freed: seq<TopicId>, next: nat,
                  id: TopicId, name: string, freed': seq<TopicId>, next': nat)
    requires IdsInv(N, byName, freed, next)
    requires id !in N && name !in byName && next' >= next && id < next' && NoDup(freed')
    requires forall i :: i in freed' ==> i in freed && i != id
    requires next' == next || (id == next && next' == id + 1)
    requires forall i | i in freed && i != id :: i in freed'
    ensures IdsInv(N[id := name], byName[name := id], freed', next')
  {
  }

  lemma {:induction false} RemoveIds(r: Reg, id: TopicId)
    requires IdsInv(Names(r.topics), r.byName, r.freed, r.nextId)
    requires id in r.topics
    ensures var r1 := RemoveTopic(r, id);
            IdsInv(Names(r1.topics), r1.byName, r1.freed, r1.nextId)
  {
    var r1 := RemoveTopic(r, id);
    TopicViews(r.topics, id, r.topics[id]);
    var N := Names(r.topics);
    assert id !in r.freed by { assert id in N; }
    assert forall i | i in r1.freed :: i in r.freed || i == id;
    assert forall i | i in r.freed :: i in r1.freed by { assert r1.freed[..|r.freed|] == r.freed; }
    assert id in r1.freed by { assert r1.freed[|r.freed|] == id; }
  }

  // --------------------------------------------------- matched sets, both ways

  ghost function MatchSubs(S: SubMap, id: TopicId, name: string): SubMap {
    map c | c in S :: map u | u in S[c] ::
      if Covers(S[c][u], name) then S[c][u].(matched := S[c][u].matched + {id}) else S[c][u]
  }

  ghost function UnmatchSubs(S: SubMap, id: TopicId): SubMap {
    map c | c in S :: map u | u in S[c] :: S[c][u].(matched := S[c][u].matched - {id})
  }

  lemma MatchViews(clients: map<ClientId, Client>, id: TopicId, name: string)
    ensures SubsOf(MatchAll(clients, id, name)) == MatchSubs(SubsOf(clients), id, name)
    ensures PubsOf(MatchAll(clients, id, name)) == PubsOf(clients)
    ensures MatchAll(clients, id, name).Keys == clients.Keys
  {
  }

  lemma UnmatchViews(clients: map<ClientId, Client>, id: TopicId)
    ensures SubsOf(UnmatchAll(clients, id)) == UnmatchSubs(SubsOf(clients), id)
    ensures PubsOf(UnmatchAll(clients, id)) == PubsOf(clients)
    ensures UnmatchAll(clients, id).Keys == clients.Keys
  {
  }

  lemma MatchSound(N: NameMap, S: SubMap, id: TopicId)
    requires Sound(N, S) && id in N
    ensures Sound(N, MatchSubs(S, id, N[id]))
  {
  }

  lemma SoundGrow(N: NameMap, S: SubMap, id: TopicId, name: string)
    requires Sound(N, S) && id !in N
    ensures Sound(N[id := name], S)
  {
  }

  lemma CoversByPatterns(a: Subscription, b: Subscription, name: string)
    requires a.patterns == b.patterns && a.prefix == b.prefix
    ensures Covers(a, name) == Covers(b, name)
  {
  }

  lemma {:induction false} MatchComplete(N: NameMap, S: SubMap, id: TopicId)
    requires Complete(N - {id}, S) && id in N
    ensures Complete(N, MatchSubs(S, id, N[id]))
  {
    var S' := MatchSubs(S, id, N[id]);
    forall c, u, i | c in S' && u in S'[c] && i in N && Covers(S'[c][u], N[i]) ensures i in S'[c][u].matched {
      CoversByPatterns(S[c][u], S'[c][u], N[i]);
      if i != id { assert i in N - {id}; }
    }
  }

  lemma UnmatchSound(N: NameMap, S: SubMap, id: TopicId)
    requires Sound(N, S)
    ensures Sound(N - {id}, UnmatchSubs(S, id))
  {
  }

  lemma UnmatchComplete(N: NameMap, S: SubMap, id: TopicId)
    requires Complete(N, S)
    ensures Complete(N - {id}, UnmatchSubs(S, id))
  {
  }

  // ------------------------------------------------------------- fan-out lists

  lemma MatchFan(S: SubMap, L: Lists, pc: ClientId, pend: set<TopicId>, id: TopicId, name: string)
    requires FanInv(S, L, pc, pend)
    ensures FanInv(MatchSubs(S, id, name), L, pc, pend)
  {
    var S' := MatchSubs(S, id, name);
    forall i, c | i in L && c in L[i] && c in S' ensures Wanted(S'[c], i) || (c == pc && i in pend) {
      if Wanted(S[c], i) {
        var u :| u in S[c] && !S[c][u].topicsOnly && i in S[c][u].matched;
        assert u in S'[c] && !S'[c][u].topicsOnly && i in S'[c][u].matched;
      }
    }
  }

  lemma UnmatchFan(S: SubMap, L: Lists, pc: ClientId, pend: set<TopicId>, id: TopicId)
    requires FanInv(S, L, pc, pend)
    ensures FanInv(UnmatchSubs(S, id), L - {id}, pc, pend)
  {
    var S' := UnmatchSubs(S, id);
    forall i, c | i in L - {id} && c in L[i] && c in S' ensures Wanted(S'[c], i) || (c == pc && i in pend) {
      if Wanted(S[c], i) {
        var u :| u in S[c] && !S[c][u].topicsOnly && i in S[c][u].matched;
        assert u in S'[c] && !S'[c][u].topicsOnly && i in S'[c][u].matched;
      }
    }
  }

  lemma AddToMembers(L: Lists, c: ClientId, id: TopicId)
    requires id in L ==> NoDup(L[id])
    ensures AddTo(L, c, id).Keys == L.Keys + {id}
    ensures NoDup(AddTo(L, c, id)[id])
    ensures forall d :: d in AddTo(L, c, id)[id] <==> d == c || d in ListAt(L, id)
    ensures forall i | i in L && i != id :: AddTo(L, c, id)[i] == L[i]
  {
  }

  lemma AddFan(S: SubMap, L: Lists, pc: ClientId, pend: set<TopicId>, c: ClientId, id: TopicId)
    requires FanInv(S, L, pc, pend)
    requires id in L ==> NoDup(L[id])
    requires c in S ==> Wanted(S[c], id) || (c == pc && id in pend)
    ensures FanInv(S, AddTo(L, c, id), pc, pend)
  {
    AddToMembers(L, c, id);
  }

  lemma UnmatchFull(S: SubMap, L: Lists, id: TopicId)
    requires Full(S, L)
    ensures Full(UnmatchSubs(S, id), L - {id})
  {
  }

  // ------------------------------------------------------------ announce lists

  lemma ListsGrow(N: NameMap, sub: Lists, ann: Lists, seen: set<ClientId>, table: Table, id: TopicId, name: string)
    requires ListsInv(N, sub, ann, seen, table) && id !in N
    ensures ListsInv(N[id := name], sub, ann, seen, table)
  {
  }

  lemma ListsRemove(N: NameMap, sub: Lists, ann: Lists, seen: set<ClientId>, table: Table, id: TopicId)
    requires ListsInv(N, sub, ann, seen, table)
    ensures ListsInv(N - {id}, sub - {id}, ann - {id}, seen, table)
  {
  }

  lemma ListsAnnounce(N: NameMap, sub: Lists, ann: Lists, seen: set<ClientId>, table: Table, c: ClientId, id: TopicId)
    requires ListsInv(N, sub, ann, seen, table) && id in N && c in seen
    ensures ListsInv(N, sub, AddTo(ann, c, id), seen, table[(c, id) := N[id]])
    ensures c in ListAt(ann, id) ==> ListsInv(N, sub, AddTo(ann, c, id), seen, table)
  {
    AddToMembers(ann, c, id);
  }

  lemma ListsSubscribe(N: NameMap, sub: Lists, ann: Lists, seen: set<ClientId>, table: Table, c: ClientId, id: TopicId)
    requires ListsInv(N, sub, ann, seen, table) && id in N && id in ann && c in ann[id]
    ensures ListsInv(N, AddTo(sub, c, id), ann, seen, table)
  {
    AddToMembers(sub, c, id);
  }
}
