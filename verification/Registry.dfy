/** The NT4 registry as a value and its handlers as functions on that value: the
    specification the class in RegistryClass.dfy is proved against and the state
    machine the invariants in the other Registry files are about.
    Models core/src/websocket/protocol.rs. */
module Registry {
  import opened Values
  import ClientNames

  type ClientId = nat
  type TopicId = nat

  const MAX_PER_CLIENT: nat := 512
  const MAX_TOPICS: nat := 16_384

  datatype Json = Null | Flag(on: bool) | Other(text: string)
  type Props = map<string, Json>

  datatype Stamped = Stamped(ts: nat, value: Value)

  /** One topic.  `history` is auxiliary: every value accepted while the topic was
      cached, oldest first, so that `current` can be compared with what arrived. */
  datatype Topic = Topic(
    name: string,
    dataType: nat,
    typeStr: string,
    properties: Props,
    current: Option<Stamped>,
    publishers: nat,
    retained: bool,
    cached: bool,
    persistent: bool,
    history: seq<Stamped>)

  datatype Subscription = Subscription(
    patterns: seq<string>,
    prefix: bool,
    topicsOnly: bool,
    matched: set<TopicId>)

  datatype Client = Client(pubs: map<nat, TopicId>, subs: map<nat, Subscription>)

  /** A frame for one client.  A value frame carries `topic`, the name of the topic
      it was emitted for, beside what goes on the wire. */
  datatype Frame =
    | Announce(id: TopicId, name: string, typeStr: string, properties: Props, pubuid: Option<nat>)
    | Unannounce(id: TopicId, name: string)
    | PropertiesUpdate(name: string, update: Props, ack: bool)
    | ValueFrame(topic: string, id: TopicId, ts: nat, value: Value)
    | RttFrame(ts: nat, value: Value)

  datatype Route = Route(to: ClientId, frame: Frame)

  /** `ticks` counts the uses of the oracle below, so every use may answer anew. */
  datatype Reg = Reg(
    topics: map<TopicId, Topic>,
    byName: map<string, TopicId>,
    clients: map<ClientId, Client>,
    subscribers: map<TopicId, seq<ClientId>>,
    announced: map<TopicId, seq<ClientId>>,
    freed: seq<TopicId>,
    nextId: nat,
    clientNames: set<string>,
    nameOf: map<ClientId, string>,
    generation: nat,
    ticks: nat)

  const Empty: Reg := Reg(map[], map[], map[], map[], map[], [], 0, {}, map[], 0, 0)

  datatype Out = Out(reg: Reg, routes: seq<Route>)

  /** What the handlers take from outside: the clock, the encoded meta-topic payload
      (`None` when it does not fit the format), the iteration order of a hash map and
      float arithmetic. */
  datatype Oracle = Oracle(
    now: nat -> nat,
    payload: nat -> Option<seq<byte>>,
    order: (nat, set<nat>) -> seq<nat>,
    floats: FloatOps)

  ghost predicate NoDup<T>(xs: seq<T>) {
    forall i, j | 0 <= i < j < |xs| :: xs[i] != xs[j]
  }

  /** A hash map is walked in some order that visits every key once. */
  ghost predicate ValidOracle(o: Oracle) {
    forall k: nat, xs: set<nat> :: Enumerates(o.order(k, xs), xs)
  }

  ghost predicate Enumerates(q: seq<nat>, xs: set<nat>) {
    && NoDup(q)
    && (forall x | x in q :: x in xs)
    && (forall x | x in xs :: x in q)
  }

  // ------------------------------------------------------------------ names

  predicate IsMeta(name: string) { name != "" && name[0] == '$' }

  function PubMeta(name: string): string { "$pub$" + name }
  function SubMeta(name: string): string { "$sub$" + name }
  function ClientPubMeta(name: string): string { "$clientpub$" + name }
  function ClientSubMeta(name: string): string { "$clientsub$" + name }

  predicate PatternMatches(prefix: bool, pattern: string, name: string) {
    if prefix then pattern <= name else name == pattern
  }

  predicate SubVisibleTo(sub: Subscription, name: string) {
    !IsMeta(name) || exists p | p in sub.patterns :: IsMeta(p)
  }

  predicate SubMatches(sub: Subscription, name: string) {
    exists p | p in sub.patterns :: PatternMatches(sub.prefix, p, name)
  }

  predicate Covers(sub: Subscription, name: string) {
    SubVisibleTo(sub, name) && SubMatches(sub, name)
  }

  // ------------------------------------------------------------- properties

  predicate PropFlag(props: Props, key: string, default: bool) {
    if key in props && props[key].Flag? then props[key].on else default
  }

  function SyncProperties(t: Topic): Topic {
    t.(cached := PropFlag(t.properties, "cached", true),
       persistent := PropFlag(t.properties, "persistent", false))
  }

  predicate IsRetained(t: Topic) {
    t.retained || PropFlag(t.properties, "persistent", false) || PropFlag(t.properties, "retained", false)
  }

  function UpdateProps(props: Props, update: Props): Props {
    map k | k in props.Keys + update.Keys && !(k in update && update[k].Null?) ::
      if k in update then update[k] else props[k]
  }

  // ------------------------------------------------------------- topic ids

  /** The position of the least element. */
  function MinIndex(xs: seq<nat>): (k: nat)
    requires xs != []
    ensures k < |xs|
    ensures forall j | 0 <= j < |xs| :: xs[k] <= xs[j]
    ensures forall j | 0 <= j < k :: xs[k] < xs[j]
  {
    if |xs| == 1 then 0
    else
      var n := |xs| - 1;
      var k := MinIndex(xs[..n]);
      assert forall j | 0 <= j < n :: xs[..n][j] == xs[j];
      if xs[n] < xs[k] then n else k
  }

  function AllocId(r: Reg): (Reg, TopicId) {
    if r.freed == [] then (r.(nextId := r.nextId + 1), r.nextId)
    else
      var k := MinIndex(r.freed);
      (r.(freed := r.freed[..k] + r.freed[k + 1..]), r.freed[k])
  }

  /** Gives `t` an id and enters it under its name. */
  function Create(r: Reg, t: Topic): (Reg, TopicId) {
    var (r1, id) := AllocId(r);
    (r1.(topics := r1.topics[id := t], byName := r1.byName[t.name := id]), id)
  }

  function SetTopic(r: Reg, id: TopicId, t: Topic): Reg {
    r.(topics := r.topics[id := t])
  }

  // ------------------------------------------------- announce and fan-out lists

  function ListAt(m: map<TopicId, seq<ClientId>>, id: TopicId): seq<ClientId> {
    if id in m then m[id] else []
  }

  function AddTo(m: map<TopicId, seq<ClientId>>, c: ClientId, id: TopicId): map<TopicId, seq<ClientId>> {
    var list := ListAt(m, id);
    m[id := if c in list then list else list + [c]]
  }

  function AddAnnounced(r: Reg, c: ClientId, id: TopicId): Reg {
    r.(announced := AddTo(r.announced, c, id))
  }

  function AddSubscriber(r: Reg, c: ClientId, id: TopicId): Reg {
    r.(subscribers := AddTo(r.subscribers, c, id))
  }

  /** The announcement of a live topic; the source indexes `topics` here and its
      callers only name live ids. */
  function AnnounceFrame(r: Reg, id: TopicId, pubuid: Option<nat>): Frame {
    if id in r.topics then
      var t := r.topics[id];
      Announce(id, t.name, t.typeStr, t.properties, pubuid)
    else Announce(id, "", "", map[], pubuid)
  }

  /** Announces `id` to `c` unless it already was. */
  function AnnounceOnce(r: Reg, c: ClientId, id: TopicId): Out {
    Out(AddAnnounced(r, c, id),
        if c in ListAt(r.announced, id) then [] else [Route(c, AnnounceFrame(r, id, None))])
  }

  function Without(list: seq<ClientId>, c: ClientId): seq<ClientId> {
    if list == [] then []
    else
      var n := |list| - 1;
      Without(list[..n], c) + (if list[n] == c then [] else [list[n]])
  }

  /** Takes `c` out of the fan-out lists of `ids`. */
  function DropSubscriber(m: map<TopicId, seq<ClientId>>, c: ClientId, ids: set<TopicId>): map<TopicId, seq<ClientId>> {
    map i | i in m :: if i in ids then Without(m[i], c) else m[i]
  }

  // ---------------------------------------------------------- deleting a topic

  function Unmatch(cl: Client, id: TopicId): Client {
    cl.(subs := map u | u in cl.subs :: cl.subs[u].(matched := cl.subs[u].matched - {id}))
  }

  function UnmatchAll(clients: map<ClientId, Client>, id: TopicId): map<ClientId, Client> {
    map c | c in clients :: Unmatch(clients[c], id)
  }

  /** Takes one topic out of every index and frees its id. */
  function RemoveTopic(r: Reg, id: TopicId): Reg
    requires id in r.topics
  {
    var t := r.topics[id];
    r.(topics := r.topics - {id},
       byName := r.byName - {t.name},
       subscribers := r.subscribers - {id},
       announced := r.announced - {id},
       clients := UnmatchAll(r.clients, id),
       freed := r.freed + [id],
       generation := if t.persistent then r.generation + 1 else r.generation)
  }

  /** Deletes a topic and, with their frames discarded, the meta topics named after it. */
  function Delete(r: Reg, id: TopicId): (r': Reg)
    ensures r'.topics.Keys <= r.topics.Keys
    ensures |r'.topics| <= |r.topics|
    decreases |r.topics|, 0
  {
    if id !in r.topics then r
    else
      var r1 := RemoveTopic(r, id);
      assert |r1.topics.Keys| < |r.topics.Keys| by { assert r1.topics.Keys == r.topics.Keys - {id}; }
      var name := r.topics[id].name;
      DeleteNamed(DeleteNamed(r1, PubMeta(name)), SubMeta(name))
  }

  function DeleteNamed(r: Reg, name: string): (r': Reg)
    ensures r'.topics.Keys <= r.topics.Keys
    ensures |r'.topics| <= |r.topics|
    decreases |r.topics|, 1
  {
    if name in r.byName then Delete(r, r.byName[name]) else r
  }

  function ToEach(list: seq<ClientId>, f: Frame): (routes: seq<Route>)
    ensures |routes| == |list|
  {
    seq(|list|, k requires 0 <= k < |list| => Route(list[k], f))
  }

  function DeleteTopic(r: Reg, id: TopicId): Out {
    if id !in r.topics then Out(r, [])
    else Out(Delete(r, id), ToEach(ListAt(r.announced, id), Unannounce(id, r.topics[id].name)))
  }

  // ------------------------------------------------------ announcing a new topic

  function Match(cl: Client, id: TopicId, name: string): Client {
    cl.(subs := map u | u in cl.subs ::
          if Covers(cl.subs[u], name) then cl.subs[u].(matched := cl.subs[u].matched + {id}) else cl.subs[u])
  }

  function MatchAll(clients: map<ClientId, Client>, id: TopicId, name: string): map<ClientId, Client> {
    map c | c in clients :: Match(clients[c], id, name)
  }

  predicate HasMatch(cl: Client, name: string) {
    exists u | u in cl.subs :: Covers(cl.subs[u], name)
  }

  predicate WantsValues(cl: Client, name: string) {
    exists u | u in cl.subs :: Covers(cl.subs[u], name) && !cl.subs[u].topicsOnly
  }

  function MatchingClients(clients: map<ClientId, Client>, name: string, order: seq<ClientId>): seq<ClientId> {
    if order == [] then []
    else
      var n := |order| - 1;
      var c := order[n];
      MatchingClients(clients, name, order[..n])
      + (if c in clients && HasMatch(clients[c], name) then [c] else [])
  }

  function AnnounceTarget(r: Reg, id: TopicId, name: string, c: ClientId): Out {
    var a := AnnounceOnce(r, c, id);
    if c in r.clients && WantsValues(r.clients[c], name) then Out(AddSubscriber(a.reg, c, id), a.routes) else a
  }

  function AnnounceTargets(r: Reg, id: TopicId, name: string, targets: seq<ClientId>): Out {
    if targets == [] then Out(r, [])
    else
      var n := |targets| - 1;
      var a := AnnounceTargets(r, id, name, targets[..n]);
      var b := AnnounceTarget(a.reg, id, name, targets[n]);
      Out(b.reg, a.routes + b.routes)
  }

  /** Records a new topic in every matching subscription and announces it. */
  function AnnounceToMatching(r: Reg, o: Oracle, id: TopicId, name: string): Out {
    var order := o.order(r.ticks, r.clients.Keys);
    var r1 := r.(clients := MatchAll(r.clients, id, name), ticks := r.ticks + 1);
    AnnounceTargets(r1, id, name, MatchingClients(r1.clients, name, order))
  }

  // ----------------------------------------------------------------- values

  /** Whether a value stamped `ts` replaces the retained one. */
  predicate Replaces(t: Topic, ts: nat) {
    t.current.None? || ts >= t.current.value.ts
  }

  function Store(t: Topic, value: Value, ts: nat): Topic {
    if !t.cached then t
    else
      var sv := Stamped(ts, value);
      t.(history := t.history + [sv], current := if Replaces(t, ts) then Some(sv) else t.current)
  }

  function TopicValue(r: Reg, id: TopicId, value: Value, ts: nat): Out {
    if id !in r.topics || XtDataType(value) != r.topics[id].dataType then Out(r, [])
    else
      var t := r.topics[id];
      var bump := t.cached && Replaces(t, ts) && t.persistent;
      var r1 := SetTopic(r, id, Store(t, value, ts));
      Out(r1.(generation := if bump then r.generation + 1 else r.generation),
          ToEach(ListAt(r.subscribers, id), ValueFrame(t.name, id, ts, value)))
  }

  // ------------------------------------------------------------ meta topics

  function MetaTopic(name: string): Topic {
    Topic(name, 5, "msgpack", map[], None, 0, true, true, false, [])
  }

  /** The id of meta topic `name`, which is created and announced when missing. */
  function EnsureMetaTopic(r: Reg, o: Oracle, name: string): (Out, TopicId) {
    if name in r.byName then (Out(r, []), r.byName[name])
    else
      var (r1, id) := Create(r, MetaTopic(name));
      (AnnounceToMatching(r1, o, id, name), id)
  }

  /** Publishes a fresh payload on meta topic `name`; one that does not encode is dropped. */
  function PublishMeta(r: Reg, o: Oracle, name: string): Out {
    var (a, id) := EnsureMetaTopic(r, o, name);
    var k := a.reg.ticks;
    var r1 := a.reg.(ticks := k + 1);
    if o.payload(k).None? then Out(r1, a.routes)
    else
      var b := TopicValue(r1, id, Bytes(o.payload(k).value), o.now(k));
      Out(b.reg, a.routes + b.routes)
  }

  function UpdateMetaClients(r: Reg, o: Oracle): Out { PublishMeta(r, o, "$clients") }

  function UpdateMetaClientPub(r: Reg, o: Oracle, c: ClientId): Out {
    if c in r.nameOf then PublishMeta(r, o, ClientPubMeta(r.nameOf[c])) else Out(r, [])
  }

  function UpdateMetaClientSub(r: Reg, o: Oracle, c: ClientId): Out {
    if c in r.nameOf then PublishMeta(r, o, ClientSubMeta(r.nameOf[c])) else Out(r, [])
  }

  function UpdateMetaSub(r: Reg, o: Oracle, name: string): Out {
    if name in r.byName then PublishMeta(r, o, SubMeta(name)) else Out(r, [])
  }

  function UpdateMetaPub(r: Reg, o: Oracle, name: string): Out {
    if name in r.byName then PublishMeta(r, o, PubMeta(name)) else Out(r, [])
  }

  function UpdateMetaSubs(r: Reg, o: Oracle, names: seq<string>): Out {
    if names == [] then Out(r, [])
    else
      var n := |names| - 1;
      var a := UpdateMetaSubs(r, o, names[..n]);
      var b := UpdateMetaSub(a.reg, o, names[n]);
      Out(b.reg, a.routes + b.routes)
  }

  function UpdateMetaPubs(r: Reg, o: Oracle, names: seq<string>): Out {
    if names == [] then Out(r, [])
    else
      var n := |names| - 1;
      var a := UpdateMetaPubs(r, o, names[..n]);
      var b := UpdateMetaPub(a.reg, o, names[n]);
      Out(b.reg, a.routes + b.routes)
  }

  /** The names of the live topics among `ids`, meta topics left out when `plain`. */
  function LiveNames(r: Reg, ids: seq<TopicId>, plain: bool): seq<string> {
    if ids == [] then []
    else
      var n := |ids| - 1;
      var id := ids[n];
      LiveNames(r, ids[..n], plain)
      + (if id in r.topics && !(plain && IsMeta(r.topics[id].name)) then [r.topics[id].name] else [])
  }

  /** Refreshes `$sub$<topic>` for the plain topics among `ids`. */
  function UpdateMetaSubFor(r: Reg, o: Oracle, ids: set<TopicId>): Out {
    UpdateMetaSubs(r.(ticks := r.ticks + 1), o, LiveNames(r, o.order(r.ticks, ids), true))
  }

  // -------------------------------------------------------- client bookkeeping

  function EnsureClient(r: Reg, c: ClientId): Reg {
    if c in r.clients then r else r.(clients := r.clients[c := Client(map[], map[])])
  }

  function SetClient(r: Reg, c: ClientId, cl: Client): Reg {
    r.(clients := r.clients[c := cl])
  }

  // ---------------------------------------------------------------- publish

  function PublishedTopic(name: string, typeStr: string, props: Props): Topic {
    SyncProperties(Topic(name, DataTypeFromString(typeStr), typeStr, props, None, 0, false, true, false, []))
  }

  function CreatePublished(r: Reg, name: string, typeStr: string, props: Props): (Reg, TopicId) {
    var t := PublishedTopic(name, typeStr, props);
    var (r1, id) := Create(r, t);
    (r1.(generation := if t.persistent then r1.generation + 1 else r1.generation), id)
  }

  function AddPublisher(r: Reg, id: TopicId): Reg {
    if id in r.topics then SetTopic(r, id, r.topics[id].(publishers := r.topics[id].publishers + 1)) else r
  }

  function DropPublisher(r: Reg, id: TopicId): Reg {
    if id in r.topics then
      var n := r.topics[id].publishers;
      SetTopic(r, id, r.topics[id].(publishers := if n == 0 then 0 else n - 1))
    else r
  }

  predicate Orphaned(r: Reg, id: TopicId) {
    id in r.topics && r.topics[id].publishers == 0 && !IsRetained(r.topics[id])
  }

  function ReleasePublisher(r: Reg, o: Oracle, id: TopicId): Out {
    if id !in r.topics then Out(r, [])
    else
      var name := r.topics[id].name;
      var r1 := DropPublisher(r, id);
      var a := if Orphaned(r1, id) then DeleteTopic(r1, id) else Out(r1, []);
      var b := UpdateMetaPub(a.reg, o, name);
      Out(b.reg, a.routes + b.routes)
  }

  /** Whether a publish gets past the per-client and topic limits. */
  predicate PublishAccepted(r: Reg, c: ClientId, name: string, pubuid: nat)
    requires c in r.clients
  {
    && (pubuid in r.clients[c].pubs || |r.clients[c].pubs| < MAX_PER_CLIENT)
    && (name in r.byName || |r.topics| < MAX_TOPICS)
  }

  function Lookup(pubs: map<nat, TopicId>, k: nat): Option<TopicId> {
    if k in pubs then Some(pubs[k]) else None
  }

  function SetPub(r: Reg, c: ClientId, pubuid: nat, id: TopicId): Reg
    requires c in r.clients
  {
    SetClient(r, c, r.clients[c].(pubs := r.clients[c].pubs[pubuid := id]))
  }

  /** Everything a publish does to the topic, its id and the publisher's record, up
      to the publisher's own announcement. */
  function EnterPublish(r: Reg, c: ClientId, name: string, pubuid: nat, typeStr: string, props: Props): (Reg, TopicId)
    requires c in r.clients
  {
    var (r1, id) := if name in r.byName then (r, r.byName[name]) else CreatePublished(r, name, typeStr, props);
    var prev := Lookup(r.clients[c].pubs, pubuid);
    var r2 := SetPub(r1, c, pubuid, id);
    var r3 := if prev != Some(id) then AddPublisher(r2, id) else r2;
    (AddAnnounced(r3, c, id), id)
  }

  function HandlePublish(r: Reg, o: Oracle, c: ClientId, name: string, pubuid: nat, typeStr: string,
                         props: Props): Out {
    var r0 := EnsureClient(r, c);
    if !PublishAccepted(r0, c, name, pubuid) then Out(r0, [])
    else
      var prev := Lookup(r0.clients[c].pubs, pubuid);
      var (r1, id) := EnterPublish(r0, c, name, pubuid, typeStr, props);
      var own := [Route(c, AnnounceFrame(r1, id, Some(pubuid)))];
      var a := if name in r0.byName then Out(r1, []) else AnnounceToMatching(r1, o, id, name);
      var b := if prev.Some? && prev.value != id then ReleasePublisher(a.reg, o, prev.value) else Out(a.reg, []);
      var d := UpdateMetaClientPub(b.reg, o, c);
      var e := UpdateMetaPub(d.reg, o, name);
      Out(e.reg, own + a.routes + b.routes + d.routes + e.routes)
  }

  function ForgetTopic(clients: map<ClientId, Client>, id: TopicId): map<ClientId, Client> {
    map c | c in clients ::
      clients[c].(pubs := map p | p in clients[c].pubs && clients[c].pubs[p] != id :: clients[c].pubs[p])
  }

  function HandleUnpublish(r: Reg, o: Oracle, c: ClientId, pubuid: nat): Out {
    if c !in r.clients || pubuid !in r.clients[c].pubs then Out(r, [])
    else
      var id := r.clients[c].pubs[pubuid];
      var r1 := SetClient(r, c, r.clients[c].(pubs := r.clients[c].pubs - {pubuid}));
      if id !in r.topics then Out(r1.(clients := ForgetTopic(r1.clients, id)), [])
      else
        var a := ReleasePublisher(r1, o, id);
        var b := UpdateMetaClientPub(a.reg, o, c);
        Out(b.reg, a.routes + b.routes)
  }

  // -------------------------------------------------------------- subscribe

  /** The ids below `n` in `ids`, ascending. */
  function Ascending(ids: set<TopicId>, n: nat): seq<TopicId> {
    if n == 0 then [] else Ascending(ids, n - 1) + (if n - 1 in ids then [n - 1] else [])
  }

  /** The brute-force scan: every live topic the subscription covers. */
  function Scan(topics: map<TopicId, Topic>, sub: Subscription): set<TopicId> {
    set i | i in topics && Covers(sub, topics[i].name)
  }

  /** The ids `by_name` gives for the names the subscription covers. */
  function MatchedIds(byName: map<string, TopicId>, sub: Subscription): set<TopicId> {
    set nm | nm in byName && Covers(sub, nm) :: byName[nm]
  }

  function Late(r: Reg, c: ClientId, id: TopicId): seq<Route> {
    if id in r.topics && r.topics[id].cached && r.topics[id].current.Some? then
      var t := r.topics[id];
      [Route(c, ValueFrame(t.name, id, t.current.value.ts, t.current.value.value))]
    else []
  }

  function SubscribeOne(r: Reg, c: ClientId, topicsOnly: bool, id: TopicId): Out {
    var r1 := if topicsOnly then r else AddSubscriber(r, c, id);
    var a := AnnounceOnce(r1, c, id);
    Out(a.reg, a.routes + (if topicsOnly then [] else Late(r, c, id)))
  }

  function SubscribeEach(r: Reg, c: ClientId, topicsOnly: bool, ids: seq<TopicId>): Out {
    if ids == [] then Out(r, [])
    else
      var n := |ids| - 1;
      var a := SubscribeEach(r, c, topicsOnly, ids[..n]);
      var b := SubscribeOne(a.reg, c, topicsOnly, ids[n]);
      Out(b.reg, a.routes + b.routes)
  }

  /** Takes subscription `subuid` away from `c`, and `c` out of the fan-out lists of
      every topic that subscription matched. */
  function DropSub(r: Reg, c: ClientId, subuid: nat): Reg {
    if c in r.clients && subuid in r.clients[c].subs then
      var cl := r.clients[c];
      SetClient(r, c, cl.(subs := cl.subs - {subuid}))
      .(subscribers := DropSubscriber(r.subscribers, c, cl.subs[subuid].matched))
    else r
  }

  function Touched(r: Reg, c: ClientId, subuid: nat): set<TopicId> {
    if c in r.clients && subuid in r.clients[c].subs then r.clients[c].subs[subuid].matched else {}
  }

  function PutSub(r: Reg, c: ClientId, subuid: nat, sub: Subscription): Reg
    requires c in r.clients
  {
    SetClient(r, c, r.clients[c].(subs := r.clients[c].subs[subuid := sub]))
  }

  function HandleSubscribe(r: Reg, o: Oracle, c: ClientId, patterns: seq<string>, subuid: nat, prefix: bool,
                           topicsOnly: bool): Out {
    var r0 := EnsureClient(r, c);
    if subuid !in r0.clients[c].subs && |r0.clients[c].subs| >= MAX_PER_CLIENT then Out(r0, [])
    else
      var r1 := DropSub(r0, c, subuid);
      var sub := Subscription(patterns, prefix, topicsOnly, {});
      var ids := MatchedIds(r1.byName, sub);
      var a := SubscribeEach(r1, c, topicsOnly, Ascending(ids, r1.nextId));
      var r2 := if c in a.reg.clients then PutSub(a.reg, c, subuid, sub.(matched := ids)) else a.reg;
      var d := UpdateMetaClientSub(r2, o, c);
      var e := UpdateMetaSubFor(d.reg, o, Touched(r0, c, subuid) + ids);
      Out(e.reg, a.routes + d.routes + e.routes)
  }

  function HandleUnsubscribe(r: Reg, o: Oracle, c: ClientId, subuid: nat): Out {
    var d := UpdateMetaClientSub(DropSub(r, c, subuid), o, c);
    var e := UpdateMetaSubFor(d.reg, o, Touched(r, c, subuid));
    Out(e.reg, d.routes + e.routes)
  }

  // ----------------------------------------------------------- other handlers

  /** A client's value message on a publisher uid: reshaped to the topic's type and
      stamped with the arrival time when the client sent 0 or a time ahead of it. */
  function HandleClientValue(r: Reg, o: Oracle, c: ClientId, pubuid: nat, value: Value, sent: nat, now: nat): Out {
    if c !in r.clients || pubuid !in r.clients[c].pubs then Out(r, [])
    else
      var id := r.clients[c].pubs[pubuid];
      var v := if id in r.topics then Conformed(o.floats, value, r.topics[id].dataType) else value;
      TopicValue(r, id, v, ArrivalTimestamp(sent, now))
  }

  function ArrivalTimestamp(sent: nat, now: nat): nat {
    if sent == 0 || sent > now then now else sent
  }

  /** A value the server itself publishes on an existing topic. */
  function FanOut(r: Reg, name: string, value: Value, ts: nat): Out {
    if name in r.byName then TopicValue(r, r.byName[name], value, ts) else Out(r, [])
  }

  function UpsertTopic(name: string, value: Value): Topic {
    var ty := TypeString(XtDataType(value));
    Topic(name, XtDataType(value), if ty.Some? then ty.value else "", map[], None, 0, true, true, false, [])
  }

  function HandleUpsert(r: Reg, name: string, value: Value, ts: nat): Out {
    if name in r.byName then TopicValue(r, r.byName[name], value, ts)
    else if |r.topics| >= MAX_TOPICS then Out(r, [])
    else
      var (r1, id) := Create(r, UpsertTopic(name, value));
      TopicValue(r1, id, value, ts)
  }

  function PropertyRoutes(list: seq<ClientId>, c: ClientId, name: string, update: Props): seq<Route> {
    seq(|list|, k requires 0 <= k < |list| => Route(list[k], PropertiesUpdate(name, update, list[k] == c)))
  }

  function HandleSetProperties(r: Reg, c: ClientId, name: string, update: Props): Out {
    if name !in r.byName then Out(r, [])
    else
      var id := r.byName[name];
      var r1 :=
        if id in r.topics then
          var t := r.topics[id];
          var t1 := SyncProperties(t.(properties := UpdateProps(t.properties, update)));
          SetTopic(r, id, t1).(generation := if t.persistent || t1.persistent then r.generation + 1 else r.generation)
        else r;
      Out(r1, PropertyRoutes(ListAt(r.announced, id), c, name, update))
  }

  function SetRetained(r: Reg, name: string, retained: bool): Reg {
    if name in r.byName && r.byName[name] in r.topics then
      SetTopic(r, r.byName[name], r.topics[r.byName[name]].(retained := retained))
    else r
  }

  datatype Saved = Saved(name: string, typeStr: string, value: Value, properties: Props)

  function RestoredTopic(e: Saved, ts: nat): Topic {
    var sv := Stamped(ts, e.value);
    SyncProperties(
      Topic(e.name, DataTypeFromString(e.typeStr), e.typeStr, e.properties, Some(sv), 0, true, true, false, [sv]))
  }

  function RestoreEach(r: Reg, entries: seq<Saved>, ts: nat): Reg {
    if entries == [] then r
    else
      var n := |entries| - 1;
      var r1 := RestoreEach(r, entries[..n], ts);
      if entries[n].name in r1.byName then r1 else Create(r1, RestoredTopic(entries[n], ts)).0
  }

  function RestorePersistent(r: Reg, entries: seq<Saved>, ts: nat): Reg {
    var r1 := RestoreEach(r, entries, ts);
    r1.(generation := r1.generation + 1)
  }

  /** The row a saver writes for a topic: none unless it is persistent and has a value. */
  function RowOf(t: Topic): Option<Saved> {
    if PropFlag(t.properties, "persistent", false) && t.current.Some? then
      Some(Saved(t.name, t.typeStr, t.current.value.value, t.properties))
    else None
  }

  function PersistentSnapshot(topics: map<TopicId, Topic>): set<Saved> {
    set i | i in topics && RowOf(topics[i]).Some? :: RowOf(topics[i]).value
  }

  // ------------------------------------------------------ connect, disconnect

  function OnConnect(r: Reg, o: Oracle, c: ClientId, base: string): Out {
    var name := ClientNames.Dedup(r.clientNames, base);
    var r1 := EnsureClient(r.(clientNames := r.clientNames + {name}, nameOf := r.nameOf[c := name]), c);
    var a := UpdateMetaClients(r1, o);
    var b := UpdateMetaClientPub(a.reg, o, c);
    var d := UpdateMetaClientSub(b.reg, o, c);
    var e := PublishMeta(d.reg, o, "$serversub");
    var f := PublishMeta(e.reg, o, "$serverpub");
    Out(f.reg, a.routes + b.routes + d.routes + e.routes + f.routes)
  }

  /** The topics a client publishes, one entry for each publisher uid. */
  function Published(pubs: map<nat, TopicId>, order: seq<nat>): seq<TopicId> {
    if order == [] then []
    else
      var n := |order| - 1;
      Published(pubs, order[..n]) + (if order[n] in pubs then [pubs[order[n]]] else [])
  }

  function AllMatched(cl: Client): set<TopicId> {
    set u, i | u in cl.subs && i in cl.subs[u].matched :: i
  }

  function DropPublishers(r: Reg, ids: seq<TopicId>): Reg {
    if ids == [] then r else DropPublisher(DropPublishers(r, ids[..|ids| - 1]), ids[|ids| - 1])
  }

  /** The live ids among `ids`, each once, in order of first appearance. */
  function Candidates(live: set<TopicId>, ids: seq<TopicId>): seq<TopicId> {
    if ids == [] then []
    else
      var n := |ids| - 1;
      var cs := Candidates(live, ids[..n]);
      if ids[n] in live && ids[n] !in cs then cs + [ids[n]] else cs
  }

  function ReapOrphans(r: Reg, ids: seq<TopicId>): Out {
    if ids == [] then Out(r, [])
    else
      var n := |ids| - 1;
      var a := ReapOrphans(r, ids[..n]);
      if Orphaned(a.reg, ids[n]) then
        var b := DeleteTopic(a.reg, ids[n]);
        Out(b.reg, a.routes + b.routes)
      else a
  }

  function ClientAt(r: Reg, c: ClientId): Client {
    if c in r.clients then r.clients[c] else Client(map[], map[])
  }

  /** Forgets the client itself, its name and the meta topics named after it. */
  function ForgetClient(r: Reg, c: ClientId): Reg {
    var r1 := r.(clients := r.clients - {c}, nameOf := r.nameOf - {c});
    if c in r.nameOf then
      var name := r.nameOf[c];
      DeleteNamed(DeleteNamed(r1.(clientNames := r.clientNames - {name}), ClientPubMeta(name)), ClientSubMeta(name))
    else r1
  }

  function OnDisconnect(r: Reg, o: Oracle, c: ClientId): Out {
    var cl := ClientAt(r, c);
    var published := Published(cl.pubs, o.order(r.ticks, cl.pubs.Keys));
    var pubNames := LiveNames(r, published, false);
    var r1 := ForgetClient(r.(ticks := r.ticks + 1), c);
    var a := ReapOrphans(DropPublishers(r1, published), Candidates(r1.topics.Keys, published));
    var b := UpdateMetaClients(a.reg, o);
    var d := UpdateMetaSubFor(b.reg, o, AllMatched(cl));
    var e := UpdateMetaPubs(d.reg, o, pubNames);
    Out(e.reg, a.routes + b.routes + d.routes + e.routes)
  }
}
