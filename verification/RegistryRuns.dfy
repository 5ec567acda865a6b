/** Whole runs of the registry: every step the server can make, and what holds after
    any sequence of them.  Concerns core/src/websocket/protocol.rs, with
    core/src/websocket/server.rs as the step relation. */
module RegistryRuns {
  import opened Values
  import opened Registry
  import opened RegistryInv
  import opened RegistryOps
  import opened RegistryPubs
  import opened RegistryPublish
  import opened RegistrySubs
  import opened RegistryConn
  import opened RegistryCounts

  datatype Step =
    | Connect(c: ClientId, base: string)
    | Disconnect(c: ClientId)
    | Publish(c: ClientId, name: string, pubuid: nat, typeStr: string, props: Props)
    | Unpublish(c: ClientId, pubuid: nat)
    | Subscribe(c: ClientId, patterns: seq<string>, subuid: nat, prefix: bool, topicsOnly: bool)
    | Unsubscribe(c: ClientId, subuid: nat)
    | SetProperties(c: ClientId, name: string, update: Props)
    | ClientValue(c: ClientId, pubuid: nat, value: Value, sent: nat, now: nat)
    | ServerValue(name: string, value: Value, ts: nat)
    | Upsert(name: string, value: Value, ts: nat)
    | Restore(entries: seq<Saved>, ts: nat)
    | Retain(name: string, retained: bool)
    | Timestamp(c: ClientId, value: Value, ts: nat)

  function Apply(r: Reg, o: Oracle, s: Step): Out {
    match s
    case Connect(c, base) => OnConnect(r, o, c, base)
    case Disconnect(c) => OnDisconnect(r, o, c)
    case Publish(c, name, pubuid, typeStr, props) => HandlePublish(r, o, c, name, pubuid, typeStr, props)
    case Unpublish(c, pubuid) => HandleUnpublish(r, o, c, pubuid)
    case Subscribe(c, patterns, subuid, prefix, topicsOnly) =>
      HandleSubscribe(r, o, c, patterns, subuid, prefix, topicsOnly)
    case Unsubscribe(c, subuid) => HandleUnsubscribe(r, o, c, subuid)
    case SetProperties(c, name, update) => HandleSetProperties(r, c, name, update)
    case ClientValue(c, pubuid, value, sent, now) => HandleClientValue(r, o, c, pubuid, value, sent, now)
    case ServerValue(name, value, ts) => FanOut(r, name, value, ts)
    case Upsert(name, value, ts) => HandleUpsert(r, name, value, ts)
    case Restore(entries, ts) => Out(RestorePersistent(r, entries, ts), [])
    case Retain(name, retained) => Out(SetRetained(r, name, retained), [])
    case Timestamp(c, value, ts) => Out(r, [Route(c, RttFrame(ts, value))])
  }

  /** A client acts only while it is connected, an id is connected once, and the loader
      restores well-typed rows. */
  ghost predicate Enabled(r: Reg, h: History, s: Step) {
    match s
    case Connect(c, _) => c !in h.seen
    case Disconnect(c) => c in r.clients
    case Publish(c, _, _, _, _) => c in r.clients
    case Unpublish(c, _) => c in r.clients
    case Subscribe(c, _, _, _, _) => c in r.clients
    case Unsubscribe(c, _) => c in r.clients
    case SetProperties(c, _, _) => c in r.clients
    case ClientValue(c, _, _, _, _) => c in r.clients
    case Restore(entries, _) => WellTyped(entries)
    case Timestamp(c, _, _) => c in r.clients
    case _ => true
  }

  /** The uids and ids a step adds to or takes from what the run remembers. */
  ghost function Noted(r: Reg, h: History, s: Step): History {
    match s
    case Connect(c, _) => h.(seen := h.seen + {c})
    case Disconnect(c) => h.(accepted := Forgotten(h.accepted, c))
    case Publish(c, name, pubuid, _, _) =>
      if c in r.clients && PublishAccepted(r, c, name, pubuid)
      then h.(accepted := h.accepted[(c, pubuid) := name]) else h
    case Unpublish(c, pubuid) => h.(accepted := h.accepted - {(c, pubuid)})
    case _ => h
  }

  datatype World = World(reg: Reg, hist: History)

  ghost const Start: World := World(Empty, History({}, map[], map[]))

  ghost function Next(w: World, o: Oracle, s: Step): World {
    var out := Apply(w.reg, o, s);
    World(out.reg, Sent(Noted(w.reg, w.hist, s), out.routes))
  }

  ghost function Run(o: Oracle, steps: seq<Step>): World {
    if steps == [] then Start else Next(Run(o, steps[..|steps| - 1]), o, steps[|steps| - 1])
  }

  ghost predicate EnabledIn(w: World, s: Step) { Enabled(w.reg, w.hist, s) }

  ghost predicate Legal(o: Oracle, steps: seq<Step>) {
    && ValidOracle(o)
    && forall k | 0 <= k < |steps| :: EnabledIn(Run(o, steps[..k]), steps[k])
  }

  // ------------------------------------------------------------------ one step

  lemma EmptyInv()
    ensures Inv(Start.reg, Start.hist)
  {
    hide Covers, TopicOk;
  }

  /** What a run remembers of accepted names does not bear on the invariant. */
  lemma SafeByTable(h: History, h': History, out: Out)
    requires Safe(h, out, 0, {}) && h' == h.(accepted := h'.accepted)
    ensures Safe(h', out, 0, {})
  {
    hide IdsInv, Sound, FanInv, ListsInv, ClientNamesInv, TopicsOk, Resolves, Names, SubsOf;
  }

  /** One step keeps the invariant, and its value frames resolve. */
  lemma {:induction false} StepInv(r: Reg, o: Oracle, h: History, s: Step)
    requires Inv(r, h) && Enabled(r, h, s) && ValidOracle(o)
    ensures Safe(Noted(r, h, s), Apply(r, o, s), 0, {})
  {
    hide Mid, Resolves, Keeps, Saves, WellTyped, PublishAccepted, SubscribeAccepted, Forgotten, ValidOracle;
    hide OnConnect, OnDisconnect, HandlePublish, HandleUnpublish, HandleSubscribe, HandleUnsubscribe;
    hide HandleSetProperties, TopicValue, HandleUpsert, RestorePersistent, SetRetained;
    match s
    case Connect(c, base) => OnConnectMid(r, o, h, c, base);
    case Disconnect(c) =>
      OnDisconnectMid(r, o, h, c);
      SafeByTable(h, Noted(r, h, s), Apply(r, o, s));
    case Publish(c, name, pubuid, typeStr, props) =>
      if PublishAccepted(r, c, name, pubuid) {
        HandlePublishMid(r, o, h, c, name, pubuid, typeStr, props);
        SafeByTable(h, Noted(r, h, s), Apply(r, o, s));
      } else {
        PublishRefused(r, o, c, name, pubuid, typeStr, props);
        Quiet(h, r, 0, {});
      }
    case Unpublish(c, pubuid) =>
      HandleUnpublishMid(r, o, h, c, pubuid);
      SafeByTable(h, Noted(r, h, s), Apply(r, o, s));
    case Subscribe(c, patterns, subuid, prefix, topicsOnly) =>
      if SubscribeAccepted(r, c, subuid) {
        HandleSubscribeMid(r, o, h, c, patterns, subuid, prefix, topicsOnly);
      } else {
        SubscribeRefused(r, o, c, patterns, subuid, prefix, topicsOnly);
        Quiet(h, r, 0, {});
      }
    case Unsubscribe(c, subuid) => HandleUnsubscribeMid(r, o, h, c, subuid);
    case SetProperties(c, name, update) => HandleSetPropertiesMid(r, h, c, name, update);
    case ClientValue(c, pubuid, value, sent, now) => ClientValueMid(r, o, h, c, pubuid, value, sent, now);
    case ServerValue(name, value, ts) =>
      if name in r.byName {
        TopicValueMid(r, h, 0, {}, r.byName[name], value, ts);
      } else {
        Quiet(h, r, 0, {});
      }
    case Upsert(name, value, ts) => HandleUpsertMid(r, h, name, value, ts);
    case Restore(entries, ts) =>
      RestorePersistentMid(r, h, entries, ts);
      Quiet(h, RestorePersistent(r, entries, ts), 0, {});
    case Retain(name, retained) =>
      SetRetainedMid(r, h, name, retained);
      Quiet(h, SetRetained(r, name, retained), 0, {});
    case Timestamp(c, value, ts) =>
      QuietFrames(h, r, [Route(c, RttFrame(ts, value))], 0, {});
  }

  lemma PublishRefused(r: Reg, o: Oracle, c: ClientId, name: string, pubuid: nat, typeStr: string, props: Props)
    requires c in r.clients && !PublishAccepted(r, c, name, pubuid)
    ensures HandlePublish(r, o, c, name, pubuid, typeStr, props) == Out(r, [])
  {
    hide PublishAccepted, EnterPublish;
  }

  lemma SubscribeRefused(r: Reg, o: Oracle, c: ClientId, patterns: seq<string>, subuid: nat, prefix: bool,
                         topicsOnly: bool)
    requires c in r.clients && !SubscribeAccepted(r, c, subuid)
    ensures HandleSubscribe(r, o, c, patterns, subuid, prefix, topicsOnly) == Out(r, [])
  {
  }

  lemma ClientValueMid(r: Reg, o: Oracle, h: History, c: ClientId, pubuid: nat, value: Value, sent: nat, now: nat)
    requires Inv(r, h)
    ensures Safe(h, HandleClientValue(r, o, c, pubuid, value, sent, now), 0, {})
    ensures Keeps(r, HandleClientValue(r, o, c, pubuid, value, sent, now).reg)
  {
    hide Mid, Resolves, TopicValue, Conformed, Full, Complete, Names, SubsOf, PersistentSnapshot;
    if c in r.clients && pubuid in r.clients[c].pubs {
      var id := r.clients[c].pubs[pubuid];
      var v := if id in r.topics then Conformed(o.floats, value, r.topics[id].dataType) else value;
      TopicValueMid(r, h, 0, {}, id, v, ArrivalTimestamp(sent, now));
      MidTopicsOk(r, h, 0, {});
      TopicValueKeeps(r, id, v, ArrivalTimestamp(sent, now));
    } else {
      Quiet(h, r, 0, {});
    }
  }

  /** Every step that changes what a saver would write moves the generation. */
  lemma {:induction false} StepSaves(r: Reg, o: Oracle, h: History, s: Step)
    requires Inv(r, h) && Enabled(r, h, s) && ValidOracle(o)
    ensures Saves(r, Apply(r, o, s).reg)
  {
    hide Mid, Safe, Full, Complete, Names, SubsOf, PersistentSnapshot, WellTyped, PublishAccepted, SubscribeAccepted;
    hide Forgotten, ValidOracle, DropSub;
    hide OnConnect, OnDisconnect, HandlePublish, HandleUnpublish, HandleSubscribe, HandleUnsubscribe;
    hide HandleSetProperties, HandleClientValue, TopicValue, HandleUpsert, RestorePersistent, SetRetained;
    MidTopicsOk(r, h, 0, {});
    match s
    case Connect(c, base) => OnConnectMid(r, o, h, c, base);
    case Disconnect(c) => OnDisconnectMid(r, o, h, c);
    case Publish(c, name, pubuid, typeStr, props) =>
      if PublishAccepted(r, c, name, pubuid) {
        HandlePublishKeeps(r, o, h, c, name, pubuid, typeStr, props);
      } else {
        PublishRefused(r, o, c, name, pubuid, typeStr, props);
      }
    case Unpublish(c, pubuid) => HandleUnpublishMid(r, o, h, c, pubuid);
    case Subscribe(c, patterns, subuid, prefix, topicsOnly) =>
      DropSubKeeps(r, c, subuid);
      if SubscribeAccepted(r, c, subuid) {
        HandleSubscribeKeeps(r, o, h, c, patterns, subuid, prefix, topicsOnly);
      } else {
        SubscribeRefused(r, o, c, patterns, subuid, prefix, topicsOnly);
      }
    case Unsubscribe(c, subuid) =>
      DropSubKeeps(r, c, subuid);
      HandleUnsubscribeMid(r, o, h, c, subuid);
    case SetProperties(c, name, update) => HandleSetPropertiesMid(r, h, c, name, update);
    case ClientValue(c, pubuid, value, sent, now) => ClientValueMid(r, o, h, c, pubuid, value, sent, now);
    case ServerValue(name, value, ts) => if name in r.byName { TopicValueKeeps(r, r.byName[name], value, ts); }
    case Upsert(name, value, ts) => HandleUpsertMid(r, h, name, value, ts);
    case Restore(entries, ts) => RestorePersistentMid(r, h, entries, ts);
    case Retain(name, retained) => SetRetainedMid(r, h, name, retained);
    case Timestamp(_, _, _) =>
  }

  // ----------------------------------------------------------------- whole runs

  lemma LegalPrefix(o: Oracle, steps: seq<Step>, n: nat)
    requires Legal(o, steps) && n <= |steps|
    ensures Legal(o, steps[..n])
  {
    hide EnabledIn, ValidOracle;
    forall k | 0 <= k < n ensures EnabledIn(Run(o, steps[..n][..k]), steps[..n][k]) {
      assert steps[..n][..k] == steps[..k];
    }
  }

  /** The invariant holds after every legal run. */
  lemma {:induction false} RunInv(o: Oracle, steps: seq<Step>)
    requires Legal(o, steps)
    ensures Inv(Run(o, steps).reg, Run(o, steps).hist)
  {
    hide Mid, Resolves, Apply, Noted, Enabled, ValidOracle;
    if steps == [] {
      EmptyInv();
    } else {
      var n := |steps| - 1;
      LegalPrefix(o, steps, n);
      RunInv(o, steps[..n]);
      var w := Run(o, steps[..n]);
      assert EnabledIn(w, steps[n]);
      StepInv(w.reg, o, w.hist, steps[n]);
    }
  }
}
