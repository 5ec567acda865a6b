/** The telemetry relay's lease registry and the routing table it publishes.  Times are
    nanoseconds.  Models `register_telemetry` in core/src/server.rs. */
module Telemetry {

  const TELEMETRY_TTL: nat := 10_000_000_000
  const MAX_TELEMETRY_SUBSCRIBERS: nat := 16
  const MAX_TELEMETRY_CHANNELS: nat := 256

  type Channel = nat
  type Address = nat
  type Leases = map<Address, nat>
  type Registry = map<Channel, Leases>

  /** Leases with the time each was last renewed, and the table datagrams are routed by. */
  datatype State = State(registry: Registry, published: map<Channel, set<Address>>)

  const Empty: State := State(map[], map[])

  datatype Event = Event(channel: Channel, address: Address, now: nat)

  predicate Fresh(seen: nat, now: nat) { (if now < seen then 0 else now - seen) < TELEMETRY_TTL }

  function Expire(leases: Leases, now: nat): Leases { map a | a in leases && Fresh(leases[a], now) :: leases[a] }

  function ExpireAll(r: Registry, now: nat): Registry { map c | c in r :: Expire(r[c], now) }

  function DropEmpty(r: Registry): Registry { map c | c in r && r[c] != map[] :: r[c] }

  function Sweep(r: Registry, now: nat): Registry { DropEmpty(ExpireAll(r, now)) }

  function Table(r: Registry): map<Channel, set<Address>> { map c | c in r :: r[c].Keys }

  function LeasesOf(r: Registry, c: Channel): Leases { if c in r then r[c] else map[] }

  /** Whether a registration finds room once expired leases are gone. */
  predicate Admits(r: Registry, c: Channel, a: Address) {
    && (c in r || |r| < MAX_TELEMETRY_CHANNELS)
    && (a in LeasesOf(r, c) || |LeasesOf(r, c)| < MAX_TELEMETRY_SUBSCRIBERS)
  }

  function Renewed(r: Registry, e: Event): Registry {
    r[e.channel := LeasesOf(r, e.channel)[e.address := e.now]]
  }

  function Register(s: State, e: Event): State {
    var r := Sweep(s.registry, e.now);
    if Admits(r, e.channel, e.address) then State(Renewed(r, e), Table(Renewed(r, e))) else s.(registry := r)
  }

  predicate Accepted(s: State, e: Event) { Admits(Sweep(s.registry, e.now), e.channel, e.address) }

  function Run(events: seq<Event>): State {
    if events == [] then Empty else Register(Run(events[..|events| - 1]), events[|events| - 1])
  }

  // -------------------------------------------------------------- as the code runs it

  class LeaseRegistry {
    var registry: Registry
    var published: map<Channel, set<Address>>

    ghost function Contents(): State
      reads this
    {
      State(registry, published)
    }

    constructor ()
      ensures Contents() == Empty
    {
      registry, published := map[], map[];
    }

    /** Sweeps, then renews or adds the lease and publishes the table, unless the registry
        or the channel is full.  Tells whether the address is registered afterwards. */
    method RegisterTelemetry(e: Event) returns (ok: bool)
      requires Bounded(registry)
      modifies this
      ensures Contents() == Register(old(Contents()), e) && ok == Accepted(old(Contents()), e)
      ensures Bounded(registry)
      ensures ok <==> e.channel in registry && e.address in registry[e.channel]
    {
      hide Bounded, Sweep, Table;
      RegisterBounded(Contents(), e);
      AcceptedMeansHeld(Contents(), e);
      registry := Sweep(registry, e.now);
      var known := e.channel in registry;
      if !known && |registry| >= MAX_TELEMETRY_CHANNELS {
        return false;
      }
      var leases := LeasesOf(registry, e.channel);
      if e.address !in leases && |leases| >= MAX_TELEMETRY_SUBSCRIBERS {
        return false;
      }
      registry := registry[e.channel := leases[e.address := e.now]];
      published := Table(registry);
      ok := true;
    }
  }

  // -------------------------------------------------------------------- bounds

  /** At most 256 channels, each with at least one and at most 16 addresses. */
  ghost predicate Bounded(r: Registry) {
    && |r| <= MAX_TELEMETRY_CHANNELS
    && forall c | c in r :: r[c] != map[] && |r[c]| <= MAX_TELEMETRY_SUBSCRIBERS
  }

  lemma SmallerMap<K, V>(a: map<K, V>, b: map<K, V>)
    requires a.Keys <= b.Keys
    ensures |a| <= |b|
  {
    SmallerSet(a.Keys, b.Keys);
    assert |a.Keys| == |a| && |b.Keys| == |b|;
  }

  lemma SmallerSet<T>(a: set<T>, b: set<T>)
    requires a <= b
    ensures |a| <= |b|
  {
    assert b == a + (b - a);
  }

  lemma LargerByOne<K, V>(m: map<K, V>, k: K, v: V)
    ensures |m[k := v]| == if k in m then |m| else |m| + 1
  {
    assert m[k := v].Keys == m.Keys + {k};
    assert |m.Keys| == |m| && |m[k := v].Keys| == |m[k := v]|;
  }

  lemma SweepBounded(r: Registry, now: nat)
    requires Bounded(r)
    ensures Bounded(Sweep(r, now))
  {
    hide Fresh;
    var e := ExpireAll(r, now);
    var s := Sweep(r, now);
    assert e.Keys == r.Keys && s.Keys <= e.Keys;
    SmallerMap(s, r);
    forall c | c in s ensures |s[c]| <= MAX_TELEMETRY_SUBSCRIBERS {
      assert s[c] == Expire(r[c], now);
      SmallerMap(s[c], r[c]);
    }
  }

  lemma RegisterBounded(s: State, e: Event)
    requires Bounded(s.registry)
    ensures Bounded(Register(s, e).registry)
  {
    hide Sweep;
    SweepBounded(s.registry, e.now);
    var r := Sweep(s.registry, e.now);
    var leases := LeasesOf(r, e.channel);
    LargerByOne(leases, e.address, e.now);
    LargerByOne(r, e.channel, leases[e.address := e.now]);
    assert e.address in leases[e.address := e.now];
  }

  /** Every reachable registry is bounded and has no empty channel, and so is every table
      ever published. */
  lemma {:induction false} RunBounded(events: seq<Event>)
    ensures Bounded(Run(events).registry)
    ensures var p := Run(events).published;
            |p| <= MAX_TELEMETRY_CHANNELS && forall c | c in p :: p[c] != {} && |p[c]| <= MAX_TELEMETRY_SUBSCRIBERS
    decreases |events|
  {
    hide Bounded, Sweep;
    if events == [] {
      EmptyBounded();
    } else {
      var s, e := Run(events[..|events| - 1]), events[|events| - 1];
      RunBounded(events[..|events| - 1]);
      RegisterBounded(s, e);
      if Accepted(s, e) {
        TableBounded(Register(s, e).registry);
      }
    }
  }

  lemma EmptyBounded()
    ensures Bounded(map[])
  {}

  lemma TableBounded(r: Registry)
    requires Bounded(r)
    ensures var p := Table(r);
            |p| <= MAX_TELEMETRY_CHANNELS && forall c | c in p :: p[c] != {} && |p[c]| <= MAX_TELEMETRY_SUBSCRIBERS
  {
    var p := Table(r);
    assert p.Keys == r.Keys;
    assert |p.Keys| == |p| && |r.Keys| == |r|;
    forall c | c in p ensures p[c] != {} && |p[c]| <= MAX_TELEMETRY_SUBSCRIBERS {
      assert |r[c].Keys| == |r[c]|;
      var a :| a in r[c];
      assert a in p[c];
    }
  }

  // -------------------------------------------------------------------- leases

  predicate Held(r: Registry, c: Channel, a: Address) { c in r && a in r[c] }

  lemma SweepKeeps(r: Registry, now: nat, c: Channel, a: Address)
    ensures Held(Sweep(r, now), c, a) <==> Held(r, c, a) && Fresh(r[c][a], now)
    ensures Held(Sweep(r, now), c, a) ==> Sweep(r, now)[c][a] == r[c][a]
  {
    hide Fresh;
    if Held(r, c, a) && Fresh(r[c][a], now) {
      assert a in Expire(r[c], now);
    }
  }

  /** A registration is accepted exactly when its address holds a lease afterwards. */
  lemma {:induction false} AcceptedMeansHeld(s: State, e: Event)
    ensures Accepted(s, e) <==> Held(Register(s, e).registry, e.channel, e.address)
  {
    hide Sweep;
  }

  /** `a` holds a lease on `c` renewed at `since` or later, and datagrams reach it. */
  predicate Leased(s: State, c: Channel, a: Address, since: nat) {
    && Held(s.registry, c, a) && since <= s.registry[c][a]
    && c in s.published && a in s.published[c]
  }

  /** Within the lease's time no registration, by anyone, takes the lease away or stops
      the relay from routing to it, and renewing it succeeds. */
  lemma {:induction false} LeaseKept(s: State, e: Event, c: Channel, a: Address, since: nat)
    requires Leased(s, c, a, since) && since <= e.now && Fresh(since, e.now)
    ensures Leased(Register(s, e), c, a, since)
    ensures e.channel == c && e.address == a ==> Accepted(s, e) && Leased(Register(s, e), c, a, e.now)
  {
    hide Sweep;
    SweepKeeps(s.registry, e.now, c, a);
    var r := Sweep(s.registry, e.now);
    assert Held(r, c, a) && r[c][a] == s.registry[c][a];
    if Admits(r, e.channel, e.address) {
      assert a in Renewed(r, e)[c];
      assert a in Table(Renewed(r, e))[c];
    }
  }

  /** The last registration of `a` on `c` among the first `j` events, if any. */
  function Latest(events: seq<Event>, c: Channel, a: Address, j: nat): (k: int)
    requires j <= |events|
    ensures -1 <= k < j && (k >= 0 ==> events[k].channel == c && events[k].address == a)
  {
    if j == 0 then -1
    else if events[j - 1].channel == c && events[j - 1].address == a then j - 1
    else Latest(events, c, a, j - 1)
  }

  /** Clocks do not run back. */
  ghost predicate Monotone(events: seq<Event>) {
    forall i, j | 0 <= i <= j < |events| :: events[i].now <= events[j].now
  }

  /** From event `first` on, `a` renews on `c` before its lease runs out: nothing is
      registered later than the lease's time after the last renewal. */
  ghost predicate Renews(events: seq<Event>, c: Channel, a: Address, first: nat) {
    forall i | first < i < |events| :: RenewsBy(events, c, a, i)
  }

  ghost predicate RenewsBy(events: seq<Event>, c: Channel, a: Address, i: nat)
    requires i < |events|
  {
    var k := Latest(events, c, a, i);
    k >= 0 && Fresh(events[k].now, events[i].now)
  }

  lemma RunNext(events: seq<Event>, j: nat)
    requires j < |events|
    ensures Run(events[..j + 1]) == Register(Run(events[..j]), events[j])
  {
    assert events[..j + 1][..j] == events[..j];
  }

  /** An address that got a lease and keeps renewing in time is never refused and never
      swept, and stays in the published table, whatever else registers. */
  lemma {:induction false} RenewingStays(events: seq<Event>, c: Channel, a: Address, first: nat, j: nat)
    requires first < |events| && events[first].channel == c && events[first].address == a
    requires Accepted(Run(events[..first]), events[first]) && Renews(events, c, a, first)
    requires Monotone(events) && first < j <= |events|
    ensures Latest(events, c, a, j) >= first && Leased(Run(events[..j]), c, a, events[Latest(events, c, a, j)].now)
    ensures j < |events| && events[j].channel == c && events[j].address == a ==> Accepted(Run(events[..j]), events[j])
    decreases j
  {
    hide Run, Accepted, Register, Leased;
    RunNext(events, j - 1);
    var e := events[j - 1];
    if j - 1 == first {
      FirstLease(Run(events[..first]), e);
    } else {
      RenewingStays(events, c, a, first, j - 1);
      assert RenewsBy(events, c, a, j - 1);
      LeaseKept(Run(events[..j - 1]), e, c, a, events[Latest(events, c, a, j - 1)].now);
    }
    if j < |events| {
      assert RenewsBy(events, c, a, j);
      LeaseKept(Run(events[..j]), events[j], c, a, events[Latest(events, c, a, j)].now);
    }
  }

  lemma FirstLease(s: State, e: Event)
    requires Accepted(s, e)
    ensures Leased(Register(s, e), e.channel, e.address, e.now)
  {
    hide Sweep;
  }

  /** And only that: a lease not renewed in time is gone after the next registration of
      anyone else. */
  lemma {:induction false} ExpiredGoes(s: State, e: Event, c: Channel, a: Address)
    requires Held(s.registry, c, a) && !Fresh(s.registry[c][a], e.now) && !(e.channel == c && e.address == a)
    ensures !Held(Register(s, e).registry, c, a)
  {
    hide Sweep;
    SweepKeeps(s.registry, e.now, c, a);
  }
}
