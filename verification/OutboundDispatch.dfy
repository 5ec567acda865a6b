/** Fanning routes out to connections: `ConnectionMap::plan` and the grouping loop of
    `deliver` in core/src/websocket/transport.rs. */
module OutboundDispatch {

  /** A route to a client, and everything one dispatch writes to a client. */
  datatype Route<O> = Route(id: nat, outbound: O)
  datatype Group<O> = Group(id: nat, outbounds: seq<O>)

  /** What the routes hold for client `c`, in order. */
  function For<O>(c: nat, routes: seq<Route<O>>): seq<O> {
    if routes == [] then []
    else
      var n := |routes| - 1;
      For(c, routes[..n]) + (if routes[n].id == c then [routes[n].outbound] else [])
  }

  lemma ForMore<O>(c: nat, routes: seq<Route<O>>, r: Route<O>)
    ensures For(c, routes + [r]) == For(c, routes) + (if r.id == c then [r.outbound] else [])
  {
    assert (routes + [r])[..|routes|] == routes;
  }

  ghost predicate Distinct<O>(groups: seq<Group<O>>) {
    forall i, j | 0 <= i < j < |groups| :: groups[i].id != groups[j].id
  }

  ghost predicate HasGroup<O>(groups: seq<Group<O>>, c: nat) {
    exists k :: 0 <= k < |groups| && groups[k].id == c
  }

  /** Exactly the clients with something to send have a group, each one, holding all of
      it in order. */
  ghost predicate Covers<O>(groups: seq<Group<O>>, routes: seq<Route<O>>) {
    && Distinct(groups)
    && (forall k | 0 <= k < |groups| :: groups[k].outbounds == For(groups[k].id, routes) && groups[k].outbounds != [])
    && (forall c: nat :: For(c, routes) != [] ==> HasGroup(groups, c))
  }

  method Find<O>(groups: seq<Group<O>>, c: nat) returns (k: nat)
    ensures k <= |groups|
    ensures forall j | 0 <= j < k :: groups[j].id != c
    ensures k < |groups| ==> groups[k].id == c
  {
    k := 0;
    while k < |groups| && groups[k].id != c
      invariant k <= |groups|
      invariant forall j | 0 <= j < k :: groups[j].id != c
    {
      k := k + 1;
    }
  }

  lemma PushExisting<O>(groups: seq<Group<O>>, done: seq<Route<O>>, r: Route<O>, k: nat)
    requires Covers(groups, done) && k < |groups| && groups[k].id == r.id
    ensures Covers(groups[k := Group(r.id, groups[k].outbounds + [r.outbound])], done + [r])
  {
    var g1 := groups[k := Group(r.id, groups[k].outbounds + [r.outbound])];
    forall j | 0 <= j < |g1| ensures g1[j].outbounds == For(g1[j].id, done + [r]) {
      ForMore(g1[j].id, done, r);
      assert For(g1[j].id, done) + [] == For(g1[j].id, done);
    }
    forall c: nat | For(c, done + [r]) != [] ensures HasGroup(g1, c) {
      ForMore(c, done, r);
      if c != r.id {
        assert For(c, done) + [] == For(c, done);
        var j :| 0 <= j < |groups| && groups[j].id == c;
        assert g1[j].id == c;
      } else {
        assert g1[k].id == c;
      }
    }
  }

  lemma PushNew<O>(groups: seq<Group<O>>, done: seq<Route<O>>, r: Route<O>)
    requires Covers(groups, done) && forall j | 0 <= j < |groups| :: groups[j].id != r.id
    ensures Covers(groups + [Group(r.id, [r.outbound])], done + [r])
  {
    var g1 := groups + [Group(r.id, [r.outbound])];
    assert For(r.id, done) == [];
    forall j | 0 <= j < |g1| ensures g1[j].outbounds == For(g1[j].id, done + [r]) {
      ForMore(g1[j].id, done, r);
      assert For(g1[j].id, done) + [] == For(g1[j].id, done);
    }
    forall c: nat | For(c, done + [r]) != [] ensures HasGroup(g1, c) {
      ForMore(c, done, r);
      if c != r.id {
        assert For(c, done) + [] == For(c, done);
        var j :| 0 <= j < |groups| && groups[j].id == c;
        assert g1[j].id == c;
      } else {
        assert g1[|groups|].id == c;
      }
    }
  }

  lemma NoneYet<O>()
    ensures Covers<O>([], [])
  {}

  /** The grouping in `deliver`: each client once, in order. */
  method GroupByClient<O>(plan: seq<Route<O>>) returns (groups: seq<Group<O>>)
    ensures Covers(groups, plan)
  {
    groups := [];
    var i := 0;
    assert plan[..0] == [];
    NoneYet<O>();
    hide Covers, For;
    while i < |plan|
      invariant i <= |plan|
      invariant Covers(groups, plan[..i])
    {
      var r := plan[i];
      assert plan[..i + 1] == plan[..i] + [r];
      var k := Find(groups, r.id);
      if k < |groups| {
        PushExisting(groups, plan[..i], r, k);
        groups := groups[k := Group(r.id, groups[k].outbounds + [r.outbound])];
      } else {
        PushNew(groups, plan[..i], r);
        groups := groups + [Group(r.id, [r.outbound])];
      }
      i := i + 1;
    }
    assert plan[..i] == plan;
  }

  /** Routes to clients still connected, in order. */
  method Plan<O>(senders: set<nat>, routes: seq<Route<O>>) returns (plan: seq<Route<O>>)
    ensures forall c: nat :: For(c, plan) == if c in senders then For(c, routes) else []
  {
    plan := [];
    var i := 0;
    while i < |routes|
      invariant i <= |routes|
      invariant forall c: nat :: For(c, plan) == if c in senders then For(c, routes[..i]) else []
    {
      var r := routes[i];
      assert routes[..i + 1] == routes[..i] + [r];
      forall c: nat ensures For(c, routes[..i + 1]) == For(c, routes[..i]) + (if r.id == c then [r.outbound] else []) {
        ForMore(c, routes[..i], r);
      }
      if r.id in senders {
        forall c: nat ensures For(c, plan + [r]) == For(c, plan) + (if r.id == c then [r.outbound] else []) {
          ForMore(c, plan, r);
        }
        plan := plan + [r];
      }
      i := i + 1;
    }
    assert routes[..i] == routes;
  }

  /** A dispatch writes each connected client once, with exactly its routes in order, and
      nothing to anyone else. */
  method Dispatch<O>(senders: set<nat>, routes: seq<Route<O>>) returns (groups: seq<Group<O>>)
    ensures Distinct(groups)
    ensures forall k | 0 <= k < |groups| :: groups[k].id in senders && groups[k].outbounds == For(groups[k].id, routes)
    ensures forall c: nat :: HasGroup(groups, c) <==> c in senders && For(c, routes) != []
  {
    var plan := Plan(senders, routes);
    groups := GroupByClient(plan);
    forall c: nat ensures HasGroup(groups, c) <==> c in senders && For(c, routes) != [] {
      if HasGroup(groups, c) {
        var k :| 0 <= k < |groups| && groups[k].id == c;
        assert For(c, plan) != [];
      }
    }
  }
}
