/** Which topics a delete takes with it.  A topic's meta topics are deleted by name, and
    theirs in turn; a client may have published topics under those very names.
    Concerns core/src/websocket/protocol.rs. */
module RegistryTrim {
  import opened Values
  import opened Registry
  import opened RegistryInv
  import opened RegistryOps
  import opened RegistryPubs
  import opened RegistryFrames

  // ------------------------------------------------------------ the name chains

  /** `n` with its `$pub$` or `$sub$` in front. */
  predicate HasMetaPrefix(n: string) { |n| >= 5 && n[..5] in {"$pub$", "$sub$"} }

  /** Deleting `x` from the live names deletes `n`: taking `$pub$` and `$sub$` off the front
      of `n` gives `x`, through live names only. */
  predicate Reach(live: set<string>, x: string, n: string)
    decreases |n|
  {
    n in live && (n == x || (HasMetaPrefix(n) && Reach(live, x, n[5..])))
  }

  /** One of `roots` reaches `n`. */
  predicate Hit(live: set<string>, roots: set<string>, n: string) {
    exists x | x in roots :: Reach(live, x, n)
  }

  lemma MetaPrefixes(x: string)
    ensures HasMetaPrefix(PubMeta(x)) && PubMeta(x)[5..] == x
    ensures HasMetaPrefix(SubMeta(x)) && SubMeta(x)[5..] == x
    ensures PubMeta(x) != x && SubMeta(x) != x
  {
    assert PubMeta(x)[..5] == "$pub$" && SubMeta(x)[..5] == "$sub$";
    assert |PubMeta(x)| == |x| + 5 && |SubMeta(x)| == |x| + 5;
  }

  lemma MetaPrefixOf(n: string)
    requires HasMetaPrefix(n)
    ensures n == PubMeta(n[5..]) || n == SubMeta(n[5..])
  {
    assert n == n[..5] + n[5..];
  }

  lemma {:induction false} ReachRoot(live: set<string>, x: string, n: string)
    requires Reach(live, x, n)
    ensures x in live && |x| <= |n|
    decreases |n|
  {
    if n != x { ReachRoot(live, x, n[5..]); }
  }

  lemma {:induction false} ReachTrans(live: set<string>, x: string, y: string, n: string)
    requires Reach(live, x, y) && Reach(live, y, n)
    ensures Reach(live, x, n)
    decreases |n|
  {
    if n != y { ReachTrans(live, x, y, n[5..]); }
  }

  lemma {:induction false} ReachMono(live: set<string>, more: set<string>, x: string, n: string)
    requires live <= more && Reach(live, x, n)
    ensures Reach(more, x, n)
    decreases |n|
  {
    if n != x { ReachMono(live, more, x, n[5..]); }
  }

  /** Deleting `x` is deleting `x` alone and then its two meta topics. */
  lemma {:induction false} ReachSplit(live: set<string>, x: string, n: string)
    requires x in live
    ensures Reach(live, x, n) <==>
            n == x || Reach(live - {x}, PubMeta(x), n) || Reach(live - {x}, SubMeta(x), n)
    decreases |n|
  {
    MetaPrefixes(x);
    var rest := live - {x};
    if Reach(live, x, n) && n != x {
      ReachRoot(live, x, n[5..]);
      MetaPrefixOf(n);
      ReachSplit(live, x, n[5..]);
    }
    forall m | (m == PubMeta(x) || m == SubMeta(x)) && Reach(rest, m, n) ensures Reach(live, x, n) {
      ReachMono(rest, live, m, n);
      ReachRoot(live, m, n);
      assert Reach(live, x, m);
      ReachTrans(live, x, m, n);
    }
  }

  lemma HitPrefixed(live: set<string>, roots: set<string>, n: string)
    requires n in live && HasMetaPrefix(n) && Hit(live, roots, n[5..])
    ensures Hit(live, roots, n)
  {
    var x :| x in roots && Reach(live, x, n[5..]);
    assert Reach(live, x, n);
  }

  /** After everything `roots` hits is deleted, the other chains are as before. */
  lemma {:induction false} ReachMinus(live: set<string>, rest: set<string>, roots: set<string>, y: string, n: string)
    requires forall m :: m in rest <==> m in live && !Hit(live, roots, m)
    ensures Reach(rest, y, n) <==> Reach(live, y, n) && !Hit(live, roots, n)
    decreases |n|
  {
    if Reach(rest, y, n) {
      ReachMono(rest, live, y, n);
    } else if Reach(live, y, n) && !Hit(live, roots, n) && n != y {
      if Hit(live, roots, n[5..]) { HitPrefixed(live, roots, n); }
      ReachMinus(live, rest, roots, y, n[5..]);
    }
  }

  // ------------------------------------------------------------------ the topics

  /** From `r` to `r'` exactly the topics that `roots` hits are deleted, and no other topic
      and no publisher uid is touched. */
  ghost predicate Trims(r: Reg, r': Reg, roots: set<string>) {
    && IdsIn(r')
    && PubsOf(r'.clients) == PubsOf(r.clients) && r'.nameOf == r.nameOf
    && (forall i :: i in r'.topics <==> i in r.topics && !Hit(r.byName.Keys, roots, r.topics[i].name))
    && (forall i | i in r'.topics :: r'.topics[i] == r.topics[i])
  }

  /** Live names are the names of live topics. */
  lemma LiveNamed(r: Reg, n: string)
    requires IdsIn(r)
    ensures n in r.byName <==> exists i :: i in r.topics && r.topics[i].name == n
  {
    if n in r.byName { NamedTopic(r, n); }
    if i :| i in r.topics && r.topics[i].name == n { assert i in Names(r.topics); }
  }

  lemma ByNameIs(r: Reg, id: TopicId)
    requires IdsIn(r) && id in r.topics
    ensures r.topics[id].name in r.byName && r.byName[r.topics[id].name] == id
  {
    assert id in Names(r.topics);
  }

  lemma TrimsNames(r: Reg, r': Reg, roots: set<string>)
    requires IdsIn(r) && Trims(r, r', roots)
    ensures forall m :: m in r'.byName.Keys <==> m in r.byName.Keys && !Hit(r.byName.Keys, roots, m)
  {
    hide IdsInv, Hit, PubsOf;
    forall m ensures m in r'.byName.Keys <==> m in r.byName.Keys && !Hit(r.byName.Keys, roots, m) {
      LiveNamed(r, m);
      LiveNamed(r', m);
      if m in r.byName { NamedTopic(r, m); }
    }
  }

  lemma TrimsNothing(r: Reg, roots: set<string>)
    requires IdsIn(r)
    requires forall x | x in roots :: x !in r.byName
    ensures Trims(r, r, roots)
  {
    hide IdsInv, Reach;
    forall i | i in r.topics ensures !Hit(r.byName.Keys, roots, r.topics[i].name) {
      forall x | x in roots ensures !Reach(r.byName.Keys, x, r.topics[i].name) {
        if Reach(r.byName.Keys, x, r.topics[i].name) { ReachRoot(r.byName.Keys, x, r.topics[i].name); }
      }
    }
  }

  lemma HitMinus(live: set<string>, rest: set<string>, roots: set<string>, more: set<string>, n: string)
    requires forall m :: m in rest <==> m in live && !Hit(live, roots, m)
    ensures Hit(live, roots + more, n) <==> Hit(live, roots, n) || Hit(rest, more, n)
  {
    hide Reach;
    forall x ensures Reach(rest, x, n) <==> Reach(live, x, n) && !Hit(live, roots, n) {
      ReachMinus(live, rest, roots, x, n);
    }
    if x :| x in roots && Reach(live, x, n) { assert x in roots + more; }
    if Hit(rest, more, n) {
      var x :| x in more && Reach(rest, x, n);
      assert x in roots + more && Reach(live, x, n);
    }
  }

  lemma TrimsTrans(r: Reg, r': Reg, r'': Reg, roots: set<string>, more: set<string>)
    requires IdsIn(r) && Trims(r, r', roots) && Trims(r', r'', more)
    ensures Trims(r, r'', roots + more)
  {
    hide IdsInv, Hit, PubsOf;
    TrimsNames(r, r', roots);
    forall n ensures Hit(r.byName.Keys, roots + more, n) <==>
                     Hit(r.byName.Keys, roots, n) || Hit(r'.byName.Keys, more, n) {
      HitMinus(r.byName.Keys, r'.byName.Keys, roots, more, n);
    }
  }

  /** A root that another root already reaches adds nothing. */
  lemma HitMore(live: set<string>, roots: set<string>, more: set<string>, n: string)
    requires forall y | y in more && y in live :: Hit(live, roots, y)
    ensures Hit(live, roots + more, n) <==> Hit(live, roots, n)
  {
    hide Reach;
    if Hit(live, roots, n) {
      var x :| x in roots && Reach(live, x, n);
      assert x in roots + more;
    }
    if Hit(live, roots + more, n) {
      var y :| y in roots + more && Reach(live, y, n);
      ReachRoot(live, y, n);
      if y !in roots {
        var x :| x in roots && Reach(live, x, y);
        ReachTrans(live, x, y, n);
      }
    }
  }

  lemma TrimsMore(r: Reg, r': Reg, roots: set<string>, more: set<string>)
    requires Trims(r, r', roots)
    requires forall y | y in more && y in r.byName :: Hit(r.byName.Keys, roots, y)
    ensures Trims(r, r', roots + more)
  {
    hide IdsInv, Hit, PubsOf;
    forall n ensures Hit(r.byName.Keys, roots + more, n) <==> Hit(r.byName.Keys, roots, n) {
      HitMore(r.byName.Keys, roots, more, n);
    }
  }

  // ------------------------------------------------------------------- deleting

  lemma RemoveNames(r: Reg, id: TopicId)
    requires IdsIn(r) && id in r.topics
    ensures var r1 := RemoveTopic(r, id);
            && IdsIn(r1) && PubsOf(r1.clients) == PubsOf(r.clients) && r1.nameOf == r.nameOf
            && r1.byName.Keys == r.byName.Keys - {r.topics[id].name} && r1.topics == r.topics - {id}
            && r.topics[id].name in r.byName
            && forall i | i in r1.topics :: r1.topics[i].name != r.topics[id].name
  {
    hide UnmatchAll, UnmatchSubs, SubsOf, PubsOf;
    UnmatchViews(r.clients, id);
    RemoveIds(r, id);
    assert id in Names(r.topics);
    forall i | i in r.topics && i != id ensures r.topics[i].name != r.topics[id].name {
      assert i in Names(r.topics);
    }
  }

  /** A delete takes with it exactly the topics whose names chain down to the one deleted. */
  lemma {:induction false} DeleteTrims(r: Reg, id: TopicId)
    requires IdsIn(r) && id in r.topics
    ensures Trims(r, Delete(r, id), {r.topics[id].name})
    decreases |r.topics|, 0
  {
    hide IdsInv, Reach, Hit, PubsOf, RemoveTopic, Trims, PubMeta, SubMeta;
    var name := r.topics[id].name;
    var r1 := RemoveTopic(r, id);
    RemoveNames(r, id);
    RemoveShrinks(r, id);
    var r2 := DeleteNamed(r1, PubMeta(name));
    DeleteNamedTrims(r1, PubMeta(name));
    TrimsIds(r1, r2, {PubMeta(name)});
    DeleteNamedTrims(r2, SubMeta(name));
    TrimsTrans(r1, r2, DeleteNamed(r2, SubMeta(name)), {PubMeta(name)}, {SubMeta(name)});
    RemovedTrims(r, id, DeleteNamed(r2, SubMeta(name)));
  }

  lemma TrimsIds(r: Reg, r': Reg, roots: set<string>)
    requires Trims(r, r', roots)
    ensures IdsIn(r') && PubsOf(r'.clients) == PubsOf(r.clients) && r'.nameOf == r.nameOf
  {
  }

  lemma RemovedTrims(r: Reg, id: TopicId, r': Reg)
    requires IdsIn(r) && id in r.topics
    requires var name := r.topics[id].name;
             Trims(RemoveTopic(r, id), r', {PubMeta(name)} + {SubMeta(name)})
    ensures Trims(r, r', {r.topics[id].name})
  {
    hide IdsInv, Reach, PubsOf, RemoveTopic, PubMeta, SubMeta;
    var name := r.topics[id].name;
    RemoveNames(r, id);
    var live := r.byName.Keys;
    forall n ensures Hit(live, {name}, n) <==> n == name || Hit(live - {name}, {PubMeta(name)} + {SubMeta(name)}, n) {
      ReachSplit(live, name, n);
      assert Hit(live, {name}, n) <==> Reach(live, name, n) by { assert name in {name}; }
      HitTwo(live - {name}, PubMeta(name), SubMeta(name), n);
    }
  }

  lemma HitTwo(live: set<string>, x: string, y: string, n: string)
    ensures Hit(live, {x} + {y}, n) <==> Reach(live, x, n) || Reach(live, y, n)
  {
    hide Reach;
    assert x in {x} + {y} && y in {x} + {y};
  }

  lemma {:induction false} DeleteNamedTrims(r: Reg, name: string)
    requires IdsIn(r)
    ensures Trims(r, DeleteNamed(r, name), {name})
    decreases |r.topics|, 1
  {
    hide IdsInv, Trims;
    if name in r.byName {
      NamedTopic(r, name);
      DeleteTrims(r, r.byName[name]);
    } else {
      TrimsNothing(r, {name});
    }
  }

  // ------------------------------------------------------------- several deletes

  /** The names of those of `ids` that nothing publishes and nothing retains. */
  ghost function OrphanNames(r: Reg, ids: seq<TopicId>): set<string> {
    set k | 0 <= k < |ids| && Orphaned(r, ids[k]) :: r.topics[ids[k]].name
  }

  lemma {:induction false} ReapTrims(r: Reg, ids: seq<TopicId>)
    requires IdsIn(r)
    ensures Trims(r, ReapOrphans(r, ids).reg, OrphanNames(r, ids))
    decreases |ids|
  {
    hide IdsInv, Hit, Trims, Delete, IsRetained, Names;
    if ids == [] {
      assert OrphanNames(r, ids) == {};
      TrimsNothing(r, {});
    } else {
      var n := |ids| - 1;
      var a := ReapOrphans(r, ids[..n]).reg;
      var roots := OrphanNames(r, ids[..n]);
      ReapTrims(r, ids[..n]);
      TrimsIds(r, a, roots);
      OrphanNamesLast(r, ids);
      if Orphaned(a, ids[n]) {
        TrimsKept(r, a, roots, ids[n]);
        DeleteTrims(a, ids[n]);
        TrimsTrans(r, a, Delete(a, ids[n]), roots, {r.topics[ids[n]].name});
      } else if Orphaned(r, ids[n]) {
        TrimsKept(r, a, roots, ids[n]);
        TrimsMore(r, a, roots, {r.topics[ids[n]].name});
      } else {
        assert OrphanNames(r, ids) == roots;
      }
    }
  }

  lemma OrphanNamesLast(r: Reg, ids: seq<TopicId>)
    requires ids != []
    ensures var n := |ids| - 1;
            OrphanNames(r, ids) == OrphanNames(r, ids[..n])
                                   + if Orphaned(r, ids[n]) then {r.topics[ids[n]].name} else {}
  {
    hide IsRetained;
    var n := |ids| - 1;
    assert forall k | 0 <= k < n :: ids[..n][k] == ids[k];
  }

  lemma TrimsKept(r: Reg, r': Reg, roots: set<string>, id: TopicId)
    requires Trims(r, r', roots)
    ensures id in r'.topics ==> id in r.topics && r'.topics[id] == r.topics[id]
    ensures id in r.topics && id !in r'.topics ==> Hit(r.byName.Keys, roots, r.topics[id].name)
  {
    hide IdsInv, Hit, PubsOf;
  }

  // ------------------------------------------------------------------- settling

  /** The topics that `roots` hits. */
  ghost function Struck(r: Reg, roots: set<string>): set<TopicId> {
    set i | i in r.topics && Hit(r.byName.Keys, roots, r.topics[i].name)
  }

  lemma TrimsSettles(r: Reg, r': Reg, roots: set<string>)
    requires Trims(r, r', roots)
    ensures Settles(r, r', Struck(r, roots))
  {
    hide IdsInv, Hit, PubsOf;
  }
}
