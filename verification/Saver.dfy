/** The thread that saves persistent topics beside a running registry: it compares
    generations, takes a snapshot, writes a scratch file and renames it, with registry
    steps in between and any file operation free to fail.
    Models the saving loop of core/src/websocket/server.rs. */
module Saver {
  import opened Registry
  import opened RegistryInv
  import opened RegistryOps
  import opened RegistryRuns

  datatype Content = Missing | Whole(rows: set<Saved>) | Partial

  /** Where the saver is: waiting out its interval, past the comparison, holding a
      snapshot, or with the scratch file written. */
  datatype Pc = Resting | Differs(current: nat) | Holding(current: nat, rows: set<Saved>)
    | Written(current: nat, rows: set<Saved>)

  /** `done` says that `saved` was set by a save that finished; `past` are the snapshots
      the registry has had since the saver started, and `first` is the one it started with. */
  datatype Machine = Machine(
    world: World, pc: Pc, saved: nat, done: bool, file: Content, scratch: Content,
    past: set<set<Saved>>, first: set<Saved>)

  datatype Move =
    | Serve(s: Step)
    | Compare
    | TakeSnapshot
    | WriteScratch(ok: bool)
    | Rename(ok: bool)

  function Snapshot(w: World): set<Saved> { PersistentSnapshot(w.reg.topics) }

  ghost predicate Can(m: Machine, move: Move) {
    match move
    case Serve(s) => EnabledIn(m.world, s)
    case Compare => m.pc.Resting?
    case TakeSnapshot => m.pc.Differs?
    case WriteScratch(_) => m.pc.Holding?
    case Rename(_) => m.pc.Written?
  }

  ghost function After(m: Machine, o: Oracle, move: Move): Machine
    requires Can(m, move)
  {
    match move
    case Serve(s) =>
      var w := Next(m.world, o, s);
      m.(world := w, past := m.past + {Snapshot(w)})
    case Compare =>
      if m.world.reg.generation == m.saved then m else m.(pc := Differs(m.world.reg.generation))
    case TakeSnapshot => m.(pc := Holding(m.pc.current, Snapshot(m.world)))
    case WriteScratch(ok) =>
      if ok then m.(pc := Written(m.pc.current, m.pc.rows), scratch := Whole(m.pc.rows))
      else m.(pc := Resting, scratch := Partial)
    case Rename(ok) =>
      if ok then m.(pc := Resting, saved := m.pc.current, done := true, file := m.scratch, scratch := Missing)
      else m.(pc := Resting)
  }

  /** The saver starting beside a registry that has already restored `file`. */
  ghost function Begin(w: World, file: Content): Machine {
    Machine(w, Resting, w.reg.generation, false, file, Missing, {Snapshot(w)}, Snapshot(w))
  }

  ghost predicate Legal(m: Machine, o: Oracle, moves: seq<Move>)
    decreases |moves|
  {
    moves == [] || (Can(m, moves[0]) && Legal(After(m, o, moves[0]), o, moves[1..]))
  }

  ghost function Run(m: Machine, o: Oracle, moves: seq<Move>): Machine
    requires Legal(m, o, moves)
    decreases |moves|
  {
    if moves == [] then m else Run(After(m, o, moves[0]), o, moves[1..])
  }

  // ----------------------------------------------------------------- invariants

  /** Rows taken when the generation was at least `current` are still right if the
      generation is `current`. */
  ghost predicate Current(w: World, current: nat, rows: set<Saved>) {
    current <= w.reg.generation && (current == w.reg.generation ==> rows == Snapshot(w))
  }

  ghost predicate Good(m: Machine) {
    && Inv(m.world.reg, m.world.hist)
    && Snapshot(m.world) in m.past
    && m.saved <= m.world.reg.generation
    && (m.done ==> m.file.Whole? && Current(m.world, m.saved, m.file.rows))
    && (!m.done ==> Current(m.world, m.saved, m.first))
    && (m.pc.Differs? ==> m.pc.current <= m.world.reg.generation)
    && ((m.pc.Holding? || m.pc.Written?) ==> Current(m.world, m.pc.current, m.pc.rows) && m.pc.rows in m.past)
    && (m.pc.Written? ==> m.scratch == Whole(m.pc.rows))
  }

  /** The file is what it was at the start, or a snapshot the registry once had, whole. */
  ghost predicate FileWhole(m: Machine, start: Content) {
    m.file == start || (m.file.Whole? && m.file.rows in m.past)
  }

  lemma CurrentKept(w: World, w1: World, current: nat, rows: set<Saved>)
    requires Current(w, current, rows) && Saves(w.reg, w1.reg)
    ensures Current(w1, current, rows)
  {
    hide PersistentSnapshot;
  }

  lemma ServeGood(m: Machine, o: Oracle, s: Step, start: Content)
    requires Good(m) && FileWhole(m, start) && ValidOracle(o) && EnabledIn(m.world, s)
    ensures Good(After(m, o, Serve(s))) && FileWhole(After(m, o, Serve(s)), start)
  {
    hide Mid, Apply, Noted, PersistentSnapshot, ValidOracle, Saves, Current;
    var w := m.world;
    StepInv(w.reg, o, w.hist, s);
    StepSaves(w.reg, o, w.hist, s);
    var w1 := Next(w, o, s);
    CurrentKept(w, w1, m.saved, if m.done then m.file.rows else m.first);
    if m.pc.Holding? || m.pc.Written? {
      CurrentKept(w, w1, m.pc.current, m.pc.rows);
    }
    GenerationGrows(w, w1);
  }

  lemma GenerationGrows(w: World, w1: World)
    requires Saves(w.reg, w1.reg)
    ensures w.reg.generation <= w1.reg.generation
  {}

  lemma {:induction false} MoveGood(m: Machine, o: Oracle, move: Move, start: Content)
    requires Good(m) && FileWhole(m, start) && ValidOracle(o) && Can(m, move)
    ensures Good(After(m, o, move)) && FileWhole(After(m, o, move), start)
  {
    hide Inv, PersistentSnapshot, ValidOracle, EnabledIn, Next;
    if move.Serve? {
      ServeGood(m, o, move.s, start);
    }
  }

  lemma {:induction false} RunGood(m: Machine, o: Oracle, moves: seq<Move>, start: Content)
    requires Good(m) && FileWhole(m, start) && ValidOracle(o) && Legal(m, o, moves)
    ensures Good(Run(m, o, moves)) && FileWhole(Run(m, o, moves), start)
    decreases |moves|
  {
    hide Good, FileWhole, After, Can, ValidOracle;
    if moves != [] {
      MoveGood(m, o, moves[0], start);
      RunGood(After(m, o, moves[0]), o, moves[1..], start);
    }
  }

  // --------------------------------------------------------------- main results

  /** However registry steps, failures and saves interleave, once a save has finished the
      comparison the saver makes is right: if it sees no newer generation, the file holds
      exactly what a snapshot taken now would hold.  Before the first save, no newer
      generation means the snapshot is the one the saver started with.  And the file is
      never left half written. */
  lemma {:induction false} SavedMeansCurrent(o: Oracle, setup: seq<Step>, start: Content, moves: seq<Move>)
    requires RegistryRuns.Legal(o, setup)
    requires Legal(Begin(RegistryRuns.Run(o, setup), start), o, moves)
    ensures var m := Run(Begin(RegistryRuns.Run(o, setup), start), o, moves);
            && (m.done && m.saved == m.world.reg.generation ==> m.file == Whole(Snapshot(m.world)))
            && (!m.done && m.saved == m.world.reg.generation ==>
                  Snapshot(m.world) == Snapshot(RegistryRuns.Run(o, setup)))
            && (m.file == start || (m.file.Whole? && m.file.rows in m.past))
  {
    hide Inv, PersistentSnapshot, ValidOracle, After, Can, RegistryRuns.Run;
    assert ValidOracle(o);
    RunInv(o, setup);
    var b := Begin(RegistryRuns.Run(o, setup), start);
    RunGood(b, o, moves, start);
    FirstKept(b, o, moves);
  }

  lemma {:induction false} FirstKept(m: Machine, o: Oracle, moves: seq<Move>)
    requires Legal(m, o, moves)
    ensures Run(m, o, moves).first == m.first
    decreases |moves|
  {
    hide PersistentSnapshot, EnabledIn, Next;
    if moves != [] {
      FirstKept(After(m, o, moves[0]), o, moves[1..]);
    }
  }

  /** A save with nothing in between and no failure leaves the file current. */
  lemma {:induction false} QuietSave(m: Machine, o: Oracle)
    requires Good(m) && m.pc.Resting? && m.world.reg.generation != m.saved
    ensures var moves := [Compare, TakeSnapshot, WriteScratch(true), Rename(true)];
            && Legal(m, o, moves)
            && var e := Run(m, o, moves);
               && e.file == Whole(Snapshot(m.world)) && e.saved == m.world.reg.generation
               && e.done && e.world == m.world
  {
    hide Inv, PersistentSnapshot;
    var m1 := After(m, o, Compare);
    var m2 := After(m1, o, TakeSnapshot);
    var m3 := After(m2, o, WriteScratch(true));
    var m4 := After(m3, o, Rename(true));
    var moves := [Compare, TakeSnapshot, WriteScratch(true), Rename(true)];
    assert moves[1..] == [TakeSnapshot, WriteScratch(true), Rename(true)];
    assert moves[1..][1..] == [WriteScratch(true), Rename(true)];
    assert moves[1..][1..][1..] == [Rename(true)];
    assert moves[1..][1..][1..][1..] == [];
    assert Legal(m4, o, []) && Run(m4, o, []) == m4;
    assert Legal(m3, o, [Rename(true)]) && Run(m3, o, [Rename(true)]) == m4;
    assert Legal(m2, o, [WriteScratch(true), Rename(true)]) && Run(m2, o, [WriteScratch(true), Rename(true)]) == m4;
    assert Legal(m1, o, moves[1..]) && Run(m1, o, moves[1..]) == m4;
  }

  // ------------------------------------------------------- save, stop, start, restore

  ghost predicate Distinct(entries: seq<Saved>) {
    forall j, k | 0 <= j < k < |entries| :: entries[j].name != entries[k].name
  }

  predicate Persisting(e: Saved) { PropFlag(e.properties, "persistent", false) }

  /** The ids of a registry that has only created topics. */
  ghost predicate Dense(r: Reg) {
    r.freed == [] && forall i: nat :: i in r.topics <==> i < r.nextId
  }

  lemma SnapshotMore(topics: map<TopicId, Topic>, id: TopicId, t: Topic)
    requires id !in topics && RowOf(t).Some?
    ensures PersistentSnapshot(topics[id := t]) == PersistentSnapshot(topics) + {RowOf(t).value}
  {
    hide RowOf;
    var more := topics[id := t];
    forall row | row in PersistentSnapshot(topics) ensures row in PersistentSnapshot(more) {
      var i :| i in topics && RowOf(topics[i]).Some? && RowOf(topics[i]).value == row;
      assert more[i] == topics[i];
    }
    assert more[id] == t;
  }

  lemma {:induction false} RestoreEachRows(entries: seq<Saved>, ts: nat)
    requires Distinct(entries) && forall e | e in entries :: Persisting(e)
    ensures Restored(RestoreEach(Empty, entries, ts), entries)
    decreases |entries|
  {
    hide RowOf, PersistentSnapshot, RestoredTopic, Persisting, Create;
    if entries == [] {
      assert PersistentSnapshot(map[]) == {} by { NoRows(); }
    } else {
      var n := |entries| - 1;
      var init, e := entries[..n], entries[n];
      RestoreEachRows(init, ts);
      RestoreNext(RestoreEach(Empty, init, ts), init, e, ts);
      assert entries == init + [e];
    }
  }

  /** What restoring the rows `done` into an empty registry leaves. */
  ghost predicate Restored(r: Reg, done: seq<Saved>) {
    && Dense(r) && PersistentSnapshot(r.topics) == (set e | e in done)
    && (forall n | n in r.byName :: HasName(done, n))
  }

  ghost predicate HasName(entries: seq<Saved>, n: string) { exists k :: 0 <= k < |entries| && entries[k].name == n }

  lemma RestoreNext(r: Reg, done: seq<Saved>, e: Saved, ts: nat)
    requires Restored(r, done) && Persisting(e) && !HasName(done, e.name)
    ensures e.name !in r.byName && Restored(Create(r, RestoredTopic(e, ts)).0, done + [e])
  {
    hide RowOf, PersistentSnapshot, RestoredTopic, Persisting;
    var t := RestoredTopic(e, ts);
    assert RowOf(t) == Values.Some(e) && t.name == e.name by { RestoredRow(e, ts); }
    SnapshotMore(r.topics, r.nextId, t);
    var more := done + [e];
    assert (set x | x in more) == (set x | x in done) + {e};
    assert more[|done|] == e;
    forall n | HasName(done, n) ensures HasName(more, n) {
      var k :| 0 <= k < |done| && done[k].name == n;
      assert more[k].name == n;
    }
  }

  lemma NoRows()
    ensures PersistentSnapshot(map[]) == {}
  {}

  lemma RestoredRow(e: Saved, ts: nat)
    requires Persisting(e)
    ensures RowOf(RestoredTopic(e, ts)) == Values.Some(e) && RestoredTopic(e, ts).name == e.name
  {}

  lemma RowsDistinct(topics: map<TopicId, Topic>, byName: map<string, TopicId>, entries: seq<Saved>)
    requires forall i | i in topics :: topics[i].name in byName && byName[topics[i].name] == i
    requires NoDup(entries) && forall e :: e in entries <==> e in PersistentSnapshot(topics)
    ensures Distinct(entries) && forall e | e in entries :: Persisting(e)
  {
    hide PropFlag;
    forall j, k | 0 <= j < k < |entries| ensures entries[j].name != entries[k].name {
      assert entries[j] in entries && entries[k] in entries;
      var a :| a in topics && RowOf(topics[a]).Some? && RowOf(topics[a]).value == entries[j];
      var b :| b in topics && RowOf(topics[b]).Some? && RowOf(topics[b]).value == entries[k];
      assert topics[a].name == entries[j].name && topics[b].name == entries[k].name;
    }
  }

  lemma NamesUnique(r: Reg, h: History)
    requires Inv(r, h)
    ensures forall i | i in r.topics :: r.topics[i].name in r.byName && r.byName[r.topics[i].name] == i
  {
    hide Sound, FanInv, ListsInv, ClientNamesInv, TopicsOk;
    var N := Names(r.topics);
    assert forall i | i in r.topics :: N[i] == r.topics[i].name;
  }

  /** Restarting loses nothing persistent: a fresh registry that restores the rows of a
      snapshot, in any order, would save exactly those rows again. */
  lemma {:induction false} RestartKeepsRows(o: Oracle, steps: seq<Step>, entries: seq<Saved>, ts: nat)
    requires RegistryRuns.Legal(o, steps) && NoDup(entries)
    requires forall e :: e in entries <==> e in Snapshot(RegistryRuns.Run(o, steps))
    ensures PersistentSnapshot(RestorePersistent(Empty, entries, ts).topics) == Snapshot(RegistryRuns.Run(o, steps))
  {
    hide Inv, PersistentSnapshot, RestoreEach, Persisting, Distinct, NoDup, RegistryRuns.Run, RegistryRuns.Legal;
    RunInv(o, steps);
    var w := RegistryRuns.Run(o, steps);
    NamesUnique(w.reg, w.hist);
    RowsDistinct(w.reg.topics, w.reg.byName, entries);
    RestoreEachRows(entries, ts);
  }
}
