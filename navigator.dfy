/** The migration navigator (server/core/navigator.py): works out, for
    every configured database, which migrations still have to be applied
    and in what order, and migrates every database unless one of them
    reports conflicting leaf migrations. Django's migration loader is
    given as data: each connection carries the leaves of its migration
    graph, the forwards plan of each leaf, the applied migrations and the
    conflicts the loader detects. */
module Navigator {
  import opened Wrappers
  import Text
  import Seqs

  /** A migration node: the app label and the migration name. */
  datatype Key = Key(app: string, name: string)

  /** A leaf of the migration graph and its forwards plan. */
  datatype LeafPlan = LeafPlan(leaf: Key, plan: seq<Key>)

  /** Apps with more than one leaf migration, and the names of those leaves. */
  datatype Conflict = Conflict(app: string, names: seq<string>)

  /** What a database connection's migration loader reports; `dummy` marks
      Django's dummy backend. */
  datatype Connection = Connection(dummy: bool, graph: seq<LeafPlan>, applied: set<Key>, conflicts: seq<Conflict>)

  /** A configured database: its alias in the settings and its connection. */
  datatype Database = Database(alias: string, conn: Connection)

  /** What the navigator does to a connection, in order. */
  datatype Action = Closed(alias: string) | Prepared(alias: string) | Migrated(alias: string, targets: seq<Key>, fake: bool)

  /** `NavigatorError`, raised when a database reports conflicting leaf
      nodes: it carries those conflicts, and its text is `Message()`. */
  datatype NavigatorError = ConflictsDetected(conflicts: seq<Conflict>) {
    function Message(): string {
      ConflictMessage(conflicts)
    }
  }

  // ---------------------------------------------------------------------
  // Planning

  function Plans(graph: seq<LeafPlan>): (r: seq<seq<Key>>)
    ensures |r| == |graph| && forall i :: 0 <= i < |graph| ==> r[i] == graph[i].plan
  {
    if graph == [] then [] else Plans(graph[..|graph| - 1]) + [graph[|graph| - 1].plan]
  }

  function Leaves(graph: seq<LeafPlan>): (r: seq<Key>)
    ensures |r| == |graph| && forall i :: 0 <= i < |graph| ==> r[i] == graph[i].leaf
  {
    if graph == [] then [] else Leaves(graph[..|graph| - 1]) + [graph[|graph| - 1].leaf]
  }

  /** Every migration of the leaves' forwards plans, leaf after leaf. */
  function Walk(c: Connection): seq<Key> {
    Seqs.Flatten(Plans(c.graph))
  }

  function NotApplied(c: Connection): Key -> bool {
    k => k !in c.applied
  }

  /** The migration plan of one database: each migration of the walk, at
      its first occurrence, unless it is applied. */
  function Plan(c: Connection): seq<Key> {
    Seqs.Where(Seqs.FirstOccurrences(Walk(c)), NotApplied(c))
  }

  /** A plan names each migration once, names no applied migration, and
      names exactly the unapplied migrations of the leaves' forwards plans. */
  lemma PlanContents(c: Connection)
    ensures Seqs.NoDuplicates(Plan(c))
    ensures forall k :: k in Plan(c) ==> k !in c.applied
    ensures forall k :: k in Plan(c) <==> k !in c.applied && exists i :: 0 <= i < |c.graph| && k in c.graph[i].plan
  {
    var walk := Walk(c);
    Seqs.WhereNoDuplicates(Seqs.FirstOccurrences(walk), NotApplied(c));
    Seqs.WhereSpec(Seqs.FirstOccurrences(walk), NotApplied(c));
    forall k ensures k in walk <==> exists i :: 0 <= i < |c.graph| && k in c.graph[i].plan {
      Seqs.InFlatten(Plans(c.graph), k);
    }
  }

  /** A plan keeps the order in which the walk first reaches its migrations. */
  lemma PlanOrder(c: Connection, i: nat, j: nat)
    requires i < j < |Plan(c)|
    ensures Plan(c)[i] in Walk(c) && Plan(c)[j] in Walk(c)
    ensures Seqs.FirstIndex(Walk(c), Plan(c)[i]) < Seqs.FirstIndex(Walk(c), Plan(c)[j])
  {
    WhereKeepsOrder(Seqs.FirstOccurrences(Walk(c)), NotApplied(c), i, j);
    var fo := Seqs.FirstOccurrences(Walk(c));
    var a, b :| 0 <= a < b < |fo| && fo[a] == Plan(c)[i] && fo[b] == Plan(c)[j];
    Seqs.FirstOccurrencesOrder(Walk(c), a, b);
  }

  /** Elements a filter keeps come in the order they had. */
  lemma {:induction false} WhereKeepsOrder<T(!new)>(s: seq<T>, p: T -> bool, i: nat, j: nat)
    requires i < j < |Seqs.Where(s, p)|
    ensures exists a, b :: 0 <= a < b < |s| && s[a] == Seqs.Where(s, p)[i] && s[b] == Seqs.Where(s, p)[j]
    decreases |s|
  {
    var init := s[..|s| - 1];
    var w := Seqs.Where(init, p);
    Seqs.WhereSpec(init, p);
    Seqs.WhereSpec(s, p);
    assert Seqs.Where(s, p) == w + (if p(s[|s| - 1]) then [s[|s| - 1]] else []);
    if j < |w| {
      WhereKeepsOrder(init, p, i, j);
      var a, b :| 0 <= a < b < |init| && init[a] == w[i] && init[b] == w[j];
      assert s[a] == init[a] && s[b] == init[b];
    } else {
      assert w[i] in init;
      var a :| 0 <= a < |init| && init[a] == w[i];
      assert s[a] == init[a] && s[|s| - 1] == Seqs.Where(s, p)[j];
    }
  }

  /** `get_unapplied_migrations` on values: the plan of every database
      that is not a dummy and has something to apply, by alias. */
  function Unapplied(dbs: seq<Database>): map<string, seq<Key>>
    decreases |dbs|
  {
    if dbs == [] then map[]
    else
      var m := Unapplied(dbs[..|dbs| - 1]);
      var db := dbs[|dbs| - 1];
      if db.conn.dummy || Plan(db.conn) == [] then m else m[db.alias := Plan(db.conn)]
  }

  /** `dbs[i]` has something to apply and its plan is `plan`. */
  ghost predicate PlannedAt(dbs: seq<Database>, i: int, alias: string, plan: seq<Key>) {
    0 <= i < |dbs| && dbs[i].alias == alias && !dbs[i].conn.dummy && plan == Plan(dbs[i].conn)
  }

  /** Every entry of the result is the non-empty plan of a database of
      that alias that is not a dummy. */
  lemma {:induction false} UnappliedEntries(dbs: seq<Database>)
    ensures forall a :: a in Unapplied(dbs) ==> Unapplied(dbs)[a] != []
    ensures forall a :: a in Unapplied(dbs) ==> exists i :: PlannedAt(dbs, i, a, Unapplied(dbs)[a])
    decreases |dbs|
  {
    if dbs != [] {
      var init := dbs[..|dbs| - 1];
      UnappliedEntries(init);
      var m := Unapplied(dbs);
      forall a | a in m
        ensures exists i :: PlannedAt(dbs, i, a, m[a])
      {
        if a in Unapplied(init) && m[a] == Unapplied(init)[a] {
          var i :| PlannedAt(init, i, a, Unapplied(init)[a]);
          assert dbs[i] == init[i];
          assert PlannedAt(dbs, i, a, m[a]);
        } else {
          assert PlannedAt(dbs, |dbs| - 1, a, m[a]);
        }
      }
    }
  }

  /** Every database that is not a dummy and has something to apply is in
      the result. */
  lemma {:induction false} UnappliedComplete(dbs: seq<Database>)
    ensures forall i :: 0 <= i < |dbs| && !dbs[i].conn.dummy && Plan(dbs[i].conn) != [] ==> dbs[i].alias in Unapplied(dbs)
    decreases |dbs|
  {
    if dbs != [] {
      var init := dbs[..|dbs| - 1];
      UnappliedComplete(init);
      forall i | 0 <= i < |init| ensures dbs[i] == init[i] {
      }
    }
  }

  /** No database has anything to apply exactly when the result is empty. */
  lemma UnappliedEmpty(dbs: seq<Database>)
    ensures Unapplied(dbs) == map[] <==> forall i :: 0 <= i < |dbs| ==> dbs[i].conn.dummy || Plan(dbs[i].conn) == []
  {
    UnappliedEntries(dbs);
    UnappliedComplete(dbs);
    if Unapplied(dbs) != map[] {
      var a :| a in Unapplied(dbs);
      var i :| PlannedAt(dbs, i, a, Unapplied(dbs)[a]);
      assert !(dbs[i].conn.dummy || Plan(dbs[i].conn) == []);
    }
  }

  // ---------------------------------------------------------------------
  // Migrating

  /** The `"%s in %s"` part of the conflict message for one app. */
  function ConflictPart(c: Conflict): string {
    Text.Join(", ", c.names) + " in " + c.app
  }

  function ConflictParts(cs: seq<Conflict>): (r: seq<string>)
    ensures |r| == |cs| && forall i :: 0 <= i < |cs| ==> r[i] == ConflictPart(cs[i])
  {
    if cs == [] then [] else ConflictParts(cs[..|cs| - 1]) + [ConflictPart(cs[|cs| - 1])]
  }

  /** The text of the error `migrate` raises for conflicting leaves. */
  function ConflictMessage(cs: seq<Conflict>): string {
    "Conflicting migrations detected; multiple leaf nodes in the migration graph: ("
      + Text.Join("; ", ConflictParts(cs)) + ").\nTo fix them merge the database migrations."
  }

  /** The loop of `migrate` on values: each database is prepared, then
      either refused for its conflicts, which ends the loop, or migrated
      to its leaves. */
  function MigrateAll(dbs: seq<Database>, fake: bool): (seq<Action>, Outcome<NavigatorError>)
    decreases |dbs|
  {
    if dbs == [] then ([], Pass)
    else
      var db := dbs[0];
      if db.conn.conflicts != [] then ([Prepared(db.alias)], Fail(ConflictsDetected(db.conn.conflicts)))
      else
        var (rest, r) := MigrateAll(dbs[1..], fake);
        ([Prepared(db.alias), Migrated(db.alias, Leaves(db.conn.graph), fake)] + rest, r)
  }

  /** `migrate` on values. */
  function MigrateStep(dbs: seq<Database>, fake: bool): (seq<Action>, Outcome<NavigatorError>) {
    if Unapplied(dbs) == map[] then ([], Pass) else MigrateAll(dbs, fake)
  }

  /** The first database that reports conflicts, if any. */
  function FirstConflict(dbs: seq<Database>): (r: Option<nat>)
    ensures r.Some? ==> r.value < |dbs| && dbs[r.value].conn.conflicts != []
    ensures r.Some? ==> forall i :: 0 <= i < r.value ==> dbs[i].conn.conflicts == []
    ensures r.None? ==> forall i :: 0 <= i < |dbs| ==> dbs[i].conn.conflicts == []
  {
    if dbs == [] then None
    else if dbs[0].conn.conflicts != [] then Some(0)
    else match FirstConflict(dbs[1..])
      case None => None
      case Some(i) => Some(i + 1)
  }

  /** Preparing and migrating each database in turn. */
  function Done(dbs: seq<Database>, fake: bool): (r: seq<Action>)
    decreases |dbs|
  {
    if dbs == [] then []
    else [Prepared(dbs[0].alias), Migrated(dbs[0].alias, Leaves(dbs[0].conn.graph), fake)] + Done(dbs[1..], fake)
  }

  /** Without conflicts, the loop of `migrate` prepares and migrates
      every database in turn and succeeds. */
  lemma {:induction false} MigrateAllClean(dbs: seq<Database>, fake: bool)
    requires forall i :: 0 <= i < |dbs| ==> dbs[i].conn.conflicts == []
    ensures MigrateAll(dbs, fake) == (Done(dbs, fake), Pass)
    decreases |dbs|
  {
    if dbs != [] {
      assert forall i :: 0 <= i < |dbs[1..]| ==> dbs[1..][i] == dbs[i + 1];
      MigrateAllClean(dbs[1..], fake);
    }
  }

  /** The loop of `migrate` prepares and migrates every database before
      the first one that reports conflicts, then prepares that one and
      fails with its message. */
  lemma {:induction false} MigrateAllConflict(dbs: seq<Database>, fake: bool, c: nat)
    requires c < |dbs| && dbs[c].conn.conflicts != [] && forall i :: 0 <= i < c ==> dbs[i].conn.conflicts == []
    ensures MigrateAll(dbs, fake)
         == (Done(dbs[..c], fake) + [Prepared(dbs[c].alias)], Fail(ConflictsDetected(dbs[c].conn.conflicts)))
    decreases c
  {
    if c > 0 {
      var tail := dbs[1..];
      assert forall i :: 0 <= i < |tail| ==> tail[i] == dbs[i + 1];
      MigrateAllConflict(tail, fake, c - 1);
      var (rest, r) := MigrateAll(tail, fake);
      var head := [Prepared(dbs[0].alias), Migrated(dbs[0].alias, Leaves(dbs[0].conn.graph), fake)];
      assert MigrateAll(dbs, fake) == (head + rest, r);
      assert dbs[..c][1..] == tail[..c - 1];
      assert dbs[..c][0] == dbs[0];
      assert Done(dbs[..c], fake) == head + Done(tail[..c - 1], fake);
      assert tail[c - 1] == dbs[c];
      assert head + rest == Done(dbs[..c], fake) + [Prepared(dbs[c].alias)];
    } else {
      assert dbs[..0] == [];
      assert Done(dbs[..0], fake) + [Prepared(dbs[0].alias)] == [Prepared(dbs[0].alias)];
      assert MigrateAll(dbs, fake) == ([Prepared(dbs[0].alias)], Fail(ConflictsDetected(dbs[0].conn.conflicts)));
    }
  }

  /** Migrating databases in turn migrates exactly those databases, each
      to its leaves, and prepares each one first. */
  lemma DoneMigrates(dbs: seq<Database>, fake: bool)
    ensures forall a, t, f :: Migrated(a, t, f) in Done(dbs, fake) <==>
      f == fake && exists i :: 0 <= i < |dbs| && dbs[i].alias == a && t == Leaves(dbs[i].conn.graph)
    ensures forall i :: 0 <= i < |dbs| ==> Prepared(dbs[i].alias) in Done(dbs, fake)
    ensures |Done(dbs, fake)| == 2 * |dbs|
  {
    DoneMigratesExactly(dbs, fake);
    DonePreparesEach(dbs, fake);
  }

  /** The migrations of the trace are those of the given databases. */
  lemma {:induction false} DoneMigratesExactly(dbs: seq<Database>, fake: bool)
    ensures forall a, t, f :: Migrated(a, t, f) in Done(dbs, fake) <==>
      f == fake && exists i :: 0 <= i < |dbs| && dbs[i].alias == a && t == Leaves(dbs[i].conn.graph)
    decreases |dbs|
  {
    if dbs != [] {
      var tail := dbs[1..];
      DoneMigratesExactly(tail, fake);
      var d := Done(dbs, fake);
      var head := [Prepared(dbs[0].alias), Migrated(dbs[0].alias, Leaves(dbs[0].conn.graph), fake)];
      assert d == head + Done(tail, fake);
      forall a, t, f ensures Migrated(a, t, f) in d <==>
        f == fake && exists i :: 0 <= i < |dbs| && dbs[i].alias == a && t == Leaves(dbs[i].conn.graph)
      {
        assert Migrated(a, t, f) in d <==> Migrated(a, t, f) in head || Migrated(a, t, f) in Done(tail, fake);
        if exists i :: 0 <= i < |dbs| && dbs[i].alias == a && t == Leaves(dbs[i].conn.graph) {
          var i :| 0 <= i < |dbs| && dbs[i].alias == a && t == Leaves(dbs[i].conn.graph);
          if i > 0 {
            assert tail[i - 1] == dbs[i];
          }
        }
        if Migrated(a, t, f) in Done(tail, fake) {
          var i :| 0 <= i < |tail| && tail[i].alias == a && t == Leaves(tail[i].conn.graph);
          assert dbs[i + 1] == tail[i];
        }
      }
    }
  }

  /** Every given database is prepared, and the trace holds two actions
      per database. */
  lemma {:induction false} DonePreparesEach(dbs: seq<Database>, fake: bool)
    ensures forall i :: 0 <= i < |dbs| ==> Prepared(dbs[i].alias) in Done(dbs, fake)
    ensures |Done(dbs, fake)| == 2 * |dbs|
    decreases |dbs|
  {
    if dbs != [] {
      var tail := dbs[1..];
      DonePreparesEach(tail, fake);
      var d := Done(dbs, fake);
      forall i | 0 <= i < |dbs| ensures Prepared(dbs[i].alias) in d {
        if i > 0 {
          assert tail[i - 1] == dbs[i];
        }
      }
    }
  }

  /** With nothing to apply, `migrate` touches no connection. */
  lemma {:induction false} NothingToApply(dbs: seq<Database>, fake: bool)
    requires forall i :: 0 <= i < |dbs| ==> dbs[i].conn.dummy || Plan(dbs[i].conn) == []
    ensures MigrateStep(dbs, fake) == ([], Pass)
  {
    UnappliedEmpty(dbs);
  }

  /** With something to apply, a database that reports conflicts is
      prepared but neither it nor any database after it is migrated. */
  lemma {:induction false} ConflictStopsMigration(dbs: seq<Database>, fake: bool, c: nat)
    requires Unapplied(dbs) != map[]
    requires c < |dbs| && dbs[c].conn.conflicts != [] && forall i :: 0 <= i < c ==> dbs[i].conn.conflicts == []
    ensures var (actions, r) := MigrateStep(dbs, fake);
      && r == Fail(ConflictsDetected(dbs[c].conn.conflicts))
      && actions[|actions| - 1] == Prepared(dbs[c].alias)
      && (forall a, t, f :: Migrated(a, t, f) in actions <==>
            f == fake && exists i :: 0 <= i < c && dbs[i].alias == a && t == Leaves(dbs[i].conn.graph))
  {
    MigrateAllConflict(dbs, fake, c);
    DoneMigrates(dbs[..c], fake);
    assert forall i :: 0 <= i < c ==> dbs[..c][i] == dbs[i];
  }

  /** With something to apply and no conflicts anywhere, `migrate`
      prepares and migrates every database to its leaves. */
  lemma {:induction false} MigratesEverything(dbs: seq<Database>, fake: bool)
    requires Unapplied(dbs) != map[]
    requires forall i :: 0 <= i < |dbs| ==> dbs[i].conn.conflicts == []
    ensures var (actions, r) := MigrateStep(dbs, fake);
      && r == Pass
      && |actions| == 2 * |dbs|
      && (forall i :: 0 <= i < |dbs| ==> Migrated(dbs[i].alias, Leaves(dbs[i].conn.graph), fake) in actions)
      && (forall i :: 0 <= i < |dbs| ==> Prepared(dbs[i].alias) in actions)
  {
    MigrateAllClean(dbs, fake);
    DoneMigrates(dbs, fake);
  }

  // ---------------------------------------------------------------------
  // The navigator

  /** Closing every connection, in order. */
  function CloseAll(dbs: seq<Database>): (r: seq<Action>)
    ensures |r| == |dbs| && forall i :: 0 <= i < |dbs| ==> r[i] == Closed(dbs[i].alias)
  {
    if dbs == [] then [] else CloseAll(dbs[..|dbs| - 1]) + [Closed(dbs[|dbs| - 1].alias)]
  }

  class Navigator {
    /** The databases of the settings, in order. */
    const settings: seq<Database>
    /** `_connections`. */
    var connections: seq<Database>
    /** What has been done to the connections so far. */
    var actions: seq<Action>

    constructor (settings: seq<Database>)
      ensures this.settings == settings && connections == settings && actions == []
    {
      this.settings := settings;
      connections := settings;
      actions := [];
    }

    /** The `connections` property: the open connections, reopened from
        the settings when there are none. */
    method Connections() returns (r: seq<Database>)
      modifies this
      ensures old(connections) != [] ==> connections == old(connections)
      ensures old(connections) == [] ==> connections == settings
      ensures r == connections && actions == old(actions)
    {
      if connections != [] {
        return connections;
      }
      connections := settings;
      return connections;
    }

    /** `close`: closes every connection and forgets them. */
    method Close()
      modifies this
      ensures connections == []
      ensures actions == old(actions) + CloseAll(old(connections))
    {
      if connections != [] {
        var i := 0;
        while i < |connections|
          invariant 0 <= i <= |connections|
          invariant connections == old(connections)
          invariant actions == old(actions) + CloseAll(connections[..i])
        {
          assert CloseAll(connections[..i + 1]) == CloseAll(connections[..i]) + [Closed(connections[i].alias)];
          actions := actions + [Closed(connections[i].alias)];
          i := i + 1;
        }
        assert connections[..|connections|] == connections;
        connections := [];
      }
    }

    /** `get_unapplied_migrations`. */
    method UnappliedMigrations() returns (plans: map<string, seq<Key>>)
      ensures plans == Unapplied(connections)
    {
      plans := map[];
      var i := 0;
      while i < |connections|
        invariant 0 <= i <= |connections|
        invariant plans == Unapplied(connections[..i])
      {
        var db := connections[i];
        assert connections[..i + 1][..i] == connections[..i];
        if !db.conn.dummy {
          var plan := MigrationPlan(db.conn);
          if plan != [] {
            plans := plans[db.alias := plan];
          }
        }
        i := i + 1;
      }
      assert connections[..|connections|] == connections;
    }

    /** `migrate`. */
    method Migrate(fake: bool) returns (r: Outcome<NavigatorError>)
      modifies this
      ensures connections == old(connections)
      ensures actions == old(actions) + MigrateStep(connections, fake).0
      ensures r == MigrateStep(connections, fake).1
    {
      var plans := UnappliedMigrations();
      if plans == map[] {
        return Pass;
      }
      r := MigrateEach(fake);
    }

    /** The loop of `migrate`: prepares each connection, stops at the first
        one that reports conflicts, and migrates the others to their leaves. */
    method MigrateEach(fake: bool) returns (r: Outcome<NavigatorError>)
      modifies this
      ensures connections == old(connections)
      ensures actions == old(actions) + MigrateAll(connections, fake).0
      ensures r == MigrateAll(connections, fake).1
    {
      var trace;
      trace, r := MigrateTrace(connections, fake);
      actions := actions + trace;
    }
  }

  /** The loop of `migrate` over the given databases: what it does to them,
      in order, and how it ends. */
  method MigrateTrace(dbs: seq<Database>, fake: bool) returns (trace: seq<Action>, r: Outcome<NavigatorError>)
    ensures trace == MigrateAll(dbs, fake).0 && r == MigrateAll(dbs, fake).1
  {
    trace := [];
    var rest := dbs;
    assert trace + MigrateAll(dbs, fake).0 == MigrateAll(dbs, fake).0;
    while rest != []
      invariant MigrateAll(dbs, fake).0 == trace + MigrateAll(rest, fake).0
      invariant MigrateAll(dbs, fake).1 == MigrateAll(rest, fake).1
    {
      var db := rest[0];
      trace := trace + [Prepared(db.alias)];
      if db.conn.conflicts != [] {
        return trace, Fail(ConflictsDetected(db.conn.conflicts));
      }
      trace := trace + [Migrated(db.alias, Leaves(db.conn.graph), fake)];
      rest := rest[1..];
    }
    return trace, Pass;
  }

  /** The migration plan of one connection, walking every leaf's forwards
      plan and remembering every migration visited. */
  method MigrationPlan(c: Connection) returns (plan: seq<Key>)
    ensures plan == Plan(c)
  {
    plan := [];
    var visited: set<Key> := {};
    ghost var walked: seq<Key> := [];
    var l := 0;
    while l < |c.graph|
      invariant 0 <= l <= |c.graph|
      invariant walked == Seqs.Flatten(Plans(c.graph)[..l])
      invariant forall k :: k in visited <==> k in walked
      invariant plan == Seqs.Where(Seqs.FirstOccurrences(walked), NotApplied(c))
    {
      assert Plans(c.graph)[..l + 1][..l] == Plans(c.graph)[..l];
      visited, plan := VisitForwards(c, c.graph[l].plan, walked, visited, plan);
      walked := walked + c.graph[l].plan;
      l := l + 1;
    }
    assert Plans(c.graph)[..|c.graph|] == Plans(c.graph);
  }

  /** The inner loop of the plan: walks one leaf's forwards plan, skipping
      migrations already visited and keeping the unapplied ones. */
  method VisitForwards(c: Connection, forwards: seq<Key>, ghost walked: seq<Key>, visited0: set<Key>, plan0: seq<Key>)
    returns (visited: set<Key>, plan: seq<Key>)
    requires forall k :: k in visited0 <==> k in walked
    requires plan0 == Seqs.Where(Seqs.FirstOccurrences(walked), NotApplied(c))
    ensures forall k :: k in visited <==> k in walked + forwards
    ensures plan == Seqs.Where(Seqs.FirstOccurrences(walked + forwards), NotApplied(c))
  {
    visited, plan := visited0, plan0;
    ghost var seen := walked;
    var m := 0;
    while m < |forwards|
      invariant 0 <= m <= |forwards|
      invariant seen == walked + forwards[..m]
      invariant forall k :: k in visited <==> k in seen
      invariant plan == Seqs.Where(Seqs.FirstOccurrences(seen), NotApplied(c))
    {
      var migration := forwards[m];
      PlanStep(seen, migration, NotApplied(c));
      assert NotApplied(c)(migration) <==> migration !in c.applied;
      assert migration in visited <==> migration in seen;
      if migration !in visited {
        if migration !in c.applied {
          plan := plan + [migration];
        }
        visited := visited + {migration};
      }
      seen := seen + [migration];
      assert seen == walked + forwards[..m + 1];
      m := m + 1;
    }
    assert forwards[..|forwards|] == forwards;
  }

  /** Walking one more migration adds it to the plan exactly when it was
      not visited before and passes the filter. */
  lemma PlanStep(walked: seq<Key>, m: Key, p: Key -> bool)
    ensures Seqs.Where(Seqs.FirstOccurrences(walked + [m]), p)
         == Seqs.Where(Seqs.FirstOccurrences(walked), p) + (if m !in walked && p(m) then [m] else [])
  {
    var next := walked + [m];
    assert next[..|next| - 1] == walked;
    if m !in walked {
      var fo := Seqs.FirstOccurrences(walked) + [m];
      assert fo[..|fo| - 1] == Seqs.FirstOccurrences(walked);
    }
  }
}
