/**
 * The order in which schema statements reach PostgreSQL
 * (ordered_postgres_statements in backend/src/db.rs). A statement is its text,
 * the table it creates, if any, and the tables it references.
 */
module SchemaOrder {
  import opened Wrappers
  import opened Sorting

  type Name = string

  datatype Statement = Statement(text: string, creates: Option<Name>, references: seq<Name>)

  type Tables = map<Name, Statement>

  /** Collecting by table name: of two statements that create the same table the later one stays. */
  function TablesOf(statements: seq<Statement>): Tables {
    if |statements| == 0 then map[]
    else
      var earlier, last := TablesOf(statements[..|statements| - 1]), statements[|statements| - 1];
      if last.creates.Some? then earlier[last.creates.value := last] else earlier
  }

  /** Everything else, in the order given. */
  function RestOf(statements: seq<Statement>): (r: seq<Statement>)
    ensures forall s :: s in r ==> s in statements && s.creates.None?
  {
    if |statements| == 0 then []
    else
      var earlier, last := RestOf(statements[..|statements| - 1]), statements[|statements| - 1];
      if last.creates.Some? then earlier else earlier + [last]
  }

  /** `a` cannot be created before `b`. */
  predicate Needs(known: Tables, a: Name, b: Name) {
    a in known && b in known && b in known[a].references
  }

  /** A chain of tables in which each needs the next and the last needs the first; one table needing itself included. */
  ghost predicate IsCycle(known: Tables, cycle: seq<Name>) {
    && |cycle| > 0
    && (forall i :: 0 <= i < |cycle| - 1 ==> Needs(known, cycle[i], cycle[i + 1]))
    && Needs(known, cycle[|cycle| - 1], cycle[0])
  }

  ghost predicate HasCycle(known: Tables) {
    exists cycle :: IsCycle(known, cycle)
  }

  /** Every name comes after all the names it needs. */
  ghost predicate Topological(known: Tables, names: seq<Name>) {
    forall i, b :: 0 <= i < |names| && Needs(known, names[i], b) ==> b in names[..i]
  }

  predicate Ready(known: Tables, emitted: set<Name>, table: Name)
    requires table in known
  {
    forall d :: d in known[table].references ==> d !in known || d in emitted
  }

  function Named(known: Tables, names: seq<Name>): (r: seq<Statement>)
    requires forall n :: n in names ==> n in known
    ensures |r| == |names| && forall i :: 0 <= i < |r| ==> r[i] == known[names[i]]
  {
    seq(|names|, i requires 0 <= i < |names| => known[names[i]])
  }

  /** The names of all tables, each once. */
  ghost predicate NamesEach(known: Tables, names: seq<Name>) {
    NoRepeats(names) && forall n :: n in names <==> n in known
  }

  method OrderedStatements(statements: seq<Statement>)
    returns (ordered: seq<Statement>, cyclic: bool, names: seq<Name>)
    ensures NamesEach(TablesOf(statements), names)
    ensures ordered == Named(TablesOf(statements), names) + RestOf(statements)
    ensures !cyclic ==> Topological(TablesOf(statements), names)
    ensures cyclic <==> HasCycle(TablesOf(statements))
  {
    ghost var known := TablesOf(statements);
    var tables, rest := Partition(statements);
    if |tables| == 0 {
      NothingToOrder(known);
      return rest, false, [];
    }
    var created;
    created, cyclic, names := EmitTables(tables);
    ordered := created + rest;
  }

  method Partition(statements: seq<Statement>) returns (tables: Tables, rest: seq<Statement>)
    ensures tables == TablesOf(statements) && rest == RestOf(statements)
  {
    tables, rest := map[], [];
    var i := 0;
    while i < |statements|
      invariant 0 <= i <= |statements|
      invariant tables == TablesOf(statements[..i]) && rest == RestOf(statements[..i])
    {
      assert statements[..i + 1][..i] == statements[..i];
      var statement := statements[i];
      if statement.creates.Some? {
        tables := tables[statement.creates.value := statement];
      } else {
        rest := rest + [statement];
      }
      i := i + 1;
    }
    assert statements[..i] == statements;
  }

  /** The tables split into those emitted, in `names`, and those still waiting. */
  ghost predicate Emitting(known: Tables, tables: Tables, emitted: set<Name>, names: seq<Name>) {
    && tables == known - emitted && emitted <= known.Keys
    && NoRepeats(names) && (forall n :: n in names <==> n in emitted)
  }

  lemma EmitNext(known: Tables, tables: Tables, emitted: set<Name>, names: seq<Name>, table: Name)
    requires Emitting(known, tables, emitted, names) && table in tables
    ensures Emitting(known, tables - {table}, emitted + {table}, names + [table])
    ensures |tables - {table}| < |tables|
    ensures forall n :: n in names ==> n in known
    ensures Named(known, names + [table]) == Named(known, names) + [tables[table]]
  {
    var after := tables - {table};
    assert after[table := tables[table]] == tables;
  }

  lemma AllEmitted(known: Tables, emitted: set<Name>, names: seq<Name>)
    requires Emitting(known, map[], emitted, names)
    ensures NamesEach(known, names)
  {
    assert forall n :: n in known && n !in emitted ==> n in known - emitted;
  }

  /** The loop: any ready table next, and all that remain when none is. */
  method EmitTables(known: Tables) returns (created: seq<Statement>, cyclic: bool, names: seq<Name>)
    ensures NamesEach(known, names) && created == Named(known, names)
    ensures !cyclic ==> Topological(known, names)
    ensures cyclic <==> HasCycle(known)
  {
    hide HasCycle, Ready, Topological, NoRepeats;
    var tables := known;
    var emitted: set<Name> := {};
    created, cyclic, names := [], false, [];
    NothingEmitted(known);
    while tables != map[]
      invariant Emitting(known, tables, emitted, names) && created == Named(known, names)
      invariant Topological(known, names)
      decreases |tables|
    {
      if table :| table in tables && Ready(known, emitted, table) {
        ReadyKeepsOrder(known, names, emitted, table);
        EmitNext(known, tables, emitted, names, table);
        hide Emitting;
        created := created + [tables[table]];
        names := names + [table];
        emitted := emitted + {table};
        tables := tables - {table};
      } else {
        NoneReady(known, tables, emitted, names);
        cyclic := true;
        created, names := EmitAll(known, tables, created, names);
        return;
      }
    }
    AllEmitted(known, emitted, names);
    TopologicalHasNoCycle(known, names);
  }

  lemma NoneReady(known: Tables, tables: Tables, emitted: set<Name>, names: seq<Name>)
    requires Emitting(known, tables, emitted, names) && tables != map[]
    requires forall t :: t in tables ==> !Ready(known, emitted, t)
    ensures HasCycle(known)
  {
    assert emitted == known.Keys - tables.Keys;
    StuckHasCycle(known, tables.Keys);
  }

  lemma NothingEmitted(known: Tables)
    ensures Topological(known, []) && Emitting(known, known, {}, [])
  {
    assert known - {} == known;
  }

  lemma ReadyKeepsOrder(known: Tables, names: seq<Name>, emitted: set<Name>, table: Name)
    requires table in known && Ready(known, emitted, table) && Topological(known, names)
    requires forall n :: n in names <==> n in emitted
    ensures Topological(known, names + [table])
  {
    var longer := names + [table];
    forall i, b | 0 <= i < |longer| && Needs(known, longer[i], b) ensures b in longer[..i] {
      if i < |names| {
        assert longer[..i] == names[..i];
      } else {
        assert longer[..i] == names;
      }
    }
  }

  /** The fallback: the remaining statements in whatever order the hash map yields them. */
  method EmitAll(known: Tables, remaining: Tables, before: seq<Statement>, named: seq<Name>)
    returns (created: seq<Statement>, names: seq<Name>)
    requires forall n :: n in remaining ==> n in known && remaining[n] == known[n]
    requires NoRepeats(named) && (forall n :: n in named ==> n in known) && before == Named(known, named)
    requires forall n :: n in named ==> n !in remaining
    ensures NoRepeats(names) && (forall n :: n in names <==> n in named || n in remaining)
    ensures created == Named(known, names)
  {
    created, names := before, named;
    var tables := remaining;
    while tables != map[]
      invariant tables.Keys <= remaining.Keys && forall n :: n in tables ==> tables[n] == known[n]
      invariant NoRepeats(names) && forall n :: n in names <==> n in named || (n in remaining && n !in tables)
      invariant created == Named(known, names)
      decreases |tables|
    {
      var table :| table in tables;
      created := created + [tables[table]];
      names := names + [table];
      tables := tables - {table};
    }
  }

  lemma NothingToOrder(known: Tables)
    requires |known| == 0
    ensures NamesEach(known, []) && Topological(known, []) && !HasCycle(known)
  {
    assert known == map[];
    assert forall cycle :: IsCycle(known, cycle) ==> cycle[0] in known;
  }

  // ---- the fallback and cycles ----

  ghost predicate NeedsWithin(known: Tables, stuck: set<Name>, t: Name) {
    exists d :: d in stuck && Needs(known, t, d)
  }

  /** A walk along needs inside `stuck`. */
  ghost predicate Walk(known: Tables, stuck: set<Name>, walk: seq<Name>) {
    && (forall i :: 0 <= i < |walk| ==> walk[i] in stuck)
    && forall i :: 0 <= i < |walk| - 1 ==> Needs(known, walk[i], walk[i + 1])
  }

  lemma NextNeed(known: Tables, stuck: set<Name>, t: Name) returns (d: Name)
    requires NeedsWithin(known, stuck, t)
    ensures d in stuck && Needs(known, t, d)
  {
    d :| d in stuck && Needs(known, t, d);
  }

  lemma {:induction false} WalkExists(known: Tables, stuck: set<Name>, length: nat) returns (walk: seq<Name>)
    requires stuck != {} && stuck <= known.Keys && length > 0
    requires forall t :: t in stuck ==> NeedsWithin(known, stuck, t)
    ensures |walk| == length && Walk(known, stuck, walk)
  {
    hide NeedsWithin, Needs;
    if length == 1 {
      var t :| t in stuck;
      walk := [t];
    } else {
      var shorter := WalkExists(known, stuck, length - 1);
      var next := NextNeed(known, stuck, shorter[|shorter| - 1]);
      walk := shorter + [next];
    }
  }

  lemma {:induction false} Pigeonhole(s: seq<Name>, holes: set<Name>) returns (i: nat, j: nat)
    requires |s| > |holes| && forall k :: 0 <= k < |s| ==> s[k] in holes
    ensures i < j < |s| && s[i] == s[j]
    decreases |s|
  {
    var last := |s| - 1;
    if k :| 0 <= k < last && s[k] == s[last] {
      i, j := k, last;
    } else {
      i, j := Pigeonhole(s[..last], holes - {s[last]});
    }
  }

  /** When no remaining table is ready, the remaining tables hold a cycle. */
  lemma StuckHasCycle(known: Tables, stuck: set<Name>)
    requires stuck != {} && stuck <= known.Keys
    requires forall t :: t in stuck ==> !Ready(known, known.Keys - stuck, t)
    ensures HasCycle(known)
  {
    hide Needs, NeedsWithin, Ready, HasCycle;
    forall t | t in stuck ensures NeedsWithin(known, stuck, t) {
      UnreadyNeedsWithin(known, stuck, t);
    }
    var walk := WalkExists(known, stuck, |stuck| + 1);
    var i, j := Pigeonhole(walk, stuck);
    LoopIsCycle(known, stuck, walk, i, j);
  }

  lemma UnreadyNeedsWithin(known: Tables, stuck: set<Name>, t: Name)
    requires stuck <= known.Keys && t in stuck && !Ready(known, known.Keys - stuck, t)
    ensures NeedsWithin(known, stuck, t)
  {
    var d :| d in known[t].references && d in known && d !in known.Keys - stuck;
    assert Needs(known, t, d);
  }

  lemma LoopIsCycle(known: Tables, stuck: set<Name>, walk: seq<Name>, i: nat, j: nat)
    requires Walk(known, stuck, walk) && i < j < |walk| && walk[i] == walk[j]
    ensures HasCycle(known)
  {
    hide Needs;
    var cycle := walk[i..j];
    forall k | 0 <= k < |cycle| - 1 ensures Needs(known, cycle[k], cycle[k + 1]) {
      assert cycle[k] == walk[i + k] && cycle[k + 1] == walk[i + k + 1];
    }
    assert Needs(known, walk[j - 1], walk[j - 1 + 1]);
    assert IsCycle(known, cycle);
  }

  function IndexOf(names: seq<Name>, n: Name): (i: nat)
    requires n in names
    ensures i < |names| && names[i] == n
  {
    if names[0] == n then 0 else 1 + IndexOf(names[1..], n)
  }

  lemma NeedsComeEarlier(known: Tables, names: seq<Name>, a: Name, b: Name)
    requires Topological(known, names) && NamesEach(known, names) && Needs(known, a, b)
    ensures IndexOf(names, b) < IndexOf(names, a)
  {
    var i := IndexOf(names, a);
    assert b in names[..i];
    var k :| 0 <= k < i && names[k] == b;
    assert IndexOf(names, b) == k;
  }

  lemma {:induction false} CycleDescends(known: Tables, names: seq<Name>, cycle: seq<Name>, k: nat)
    requires Topological(known, names) && NamesEach(known, names) && IsCycle(known, cycle) && k < |cycle|
    ensures cycle[0] in names && cycle[k] in names
    ensures IndexOf(names, cycle[k]) + k <= IndexOf(names, cycle[0])
  {
    if k == 0 {
      assert Needs(known, cycle[|cycle| - 1], cycle[0]);
    } else {
      CycleDescends(known, names, cycle, k - 1);
      NeedsComeEarlier(known, names, cycle[k - 1], cycle[k]);
    }
  }

  lemma TopologicalHasNoCycle(known: Tables, names: seq<Name>)
    requires Topological(known, names) && NamesEach(known, names)
    ensures !HasCycle(known)
  {
    if HasCycle(known) {
      var cycle :| IsCycle(known, cycle);
      var last := |cycle| - 1;
      CycleDescends(known, names, cycle, last);
      NeedsComeEarlier(known, names, cycle[last], cycle[0]);
      assert false;
    }
  }

  // ---- what is dropped ----

  ghost predicate DistinctTables(statements: seq<Statement>) {
    forall i, j | 0 <= i < j < |statements| ::
      statements[i].creates.Some? ==> statements[i].creates != statements[j].creates
  }

  /** With distinct table names the batch loses nothing: it is split, never cut. */
  lemma {:induction false} EveryStatementSurvives(statements: seq<Statement>, s: Statement)
    requires DistinctTables(statements) && s in statements
    ensures if s.creates.Some?
      then s.creates.value in TablesOf(statements) && TablesOf(statements)[s.creates.value] == s
      else s in RestOf(statements)
  {
    var init, last := statements[..|statements| - 1], statements[|statements| - 1];
    assert statements == init + [last];
    if s != last {
      assert DistinctTables(init);
      EveryStatementSurvives(init, s);
      var i :| 0 <= i < |init| && init[i] == s;
      assert statements[i].creates.Some? ==> statements[i].creates != statements[|statements| - 1].creates;
    }
  }

  /** Nothing is invented either: a table's statement is one of the batch, and creates that table. */
  lemma {:induction false} TablesComeFromBatch(statements: seq<Statement>, n: Name)
    requires n in TablesOf(statements)
    ensures TablesOf(statements)[n] in statements && TablesOf(statements)[n].creates == Some(n)
  {
    var init, last := statements[..|statements| - 1], statements[|statements| - 1];
    assert statements == init + [last];
    if last.creates != Some(n) {
      TablesComeFromBatch(init, n);
    }
  }

  /** The ordered batch is a permutation of the batch exactly when no table is created twice. */
  lemma OrderedIsPermutationExactly(statements: seq<Statement>, names: seq<Name>)
    requires NamesEach(TablesOf(statements), names)
    ensures multiset(Named(TablesOf(statements), names) + RestOf(statements)) == multiset(statements)
      <==> DistinctTables(statements)
  {
    hide TablesOf, RestOf, Named;
    if DistinctTables(statements) {
      forall s: Statement
        ensures multiset(Named(TablesOf(statements), names) + RestOf(statements))[s] == multiset(statements)[s]
      {
        DistinctCounts(statements, names, s);
      }
    } else {
      var i, j :| 0 <= i < j < |statements|
        && statements[i].creates.Some? && statements[i].creates == statements[j].creates;
      TwiceInBatch(statements, i, j);
      ResultCounts(statements, names, statements[i]);
      ResultCounts(statements, names, statements[j]);
    }
  }

  lemma DistinctCounts(statements: seq<Statement>, names: seq<Name>, s: Statement)
    requires NamesEach(TablesOf(statements), names) && DistinctTables(statements)
    ensures multiset(Named(TablesOf(statements), names) + RestOf(statements))[s] == multiset(statements)[s]
  {
    hide TablesOf, RestOf, Named;
    ResultCounts(statements, names, s);
    if s.creates.Some? {
      CreatedOnce(statements, s);
      if s in statements {
        EveryStatementSurvives(statements, s);
      } else if s.creates.value in TablesOf(statements) {
        TablesComeFromBatch(statements, s.creates.value);
      }
    }
  }

  /** Each table's surviving statement occurs once, every other statement as often as in the batch. */
  lemma ResultCounts(statements: seq<Statement>, names: seq<Name>, s: Statement)
    requires NamesEach(TablesOf(statements), names)
    ensures var known := TablesOf(statements);
      multiset(Named(known, names) + RestOf(statements))[s]
        == if s.creates.None? then multiset(statements)[s]
           else if s.creates.value in known && known[s.creates.value] == s then 1 else 0
  {
    var known := TablesOf(statements);
    var created := Named(known, names);
    RestKeepsCounts(statements, s);
    forall n | n in known ensures known[n] in statements && known[n].creates == Some(n) {
      TablesComeFromBatch(statements, n);
    }
    forall i, j | 0 <= i < j < |created| ensures created[i] != created[j] {
      assert names[i] in known && names[j] in known;
    }
    OnceEach(created, s);
    if s in created {
      var i :| 0 <= i < |created| && created[i] == s;
      assert names[i] in known;
    } else if s.creates.Some? && s.creates.value in known {
      var i :| 0 <= i < |names| && names[i] == s.creates.value;
      assert created[i] == known[s.creates.value];
    }
  }

  lemma TwiceInBatch(statements: seq<Statement>, i: nat, j: nat)
    requires i < j < |statements|
    ensures multiset(statements)[statements[i]] >= 1 && multiset(statements)[statements[j]] >= 1
    ensures statements[i] == statements[j] ==> multiset(statements)[statements[i]] >= 2
  {
    assert statements == statements[..j] + statements[j..];
    assert statements[i] == statements[..j][i] && statements[j] == statements[j..][0];
    assert statements[i] in multiset(statements[..j]) && statements[j] in multiset(statements[j..]);
  }

  lemma {:induction false} RestKeepsCounts(statements: seq<Statement>, s: Statement)
    ensures multiset(RestOf(statements))[s] == if s.creates.Some? then 0 else multiset(statements)[s]
  {
    if |statements| > 0 {
      var init, last := statements[..|statements| - 1], statements[|statements| - 1];
      assert statements == init + [last];
      RestKeepsCounts(init, s);
    }
  }

  lemma {:induction false} CreatedOnce(statements: seq<Statement>, s: Statement)
    requires DistinctTables(statements) && s.creates.Some?
    ensures multiset(statements)[s] == if s in statements then 1 else 0
  {
    if |statements| > 0 {
      var init, last := statements[..|statements| - 1], statements[|statements| - 1];
      assert statements == init + [last];
      assert DistinctTables(init);
      CreatedOnce(init, s);
      if s in init {
        var i :| 0 <= i < |init| && init[i] == s;
        assert statements[i].creates != statements[|statements| - 1].creates;
      }
    }
  }

  /** The last statement for a table is the one that stays. */
  lemma {:induction false} LastOneStays(statements: seq<Statement>, i: nat)
    requires i < |statements| && statements[i].creates.Some?
    requires forall j :: i < j < |statements| ==> statements[j].creates != statements[i].creates
    ensures var n := statements[i].creates.value;
      n in TablesOf(statements) && TablesOf(statements)[n] == statements[i]
  {
    if i < |statements| - 1 {
      LastOneStays(statements[..|statements| - 1], i);
    }
  }

  /** Everything that creates no table keeps its place among the rest: these are the positions it is taken from. */
  lemma {:induction false} RestKeepsOrder(statements: seq<Statement>) returns (positions: seq<nat>)
    ensures |positions| == |RestOf(statements)|
    ensures forall k :: 0 <= k < |positions| ==>
      positions[k] < |statements| && RestOf(statements)[k] == statements[positions[k]]
    ensures forall k, l :: 0 <= k < l < |positions| ==> positions[k] < positions[l]
    ensures forall i :: 0 <= i < |statements| && statements[i].creates.None? ==> i in positions
  {
    positions := [];
    if |statements| > 0 {
      var n := |statements| - 1;
      positions := RestKeepsOrder(statements[..n]);
      assert forall i :: 0 <= i < n ==> statements[..n][i] == statements[i];
      if statements[n].creates.None? {
        positions := positions + [n];
      }
    }
  }

  /** Two statements for one table: the earlier one is lost. */
  lemma RepeatedTableIsLost() returns (statements: seq<Statement>)
    ensures |statements| == 2 && statements[0] != statements[1]
    ensures TablesOf(statements) == map["t" := statements[1]] && RestOf(statements) == []
  {
    statements := [Statement("first", Some("t"), []), Statement("second", Some("t"), [])];
    assert statements[..1] == [statements[0]] && statements[..1][..0] == [];
    assert TablesOf([]) == map[] && RestOf([]) == [];
    assert TablesOf(statements[..1]) == map["t" := statements[0]];
  }
}
