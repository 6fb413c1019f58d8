/**
 * The data type half of the id-to-udi migration (`IdToUdiMigration`):
 * choosing the data types to migrate (the include and exclude lists, one
 * migrator per editor alias, only the data types their migrator says need
 * it), staging a property migration for each, rewriting the data types, and
 * dropping the staged migration of every data type whose rewrite fails; and
 * the pre-value comparison that decides whether a rewrite is saved. The data
 * type service and the migrator factory are parameters; what is asked of
 * them is returned.
 */
module DataTypeMigration {
  import opened Wrappers
  import opened Text
  import opened Platform
  import opened Transforms
  import opened Sets
  import opened TypeMappings

  /** `DataTypeDatabaseType`. */
  datatype DatabaseType = Integer | Date | Nvarchar | Ntext | Decimal

  /** A stored pre-value: its text (possibly null), row id and sort order. */
  datatype PreValue = PreValue(value: Option<string>, id: int, sortOrder: int)

  /** A pre-value dictionary; an entry may be null. */
  type PreValues = map<string, Option<PreValue>>

  /** What is read and written of a data type definition. */
  datatype DataTypeDefinition = DataTypeDefinition(id: int, name: string, editorAlias: string, databaseType: DatabaseType)

  /** The answers of a data type migrator; `Err` is a thrown exception. */
  datatype Migrator = Migrator(
    needsMigration: (DataTypeDefinition, PreValues) -> bool,
    propertyMigration: (DataTypeDefinition, PreValues, bool) -> Result<Option<PropertyMigration>>,
    newDatabaseType: (DataTypeDefinition, PreValues) -> Result<DatabaseType>,
    newEditorAlias: (DataTypeDefinition, PreValues) -> Result<string>,
    newPreValues: (DataTypeDefinition, PreValues) -> Result<Option<PreValues>>)

  /** A data type with the pre-values read for it. */
  type Staged = (DataTypeDefinition, PreValues)

  /** `DataTypeMigrations`: a migrator and the data types it will migrate. */
  datatype Migrations = Migrations(migrator: Migrator, dataTypes: seq<Staged>)

  /** What the migration is constructed with, and what the services answer. */
  datatype Setup = Setup(
    included: Option<seq<string>>,
    excluded: Option<seq<string>>,
    preValuesOf: DataTypeDefinition -> Option<PreValues>,   // `GetPreValues`: `None` when reading throws
    create: string -> Option<Migrator>,                     // `CreateMigrator` for an editor alias
    retainInvalidData: bool,
    saveThrows: (DataTypeDefinition, PreValues) -> bool)     // whether `SaveDataTypeAndPreValues` throws

  // ------------------------------------------------------------ the filter

  /** A data type is left alone when its name is excluded, or an include list is given without it; names compare ignoring case. */
  predicate Skipped(name: string, included: Option<seq<string>>, excluded: Option<seq<string>>)
  {
    (excluded.Some? && ContainsIgnoreCase(excluded.value, name))
    || (included.Some? && !ContainsIgnoreCase(included.value, name))
  }

  /** The filter sees names only up to case; an exclusion wins over an inclusion; with no lists nothing is skipped. */
  lemma SkippedCases(name: string, other: string, included: Option<seq<string>>, excluded: Option<seq<string>>)
    requires EqualsIgnoreCase(name, other)
    ensures Skipped(name, included, excluded) == Skipped(other, included, excluded)
    ensures excluded.Some? && name in excluded.value ==> Skipped(name, included, excluded)
    ensures included.None? && excluded.None? ==> !Skipped(name, included, excluded)
    ensures included.Some? && name in included.value && (excluded.None? || !ContainsIgnoreCase(excluded.value, name)) ==>
      !Skipped(name, included, excluded)
  {
    if excluded.Some? && name in excluded.value {
      var i :| 0 <= i < |excluded.value| && excluded.value[i] == name;
      assert EqualsIgnoreCase(excluded.value[i], name);
    }
    if included.Some? && name in included.value {
      var i :| 0 <= i < |included.value| && included.value[i] == name;
      assert EqualsIgnoreCase(included.value[i], name);
    }
  }

  // ------------------------------------------------------------ FindDataTypeMigrations

  /** The data types the loop hands on: not skipped, and with pre-values that could be read, in order. */
  function Eligible(setup: Setup, types: seq<DataTypeDefinition>): seq<Staged>
  {
    if types == [] then []
    else
      var t := types[|types| - 1];
      Eligible(setup, types[..|types| - 1])
      + (if !Skipped(t.name, setup.included, setup.excluded) && setup.preValuesOf(t).Some? then [(t, setup.preValuesOf(t).value)] else [])
  }

  /** Exactly the data types that pass the filter and whose pre-values could be read are handed on, with those pre-values. */
  lemma {:induction false} EligibleMembers(setup: Setup, types: seq<DataTypeDefinition>)
    ensures forall d :: d in Eligible(setup, types) <==>
      d.0 in types && !Skipped(d.0.name, setup.included, setup.excluded) && setup.preValuesOf(d.0) == Some(d.1)
  {
    if types != [] {
      var front := types[..|types| - 1];
      EligibleMembers(setup, front);
      assert types == front + [types[|types| - 1]];
    }
  }

  lemma EligibleSnoc(setup: Setup, types: seq<DataTypeDefinition>, i: int)
    requires 0 <= i < |types|
    ensures Eligible(setup, types[..i + 1]) == Eligible(setup, types[..i])
      + (if !Skipped(types[i].name, setup.included, setup.excluded) && setup.preValuesOf(types[i]).Some?
         then [(types[i], setup.preValuesOf(types[i]).value)] else [])
  {
    assert types[..i + 1][..i] == types[..i];
  }

  /** The migration dictionary: its keys (lower-cased aliases) in insertion order, and their entries (null when no migrator exists). */
  datatype Table = Table(order: seq<string>, known: map<string, Option<Migrations>>)

  /**
   * `UpdateDataTypeMigrations(dataType, knownMigrations)`: the dictionary
   * afterwards, and the alias the factory was asked for, if it was.
   */
  function Update(t: Table, d: Staged, create: string -> Option<Migrator>): (Table, Option<string>)
  {
    var k := Lower(d.0.editorAlias);
    var entered :=
      if k in t.known then (t, None)
      else
        var m := create(d.0.editorAlias);
        (Table(t.order + [k], t.known[k := if m.None? then None else Some(Migrations(m.value, []))]), Some(d.0.editorAlias));
    var m := entered.0.known[k];
    if m.Some? && m.value.migrator.needsMigration(d.0, d.1)
    then (entered.0.(known := entered.0.known[k := Some(m.value.(dataTypes := m.value.dataTypes + [d]))]), entered.1)
    else entered
  }

  /** The dictionary after the loop over `s`, and the aliases the factory was asked for, in order. */
  function Build(s: seq<Staged>, create: string -> Option<Migrator>): (Table, seq<string>)
  {
    if s == [] then (Table([], map[]), [])
    else
      var before := Build(s[..|s| - 1], create);
      var after := Update(before.0, s[|s| - 1], create);
      (after.0, before.1 + (if after.1.Some? then [after.1.value] else []))
  }

  /** The data types of `s` whose alias has the key `k`, in order. */
  function WithKey(s: seq<Staged>, k: string): (r: seq<Staged>)
  {
    if s == [] then []
    else WithKey(s[..|s| - 1], k) + (if Lower(s[|s| - 1].0.editorAlias) == k then [s[|s| - 1]] else [])
  }

  /** The data types of `s` that `m` says need migrating, in order. */
  function Needing(m: Migrator, s: seq<Staged>): (r: seq<Staged>)
  {
    if s == [] then []
    else Needing(m, s[..|s| - 1]) + (if m.needsMigration(s[|s| - 1].0, s[|s| - 1].1) then [s[|s| - 1]] else [])
  }

  lemma WithKeySnoc(front: seq<Staged>, d: Staged, k: string)
    ensures WithKey(front + [d], k) == WithKey(front, k) + (if Lower(d.0.editorAlias) == k then [d] else [])
  {
    assert (front + [d])[..|front|] == front;
  }

  lemma NeedingSnoc(m: Migrator, front: seq<Staged>, d: Staged)
    ensures Needing(m, front + [d]) == Needing(m, front) + (if m.needsMigration(d.0, d.1) then [d] else [])
  {
    assert (front + [d])[..|front|] == front;
  }

  lemma {:induction false} WithKeyMembers(s: seq<Staged>, k: string)
    ensures forall d :: d in WithKey(s, k) <==> d in s && Lower(d.0.editorAlias) == k
  {
    if s != [] {
      WithKeyMembers(s[..|s| - 1], k);
      assert s == s[..|s| - 1] + [s[|s| - 1]];
    }
  }

  lemma {:induction false} NeedingMembers(m: Migrator, s: seq<Staged>)
    ensures forall d :: d in Needing(m, s) <==> d in s && m.needsMigration(d.0, d.1)
  {
    if s != [] {
      NeedingMembers(m, s[..|s| - 1]);
      assert s == s[..|s| - 1] + [s[|s| - 1]];
    }
  }

  /**
   * What the entry of a key should be: the migrator the factory makes for
   * the first data type with that key, and, in order, every data type with
   * that key that the migrator says needs migrating; null when the factory
   * has none.
   */
  function Expected(s: seq<Staged>, k: string, create: string -> Option<Migrator>): Option<Migrations>
    requires WithKey(s, k) != []
  {
    EntryFor(WithKey(s, k), create)
  }

  /** The entry made for the data types `w`, which share one key. */
  function EntryFor(w: seq<Staged>, create: string -> Option<Migrator>): Option<Migrations>
    requires w != []
  {
    var m := create(w[0].0.editorAlias);
    if m.None? then None else Some(Migrations(m.value, Needing(m.value, w)))
  }

  /** The entry entered for a key first seen with `d`, before `d` is staged. */
  function Fresh(d: Staged, create: string -> Option<Migrator>): Option<Migrations>
  {
    var m := create(d.0.editorAlias);
    if m.None? then None else Some(Migrations(m.value, []))
  }

  /** The entry `e` with `d` staged when its migrator says `d` needs migrating. */
  function Enter(e: Option<Migrations>, d: Staged): Option<Migrations>
  {
    if e.Some? && e.value.migrator.needsMigration(d.0, d.1) then Some(e.value.(dataTypes := e.value.dataTypes + [d])) else e
  }

  lemma EntryForSnoc(w: seq<Staged>, d: Staged, create: string -> Option<Migrator>)
    ensures EntryFor(w + [d], create) == Enter(if w == [] then Fresh(d, create) else EntryFor(w, create), d)
  {
    assert (w + [d])[0] == if w == [] then d else w[0];
    var m := create((w + [d])[0].0.editorAlias);
    var base := if w == [] then Fresh(d, create) else EntryFor(w, create);
    if m.Some? {
      NeedingSnoc(m.value, w, d);
      assert base == Some(Migrations(m.value, Needing(m.value, w)));
      if m.value.needsMigration(d.0, d.1) {
        assert Enter(base, d) == Some(Migrations(m.value, Needing(m.value, w) + [d]));
      } else {
        assert Needing(m.value, w + [d]) == Needing(m.value, w);
        assert Enter(base, d) == base;
      }
    } else {
      assert base == None;
    }
  }

  /** The keys of the dictionary: in first-seen order, once each, exactly the keys some data type has. */
  ghost predicate KeysShape(s: seq<Staged>, t: Table)
  {
    NoDuplicates(t.order)
    && (forall k :: k in t.order <==> k in t.known)
    && (forall k :: k in t.known <==> WithKey(s, k) != [])
  }

  /** The factory was asked once per key, in key order, for the first alias with that key. */
  ghost predicate AskedShape(s: seq<Staged>, t: Table, asked: seq<string>)
  {
    |asked| == |t.order|
    && forall i :: 0 <= i < |asked| ==> WithKey(s, t.order[i]) != [] && asked[i] == WithKey(s, t.order[i])[0].0.editorAlias
  }

  /** Every entry is the expected one. */
  ghost predicate EntriesShape(s: seq<Staged>, t: Table, create: string -> Option<Migrator>)
  {
    forall k :: k in t.known ==> WithKey(s, k) != [] && t.known[k] == Expected(s, k, create)
  }

  /** `u` and `a` are what one step of `UpdateDataTypeMigrations` makes of the keys of `t` for `d`. */
  ghost predicate SteppedKeys(t: Table, d: Staged, u: Table, a: Option<string>)
  {
    var k := Lower(d.0.editorAlias);
    u.order == (if k in t.known then t.order else t.order + [k])
    && a == (if k in t.known then None else Some(d.0.editorAlias))
    && u.known.Keys == t.known.Keys + {k}
  }

  /** `u` holds what one step of `UpdateDataTypeMigrations` makes of the entries of `t` for `d`. */
  ghost predicate SteppedEntries(t: Table, d: Staged, create: string -> Option<Migrator>, u: Table)
  {
    var k := Lower(d.0.editorAlias);
    k in u.known
    && (forall j :: j in t.known && j != k ==> j in u.known && u.known[j] == t.known[j])
    && u.known[k] == Enter(if k in t.known then t.known[k] else Fresh(d, create), d)
  }

  lemma UpdateFacts(t: Table, d: Staged, create: string -> Option<Migrator>)
    ensures SteppedKeys(t, d, Update(t, d, create).0, Update(t, d, create).1)
    ensures SteppedEntries(t, d, create, Update(t, d, create).0)
  {
  }

  lemma BuildSnoc(front: seq<Staged>, d: Staged, create: string -> Option<Migrator>)
    ensures Build(front + [d], create).0 == Update(Build(front, create).0, d, create).0
    ensures Build(front + [d], create).1 == Build(front, create).1
      + (if Update(Build(front, create).0, d, create).1.Some? then [Update(Build(front, create).0, d, create).1.value] else [])
  {
    assert (front + [d])[..|front|] == front;
  }

  lemma BuildStepKeys(front: seq<Staged>, d: Staged, t: Table, u: Table, a: Option<string>)
    requires KeysShape(front, t) && SteppedKeys(t, d, u, a)
    ensures KeysShape(front + [d], u)
  {
    var k := Lower(d.0.editorAlias);
    if k !in t.known {
      assert k !in t.order;
      assert NoDuplicates(u.order) by {
        assert forall i :: 0 <= i < |t.order| ==> u.order[i] == t.order[i] && t.order[i] != k;
      }
    }
    assert forall j :: j in u.order <==> j in u.known;
    forall j
      ensures WithKey(front + [d], j) == WithKey(front, j) + (if Lower(d.0.editorAlias) == j then [d] else [])
    {
      WithKeySnoc(front, d, j);
    }
  }

  lemma BuildStepAsked(front: seq<Staged>, d: Staged, t: Table, asked: seq<string>, u: Table, a: Option<string>)
    requires KeysShape(front, t) && AskedShape(front, t, asked) && SteppedKeys(t, d, u, a)
    ensures AskedShape(front + [d], u, asked + (if a.Some? then [a.value] else []))
  {
    var k := Lower(d.0.editorAlias);
    var asked' := asked + (if a.Some? then [a.value] else []);
    assert |asked'| == |u.order|;
    forall i | 0 <= i < |asked'|
      ensures WithKey(front + [d], u.order[i]) != [] && asked'[i] == WithKey(front + [d], u.order[i])[0].0.editorAlias
    {
      if i < |t.order| {
        WithKeySnoc(front, d, t.order[i]);
        assert u.order[i] == t.order[i] && asked'[i] == asked[i];
      } else {
        WithKeySnoc(front, d, k);
        assert k !in t.known && u.order[i] == k && asked'[i] == d.0.editorAlias;
        assert WithKey(front, k) == [];
        assert WithKey(front + [d], k) == [d];
      }
    }
  }

  /** The entry of the key `d` has, after the step for `d`. */
  lemma StepEntryOfKey(front: seq<Staged>, d: Staged, t: Table, create: string -> Option<Migrator>, u: Table)
    requires Lower(d.0.editorAlias) in t.known ==>
      WithKey(front, Lower(d.0.editorAlias)) != [] && t.known[Lower(d.0.editorAlias)] == Expected(front, Lower(d.0.editorAlias), create)
    requires Lower(d.0.editorAlias) !in t.known ==> WithKey(front, Lower(d.0.editorAlias)) == []
    requires SteppedEntries(t, d, create, u)
    ensures WithKey(front + [d], Lower(d.0.editorAlias)) != []
    ensures u.known[Lower(d.0.editorAlias)] == Expected(front + [d], Lower(d.0.editorAlias), create)
  {
    var k := Lower(d.0.editorAlias);
    WithKeySnoc(front, d, k);
    EntryForSnoc(WithKey(front, k), d, create);
  }

  /** The entry of any other key is untouched by the step for `d`. */
  lemma StepEntryOther(front: seq<Staged>, d: Staged, j: string, create: string -> Option<Migrator>)
    requires WithKey(front, j) != [] && Lower(d.0.editorAlias) != j
    ensures WithKey(front + [d], j) == WithKey(front, j)
    ensures Expected(front + [d], j, create) == Expected(front, j, create)
  {
    WithKeySnoc(front, d, j);
  }

  lemma BuildStepEntries(front: seq<Staged>, d: Staged, t: Table, create: string -> Option<Migrator>, u: Table)
    requires KeysShape(front, t) && EntriesShape(front, t, create) && SteppedEntries(t, d, create, u)
    requires u.known.Keys == t.known.Keys + {Lower(d.0.editorAlias)}
    ensures EntriesShape(front + [d], u, create)
  {
    var k := Lower(d.0.editorAlias);
    StepEntryOfKey(front, d, t, create, u);
    forall j | j in u.known && j != k
      ensures WithKey(front + [d], j) != [] && u.known[j] == Expected(front + [d], j, create)
    {
      assert j in t.known && u.known[j] == t.known[j];
      StepEntryOther(front, d, j, create);
    }
  }

  /**
   * After the loop: one key per distinct alias (ignoring case), in the order
   * first seen; each entry is the migrator made for the first data type with
   * that alias (null when the factory has none, and then nothing is staged
   * under it no matter how many data types share the alias) with the data
   * types that need migrating; and the factory is asked once per key.
   */
  lemma {:induction false} BuildCharacterised(s: seq<Staged>, create: string -> Option<Migrator>)
    ensures KeysShape(s, Build(s, create).0)
    ensures AskedShape(s, Build(s, create).0, Build(s, create).1)
    ensures EntriesShape(s, Build(s, create).0, create)
  {
    if s != [] {
      var front := s[..|s| - 1];
      var d := s[|s| - 1];
      assert s == front + [d];
      BuildCharacterised(front, create);
      BuildSnoc(front, d, create);
      var b := Build(front, create);
      var u := Update(b.0, d, create);
      UpdateFacts(b.0, d, create);
      BuildStepKeys(front, d, b.0, u.0, u.1);
      BuildStepAsked(front, d, b.0, b.1, u.0, u.1);
      BuildStepEntries(front, d, b.0, create, u.0);
    }
  }

  /** Each alias key is asked of the factory exactly once, remembered even when the factory has no migrator. */
  lemma CreatedOncePerAlias(s: seq<Staged>, create: string -> Option<Migrator>)
    ensures var b := Build(s, create);
      (forall i, j :: 0 <= i < j < |b.1| ==> Lower(b.1[i]) != Lower(b.1[j]))
      && (forall d :: d in s ==> exists i :: 0 <= i < |b.1| && Lower(b.1[i]) == Lower(d.0.editorAlias))
  {
    BuildCharacterised(s, create);
    var b := Build(s, create);
    forall i | 0 <= i < |b.1|
      ensures Lower(b.1[i]) == b.0.order[i]
    {
      WithKeyMembers(s, b.0.order[i]);
      assert WithKey(s, b.0.order[i])[0] in WithKey(s, b.0.order[i]);
    }
    forall d | d in s
      ensures exists i :: 0 <= i < |b.1| && Lower(b.1[i]) == Lower(d.0.editorAlias)
    {
      WithKeyMembers(s, Lower(d.0.editorAlias));
      assert d in WithKey(s, Lower(d.0.editorAlias));
      assert Lower(d.0.editorAlias) in b.0.order;
    }
  }

  /** `RemoveAll(m => m.Value == null)` and `Values`: the non-null entries in insertion order. */
  function Present(order: seq<string>, known: map<string, Option<Migrations>>): seq<Migrations>
  {
    if order == [] then []
    else
      var k := order[|order| - 1];
      Present(order[..|order| - 1], known) + (if k in known && known[k].Some? then [known[k].value] else [])
  }

  /** Removing the null entries leaves only migrations some key of the order holds. */
  lemma {:induction false} PresentFrom(order: seq<string>, known: map<string, Option<Migrations>>)
    ensures forall mg :: mg in Present(order, known) ==> exists k :: k in order && k in known && known[k] == Some(mg)
  {
    if order != [] {
      var front := order[..|order| - 1];
      var last := order[|order| - 1];
      PresentFrom(front, known);
      forall mg | mg in Present(order, known)
        ensures exists k :: k in order && k in known && known[k] == Some(mg)
      {
        if mg in Present(front, known) {
          var j :| j in front && j in known && known[j] == Some(mg);
          assert j in order;
        } else {
          assert last in order;
        }
      }
    }
  }

  /** The migrations `FindDataTypeMigrations` returns. */
  function FoundMigrations(setup: Setup, types: seq<DataTypeDefinition>): seq<Migrations>
  {
    var b := Build(Eligible(setup, types), setup.create);
    Present(b.0.order, b.0.known)
  }

  /**
   * Every data type staged for migration is one of the service's data types,
   * passes the filter, had its pre-values read, and its migrator says it
   * needs migrating.
   */
  lemma StagedNeedMigration(setup: Setup, types: seq<DataTypeDefinition>)
    ensures forall mg, d :: mg in FoundMigrations(setup, types) && d in mg.dataTypes ==>
      d.0 in types && !Skipped(d.0.name, setup.included, setup.excluded)
      && setup.preValuesOf(d.0) == Some(d.1) && mg.migrator.needsMigration(d.0, d.1)
  {
    var s := Eligible(setup, types);
    BuildCharacterised(s, setup.create);
    EligibleMembers(setup, types);
    var b := Build(s, setup.create);
    PresentFrom(b.0.order, b.0.known);
    forall mg, d | mg in FoundMigrations(setup, types) && d in mg.dataTypes
      ensures d.0 in types && !Skipped(d.0.name, setup.included, setup.excluded)
        && setup.preValuesOf(d.0) == Some(d.1) && mg.migrator.needsMigration(d.0, d.1)
    {
      var k :| k in b.0.order && k in b.0.known && b.0.known[k] == Some(mg);
      EntryForMembers(WithKey(s, k), setup.create, mg, d);
      WithKeyMembers(s, k);
      assert d in s;
    }
  }

  /** What an entry stages comes from its data types and needs migrating. */
  lemma EntryForMembers(w: seq<Staged>, create: string -> Option<Migrator>, mg: Migrations, d: Staged)
    requires w != [] && EntryFor(w, create) == Some(mg) && d in mg.dataTypes
    ensures d in w && mg.migrator.needsMigration(d.0, d.1)
  {
    NeedingMembers(mg.migrator, w);
  }

  /** The dictionary with its keys in insertion order, as a mutable object. */
  class MigrationTable {
    var order: seq<string>
    var known: map<string, Option<Migrations>>

    constructor ()
      ensures order == [] && known == map[]
    {
      order := [];
      known := map[];
    }

    /** `UpdateDataTypeMigrations(dataType, this)`; `asked` is the alias the factory was asked for, if it was. */
    method UpdateDataTypeMigrations(d: Staged, create: string -> Option<Migrator>) returns (asked: Option<string>)
      modifies this
      ensures Table(order, known) == Update(old(Table(order, known)), d, create).0
      ensures asked == Update(old(Table(order, known)), d, create).1
    {
      var alias := Lower(d.0.editorAlias);
      asked := None;
      if alias !in known {
        var migrator := create(d.0.editorAlias);
        order := order + [alias];
        known := known[alias := if migrator.None? then None else Some(Migrations(migrator.value, []))];
        asked := Some(d.0.editorAlias);
      }
      var migration := known[alias];
      if migration.Some? && migration.value.migrator.needsMigration(d.0, d.1) {
        known := known[alias := Some(migration.value.(dataTypes := migration.value.dataTypes + [d]))];
      }
    }
  }

  /**
   * `FindDataTypeMigrations(dts)`: the migrations, and the aliases the
   * factory was asked for.
   */
  method FindDataTypeMigrations(setup: Setup, allDataTypes: seq<DataTypeDefinition>)
    returns (migrations: seq<Migrations>, asked: seq<string>)
    ensures migrations == FoundMigrations(setup, allDataTypes)
    ensures asked == Build(Eligible(setup, allDataTypes), setup.create).1
  {
    var table := new MigrationTable();
    asked := [];
    ghost var staged: seq<Staged> := [];
    var i := 0;
    while i < |allDataTypes|
      invariant 0 <= i <= |allDataTypes|
      invariant staged == Eligible(setup, allDataTypes[..i])
      invariant Table(table.order, table.known) == Build(staged, setup.create).0
      invariant asked == Build(staged, setup.create).1
    {
      EligibleSnoc(setup, allDataTypes, i);
      var dataType := allDataTypes[i];
      if !Skipped(dataType.name, setup.included, setup.excluded) {
        var oldPreValues := setup.preValuesOf(dataType);
        if oldPreValues.Some? {
          BuildSnoc(staged, (dataType, oldPreValues.value), setup.create);
          var a := table.UpdateDataTypeMigrations((dataType, oldPreValues.value), setup.create);
          if a.Some? {
            asked := asked + [a.value];
          }
          staged := staged + [(dataType, oldPreValues.value)];
        }
      }
      i := i + 1;
    }
    assert allDataTypes[..i] == allDataTypes;
    migrations := [];
    var j := 0;
    while j < |table.order|
      invariant 0 <= j <= |table.order|
      invariant migrations == Present(table.order[..j], table.known)
    {
      assert table.order[..j + 1][..j] == table.order[..j];
      var k := table.order[j];
      if k in table.known && table.known[k].Some? {
        migrations := migrations + [table.known[k].value];
      }
      j := j + 1;
    }
    assert table.order[..j] == table.order;
  }

  // ------------------------------------------------------------ pre-value equivalence

  /** A null entry, or one whose text is null or empty. */
  predicate EmptyEntry(p: Option<PreValue>)
  {
    p.None? || p.value.value.None? || p.value.value.value == ""
  }

  /** Two entries under the same key agree: both empty, or both non-empty with the same row id and sort order. */
  predicate SameEntry(a: Option<PreValue>, b: Option<PreValue>)
  {
    (EmptyEntry(a) && EmptyEntry(b))
    || (!EmptyEntry(a) && !EmptyEntry(b) && a.value.id == b.value.id && a.value.sortOrder == b.value.sortOrder)
  }

  /** A null or empty dictionary. */
  predicate Sparse(p: Option<PreValues>)
  {
    p.None? || |p.value| == 0
  }

  /**
   * Two pre-value dictionaries are equivalent when both are null or empty,
   * or both are present with as many entries and every key of the first has
   * an agreeing entry in the second.
   */
  predicate Equivalent(a: Option<PreValues>, b: Option<PreValues>)
  {
    (Sparse(a) && Sparse(b))
    || (a.Some? && b.Some? && |a.value| == |b.value|
        && forall k :: k in a.value ==> k in b.value && SameEntry(a.value[k], b.value[k]))
  }

  /** A dictionary is equivalent to itself: the shortcut on the same reference gives the answer the comparison would. */
  lemma EquivalentReflexive(a: Option<PreValues>)
    ensures Equivalent(a, a)
  {
  }

  /** The comparison does not depend on which side is old. */
  lemma EquivalentSymmetric(a: Option<PreValues>, b: Option<PreValues>)
    ensures Equivalent(a, b) == Equivalent(b, a)
  {
    if Equivalent(a, b) && !(Sparse(a) && Sparse(b)) {
      assert a.value.Keys <= b.value.Keys;
      SameSizeSubset(a.value.Keys, b.value.Keys);
    }
    if Equivalent(b, a) && !(Sparse(a) && Sparse(b)) {
      assert b.value.Keys <= a.value.Keys;
      SameSizeSubset(b.value.Keys, a.value.Keys);
    }
  }

  /** Non-empty texts are not compared: entries with the same row id and sort order agree whatever their texts. */
  lemma TextIgnored(k: string, p: PreValue, s: string, t: string)
    requires s != "" && t != ""
    ensures Equivalent(Some(map[k := Some(p.(value := Some(s)))]), Some(map[k := Some(p.(value := Some(t)))]))
  {
  }

  /** A key missing from the new dictionary, or an entry that turns empty, makes the dictionaries differ. */
  lemma EntryChangeDiffers(a: PreValues, b: PreValues, k: string)
    requires k in a && (k !in b || !SameEntry(a[k], b[k]))
    ensures !Equivalent(Some(a), Some(b))
  {
  }

  /** `AreEquivalentPreValues(oldPreValues, newPreValues)`. */
  method AreEquivalentPreValues(oldPreValues: Option<PreValues>, newPreValues: Option<PreValues>) returns (r: bool)
    ensures r == Equivalent(oldPreValues, newPreValues)
  {
    if oldPreValues == newPreValues {
      EquivalentReflexive(oldPreValues);
      return true;
    }
    if Sparse(oldPreValues) && Sparse(newPreValues) {
      return true;
    }
    if oldPreValues.None? || newPreValues.None? || |newPreValues.value| != |oldPreValues.value| {
      return false;
    }
    var olds := oldPreValues.value;
    var news := newPreValues.value;
    var todo := olds.Keys;
    while todo != {}
      invariant todo <= olds.Keys
      invariant forall k :: k in olds && k !in todo ==> k in news && SameEntry(olds[k], news[k])
      decreases todo
    {
      var k :| k in todo;
      if k !in news {
        return false;
      }
      var value := news[k];
      if !(EmptyEntry(olds[k]) && EmptyEntry(value)) {
        if EmptyEntry(olds[k]) || EmptyEntry(value) {
          return false;
        }
        if olds[k].value.id != value.value.id || olds[k].value.sortOrder != value.value.sortOrder {
          return false;
        }
      }
      todo := todo - {k};
    }
    return true;
  }

  // ------------------------------------------------------------ UpdateDataType

  /** What `UpdateDataType` returns, and the save it asks of the data type service, if any. */
  datatype UpdateOutcome = UpdateOutcome(ok: bool, save: Option<(DataTypeDefinition, PreValues)>)

  /**
   * `UpdateDataType(dts, migrator, dataType)`: false when the migrator
   * cannot give the new database type, editor alias or pre-values (null
   * pre-values count as none); otherwise the data type is saved with the new
   * alias, database type and pre-values when any of them differs, and the
   * result is false exactly when that save throws.
   */
  function UpdateSpec(m: Migrator, d: Staged, saveThrows: (DataTypeDefinition, PreValues) -> bool): (r: UpdateOutcome)
    ensures r.save.Some? ==> r.ok == !saveThrows(r.save.value.0, r.save.value.1)
    ensures r.save.Some? ==> r.save.value.0 == d.0.(editorAlias := r.save.value.0.editorAlias, databaseType := r.save.value.0.databaseType)
    ensures r.ok && r.save.None? ==>
      m.newEditorAlias(d.0, d.1) == Ok(d.0.editorAlias) && m.newDatabaseType(d.0, d.1) == Ok(d.0.databaseType)
      && m.newPreValues(d.0, d.1).Ok? && Equivalent(Some(d.1), Some(m.newPreValues(d.0, d.1).value.GetOr(map[])))
    ensures m.newDatabaseType(d.0, d.1).Err? || m.newEditorAlias(d.0, d.1).Err? || m.newPreValues(d.0, d.1).Err? ==>
      r == UpdateOutcome(false, None)
    ensures m.newDatabaseType(d.0, d.1).Ok? && m.newEditorAlias(d.0, d.1).Ok? && m.newPreValues(d.0, d.1).Ok? ==>
      (r.save.Some? <==>
        m.newEditorAlias(d.0, d.1).value != d.0.editorAlias || m.newDatabaseType(d.0, d.1).value != d.0.databaseType
        || !Equivalent(Some(d.1), Some(m.newPreValues(d.0, d.1).value.GetOr(map[]))))
    ensures m.newDatabaseType(d.0, d.1).Ok? && m.newEditorAlias(d.0, d.1).Ok? && m.newPreValues(d.0, d.1).Ok? ==>
      (r.save.Some? ==>
        r.save.value == (d.0.(editorAlias := m.newEditorAlias(d.0, d.1).value, databaseType := m.newDatabaseType(d.0, d.1).value),
                         m.newPreValues(d.0, d.1).value.GetOr(map[])))
    ensures m.newDatabaseType(d.0, d.1).Ok? && m.newEditorAlias(d.0, d.1).Ok? && m.newPreValues(d.0, d.1).Ok? ==>
      (r.save.None? ==> r.ok)
  {
    match m.newDatabaseType(d.0, d.1)
    case Err(_) => UpdateOutcome(false, None)
    case Ok(dbType) =>
      match m.newEditorAlias(d.0, d.1)
      case Err(_) => UpdateOutcome(false, None)
      case Ok(newAlias) =>
        match m.newPreValues(d.0, d.1)
        case Err(_) => UpdateOutcome(false, None)
        case Ok(given) =>
          var newPreValues := given.GetOr(map[]);
          if d.0.editorAlias != newAlias || d.0.databaseType != dbType || !Equivalent(Some(d.1), Some(newPreValues)) then
            var changed := d.0.(editorAlias := newAlias, databaseType := dbType);
            UpdateOutcome(!saveThrows(changed, newPreValues), Some((changed, newPreValues)))
          else UpdateOutcome(true, None)
  }

  /** A migrator that keeps the alias, the database type and the pre-values causes no save and succeeds. */
  lemma KeepingNeedsNoSave(m: Migrator, d: Staged, saveThrows: (DataTypeDefinition, PreValues) -> bool)
    requires m.newEditorAlias(d.0, d.1) == Ok(d.0.editorAlias)
    requires m.newDatabaseType(d.0, d.1) == Ok(d.0.databaseType)
    requires m.newPreValues(d.0, d.1) == Ok(Some(d.1))
    ensures UpdateSpec(m, d, saveThrows) == UpdateOutcome(true, None)
  {
    EquivalentReflexive(Some(d.1));
  }

  /** A new editor alias is always saved, and the result is whether that save went through. */
  lemma NewAliasIsSaved(m: Migrator, d: Staged, saveThrows: (DataTypeDefinition, PreValues) -> bool, alias: string)
    requires m.newDatabaseType(d.0, d.1).Ok? && m.newPreValues(d.0, d.1).Ok?
    requires m.newEditorAlias(d.0, d.1) == Ok(alias) && alias != d.0.editorAlias
    ensures UpdateSpec(m, d, saveThrows).save.Some?
    ensures UpdateSpec(m, d, saveThrows).save.value.0.editorAlias == alias
    ensures UpdateSpec(m, d, saveThrows).ok == !saveThrows(UpdateSpec(m, d, saveThrows).save.value.0, UpdateSpec(m, d, saveThrows).save.value.1)
  {
  }

  /** `UpdateDataType(dts, migrator, dataType)`, comparing pre-values with `AreEquivalentPreValues`. */
  method UpdateDataType(m: Migrator, d: Staged, saveThrows: (DataTypeDefinition, PreValues) -> bool)
    returns (ok: bool, save: Option<(DataTypeDefinition, PreValues)>)
    ensures UpdateOutcome(ok, save) == UpdateSpec(m, d, saveThrows)
  {
    var dbType := m.newDatabaseType(d.0, d.1);
    if dbType.Err? {
      return false, None;
    }
    var newAlias := m.newEditorAlias(d.0, d.1);
    if newAlias.Err? {
      return false, None;
    }
    var given := m.newPreValues(d.0, d.1);
    if given.Err? {
      return false, None;
    }
    var newPreValues := given.value.GetOr(map[]);
    var same := AreEquivalentPreValues(Some(d.1), Some(newPreValues));
    save := None;
    ok := true;
    if d.0.editorAlias != newAlias.value || d.0.databaseType != dbType.value || !same {
      var changed := d.0.(editorAlias := newAlias.value, databaseType := dbType.value);
      save := Some((changed, newPreValues));
      ok := !saveThrows(changed, newPreValues);
    }
  }

  // ------------------------------------------------------------ LoadMappings

  /** The data types of one migration, each with its migrator. */
  function JobsOf(mg: Migrations): (r: seq<(Migrator, Staged)>)
    ensures |r| == |mg.dataTypes|
    ensures forall i :: 0 <= i < |r| ==> r[i] == (mg.migrator, mg.dataTypes[i])
  {
    seq(|mg.dataTypes|, i requires 0 <= i < |mg.dataTypes| => (mg.migrator, mg.dataTypes[i]))
  }

  /** The pairs the two nested loops visit, in order. */
  function Jobs(migs: seq<Migrations>): seq<(Migrator, Staged)>
  {
    if migs == [] then [] else Jobs(migs[..|migs| - 1]) + JobsOf(migs[|migs| - 1])
  }

  /** `GetPropertyMigration(migrator, dataType)`: null when it throws. */
  function PropertyMigrationOf(job: (Migrator, Staged), retainInvalidData: bool): Option<PropertyMigration>
  {
    match job.0.propertyMigration(job.1.0, job.1.1, retainInvalidData)
    case Ok(pm) => pm
    case Err(_) => None
  }

  /** `allDataTypes` after the first pair of loops: the last non-null property migration of each data type id. */
  function Stage(jobs: seq<(Migrator, Staged)>, retainInvalidData: bool): map<int, PropertyMigration>
  {
    if jobs == [] then map[]
    else
      var job := jobs[|jobs| - 1];
      var staged := Stage(jobs[..|jobs| - 1], retainInvalidData);
      var pm := PropertyMigrationOf(job, retainInvalidData);
      if pm.Some? then staged[job.1.0.id := pm.value] else staged
  }

  /** `allDataTypes` after the second pair of loops, which rewrites each data type and drops the id of each that fails. */
  function Unstage(staged: map<int, PropertyMigration>, jobs: seq<(Migrator, Staged)>,
                   saveThrows: (DataTypeDefinition, PreValues) -> bool): map<int, PropertyMigration>
  {
    if jobs == [] then staged
    else
      var job := jobs[|jobs| - 1];
      var rest := Unstage(staged, jobs[..|jobs| - 1], saveThrows);
      if UpdateSpec(job.0, job.1, saveThrows).ok then rest else rest - {job.1.0.id}
  }

  /** The saves the second pair of loops asks of the data type service, in order. */
  function Saves(jobs: seq<(Migrator, Staged)>, saveThrows: (DataTypeDefinition, PreValues) -> bool): seq<(DataTypeDefinition, PreValues)>
  {
    if jobs == [] then []
    else
      var job := jobs[|jobs| - 1];
      var u := UpdateSpec(job.0, job.1, saveThrows);
      Saves(jobs[..|jobs| - 1], saveThrows) + (if u.save.Some? then [u.save.value] else [])
  }

  lemma JobsSnoc(migs: seq<Migrations>, i: int)
    requires 0 <= i < |migs|
    ensures Jobs(migs[..i + 1]) == Jobs(migs[..i]) + JobsOf(migs[i])
  {
    assert migs[..i + 1][..i] == migs[..i];
  }

  lemma JobsOfSnoc(mg: Migrations, j: int)
    requires 0 <= j < |mg.dataTypes|
    ensures JobsOf(mg)[..j + 1] == JobsOf(mg)[..j] + [(mg.migrator, mg.dataTypes[j])]
  {
  }

  lemma StageSnoc(jobs: seq<(Migrator, Staged)>, job: (Migrator, Staged), retainInvalidData: bool)
    ensures Stage(jobs + [job], retainInvalidData) ==
      var pm := PropertyMigrationOf(job, retainInvalidData);
      if pm.Some? then Stage(jobs, retainInvalidData)[job.1.0.id := pm.value] else Stage(jobs, retainInvalidData)
  {
    assert (jobs + [job])[..|jobs|] == jobs;
  }

  lemma UnstageSnoc(staged: map<int, PropertyMigration>, jobs: seq<(Migrator, Staged)>, job: (Migrator, Staged),
                    saveThrows: (DataTypeDefinition, PreValues) -> bool)
    ensures Unstage(staged, jobs + [job], saveThrows) ==
      if UpdateSpec(job.0, job.1, saveThrows).ok then Unstage(staged, jobs, saveThrows) else Unstage(staged, jobs, saveThrows) - {job.1.0.id}
    ensures Saves(jobs + [job], saveThrows) == Saves(jobs, saveThrows)
      + (if UpdateSpec(job.0, job.1, saveThrows).save.Some? then [UpdateSpec(job.0, job.1, saveThrows).save.value] else [])
  {
    assert (jobs + [job])[..|jobs|] == jobs;
  }

  /** An id is staged exactly when some pair with that id gives a property migration, and holds the last one given. */
  lemma {:induction false} StageChar(jobs: seq<(Migrator, Staged)>, retainInvalidData: bool, id: int)
    ensures id in Stage(jobs, retainInvalidData) <==>
      exists i :: 0 <= i < |jobs| && jobs[i].1.0.id == id && PropertyMigrationOf(jobs[i], retainInvalidData).Some?
    ensures id in Stage(jobs, retainInvalidData) ==>
      exists i :: 0 <= i < |jobs| && jobs[i].1.0.id == id && PropertyMigrationOf(jobs[i], retainInvalidData) == Some(Stage(jobs, retainInvalidData)[id])
  {
    if jobs != [] {
      var front := jobs[..|jobs| - 1];
      StageChar(front, retainInvalidData, id);
      assert forall i :: 0 <= i < |front| ==> front[i] == jobs[i];
    }
  }

  /** An id survives the rewrites exactly when it was staged and every pair with that id was rewritten; its migration is kept. */
  lemma {:induction false} UnstageChar(staged: map<int, PropertyMigration>, jobs: seq<(Migrator, Staged)>,
                                       saveThrows: (DataTypeDefinition, PreValues) -> bool, id: int)
    ensures id in Unstage(staged, jobs, saveThrows) <==>
      id in staged && forall i :: 0 <= i < |jobs| && jobs[i].1.0.id == id ==> UpdateSpec(jobs[i].0, jobs[i].1, saveThrows).ok
    ensures id in Unstage(staged, jobs, saveThrows) ==> Unstage(staged, jobs, saveThrows)[id] == staged[id]
  {
    if jobs != [] {
      var front := jobs[..|jobs| - 1];
      UnstageChar(staged, front, saveThrows, id);
      assert forall i :: 0 <= i < |front| ==> front[i] == jobs[i];
    }
  }

  /** The property migrations handed to `FindMappings`. */
  function Loaded(setup: Setup, allDataTypes: seq<DataTypeDefinition>): map<int, PropertyMigration>
  {
    var jobs := Jobs(FoundMigrations(setup, allDataTypes));
    Unstage(Stage(jobs, setup.retainInvalidData), jobs, setup.saveThrows)
  }

  /** Every pair visited is a staged data type with the migrator of its migration. */
  lemma {:induction false} JobsMembers(migs: seq<Migrations>, i: int)
    requires 0 <= i < |Jobs(migs)|
    ensures exists mg :: mg in migs && mg.migrator == Jobs(migs)[i].0 && Jobs(migs)[i].1 in mg.dataTypes
  {
    var front := migs[..|migs| - 1];
    var last := migs[|migs| - 1];
    if i < |Jobs(front)| {
      JobsMembers(front, i);
      var mg :| mg in front && mg.migrator == Jobs(front)[i].0 && Jobs(front)[i].1 in mg.dataTypes;
      assert mg in migs;
    } else {
      assert Jobs(migs)[i] == JobsOf(last)[i - |Jobs(front)|];
      assert last.dataTypes[i - |Jobs(front)|] in last.dataTypes;
    }
  }

  /**
   * A data type's content is migrated exactly when its migrator gave a
   * property migration for it and rewriting the data type did not fail; and
   * then the data type passed the filter and needs migrating.
   */
  lemma LoadedChar(setup: Setup, allDataTypes: seq<DataTypeDefinition>, id: int)
    ensures var jobs := Jobs(FoundMigrations(setup, allDataTypes));
      id in Loaded(setup, allDataTypes) <==>
        (exists i :: 0 <= i < |jobs| && jobs[i].1.0.id == id && PropertyMigrationOf(jobs[i], setup.retainInvalidData).Some?)
        && (forall i :: 0 <= i < |jobs| && jobs[i].1.0.id == id ==> UpdateSpec(jobs[i].0, jobs[i].1, setup.saveThrows).ok)
    ensures id in Loaded(setup, allDataTypes) ==>
      exists d :: d in allDataTypes && d.id == id && !Skipped(d.name, setup.included, setup.excluded)
  {
    var migs := FoundMigrations(setup, allDataTypes);
    var jobs := Jobs(migs);
    StageChar(jobs, setup.retainInvalidData, id);
    UnstageChar(Stage(jobs, setup.retainInvalidData), jobs, setup.saveThrows, id);
    if id in Loaded(setup, allDataTypes) {
      var i :| 0 <= i < |jobs| && jobs[i].1.0.id == id && PropertyMigrationOf(jobs[i], setup.retainInvalidData).Some?;
      JobsMembers(migs, i);
      var mg :| mg in migs && mg.migrator == jobs[i].0 && jobs[i].1 in mg.dataTypes;
      StagedNeedMigration(setup, allDataTypes);
      assert jobs[i].1.0 in allDataTypes;
    }
  }

  /** The types of the base type a mapper is built for. */
  function TypesOf(t: BaseType, contentTypes: seq<ContentTypeInfo>, mediaTypes: seq<ContentTypeInfo>, memberTypes: seq<ContentTypeInfo>): seq<ContentTypeInfo>
  {
    match t
    case Document => contentTypes
    case Media => mediaTypes
    case Member => memberTypes
  }

  /** The first pair of loops of `LoadMappings`: each data type's property migration, the last one given per id. */
  method StagePropertyMigrations(found: seq<Migrations>, retainInvalidData: bool) returns (allTypes: map<int, PropertyMigration>)
    ensures allTypes == Stage(Jobs(found), retainInvalidData)
  {
    allTypes := map[];
    ghost var done: seq<(Migrator, Staged)> := [];
    var i := 0;
    while i < |found|
      invariant 0 <= i <= |found|
      invariant done == Jobs(found[..i])
      invariant allTypes == Stage(done, retainInvalidData)
    {
      JobsSnoc(found, i);
      var migration := found[i];
      var j := 0;
      while j < |migration.dataTypes|
        invariant 0 <= j <= |migration.dataTypes|
        invariant done == Jobs(found[..i]) + JobsOf(migration)[..j]
        invariant allTypes == Stage(done, retainInvalidData)
      {
        var job := (migration.migrator, migration.dataTypes[j]);
        StageSnoc(done, job, retainInvalidData);
        var propMigration := PropertyMigrationOf(job, retainInvalidData);
        if propMigration.Some? {
          allTypes := allTypes[migration.dataTypes[j].0.id := propMigration.value];
        }
        JobsOfSnoc(migration, j);
        done := done + [job];
        j := j + 1;
      }
      assert JobsOf(migration)[..j] == JobsOf(migration);
      i := i + 1;
    }
    assert found[..i] == found;
  }

  /** The inner loop of the second pair of loops of `LoadMappings`: the data types of one migration, in order. */
  method UpdateMigration(migration: Migrations, staged: map<int, PropertyMigration>, saveThrows: (DataTypeDefinition, PreValues) -> bool,
                         ghost done0: seq<(Migrator, Staged)>, allTypes0: map<int, PropertyMigration>, saves0: seq<(DataTypeDefinition, PreValues)>)
    returns (allTypes: map<int, PropertyMigration>, saves: seq<(DataTypeDefinition, PreValues)>)
    requires allTypes0 == Unstage(staged, done0, saveThrows) && saves0 == Saves(done0, saveThrows)
    ensures allTypes == Unstage(staged, done0 + JobsOf(migration), saveThrows)
    ensures saves == Saves(done0 + JobsOf(migration), saveThrows)
  {
    allTypes := allTypes0;
    saves := saves0;
    ghost var done := done0;
    var j := 0;
    while j < |migration.dataTypes|
      invariant 0 <= j <= |migration.dataTypes|
      invariant done == done0 + JobsOf(migration)[..j]
      invariant allTypes == Unstage(staged, done, saveThrows)
      invariant saves == Saves(done, saveThrows)
    {
      var job := (migration.migrator, migration.dataTypes[j]);
      UnstageSnoc(staged, done, job, saveThrows);
      var ok, save := UpdateDataType(migration.migrator, migration.dataTypes[j], saveThrows);
      if save.Some? {
        saves := saves + [save.value];
      }
      if !ok {
        allTypes := allTypes - {migration.dataTypes[j].0.id};
      }
      JobsOfSnoc(migration, j);
      done := done + [job];
      j := j + 1;
    }
    assert JobsOf(migration)[..j] == JobsOf(migration);
  }

  /** The second pair of loops of `LoadMappings`: each data type rewritten, and the ids of those that fail dropped. */
  method UpdateDataTypes(found: seq<Migrations>, staged: map<int, PropertyMigration>, saveThrows: (DataTypeDefinition, PreValues) -> bool)
    returns (allTypes: map<int, PropertyMigration>, saves: seq<(DataTypeDefinition, PreValues)>)
    ensures allTypes == Unstage(staged, Jobs(found), saveThrows)
    ensures saves == Saves(Jobs(found), saveThrows)
  {
    allTypes := staged;
    saves := [];
    var i := 0;
    while i < |found|
      invariant 0 <= i <= |found|
      invariant allTypes == Unstage(staged, Jobs(found[..i]), saveThrows)
      invariant saves == Saves(Jobs(found[..i]), saveThrows)
    {
      JobsSnoc(found, i);
      allTypes, saves := UpdateMigration(found[i], staged, saveThrows, Jobs(found[..i]), allTypes, saves);
      i := i + 1;
    }
    assert found[..i] == found;
  }

  /**
   * `LoadMappings()`: the mappers of the document, media and member types in
   * that order, and the saves asked of the data type service. Every mapper
   * rewrites exactly the fields whose data type kept its staged migration.
   */
  method LoadMappings(setup: Setup, allDataTypes: seq<DataTypeDefinition>,
                      contentTypes: seq<ContentTypeInfo>, mediaTypes: seq<ContentTypeInfo>, memberTypes: seq<ContentTypeInfo>,
                      dbRelations: seq<Relation>, usedTypes: seq<int>)
    returns (mappers: seq<Mapper>, saves: seq<(DataTypeDefinition, PreValues)>)
    ensures saves == Saves(Jobs(FoundMigrations(setup, allDataTypes)), setup.saveThrows)
    ensures forall m :: m in mappers ==>
      var types := TypesOf(m.sourceType, contentTypes, mediaTypes, memberTypes);
      m.contentType in types && m.contentType.id in usedTypes && m.fields != []
      && forall f :: f in m.fields <==>
        Contributes(AllRows(dbRelations, types), TypeProperties(types), Loaded(setup, allDataTypes), m.contentType.id, f)
    ensures forall t: BaseType, ct :: Wanted(t, ct, contentTypes, mediaTypes, memberTypes, dbRelations, Loaded(setup, allDataTypes), usedTypes) ==>
      CoveredAs(mappers, t, ct)
    ensures forall i, j :: 0 <= i < j < |mappers| ==> KindRank(mappers[i].sourceType) <= KindRank(mappers[j].sourceType)
  {
    var found, asked := FindDataTypeMigrations(setup, allDataTypes);
    var staged := StagePropertyMigrations(found, setup.retainInvalidData);
    var allTypes;
    allTypes, saves := UpdateDataTypes(found, staged, setup.saveThrows);
    assert allTypes == Loaded(setup, allDataTypes);
    var documentMappings := FindMappings(contentTypes, Document, allTypes, dbRelations, usedTypes);
    KindMappers(documentMappings, Document, contentTypes, mediaTypes, memberTypes, dbRelations, allTypes, usedTypes);
    var mediaMappings := FindMappings(mediaTypes, Media, allTypes, dbRelations, usedTypes);
    KindMappers(mediaMappings, Media, contentTypes, mediaTypes, memberTypes, dbRelations, allTypes, usedTypes);
    var memberMappings := FindMappings(memberTypes, Member, allTypes, dbRelations, usedTypes);
    KindMappers(memberMappings, Member, contentTypes, mediaTypes, memberTypes, dbRelations, allTypes, usedTypes);
    mappers := documentMappings + mediaMappings + memberMappings;
    forall m | m in mappers
      ensures MapperFaithful(m, contentTypes, mediaTypes, memberTypes, dbRelations, allTypes, usedTypes)
    {
      assert m in documentMappings || m in mediaMappings || m in memberMappings;
    }
    MappersComplete(documentMappings, mediaMappings, memberMappings, contentTypes, mediaTypes, memberTypes, dbRelations, allTypes, usedTypes);
    KindsInOrder(documentMappings, mediaMappings, memberMappings);
  }

  /** A used type of base type `t` with some field whose data type kept its migration: `FindMappings` must give it a mapper. */
  ghost predicate Wanted(t: BaseType, ct: ContentTypeInfo, contentTypes: seq<ContentTypeInfo>, mediaTypes: seq<ContentTypeInfo>,
                         memberTypes: seq<ContentTypeInfo>, dbRelations: seq<Relation>,
                         dataTypes: map<int, PropertyMigration>, usedTypes: seq<int>)
  {
    var cts := TypesOf(t, contentTypes, mediaTypes, memberTypes);
    ct in cts && ct.id in usedTypes && HasFields(AllRows(dbRelations, cts), TypeProperties(cts), dataTypes, ct.id)
  }

  /** The three kinds' mappers, joined, cover every wanted type with a mapper of its own kind. */
  lemma MappersComplete(ds: seq<Mapper>, ms: seq<Mapper>, bs: seq<Mapper>, contentTypes: seq<ContentTypeInfo>,
                        mediaTypes: seq<ContentTypeInfo>, memberTypes: seq<ContentTypeInfo>, dbRelations: seq<Relation>,
                        dataTypes: map<int, PropertyMigration>, usedTypes: seq<int>)
    requires forall m :: m in ds ==> m.sourceType == Document
    requires forall m :: m in ms ==> m.sourceType == Media
    requires forall m :: m in bs ==> m.sourceType == Member
    requires forall ct :: Wanted(Document, ct, contentTypes, mediaTypes, memberTypes, dbRelations, dataTypes, usedTypes) ==> Covered(ds, ct)
    requires forall ct :: Wanted(Media, ct, contentTypes, mediaTypes, memberTypes, dbRelations, dataTypes, usedTypes) ==> Covered(ms, ct)
    requires forall ct :: Wanted(Member, ct, contentTypes, mediaTypes, memberTypes, dbRelations, dataTypes, usedTypes) ==> Covered(bs, ct)
    ensures forall t: BaseType, ct :: Wanted(t, ct, contentTypes, mediaTypes, memberTypes, dbRelations, dataTypes, usedTypes) ==>
      CoveredAs(ds + ms + bs, t, ct)
  {
    var all := ds + ms + bs;
    KindCovers(ds, Document, all);
    KindCovers(ms, Media, all);
    KindCovers(bs, Member, all);
    forall t: BaseType, ct | Wanted(t, ct, contentTypes, mediaTypes, memberTypes, dbRelations, dataTypes, usedTypes)
      ensures CoveredAs(all, t, ct)
    {
      match t
      case Document => assert Covered(ds, ct);
      case Media => assert Covered(ms, ct);
      case Member => assert Covered(bs, ct);
    }
  }

  /** The position of a base type in the order `LoadMappings` joins its mappers: documents, media, members. */
  function KindRank(t: BaseType): (r: nat)
    ensures r < 3
  {
    match t
    case Document => 0
    case Media => 1
    case Member => 2
  }

  /** Some mapper of base type `t` rewrites content of type `ct`. */
  ghost predicate CoveredAs(mappers: seq<Mapper>, t: BaseType, ct: ContentTypeInfo)
  {
    exists m :: m in mappers && m.sourceType == t && m.contentType == ct
  }

  /** A used type one kind's `FindMappings` covers is covered, with that kind, in the joined list. */
  lemma KindCovers(ms: seq<Mapper>, t: BaseType, mappers: seq<Mapper>)
    requires forall m :: m in ms ==> m.sourceType == t
    requires forall m :: m in ms ==> m in mappers
    ensures forall ct :: Covered(ms, ct) ==> CoveredAs(mappers, t, ct)
  {
    forall ct | Covered(ms, ct)
      ensures CoveredAs(mappers, t, ct)
    {
      var m :| m in ms && m.contentType == ct;
      assert m in mappers && m.sourceType == t;
    }
  }

  /** Joining the document, media and member mappers in that order keeps them ordered by base type. */
  lemma KindsInOrder(ds: seq<Mapper>, ms: seq<Mapper>, bs: seq<Mapper>)
    requires forall m :: m in ds ==> m.sourceType == Document
    requires forall m :: m in ms ==> m.sourceType == Media
    requires forall m :: m in bs ==> m.sourceType == Member
    ensures var all := ds + ms + bs;
      forall i, j :: 0 <= i < j < |all| ==> KindRank(all[i].sourceType) <= KindRank(all[j].sourceType)
  {
    var all := ds + ms + bs;
    forall i | 0 <= i < |all|
      ensures KindRank(all[i].sourceType) == if i < |ds| then 0 else if i < |ds| + |ms| then 1 else 2
    {
      if i < |ds| {
        assert all[i] in ds;
      } else if i < |ds| + |ms| {
        assert all[i] == ms[i - |ds|];
        assert all[i] in ms;
      } else {
        assert all[i] == bs[i - |ds| - |ms|];
        assert all[i] in bs;
      }
    }
  }

  /** A mapper of an existing, used type of its base type rewrites exactly the fields that contribute. */
  ghost predicate MapperFaithful(m: Mapper, contentTypes: seq<ContentTypeInfo>, mediaTypes: seq<ContentTypeInfo>,
                                 memberTypes: seq<ContentTypeInfo>, dbRelations: seq<Relation>,
                                 dataTypes: map<int, PropertyMigration>, usedTypes: seq<int>)
  {
    var types := TypesOf(m.sourceType, contentTypes, mediaTypes, memberTypes);
    m.contentType in types && m.contentType.id in usedTypes && m.fields != []
    && forall f :: f in m.fields <==> Contributes(AllRows(dbRelations, types), TypeProperties(types), dataTypes, m.contentType.id, f)
  }

  lemma KindMappers(ms: seq<Mapper>, t: BaseType, contentTypes: seq<ContentTypeInfo>, mediaTypes: seq<ContentTypeInfo>,
                    memberTypes: seq<ContentTypeInfo>, dbRelations: seq<Relation>,
                    dataTypes: map<int, PropertyMigration>, usedTypes: seq<int>)
    requires var cts := TypesOf(t, contentTypes, mediaTypes, memberTypes);
      (forall m :: m in ms ==> m.sourceType == t && m.contentType in cts && m.contentType.id in usedTypes && m.fields != [])
      && (forall m :: m in ms ==> forall f :: f in m.fields <==>
            Contributes(AllRows(dbRelations, cts), TypeProperties(cts), dataTypes, m.contentType.id, f))
    ensures forall m :: m in ms ==> MapperFaithful(m, contentTypes, mediaTypes, memberTypes, dbRelations, dataTypes, usedTypes)
  {
  }
}
