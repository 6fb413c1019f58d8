/**
 * The registry of data type migrators (`DataTypeMigratorFactory`): editor
 * aliases mapped to constructors, filled from the exported types of an
 * assembly or by explicit registration, and a memo of the migrator created
 * for each alias. Both dictionaries compare aliases ignoring case, so
 * every key is the lower-cased alias. Reflection is replaced by a list of
 * `ExportedType` descriptions.
 */
module DataTypeMigratorFactory {
  import opened Wrappers
  import opened Text

  /** What the registration loop reads of an exported type. */
  datatype ExportedType = ExportedType(
    name: string,
    implementsInterface: bool,           // assignable to the migrator interface
    attributeAliases: Option<seq<string>>,  // the aliases of its attribute, when it has one
    hasDefaultConstructor: bool)

  /** A migrator instance, named by what made it. */
  type Migrator = string

  /** A registered constructor: the parameterless constructor of a type, or a delegate given by a caller. */
  datatype Ctor = Reflected(typeName: string) | Delegate(result: Option<Migrator>)

  function Invoke(c: Ctor): Option<Migrator>
  {
    match c
    case Reflected(n) => Some(n)
    case Delegate(r) => r
  }

  /** The dictionaries' key for an alias. */
  function Key(alias: string): string
  {
    Lower(alias)
  }

  /**
   * The aliases a type registers under: its attribute's when it has one,
   * else its name without a "DataTypeMigrator" suffix (16 characters), else
   * without a "Migrator" suffix (8 characters), else none.
   */
  function Aliases(t: ExportedType): seq<string>
  {
    if t.attributeAliases.Some? then t.attributeAliases.value
    else if EndsWith(t.name, "DataTypeMigrator") then [t.name[..|t.name| - 16]]
    else if EndsWith(t.name, "Migrator") then [t.name[..|t.name| - 8]]
    else []
  }

  /** Without an attribute, the alias is exactly the name with its suffix taken off. */
  lemma AliasesRoundTrip(t: ExportedType)
    requires t.attributeAliases.None?
    ensures EndsWith(t.name, "DataTypeMigrator") ==> |Aliases(t)| == 1 && Aliases(t)[0] + "DataTypeMigrator" == t.name
    ensures !EndsWith(t.name, "DataTypeMigrator") && EndsWith(t.name, "Migrator") ==>
      |Aliases(t)| == 1 && Aliases(t)[0] + "Migrator" == t.name
    ensures !EndsWith(t.name, "Migrator") ==> Aliases(t) == []
  {
    if EndsWith(t.name, "DataTypeMigrator") {
      assert t.name[..|t.name| - 16] + t.name[|t.name| - 16..] == t.name;
      assert t.name[|t.name| - 8..] == t.name[|t.name| - 16..][8..];
    } else if EndsWith(t.name, "Migrator") {
      assert t.name[..|t.name| - 8] + t.name[|t.name| - 8..] == t.name;
    }
  }

  /** Whether registering `t`, whose aliases `aliasesOf` infers, writes the key `key`. */
  predicate Registers(aliasesOf: ExportedType -> seq<string>, t: ExportedType, key: string)
  {
    t.implementsInterface && t.hasDefaultConstructor && exists a :: a in aliasesOf(t) && Key(a) == key
  }

  /** The constructors after writing `c` under each alias in turn. */
  function RegisterAliases(ctors: map<string, Ctor>, aliases: seq<string>, c: Ctor): (r: map<string, Ctor>)
    ensures forall k :: k in r <==> k in ctors || exists a :: a in aliases && Key(a) == k
    ensures forall k :: k in r ==> r[k] == if exists a :: a in aliases && Key(a) == k then c else ctors[k]
  {
    if aliases == [] then ctors
    else
      var r := RegisterAliases(ctors, aliases[..|aliases| - 1], c)[Key(aliases[|aliases| - 1]) := c];
      assert forall a :: a in aliases <==> a in aliases[..|aliases| - 1] || a == aliases[|aliases| - 1];
      r
  }

  /** One pass of the loop of `RegisterDataTypeMigrators`. */
  function RegisterType(aliasesOf: ExportedType -> seq<string>, ctors: map<string, Ctor>, t: ExportedType): map<string, Ctor>
  {
    if !t.implementsInterface || !t.hasDefaultConstructor then ctors
    else RegisterAliases(ctors, aliasesOf(t), Reflected(t.name))
  }

  /** `RegisterDataTypeMigrators(assembly)` on the constructors, with the alias rule `aliasesOf`. */
  function RegisterTypes(aliasesOf: ExportedType -> seq<string>, ctors: map<string, Ctor>, types: seq<ExportedType>): map<string, Ctor>
  {
    if types == [] then ctors else RegisterType(aliasesOf, RegisterTypes(aliasesOf, ctors, types[..|types| - 1]), types[|types| - 1])
  }

  lemma RegisterAliasesSnoc(ctors: map<string, Ctor>, aliases: seq<string>, c: Ctor, j: int)
    requires 0 <= j < |aliases|
    ensures RegisterAliases(ctors, aliases[..j + 1], c) == RegisterAliases(ctors, aliases[..j], c)[Key(aliases[j]) := c]
  {
    assert aliases[..j + 1][..j] == aliases[..j];
  }

  lemma RegisterTypesSnoc(aliasesOf: ExportedType -> seq<string>, ctors: map<string, Ctor>, types: seq<ExportedType>, i: int)
    requires 0 <= i < |types|
    ensures RegisterTypes(aliasesOf, ctors, types[..i + 1]) == RegisterType(aliasesOf, RegisterTypes(aliasesOf, ctors, types[..i]), types[i])
  {
    assert types[..i + 1][..i] == types[..i];
  }

  /** One type writes exactly the keys it registers, each with its own constructor. */
  lemma RegisterTypeLookup(aliasesOf: ExportedType -> seq<string>, ctors: map<string, Ctor>, t: ExportedType, key: string)
    ensures key in RegisterType(aliasesOf, ctors, t) <==> key in ctors || Registers(aliasesOf, t, key)
    ensures Registers(aliasesOf, t, key) ==> RegisterType(aliasesOf, ctors, t)[key] == Reflected(t.name)
    ensures !Registers(aliasesOf, t, key) && key in ctors ==> RegisterType(aliasesOf, ctors, t)[key] == ctors[key]
  {
  }

  /**
   * After registering an assembly, exactly the keys some type registers are
   * added; a key no type registers keeps what it held. Types that do not
   * implement the interface or lack a parameterless constructor register
   * nothing.
   */
  lemma {:induction false} RegisterTypesKeys(aliasesOf: ExportedType -> seq<string>, ctors: map<string, Ctor>, types: seq<ExportedType>, key: string)
    ensures key in RegisterTypes(aliasesOf, ctors, types) <==> key in ctors || exists i :: 0 <= i < |types| && Registers(aliasesOf, types[i], key)
    ensures (forall i :: 0 <= i < |types| ==> !Registers(aliasesOf, types[i], key)) && key in ctors ==>
      RegisterTypes(aliasesOf, ctors, types)[key] == ctors[key]
  {
    if types != [] {
      var front := types[..|types| - 1];
      RegisterTypesKeys(aliasesOf, ctors, front, key);
      RegisterTypeLookup(aliasesOf, RegisterTypes(aliasesOf, ctors, front), types[|types| - 1], key);
      assert forall i :: 0 <= i < |front| ==> front[i] == types[i];
    }
  }

  /** A key some type registers holds the constructor of the last such type: later registrations overwrite earlier ones. */
  lemma {:induction false} RegisterTypesLast(aliasesOf: ExportedType -> seq<string>, ctors: map<string, Ctor>, types: seq<ExportedType>, key: string, i: int)
    requires 0 <= i < |types| && Registers(aliasesOf, types[i], key)
    requires forall j :: i < j < |types| ==> !Registers(aliasesOf, types[j], key)
    ensures key in RegisterTypes(aliasesOf, ctors, types) && RegisterTypes(aliasesOf, ctors, types)[key] == Reflected(types[i].name)
  {
    var front := types[..|types| - 1];
    RegisterTypeLookup(aliasesOf, RegisterTypes(aliasesOf, ctors, front), types[|types| - 1], key);
    if i < |types| - 1 {
      RegisterTypesLast(aliasesOf, ctors, front, key, i);
    }
  }

  /** The two dictionaries of the factory. */
  datatype Registry = Registry(constructors: map<string, Ctor>, known: map<string, Option<Migrator>>)

  /** `RegisterDataTypeMigrator(alias, constructor)`: always overwrites. */
  function Register(reg: Registry, alias: string, c: Ctor): Registry
  {
    reg.(constructors := reg.constructors[Key(alias) := c])
  }

  /**
   * `CreateDataTypeMigrator(alias)`: the remembered migrator of the alias
   * when there is one (even a missing one); else the registered
   * constructor's migrator, or none, which is then remembered.
   */
  function Create(reg: Registry, alias: string): (Option<Migrator>, Registry)
  {
    var key := Key(alias);
    if key in reg.known then (reg.known[key], reg)
    else
      var m := if key in reg.constructors then Invoke(reg.constructors[key]) else None;
      (m, reg.(known := reg.known[key := m]))
  }

  /** Creating again, under any spelling of the alias, returns the same migrator and changes nothing. */
  lemma CreateMemoised(reg: Registry, alias: string, again: string)
    requires EqualsIgnoreCase(alias, again)
    ensures var first := Create(reg, alias);
      Create(first.1, again) == first
  {
  }

  /** Once an alias has been created, registering a new constructor for it does not change what later creations return. */
  lemma LaterRegistrationUnseen(reg: Registry, alias: string, other: string, c: Ctor)
    ensures var first := Create(reg, alias);
      Create(Register(first.1, other, c), alias).0 == first.0
  {
  }

  /** A migrator registered before the first creation is the one created. */
  lemma RegisteredIsCreated(reg: Registry, alias: string, c: Ctor)
    requires Key(alias) !in reg.known
    ensures Create(Register(reg, alias, c), alias).0 == Invoke(c)
  {
  }

  /** The factory, with its two dictionaries as fields. */
  class DefaultDataTypeMigratorFactory {
    var constructors: map<string, Ctor>
    var knownMigrations: map<string, Option<Migrator>>

    /** Registers the executing assembly's migrators. */
    constructor (assembly: seq<ExportedType>)
      ensures constructors == RegisterTypes(Aliases, map[], assembly)
      ensures knownMigrations == map[]
    {
      constructors := map[];
      knownMigrations := map[];
      new;
      RegisterDataTypeMigrators(assembly);
    }

    method RegisterDataTypeMigrators(assembly: seq<ExportedType>)
      modifies this
      ensures constructors == RegisterTypes(Aliases, old(constructors), assembly)
      ensures knownMigrations == old(knownMigrations)
    {
      var i := 0;
      while i < |assembly|
        invariant 0 <= i <= |assembly|
        invariant constructors == RegisterTypes(Aliases, old(constructors), assembly[..i])
        invariant knownMigrations == old(knownMigrations)
      {
        RegisterTypesSnoc(Aliases, old(constructors), assembly, i);
        var t := assembly[i];
        if t.implementsInterface && t.hasDefaultConstructor {
          RegisterAll(Aliases(t), Reflected(t.name));
        }
        i := i + 1;
      }
      assert assembly[..i] == assembly;
    }

    /** The inner loop over one type's aliases: each is registered with the type's constructor. */
    method RegisterAll(aliases: seq<string>, c: Ctor)
      modifies this
      ensures constructors == RegisterAliases(old(constructors), aliases, c)
      ensures knownMigrations == old(knownMigrations)
    {
      var j := 0;
      while j < |aliases|
        invariant 0 <= j <= |aliases|
        invariant constructors == RegisterAliases(old(constructors), aliases[..j], c)
        invariant knownMigrations == old(knownMigrations)
      {
        RegisterAliasesSnoc(old(constructors), aliases, c, j);
        constructors := constructors[Key(aliases[j]) := c];
        j := j + 1;
      }
      assert aliases[..j] == aliases;
    }

    method RegisterDataTypeMigrator(editorAlias: string, c: Ctor)
      modifies this
      ensures Registry(constructors, knownMigrations) == Register(old(Registry(constructors, knownMigrations)), editorAlias, c)
    {
      constructors := constructors[Key(editorAlias) := c];
    }

    method CreateDataTypeMigrator(editorAlias: string) returns (migrator: Option<Migrator>)
      modifies this
      ensures (migrator, Registry(constructors, knownMigrations)) == Create(old(Registry(constructors, knownMigrations)), editorAlias)
    {
      var key := Key(editorAlias);
      if key in knownMigrations {
        return knownMigrations[key];
      }
      if key in constructors {
        migrator := Invoke(constructors[key]);
      } else {
        migrator := None;
      }
      knownMigrations := knownMigrations[key := migrator];
    }
  }
}
