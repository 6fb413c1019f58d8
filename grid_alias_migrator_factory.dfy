/**
 * The registry of grid control migrators (`GridAliasMigratorFactory`):
 * like the data type registry, but explicit registrations take an
 * overwrite flag, a ready instance can be registered, and the alias
 * inferred from a class name drops one character too few of the
 * "GridAliasMigrator" suffix.
 */
module GridAliasMigratorFactory {
  import opened Wrappers
  import opened Text
  import opened DataTypeMigratorFactory

  /** The suffix rule as written: 16 characters are dropped for the 17-character "GridAliasMigrator". */
  function ControlAliasesAsWritten(t: ExportedType): seq<string>
  {
    if t.attributeAliases.Some? then t.attributeAliases.value
    else if EndsWith(t.name, "GridAliasMigrator") then [t.name[..|t.name| - 16]]
    else if EndsWith(t.name, "Migrator") then [t.name[..|t.name| - 8]]
    else []
  }

  /** As written, "DocTypeGridAliasMigrator" registers under "DocTypeG", not "DocType". */
  lemma SuffixAsWritten()
    ensures ControlAliasesAsWritten(ExportedType("DocTypeGridAliasMigrator", true, None, true)) == ["DocTypeG"]
  {
    var name := "DocTypeGridAliasMigrator";
    assert EndsWith(name, "GridAliasMigrator") by {
      assert name[|name| - 17..] == "GridAliasMigrator";
    }
    assert name[..|name| - 16] == "DocTypeG";
  }

  /** The suffix rule with the whole "GridAliasMigrator" suffix dropped. */
  function ControlAliases(t: ExportedType): seq<string>
  {
    if t.attributeAliases.Some? then t.attributeAliases.value
    else if EndsWith(t.name, "GridAliasMigrator") then [t.name[..|t.name| - 17]]
    else if EndsWith(t.name, "Migrator") then [t.name[..|t.name| - 8]]
    else []
  }

  /** Without an attribute, the alias is exactly the name with its suffix taken off. */
  lemma ControlAliasesRoundTrip(t: ExportedType)
    requires t.attributeAliases.None?
    ensures EndsWith(t.name, "GridAliasMigrator") ==> |ControlAliases(t)| == 1 && ControlAliases(t)[0] + "GridAliasMigrator" == t.name
    ensures !EndsWith(t.name, "GridAliasMigrator") && EndsWith(t.name, "Migrator") ==>
      |ControlAliases(t)| == 1 && ControlAliases(t)[0] + "Migrator" == t.name
    ensures !EndsWith(t.name, "Migrator") ==> ControlAliases(t) == []
  {
    if EndsWith(t.name, "GridAliasMigrator") {
      assert t.name[..|t.name| - 17] + t.name[|t.name| - 17..] == t.name;
      assert t.name[|t.name| - 8..] == t.name[|t.name| - 17..][9..];
    } else if EndsWith(t.name, "Migrator") {
      assert t.name[..|t.name| - 8] + t.name[|t.name| - 8..] == t.name;
    }
  }

  lemma SuffixCorrected()
    ensures ControlAliases(ExportedType("DocTypeGridAliasMigrator", true, None, true)) == ["DocType"]
  {
    var name := "DocTypeGridAliasMigrator";
    assert EndsWith(name, "GridAliasMigrator") by {
      assert name[|name| - 17..] == "GridAliasMigrator";
    }
    assert name[..|name| - 17] == "DocType";
  }

  /** `RegisterGridAliasMigrator(alias, constructor, overwrite)`: writes only when asked to overwrite or the alias is new. */
  function RegisterConstructor(reg: Registry, alias: string, c: Ctor, overwrite: bool): (r: Registry)
    ensures r.known == reg.known
    ensures Key(alias) in r.constructors
    ensures r.constructors[Key(alias)] == c <==> overwrite || Key(alias) !in reg.constructors || reg.constructors[Key(alias)] == c
    ensures forall k :: k != Key(alias) ==> (k in r.constructors <==> k in reg.constructors)
    ensures forall k :: k != Key(alias) && k in r.constructors ==> r.constructors[k] == reg.constructors[k]
  {
    if overwrite || Key(alias) !in reg.constructors then reg.(constructors := reg.constructors[Key(alias) := c]) else reg
  }

  /**
   * `RegisterGridAliasMigrator(alias, migrator, overwrite)`: the instance is
   * remembered unless the alias has both a constructor and a remembered
   * migrator and no overwrite is asked for.
   */
  function RegisterInstance(reg: Registry, alias: string, m: Option<Migrator>, overwrite: bool): (r: Registry)
    ensures r.constructors == reg.constructors
    ensures Key(alias) in r.known
    ensures (overwrite || Key(alias) !in reg.constructors || Key(alias) !in reg.known) ==> r.known == reg.known[Key(alias) := m]
    ensures !(overwrite || Key(alias) !in reg.constructors || Key(alias) !in reg.known) ==> r == reg
  {
    var key := Key(alias);
    if overwrite || key !in reg.constructors || key !in reg.known then reg.(known := reg.known[key := m]) else reg
  }

  /** An instance that was written is what creation returns from then on, whatever constructor is registered. */
  lemma InstanceIsCreated(reg: Registry, alias: string, m: Option<Migrator>, overwrite: bool)
    requires overwrite || Key(alias) !in reg.constructors || Key(alias) !in reg.known
    ensures Create(RegisterInstance(reg, alias, m, overwrite), alias).0 == m
  {
  }

  /** Without overwrite, an alias already created keeps its migrator against new instances and new constructors. */
  lemma CreatedIsKept(reg: Registry, alias: string, m: Option<Migrator>, c: Ctor)
    requires Key(alias) in reg.constructors
    ensures var first := Create(reg, alias);
      Create(RegisterInstance(RegisterConstructor(first.1, alias, c, false), alias, m, false), alias).0 == first.0
  {
  }

  /** The factory, with its two dictionaries as fields. */
  class DefaultGridAliasMigratorFactory {
    var constructors: map<string, Ctor>
    var knownMigrators: map<string, Option<Migrator>>

    /** Registers the executing assembly's migrators. */
    constructor (assembly: seq<ExportedType>)
      ensures constructors == RegisterTypes(ControlAliases, map[], assembly)
      ensures knownMigrators == map[]
    {
      constructors := map[];
      knownMigrators := map[];
      new;
      RegisterGridAliasMigrators(assembly);
    }

    /** Writes every alias of every qualifying type, overwriting earlier registrations. */
    method RegisterGridAliasMigrators(assembly: seq<ExportedType>)
      modifies this
      ensures constructors == RegisterTypes(ControlAliases, old(constructors), assembly)
      ensures knownMigrators == old(knownMigrators)
    {
      var i := 0;
      while i < |assembly|
        invariant 0 <= i <= |assembly|
        invariant constructors == RegisterTypes(ControlAliases, old(constructors), assembly[..i])
        invariant knownMigrators == old(knownMigrators)
      {
        assert assembly[..i + 1][..i] == assembly[..i];
        var t := assembly[i];
        if t.implementsInterface && t.hasDefaultConstructor {
          var aliases := ControlAliases(t);
          ghost var base := constructors;
          var j := 0;
          while j < |aliases|
            invariant 0 <= j <= |aliases|
            invariant constructors == RegisterAliases(base, aliases[..j], Reflected(t.name))
            invariant knownMigrators == old(knownMigrators)
          {
            assert aliases[..j + 1][..j] == aliases[..j];
            constructors := constructors[Key(aliases[j]) := Reflected(t.name)];
            j := j + 1;
          }
          assert aliases[..j] == aliases;
        }
        i := i + 1;
      }
      assert assembly[..i] == assembly;
    }

    method RegisterGridAliasConstructor(gridControlAlias: string, c: Ctor, overwriteExistingRegistration: bool)
      modifies this
      ensures Registry(constructors, knownMigrators)
           == RegisterConstructor(old(Registry(constructors, knownMigrators)), gridControlAlias, c, overwriteExistingRegistration)
    {
      var key := Key(gridControlAlias);
      if overwriteExistingRegistration || key !in constructors {
        constructors := constructors[key := c];
      }
    }

    method RegisterGridAliasInstance(gridControlAlias: string, migrator: Option<Migrator>, overwriteExistingRegistration: bool)
      modifies this
      ensures Registry(constructors, knownMigrators)
           == RegisterInstance(old(Registry(constructors, knownMigrators)), gridControlAlias, migrator, overwriteExistingRegistration)
    {
      var key := Key(gridControlAlias);
      if overwriteExistingRegistration || key !in constructors || key !in knownMigrators {
        knownMigrators := knownMigrators[key := migrator];
      }
    }

    method CreateGridAliasMigrator(gridControlAlias: string) returns (migrator: Option<Migrator>)
      modifies this
      ensures (migrator, Registry(constructors, knownMigrators)) == Create(old(Registry(constructors, knownMigrators)), gridControlAlias)
    {
      var key := Key(gridControlAlias);
      if key in knownMigrators {
        return knownMigrators[key];
      }
      if key in constructors {
        migrator := Invoke(constructors[key]);
      } else {
        migrator := None;
      }
      knownMigrators := knownMigrators[key := migrator];
    }
  }
}
