/**
 * `ProductMigrationResolver`: reads the monitored product names from the
 * configuration, collects the migration types tagged with one of them, and
 * builds one upgrader per product whose recorded version is below the
 * highest target version of its migrations. Reflection over the loaded
 * assemblies is replaced by a list of `MigrationType` descriptions, and
 * `SemVersion.TryParse` is a function parameter.
 *
 * The migration attribute as declared has no target version, yet the
 * resolver reads one; the model gives the attribute, and the detail built
 * from it, an explicit `targetVersion`.
 */
module ProductResolver {
  import opened Wrappers
  import opened Text
  import opened Sets
  import opened Versions
  import opened VersionedUpgrader

  /** The configuration key of the comma-separated product names. */
  const NamesKey := "MonitoredProductNames"

  // ---------------------------------------------------------------- product names

  /** A product name `Initialize` accepts: non-empty and not "umbraco" in any case. */
  predicate Monitored(n: string)
  {
    n != "" && !EqualsIgnoreCase(n, "umbraco")
  }

  /** `parts.Select(n => n.Trim()).Where(n => n.Length > 0 && n is not "umbraco")`. */
  function MonitoredTokens(parts: seq<string>): seq<string>
  {
    if parts == [] then []
    else (if Monitored(Trim(parts[0])) then [Trim(parts[0])] else []) + MonitoredTokens(parts[1..])
  }

  lemma MonitoredTokensMembers(parts: seq<string>)
    ensures forall n :: n in MonitoredTokens(parts) <==> Monitored(n) && exists p :: p in parts && Trim(p) == n
  {
    forall n
      ensures n in MonitoredTokens(parts) <==> Monitored(n) && exists p :: p in parts && Trim(p) == n
    {
      MonitoredTokensMember(parts, n);
    }
  }

  lemma {:induction false} MonitoredTokensMember(parts: seq<string>, n: string)
    ensures n in MonitoredTokens(parts) <==> Monitored(n) && exists p :: p in parts && Trim(p) == n
  {
    if parts != [] {
      var rest := parts[1..];
      MonitoredTokensMember(rest, n);
      var t := Trim(parts[0]);
      var head := if Monitored(t) then [t] else [];
      assert MonitoredTokens(parts) == head + MonitoredTokens(rest);
      if n in head {
        assert parts[0] in parts && Trim(parts[0]) == n;
      } else if n in MonitoredTokens(rest) {
        var p :| p in rest && Trim(p) == n;
        InTail(parts, p);
        assert p in parts && Trim(p) == n;
      } else {
        forall p | p in parts && Trim(p) == n
          ensures !Monitored(n)
        {
          InTail(parts, p);
        }
      }
    }
  }

  lemma InTail(parts: seq<string>, p: string)
    requires parts != []
    ensures p in parts <==> p == parts[0] || p in parts[1..]
  {
    if p in parts && p != parts[0] {
      var i :| 0 <= i < |parts| && parts[i] == p;
      assert parts[1..][i - 1] == p;
    }
  }

  /** No two names are equal ignoring case, as in a case-insensitive `HashSet<string>`. */
  predicate DistinctIgnoringCase(s: seq<string>)
  {
    forall i, j :: 0 <= i < j < |s| ==> !EqualsIgnoreCase(s[i], s[j])
  }

  /** `set.UnionWith(xs)` under a case-insensitive comparer: a name present in any spelling is not added again. */
  function UnionWith(s: seq<string>, xs: seq<string>): seq<string>
  {
    if xs == [] then s
    else
      var front := UnionWith(s, xs[..|xs| - 1]);
      var x := xs[|xs| - 1];
      if ContainsIgnoreCase(front, x) then front else front + [x]
  }

  lemma {:induction false} UnionWithFacts(s: seq<string>, xs: seq<string>)
    requires DistinctIgnoringCase(s)
    ensures DistinctIgnoringCase(UnionWith(s, xs))
    ensures forall n :: n in UnionWith(s, xs) ==> n in s || n in xs
    ensures forall x :: (x in s || x in xs) ==> ContainsIgnoreCase(UnionWith(s, xs), x)
  {
    if xs != [] {
      var front := xs[..|xs| - 1];
      var x := xs[|xs| - 1];
      UnionWithFacts(s, front);
      var u := UnionWith(s, front);
      assert forall y :: y in xs <==> y in front || y == x;
      if !ContainsIgnoreCase(u, x) {
        var r := u + [x];
        forall i, j | 0 <= i < j < |r|
          ensures !EqualsIgnoreCase(r[i], r[j])
        {
          if j == |u| {
            assert r[i] == u[i];
          }
        }
        forall y | y in s || y in xs
          ensures ContainsIgnoreCase(r, y)
        {
          if y == x {
            assert r[|u|] == x;
          } else {
            var i :| 0 <= i < |u| && EqualsIgnoreCase(u[i], y);
            assert r[i] == u[i];
          }
        }
      } else {
        forall y | y in s || y in xs
          ensures ContainsIgnoreCase(u, y)
        {
        }
      }
    }
  }

  /** The product names `Initialize` reads from a configured value. */
  function ProductNamesOf(names: string): seq<string>
  {
    UnionWith([], MonitoredTokens(Split(names, ',')))
  }

  /**
   * The names read are, ignoring case, exactly the trimmed comma-separated
   * entries that are non-empty and not "umbraco", each once.
   */
  lemma ProductNamesChar(names: string)
    ensures DistinctIgnoringCase(ProductNamesOf(names))
    ensures forall n :: n in ProductNamesOf(names) ==> Monitored(n) && exists p :: p in Split(names, ',') && Trim(p) == n
    ensures forall p :: p in Split(names, ',') && Monitored(Trim(p)) ==> ContainsIgnoreCase(ProductNamesOf(names), Trim(p))
  {
    MonitoredTokensMembers(Split(names, ','));
    UnionWithFacts([], MonitoredTokens(Split(names, ',')));
  }

  // ---------------------------------------------------------------- migration details

  /** `MigrationAttribute`, with its target version made explicit. */
  datatype MigrationAttribute = MigrationAttribute(productName: Option<string>, targetVersion: Version, dependentMigrations: Option<seq<string>>)

  /** What reflection finds of a loaded type: its name, whether it is a migration, its migration attributes. */
  datatype MigrationType = MigrationType(name: string, isMigration: bool, attributes: seq<MigrationAttribute>)

  /** `MigrationDetail`: one migration type of one monitored product. */
  datatype MigrationDetail = MigrationDetail(
    typeName: string,
    productName: string,
    targetVersion: Version,
    mustRunBefore: set<string>,
    mustRunAfter: set<string>)

  /** The migration attributes of the type named `name`; none for a type not loaded. */
  function AttributesOf(types: seq<MigrationType>, name: string): seq<MigrationAttribute>
  {
    if types == [] then []
    else if types[0].name == name then types[0].attributes
    else AttributesOf(types[1..], name)
  }

  /** Whether the type named `name` is tagged with the product `product` (compared exactly). */
  predicate TaggedWith(types: seq<MigrationType>, name: string, product: string)
  {
    exists a :: a in AttributesOf(types, name) && a.productName == Some(product)
  }

  /** `new MigrationDetail(type, productName, dependentMigrations)`. */
  function DetailOf(types: seq<MigrationType>, t: MigrationType, a: MigrationAttribute): (d: MigrationDetail)
    requires a.productName.Some?
    ensures d.productName == a.productName.value && d.typeName == t.name && d.targetVersion == a.targetVersion
    ensures forall n :: n in d.mustRunBefore <==> n in a.dependentMigrations.GetOr([]) && TaggedWith(types, n, a.productName.value)
    ensures d.mustRunAfter == {}
  {
    var deps := a.dependentMigrations.GetOr([]);
    MigrationDetail(t.name, a.productName.value, a.targetVersion,
      set n | n in deps && TaggedWith(types, n, a.productName.value), {})
  }

  /** Whether the attribute names one of the monitored products. */
  predicate Wanted(a: MigrationAttribute, productNames: seq<string>)
  {
    a.productName.Some? && ContainsIgnoreCase(productNames, a.productName.value)
  }

  /** The details one type contributes, one per wanted attribute, in attribute order. */
  function DetailsOfType(types: seq<MigrationType>, t: MigrationType, attrs: seq<MigrationAttribute>, productNames: seq<string>): seq<MigrationDetail>
  {
    if attrs == [] then []
    else
      (if Wanted(attrs[0], productNames) then [DetailOf(types, t, attrs[0])] else [])
      + DetailsOfType(types, t, attrs[1..], productNames)
  }

  /** The details `GetMigrationDetails` loads from the types `ts`, all of `types` being loaded. */
  function Details(types: seq<MigrationType>, ts: seq<MigrationType>, productNames: seq<string>): seq<MigrationDetail>
  {
    if ts == [] then []
    else
      (if ts[0].isMigration then DetailsOfType(types, ts[0], ts[0].attributes, productNames) else [])
      + Details(types, ts[1..], productNames)
  }

  lemma {:induction false} DetailsOfTypeMembers(types: seq<MigrationType>, t: MigrationType, attrs: seq<MigrationAttribute>, productNames: seq<string>)
    ensures forall d :: d in DetailsOfType(types, t, attrs, productNames) <==>
      exists a :: a in attrs && Wanted(a, productNames) && d == DetailOf(types, t, a)
  {
    if attrs != [] {
      DetailsOfTypeMembers(types, t, attrs[1..], productNames);
      assert forall a :: a in attrs <==> a == attrs[0] || a in attrs[1..];
    }
  }

  /**
   * A detail is loaded exactly for each attribute, of a migration type, that
   * names a monitored product (ignoring case).
   */
  lemma {:induction false} DetailsMembers(types: seq<MigrationType>, ts: seq<MigrationType>, productNames: seq<string>)
    ensures forall d :: d in Details(types, ts, productNames) <==>
      exists t, a :: t in ts && t.isMigration && a in t.attributes && Wanted(a, productNames) && d == DetailOf(types, t, a)
  {
    if ts != [] {
      DetailsMembers(types, ts[1..], productNames);
      DetailsOfTypeMembers(types, ts[0], ts[0].attributes, productNames);
      assert forall t :: t in ts <==> t == ts[0] || t in ts[1..];
    }
  }

  /** The product names of the details, in order. */
  function ProductsOf(details: seq<MigrationDetail>): (r: seq<string>)
    ensures |r| == |details| && forall i :: 0 <= i < |details| ==> r[i] == details[i].productName
  {
    seq(|details|, i requires 0 <= i < |details| => details[i].productName)
  }

  /** `GetProductNames()`: each product that has a loaded detail, once, spelled as its attribute spells it. */
  lemma ProductNamesOfDetails(details: seq<MigrationDetail>)
    ensures NoDuplicates(Distinct(ProductsOf(details)))
    ensures forall n :: n in Distinct(ProductsOf(details)) <==> exists d :: d in details && d.productName == n
  {
    forall n | n in ProductsOf(details)
      ensures exists d :: d in details && d.productName == n
    {
      var i :| 0 <= i < |details| && ProductsOf(details)[i] == n;
      assert details[i] in details;
    }
    forall d | d in details
      ensures d.productName in ProductsOf(details)
    {
      var i :| 0 <= i < |details| && details[i] == d;
      assert ProductsOf(details)[i] == d.productName;
    }
  }

  // ---------------------------------------------------------------- upgraders

  /** The details of one product, in order: one group of `ToLookup(d => d.ProductName)`. */
  function Group(details: seq<MigrationDetail>, product: string): seq<MigrationDetail>
  {
    if details == [] then []
    else (if details[0].productName == product then [details[0]] else []) + Group(details[1..], product)
  }

  lemma {:induction false} GroupMembers(details: seq<MigrationDetail>, product: string)
    ensures forall d :: d in Group(details, product) <==> d in details && d.productName == product
  {
    if details != [] {
      GroupMembers(details[1..], product);
      assert forall d :: d in details <==> d == details[0] || d in details[1..];
    }
  }

  function TargetsOf(group: seq<MigrationDetail>): (r: seq<Version>)
    ensures |r| == |group| && forall i :: 0 <= i < |group| ==> r[i] == group[i].targetVersion
  {
    seq(|group|, i requires 0 <= i < |group| => group[i].targetVersion)
  }

  /** The recorded state of the product, when there is one. */
  function StateOf(initialStates: Option<map<string, string>>, product: string): Option<string>
  {
    if initialStates.Some? && product in initialStates.value then Some(initialStates.value[product]) else None
  }

  /** The current version: the parsed recorded state, or 0 when there is none or it does not parse. */
  function Current(state: Option<string>, parse: string -> Option<Version>): Version
  {
    if state.Some? && parse(state.value).Some? then parse(state.value).value else Zero
  }

  /** `productRunners.Where(m => m.TargetVersion > current).Select(m => (m.TargetVersion, m.Type))`. */
  function ToApply(group: seq<MigrationDetail>, current: Version): seq<Step>
  {
    if group == [] then []
    else
      (if Less(current, group[0].targetVersion) then [(group[0].targetVersion, group[0].typeName)] else [])
      + ToApply(group[1..], current)
  }

  lemma {:induction false} ToApplyMembers(group: seq<MigrationDetail>, current: Version)
    ensures forall s :: s in ToApply(group, current) <==>
      exists d :: d in group && Less(current, d.targetVersion) && s == (d.targetVersion, d.typeName)
  {
    if group != [] {
      ToApplyMembers(group[1..], current);
      assert forall d :: d in group <==> d == group[0] || d in group[1..];
    }
  }

  /** When the highest target is above the current version, some migration is to be applied. */
  lemma ToApplyNonEmpty(group: seq<MigrationDetail>, current: Version)
    requires group != [] && Less(current, Max(TargetsOf(group)))
    ensures ToApply(group, current) != []
  {
    ToApplyMembers(group, current);
    var i :| 0 <= i < |group| && TargetsOf(group)[i] == Max(TargetsOf(group));
    assert (group[i].targetVersion, group[i].typeName) in ToApply(group, current);
  }

  /** One pass of the loop of `GetUpgraders`: an upgrader for the product exactly when it is behind. */
  function UpgraderFor(group: seq<MigrationDetail>, product: string, initialStates: Option<map<string, string>>,
                       parse: string -> Option<Version>): Option<Upgrader>
    requires group != []
  {
    var target := Max(TargetsOf(group));
    var state := StateOf(initialStates, product);
    var current := Current(state, parse);
    if Less(current, target) then
      ToApplyNonEmpty(group, current);
      Some(CreateUpgrader(product, state, ToApply(group, current)).value)
    else None
  }

  /** The upgraders for the products `keys`, in order. */
  function UpgradersFor(details: seq<MigrationDetail>, keys: seq<string>, initialStates: Option<map<string, string>>,
                        parse: string -> Option<Version>): seq<Upgrader>
    requires forall k :: k in keys ==> Group(details, k) != []
  {
    if keys == [] then []
    else
      var front := UpgradersFor(details, keys[..|keys| - 1], initialStates, parse);
      var u := UpgraderFor(Group(details, keys[|keys| - 1]), keys[|keys| - 1], initialStates, parse);
      front + (if u.Some? then [u.value] else [])
  }

  /** Upgraders are produced one per product that is behind, each for a product of `keys`. */
  lemma {:induction false} UpgradersForMembers(details: seq<MigrationDetail>, keys: seq<string>,
                                               initialStates: Option<map<string, string>>, parse: string -> Option<Version>)
    requires forall k :: k in keys ==> Group(details, k) != []
    ensures forall u :: u in UpgradersFor(details, keys, initialStates, parse) <==>
      exists k :: k in keys && UpgraderFor(Group(details, k), k, initialStates, parse) == Some(u)
  {
    if keys != [] {
      var front := keys[..|keys| - 1];
      var last := keys[|keys| - 1];
      assert forall k :: k in front ==> k in keys;
      UpgradersForMembers(details, front, initialStates, parse);
      var u := UpgraderFor(Group(details, last), last, initialStates, parse);
      UpgradersForSnoc(details, keys, initialStates, parse);
      forall v
        ensures v in UpgradersFor(details, keys, initialStates, parse) <==>
          exists k :: k in keys && UpgraderFor(Group(details, k), k, initialStates, parse) == Some(v)
      {
        if v in UpgradersFor(details, front, initialStates, parse) {
          var k :| k in front && UpgraderFor(Group(details, k), k, initialStates, parse) == Some(v);
          assert k in keys;
        } else if u == Some(v) {
          assert last in keys;
        }
        if exists k :: k in keys && UpgraderFor(Group(details, k), k, initialStates, parse) == Some(v) {
          var k :| k in keys && UpgraderFor(Group(details, k), k, initialStates, parse) == Some(v);
          if k != last {
            InFront(keys, k);
          }
        }
      }
    }
  }

  lemma UpgradersForSnoc(details: seq<MigrationDetail>, keys: seq<string>, initialStates: Option<map<string, string>>,
                         parse: string -> Option<Version>)
    requires keys != [] && forall k :: k in keys ==> Group(details, k) != []
    ensures var u := UpgraderFor(Group(details, keys[|keys| - 1]), keys[|keys| - 1], initialStates, parse);
      UpgradersFor(details, keys, initialStates, parse)
      == UpgradersFor(details, keys[..|keys| - 1], initialStates, parse) + (if u.Some? then [u.value] else [])
  {
  }

  lemma InFront(keys: seq<string>, k: string)
    requires k in keys && keys != [] && k != keys[|keys| - 1]
    ensures k in keys[..|keys| - 1]
  {
    var i :| 0 <= i < |keys| && keys[i] == k;
    assert keys[..|keys| - 1][i] == k;
  }

  /** Every product that has a detail has a non-empty group. */
  lemma KeysHaveGroups(details: seq<MigrationDetail>)
    ensures forall k :: k in Distinct(ProductsOf(details)) ==> Group(details, k) != []
  {
    ProductNamesOfDetails(details);
    forall k | k in Distinct(ProductsOf(details))
      ensures Group(details, k) != []
    {
      GroupMembers(details, k);
      var d :| d in details && d.productName == k;
      assert d in Group(details, k);
    }
  }

  /**
   * A product is upgraded exactly when its current version is below the
   * highest target of its migrations; the upgrader then runs exactly the
   * migrations whose target is above the current version, in version
   * order, and ends at that highest target.
   */
  lemma UpgraderForFacts(group: seq<MigrationDetail>, product: string, initialStates: Option<map<string, string>>,
                         parse: string -> Option<Version>)
    requires group != []
    ensures var current := Current(StateOf(initialStates, product), parse);
      UpgraderFor(group, product, initialStates, parse).Some? <==> Less(current, Max(TargetsOf(group)))
    ensures var current := Current(StateOf(initialStates, product), parse);
      var u := UpgraderFor(group, product, initialStates, parse);
      u.Some? ==>
        u.value.productName == product
        && u.value.finalState == Max(TargetsOf(group))
        && u.value.plan.initial == StateOf(initialStates, product)
        && Chains(u.value.plan, StateOf(initialStates, product), OrderByVersion(ToApply(group, current)))
        && multiset(OrderByVersion(ToApply(group, current))) == multiset(ToApply(group, current))
        && forall s :: s in ToApply(group, current) <==>
          exists d :: d in group && Less(current, d.targetVersion) && s == (d.targetVersion, d.typeName)
  {
    var state := StateOf(initialStates, product);
    var current := Current(state, parse);
    var target := Max(TargetsOf(group));
    if Less(current, target) {
      var steps := ToApply(group, current);
      ToApplyNonEmpty(group, current);
      ToApplyMembers(group, current);
      CreateUpgraderFacts(product, state, steps);
      MaxOfApplied(group, current, steps);
    }
  }

  /** The highest version among the migrations to apply is the highest target of the product. */
  lemma MaxOfApplied(group: seq<MigrationDetail>, current: Version, steps: seq<Step>)
    requires group != [] && Less(current, Max(TargetsOf(group))) && steps == ToApply(group, current) && steps != []
    requires forall s :: s in steps <==> exists d :: d in group && Less(current, d.targetVersion) && s == (d.targetVersion, d.typeName)
    ensures Max(VersionsOf(steps)) == Max(TargetsOf(group))
  {
    var target := Max(TargetsOf(group));
    var m := Max(VersionsOf(steps));
    var i :| 0 <= i < |group| && TargetsOf(group)[i] == target;
    assert group[i] in group;
    var top := (group[i].targetVersion, group[i].typeName);
    assert top in steps;
    assert LessEq(target, m) by {
      var k :| 0 <= k < |steps| && steps[k] == top;
      assert VersionsOf(steps)[k] == target;
    }
    assert LessEq(m, target) by {
      var j :| 0 <= j < |steps| && VersionsOf(steps)[j] == m;
      StepBelowTarget(group, current, steps, steps[j]);
    }
    LessTotal(m, target);
  }

  lemma StepBelowTarget(group: seq<MigrationDetail>, current: Version, steps: seq<Step>, s: Step)
    requires group != []
    requires forall s :: s in steps <==> exists d :: d in group && Less(current, d.targetVersion) && s == (d.targetVersion, d.typeName)
    requires s in steps
    ensures LessEq(s.0, Max(TargetsOf(group)))
  {
    var d :| d in group && Less(current, d.targetVersion) && s == (d.targetVersion, d.typeName);
    var l :| 0 <= l < |group| && group[l] == d;
    assert TargetsOf(group)[l] == s.0;
  }

  // ---------------------------------------------------------------- the resolver

  class ProductMigrationResolver {
    /** The loaded types, as reflection would find them. */
    const types: seq<MigrationType>
    var productNames: seq<string>
    var migrationDetails: seq<MigrationDetail>
    var loaded: bool

    constructor (types: seq<MigrationType>)
      ensures this.types == types && productNames == [] && migrationDetails == [] && !loaded
    {
      this.types := types;
      productNames := [];
      migrationDetails := [];
      loaded := false;
    }

    /** `Initialize(settings)`: clears what was loaded and reads the monitored product names. */
    method Initialize(settings: map<string, string>)
      modifies this
      ensures !loaded && migrationDetails == []
      ensures productNames == if NamesKey in settings then ProductNamesOf(settings[NamesKey]) else []
    {
      loaded := false;
      migrationDetails := [];
      productNames := [];
      if NamesKey in settings {
        productNames := UnionWith(productNames, MonitoredTokens(Split(settings[NamesKey], ',')));
      }
    }

    /** `GetMigrationDetails()`: loads the details once, then returns what was loaded. */
    method GetMigrationDetails() returns (details: seq<MigrationDetail>)
      modifies this
      ensures loaded && productNames == old(productNames)
      ensures migrationDetails == if old(loaded) then old(migrationDetails) else old(migrationDetails) + Details(types, types, productNames)
      ensures details == migrationDetails
    {
      if !loaded {
        migrationDetails := migrationDetails + Details(types, types, productNames);
        loaded := true;
      }
      details := migrationDetails;
    }

    /** `GetProductNames()`: the distinct products of the loaded details. */
    method GetProductNames() returns (names: seq<string>)
      modifies this
      ensures loaded && productNames == old(productNames)
      ensures migrationDetails == if old(loaded) then old(migrationDetails) else old(migrationDetails) + Details(types, types, productNames)
      ensures names == Distinct(ProductsOf(migrationDetails))
    {
      var details := GetMigrationDetails();
      names := Distinct(ProductsOf(details));
    }

    /** `GetUpgraders(initialStates)`: one upgrader per product that is behind, in order of first appearance. */
    method GetUpgraders(initialStates: Option<map<string, string>>, parse: string -> Option<Version>) returns (upgraders: seq<Upgrader>)
      modifies this
      ensures loaded && productNames == old(productNames)
      ensures migrationDetails == if old(loaded) then old(migrationDetails) else old(migrationDetails) + Details(types, types, productNames)
      ensures KeysHaveGroupsHold(migrationDetails)
      ensures upgraders == UpgradersFor(migrationDetails, Distinct(ProductsOf(migrationDetails)), initialStates, parse)
    {
      var details := GetMigrationDetails();
      var keys := Distinct(ProductsOf(details));
      KeysHaveGroups(details);
      upgraders := UpgradersOf(details, keys, initialStates, parse);
    }
  }

  /** The loop over the products of `GetUpgraders`. */
  method UpgradersOf(details: seq<MigrationDetail>, keys: seq<string>, initialStates: Option<map<string, string>>,
                     parse: string -> Option<Version>) returns (upgraders: seq<Upgrader>)
    requires forall k :: k in keys ==> Group(details, k) != []
    ensures upgraders == UpgradersFor(details, keys, initialStates, parse)
  {
    upgraders := [];
    var i := 0;
    while i < |keys|
      invariant 0 <= i <= |keys|
      invariant upgraders == UpgradersFor(details, keys[..i], initialStates, parse)
    {
      assert keys[..i + 1][..i] == keys[..i];
      var productRunners := Group(details, keys[i]);
      var u := UpgraderFor(productRunners, keys[i], initialStates, parse);
      if u.Some? {
        upgraders := upgraders + [u.value];
      }
      i := i + 1;
    }
    assert keys[..i] == keys;
  }

  /** The precondition of `UpgradersFor` for the products of `details`. */
  predicate KeysHaveGroupsHold(details: seq<MigrationDetail>)
  {
    forall k :: k in Distinct(ProductsOf(details)) ==> Group(details, k) != []
  }
}
