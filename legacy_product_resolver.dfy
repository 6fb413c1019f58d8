/**
 * The legacy `ProductMigrationResolver`: the same product allow-list and
 * detail loading as the current one, but it yields runner details (product,
 * current version, target version) instead of upgraders. The current
 * version is the highest version recorded among the applied migrations of
 * the product. The legacy migration attribute is not part of this model:
 * the attribute here has the product name and target version the legacy
 * resolver reads.
 */
module LegacyProductResolver {
  import opened Wrappers
  import opened Text
  import opened Sets
  import opened Versions
  import ProductResolver

  /** The migration attribute as the legacy resolver reads it. */
  datatype MigrationAttribute = MigrationAttribute(productName: Option<string>, targetVersion: Version)

  datatype MigrationType = MigrationType(name: string, isMigration: bool, attributes: seq<MigrationAttribute>)

  /** The private `MigrationDetail` class: a product and one target version. */
  datatype MigrationDetail = MigrationDetail(productName: string, targetVersion: Version)

  /** `MigrationRunnerDetail(productName, currentVersion, targetVersion)`. */
  datatype RunnerDetail = RunnerDetail(productName: string, currentVersion: Version, targetVersion: Version)

  predicate Wanted(a: MigrationAttribute, productNames: seq<string>)
  {
    a.productName.Some? && ContainsIgnoreCase(productNames, a.productName.value)
  }

  function DetailsOfType(attrs: seq<MigrationAttribute>, productNames: seq<string>): seq<MigrationDetail>
  {
    if attrs == [] then []
    else
      (if Wanted(attrs[0], productNames) then [MigrationDetail(attrs[0].productName.value, attrs[0].targetVersion)] else [])
      + DetailsOfType(attrs[1..], productNames)
  }

  /** The details `GetMigrationDetails` loads from the types `ts`. */
  function Details(ts: seq<MigrationType>, productNames: seq<string>): seq<MigrationDetail>
  {
    if ts == [] then []
    else
      (if ts[0].isMigration then DetailsOfType(ts[0].attributes, productNames) else [])
      + Details(ts[1..], productNames)
  }

  lemma {:induction false} DetailsOfTypeMembers(attrs: seq<MigrationAttribute>, productNames: seq<string>)
    ensures forall d :: d in DetailsOfType(attrs, productNames) <==>
      exists a :: a in attrs && Wanted(a, productNames) && d == MigrationDetail(a.productName.value, a.targetVersion)
  {
    if attrs != [] {
      DetailsOfTypeMembers(attrs[1..], productNames);
      assert forall a :: a in attrs <==> a == attrs[0] || a in attrs[1..];
    }
  }

  /** A detail is loaded exactly for each attribute of a migration type that names a monitored product. */
  lemma {:induction false} DetailsMembers(ts: seq<MigrationType>, productNames: seq<string>)
    ensures forall d :: d in Details(ts, productNames) <==>
      exists t, a :: t in ts && t.isMigration && a in t.attributes && Wanted(a, productNames)
        && d == MigrationDetail(a.productName.value, a.targetVersion)
  {
    if ts != [] {
      DetailsMembers(ts[1..], productNames);
      DetailsOfTypeMembers(ts[0].attributes, productNames);
      assert forall t :: t in ts <==> t == ts[0] || t in ts[1..];
    }
  }

  function ProductsOf(details: seq<MigrationDetail>): (r: seq<string>)
    ensures |r| == |details| && forall i :: 0 <= i < |details| ==> r[i] == details[i].productName
  {
    seq(|details|, i requires 0 <= i < |details| => details[i].productName)
  }

  /** The target versions of the details of `product`, in order. */
  function TargetsOf(details: seq<MigrationDetail>, product: string): seq<Version>
  {
    if details == [] then []
    else (if details[0].productName == product then [details[0].targetVersion] else []) + TargetsOf(details[1..], product)
  }

  lemma {:induction false} TargetsOfMembers(details: seq<MigrationDetail>, product: string)
    ensures forall v :: v in TargetsOf(details, product) <==> MigrationDetail(product, v) in details
  {
    if details != [] {
      TargetsOfMembers(details[1..], product);
      assert forall d :: d in details <==> d == details[0] || d in details[1..];
    }
  }

  /** Every product that has a detail has a target. */
  lemma KeysHaveTargets(details: seq<MigrationDetail>)
    ensures forall k :: k in Distinct(ProductsOf(details)) ==> TargetsOf(details, k) != []
  {
    forall k | k in Distinct(ProductsOf(details))
      ensures TargetsOf(details, k) != []
    {
      var i :| 0 <= i < |details| && ProductsOf(details)[i] == k;
      TargetsOfMembers(details, k);
      assert details[i] == MigrationDetail(k, details[i].targetVersion);
      assert details[i].targetVersion in TargetsOf(details, k);
    }
  }

  /** The current version: the highest applied version, or 0 when the product has none recorded. */
  function Current(applied: Option<map<string, seq<Version>>>, product: string): Version
  {
    if applied.Some? && product in applied.value && applied.value[product] != [] then Max(applied.value[product])
    else Zero
  }

  /**
   * The current version is 0 when nothing is recorded for the product, and
   * otherwise one of its recorded versions, at or above all of them.
   */
  lemma CurrentFacts(applied: Option<map<string, seq<Version>>>, product: string)
    ensures applied.None? || product !in applied.value || applied.value[product] == [] ==> Current(applied, product) == Zero
    ensures applied.Some? && product in applied.value && applied.value[product] != [] ==>
      Current(applied, product) in applied.value[product]
      && forall v :: v in applied.value[product] ==> LessEq(v, Current(applied, product))
  {
  }

  /** One pass of the loop of `GetMigrationRunners`. */
  function RunnerFor(details: seq<MigrationDetail>, product: string, applied: Option<map<string, seq<Version>>>): Option<RunnerDetail>
    requires TargetsOf(details, product) != []
  {
    var target := Max(TargetsOf(details, product));
    var current := Current(applied, product);
    if Less(current, target) then Some(RunnerDetail(product, current, target)) else None
  }

  function RunnersFor(details: seq<MigrationDetail>, keys: seq<string>, applied: Option<map<string, seq<Version>>>): seq<RunnerDetail>
    requires forall k :: k in keys ==> TargetsOf(details, k) != []
  {
    if keys == [] then []
    else
      var front := RunnersFor(details, keys[..|keys| - 1], applied);
      var r := RunnerFor(details, keys[|keys| - 1], applied);
      front + (if r.Some? then [r.value] else [])
  }

  /**
   * A product gets a runner exactly when the highest recorded version is
   * below the highest target version of its migrations, and the runner
   * carries those two versions.
   */
  lemma RunnerForFacts(details: seq<MigrationDetail>, product: string, applied: Option<map<string, seq<Version>>>)
    requires TargetsOf(details, product) != []
    ensures var r := RunnerFor(details, product, applied);
      (r.Some? <==> Less(Current(applied, product), Max(TargetsOf(details, product))))
      && (r.Some? ==>
        r.value.productName == product
        && MigrationDetail(product, r.value.targetVersion) in details
        && (forall d :: d in details && d.productName == product ==> LessEq(d.targetVersion, r.value.targetVersion))
        && r.value.currentVersion == Current(applied, product)
        && (forall v :: applied.Some? && product in applied.value && v in applied.value[product] ==> LessEq(v, r.value.currentVersion)))
  {
    TargetsOfMembers(details, product);
    var target := Max(TargetsOf(details, product));
    forall d | d in details && d.productName == product
      ensures LessEq(d.targetVersion, target)
    {
      assert d == MigrationDetail(product, d.targetVersion);
    }
  }

  /** Runners are produced for distinct products, in order of first appearance, one per product that is behind. */
  lemma {:induction false} RunnersForMembers(details: seq<MigrationDetail>, keys: seq<string>, applied: Option<map<string, seq<Version>>>)
    requires forall k :: k in keys ==> TargetsOf(details, k) != []
    ensures forall r :: r in RunnersFor(details, keys, applied) <==>
      exists k :: k in keys && RunnerFor(details, k, applied) == Some(r)
  {
    if keys != [] {
      var front := keys[..|keys| - 1];
      RunnersForMembers(details, front, applied);
      assert forall k :: k in keys <==> k in front || k == keys[|keys| - 1];
    }
  }

  class ProductMigrationResolver {
    const types: seq<MigrationType>
    var productNames: seq<string>
    var migrationDetails: seq<MigrationDetail>
    var loaded: bool

    constructor (types: seq<MigrationType>)
      ensures this.types == types && productNames == [] && migrationDetails == [] && !loaded
    {
      this.types := types;
      productNames := [];
      migrationDetails := [];
      loaded := false;
    }

    /** `Initialize(settings)`: clears what was loaded and reads the monitored product names. */
    method Initialize(settings: map<string, string>)
      modifies this
      ensures !loaded && migrationDetails == []
      ensures productNames == if ProductResolver.NamesKey in settings then ProductResolver.ProductNamesOf(settings[ProductResolver.NamesKey]) else []
    {
      loaded := false;
      migrationDetails := [];
      productNames := [];
      if ProductResolver.NamesKey in settings {
        productNames := ProductResolver.UnionWith(productNames,
          ProductResolver.MonitoredTokens(Split(settings[ProductResolver.NamesKey], ',')));
      }
    }

    method GetMigrationDetails() returns (details: seq<MigrationDetail>)
      modifies this
      ensures loaded && productNames == old(productNames)
      ensures migrationDetails == if old(loaded) then old(migrationDetails) else old(migrationDetails) + Details(types, productNames)
      ensures details == migrationDetails
    {
      if !loaded {
        migrationDetails := migrationDetails + Details(types, productNames);
        loaded := true;
      }
      details := migrationDetails;
    }

    method GetProductNames() returns (names: seq<string>)
      modifies this
      ensures loaded && productNames == old(productNames)
      ensures migrationDetails == if old(loaded) then old(migrationDetails) else old(migrationDetails) + Details(types, productNames)
      ensures names == Distinct(ProductsOf(migrationDetails))
    {
      var details := GetMigrationDetails();
      names := Distinct(ProductsOf(details));
    }

    /** `GetMigrationRunners(appliedMigrations)`: one runner detail per product that is behind. */
    method GetMigrationRunners(applied: Option<map<string, seq<Version>>>) returns (runners: seq<RunnerDetail>)
      modifies this
      ensures loaded && productNames == old(productNames)
      ensures migrationDetails == if old(loaded) then old(migrationDetails) else old(migrationDetails) + Details(types, productNames)
      ensures KeysHaveTargetsHold(migrationDetails)
      ensures runners == RunnersFor(migrationDetails, Distinct(ProductsOf(migrationDetails)), applied)
    {
      var details := GetMigrationDetails();
      var keys := Distinct(ProductsOf(details));
      KeysHaveTargets(details);
      runners := RunnersOf(details, keys, applied);
    }
  }

  /** The loop over the products of `GetMigrationRunners`. */
  method RunnersOf(details: seq<MigrationDetail>, keys: seq<string>, applied: Option<map<string, seq<Version>>>)
    returns (runners: seq<RunnerDetail>)
    requires forall k :: k in keys ==> TargetsOf(details, k) != []
    ensures runners == RunnersFor(details, keys, applied)
  {
    runners := [];
    var i := 0;
    while i < |keys|
      invariant 0 <= i <= |keys|
      invariant runners == RunnersFor(details, keys[..i], applied)
    {
      assert keys[..i + 1][..i] == keys[..i];
      var r := RunnerFor(details, keys[i], applied);
      if r.Some? {
        runners := runners + [r.value];
      }
      i := i + 1;
    }
    assert keys[..i] == keys;
  }

  predicate KeysHaveTargetsHold(details: seq<MigrationDetail>)
  {
    forall k :: k in Distinct(ProductsOf(details)) ==> TargetsOf(details, k) != []
  }
}
