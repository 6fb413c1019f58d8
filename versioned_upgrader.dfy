/**
 * `VersionedUpgrader`: an upgrade plan for one product that applies its
 * migrations in version order, starting from the recorded state, and then
 * records the highest version reached. The plan builder of the host
 * platform is modelled as the list of its transitions.
 */
module VersionedUpgrader {
  import opened Wrappers
  import opened Versions

  /** A migration to apply: the version it brings the product to, and the migration type's name. */
  type Step = (Version, string)

  predicate SortedByVersion(s: seq<Step>)
  {
    forall i, j :: 0 <= i < j < |s| ==> LessEq(s[i].0, s[j].0)
  }

  /** The steps of `s` with version `v`, in order. */
  function WithVersion(s: seq<Step>, v: Version): seq<Step>
  {
    if s == [] then [] else (if s[0].0 == v then [s[0]] else []) + WithVersion(s[1..], v)
  }

  lemma {:induction false} WithVersionAppend(s: seq<Step>, t: seq<Step>, v: Version)
    ensures WithVersion(s + t, v) == WithVersion(s, v) + WithVersion(t, v)
  {
    if s != [] {
      assert (s + t)[0] == s[0];
      assert (s + t)[1..] == s[1..] + t;
      WithVersionAppend(s[1..], t, v);
    } else {
      assert s + t == t;
    }
  }

  /** Puts `x` after every step of the sorted `s` whose version is not above its own. */
  function Insert(x: Step, s: seq<Step>): seq<Step>
  {
    if s == [] then [x]
    else if Less(x.0, s[0].0) then [x] + s
    else [s[0]] + Insert(x, s[1..])
  }

  /** `OrderBy(m => m.Item1)`: a stable sort by version. */
  function OrderByVersion(s: seq<Step>): seq<Step>
  {
    if s == [] then [] else Insert(s[|s| - 1], OrderByVersion(s[..|s| - 1]))
  }

  lemma {:induction false} InsertPermutes(x: Step, s: seq<Step>)
    ensures multiset(Insert(x, s)) == multiset(s) + multiset{x}
  {
    if s != [] && !Less(x.0, s[0].0) {
      InsertPermutes(x, s[1..]);
      assert s == [s[0]] + s[1..];
    }
  }

  /** A step no later than every step of a sorted sequence can go in front of it. */
  lemma ConsSorted(a: Step, r: seq<Step>)
    requires SortedByVersion(r)
    requires forall y :: y in r ==> LessEq(a.0, y.0)
    ensures SortedByVersion([a] + r)
  {
    forall i, j | 0 <= i < j < |[a] + r|
      ensures LessEq(([a] + r)[i].0, ([a] + r)[j].0)
    {
      assert ([a] + r)[j] == r[j - 1];
      if i > 0 {
        assert ([a] + r)[i] == r[i - 1];
      } else {
        assert r[j - 1] in r;
      }
    }
  }

  lemma {:induction false} InsertSorted(x: Step, s: seq<Step>)
    requires SortedByVersion(s)
    ensures SortedByVersion(Insert(x, s))
  {
    if s != [] {
      if Less(x.0, s[0].0) {
        forall y | y in s
          ensures LessEq(x.0, y.0)
        {
          var j :| 0 <= j < |s| && s[j] == y;
          LessTransitive(x.0, s[0].0, y.0);
        }
        ConsSorted(x, s);
      } else {
        var rest := s[1..];
        assert SortedByVersion(rest) by {
          forall i, j | 0 <= i < j < |rest| ensures LessEq(rest[i].0, rest[j].0) {
            assert rest[i] == s[i + 1] && rest[j] == s[j + 1];
          }
        }
        InsertSorted(x, rest);
        InsertPermutes(x, rest);
        var r := Insert(x, rest);
        forall y | y in r
          ensures LessEq(s[0].0, y.0)
        {
          assert y in multiset(r);
          if y != x {
            assert y in multiset(rest);
            var j :| 0 <= j < |rest| && rest[j] == y;
            assert s[j + 1] == y;
          } else {
            LessTotal(x.0, s[0].0);
          }
        }
        ConsSorted(s[0], r);
      }
    }
  }

  /** Inserting a step adds it to the steps of its version and leaves the others in order. */
  lemma {:induction false} InsertStable(x: Step, s: seq<Step>, v: Version)
    requires SortedByVersion(s)
    ensures WithVersion(Insert(x, s), v) == WithVersion(s, v) + (if x.0 == v then [x] else [])
  {
    if s == [] {
      assert WithVersion([x], v) == (if x.0 == v then [x] else []) + WithVersion([], v);
    } else if Less(x.0, s[0].0) {
      assert ([x] + s)[1..] == s;
      if x.0 == v {
        NoneWithVersion(s, v);
      }
    } else {
      assert ([s[0]] + Insert(x, s[1..]))[1..] == Insert(x, s[1..]);
      SortedTail(s);
      InsertStable(x, s[1..], v);
    }
  }

  lemma SortedTail(s: seq<Step>)
    requires SortedByVersion(s) && s != []
    ensures SortedByVersion(s[1..])
  {
    forall i, j | 0 <= i < j < |s[1..]| ensures LessEq(s[1..][i].0, s[1..][j].0) {
      assert s[1..][i] == s[i + 1] && s[1..][j] == s[j + 1];
    }
  }

  /** A sorted sequence whose first version is above `v` has no step of version `v`. */
  lemma {:induction false} NoneWithVersion(s: seq<Step>, v: Version)
    requires SortedByVersion(s) && s != [] && Less(v, s[0].0)
    ensures WithVersion(s, v) == []
  {
    LessTotal(v, s[0].0);
    if |s| > 1 {
      assert LessEq(s[0].0, s[1].0);
      LessTransitive(v, s[0].0, s[1].0);
      SortedTail(s);
      NoneWithVersion(s[1..], v);
    }
  }

  /**
   * The order the steps are applied in: sorted by version, a permutation of
   * the input, and stable, so steps of the same version keep their order.
   */
  lemma {:induction false} OrderByVersionFacts(s: seq<Step>, v: Version)
    ensures SortedByVersion(OrderByVersion(s))
    ensures multiset(OrderByVersion(s)) == multiset(s)
    ensures WithVersion(OrderByVersion(s), v) == WithVersion(s, v)
  {
    if s != [] {
      var front := s[..|s| - 1];
      var last := s[|s| - 1];
      OrderByVersionFacts(front, v);
      InsertSorted(last, OrderByVersion(front));
      InsertPermutes(last, OrderByVersion(front));
      InsertStable(last, OrderByVersion(front), v);
      assert s == front + [last];
      WithVersionAppend(front, [last], v);
      assert WithVersion([last], v) == (if last.0 == v then [last] else []) + WithVersion([], v);
    }
  }

  // ---------------------------------------------------------------- the plan

  /** One transition of a migration plan: from a state to a target state by running a migration. */
  datatype Transition = Transition(from: Option<string>, to: string, migration: string)

  /** `new MigrationPlan(name).From(initialState)` and the transitions added by `To`. */
  datatype MigrationPlan = MigrationPlan(name: string, initial: Option<string>, transitions: seq<Transition>)

  /** The state the next transition starts from. */
  function State(p: MigrationPlan): Option<string>
  {
    if p.transitions == [] then p.initial else Some(p.transitions[|p.transitions| - 1].to)
  }

  /** `plan.To(target, migration)`. */
  function To(p: MigrationPlan, target: string, migration: string): MigrationPlan
  {
    p.(transitions := p.transitions + [Transition(State(p), target, migration)])
  }

  /** `steps.Aggregate(plan, (current, m) => current.To(m.Item1.ToString(), m.Item2))`. */
  function Aggregate(p: MigrationPlan, steps: seq<Step>): MigrationPlan
  {
    if steps == [] then p
    else
      var last := steps[|steps| - 1];
      To(Aggregate(p, steps[..|steps| - 1]), VersionString(last.0), last.1)
  }

  /** The plan runs `steps` in order, each starting where the previous one ended, the first from `initial`. */
  predicate Chains(p: MigrationPlan, initial: Option<string>, steps: seq<Step>)
  {
    |p.transitions| == |steps|
    && forall i {:trigger steps[i]} :: 0 <= i < |steps| ==>
      p.transitions[i] == Transition(StateBefore(p, initial, i), VersionString(steps[i].0), steps[i].1)
  }

  /** The state the `i`-th transition of `p` should start from. */
  function StateBefore(p: MigrationPlan, initial: Option<string>, i: int): Option<string>
    requires 0 <= i <= |p.transitions|
  {
    if i == 0 then initial else Some(p.transitions[i - 1].to)
  }

  /** The last step adds one transition, from the state the earlier ones reached. */
  lemma AggregateLast(p: MigrationPlan, steps: seq<Step>)
    requires steps != []
    ensures var front := Aggregate(p, steps[..|steps| - 1]); var last := steps[|steps| - 1];
      Aggregate(p, steps) == front.(transitions := front.transitions + [Transition(State(front), VersionString(last.0), last.1)])
  {
  }

  /** Adding a transition from the state reached keeps the plan chained. */
  lemma ChainsSnoc(p: MigrationPlan, initial: Option<string>, front: seq<Step>, last: Step)
    requires p.initial == initial && Chains(p, initial, front)
    ensures Chains(p.(transitions := p.transitions + [Transition(State(p), VersionString(last.0), last.1)]), initial, front + [last])
  {
    var q := p.(transitions := p.transitions + [Transition(State(p), VersionString(last.0), last.1)]);
    var steps := front + [last];
    var n := |front|;
    forall i | 0 <= i < |steps|
      ensures q.transitions[i] == Transition(StateBefore(q, initial, i), VersionString(steps[i].0), steps[i].1)
    {
      if i < n {
        assert q.transitions[i] == p.transitions[i] && steps[i] == front[i];
        assert StateBefore(q, initial, i) == StateBefore(p, initial, i);
      } else {
        assert State(p) == StateBefore(q, initial, n);
      }
    }
  }

  lemma {:induction false} AggregateChains(name: string, initial: Option<string>, steps: seq<Step>)
    ensures Aggregate(MigrationPlan(name, initial, []), steps).name == name
    ensures Aggregate(MigrationPlan(name, initial, []), steps).initial == initial
    ensures Chains(Aggregate(MigrationPlan(name, initial, []), steps), initial, steps)
  {
    if steps != [] {
      var front := steps[..|steps| - 1];
      var last := steps[|steps| - 1];
      AggregateChains(name, initial, front);
      AggregateLast(MigrationPlan(name, initial, []), steps);
      ChainsSnoc(Aggregate(MigrationPlan(name, initial, []), front), initial, front, last);
      assert front + [last] == steps;
    }
  }

  // ---------------------------------------------------------------- the upgrader

  datatype Upgrader = Upgrader(productName: string, finalState: Version, plan: MigrationPlan)

  function VersionsOf(s: seq<Step>): (r: seq<Version>)
    ensures |r| == |s| && forall i :: 0 <= i < |s| ==> r[i] == s[i].0
  {
    seq(|s|, i requires 0 <= i < |s| => s[i].0)
  }

  /**
   * `CreateUpgrader(productName, initialState, migrations)`: the final state
   * is the version of the last step in version order; with no steps
   * `Last()` throws.
   */
  function CreateUpgrader(productName: string, initialState: Option<string>, migrations: seq<Step>): (r: Result<Upgrader>)
    ensures r.Err? <==> migrations == []
    ensures r.Ok? ==> r.value.productName == productName
  {
    var migs := OrderByVersion(migrations);
    if migs == [] then Err("Sequence contains no elements")
    else Ok(Upgrader(productName, migs[|migs| - 1].0, Aggregate(MigrationPlan(productName, initialState, []), migs)))
  }

  lemma OrderByVersionEmpty(s: seq<Step>)
    ensures OrderByVersion(s) == [] <==> s == []
  {
    var v: Version :| true;
    OrderByVersionFacts(s, v);
    if s != [] {
      assert s[0] in multiset(s);
    }
  }

  /**
   * An upgrader built from some steps runs all of them, in version order,
   * from the initial state, and its final state is the highest version.
   */
  lemma CreateUpgraderFacts(productName: string, initialState: Option<string>, migrations: seq<Step>)
    requires migrations != []
    ensures CreateUpgrader(productName, initialState, migrations).Ok?
    ensures var u := CreateUpgrader(productName, initialState, migrations).value;
      u.finalState == Max(VersionsOf(migrations))
      && u.plan.name == productName && u.plan.initial == initialState
      && Chains(u.plan, initialState, OrderByVersion(migrations))
      && SortedByVersion(OrderByVersion(migrations))
      && multiset(OrderByVersion(migrations)) == multiset(migrations)
  {
    OrderByVersionEmpty(migrations);
    var v: Version :| true;
    OrderByVersionFacts(migrations, v);
    AggregateChains(productName, initialState, OrderByVersion(migrations));
    SortedLastIsMax(migrations, OrderByVersion(migrations));
  }

  /** The last of the steps sorted by version has the highest version. */
  lemma SortedLastIsMax(s: seq<Step>, r: seq<Step>)
    requires r != [] && SortedByVersion(r) && multiset(r) == multiset(s)
    ensures s != [] && r[|r| - 1].0 == Max(VersionsOf(s))
  {
    var top := r[|r| - 1];
    assert top in multiset(s);
    var k :| 0 <= k < |s| && s[k] == top;
    var m := Max(VersionsOf(s));
    var j :| 0 <= j < |s| && VersionsOf(s)[j] == m;
    assert s[j] in multiset(r);
    var i :| 0 <= i < |r| && r[i] == s[j];
    if i < |r| - 1 {
      assert LessEq(m, top.0);
    }
    assert VersionsOf(s)[k] == top.0;
    assert LessEq(top.0, m);
    LessTotal(m, top.0);
  }

  // ---------------------------------------------------------------- AfterMigrations

  /** A row of the migrations table. */
  datatype MigrationEntry = MigrationEntry(id: int, createDate: int, productName: string, version: Version)

  /** The migrations table of the database. */
  class MigrationTable {
    var entries: seq<MigrationEntry>

    constructor (entries: seq<MigrationEntry>)
      ensures this.entries == entries
    {
      this.entries := entries;
    }

    /** `AfterMigrations`: records the final state of the product, stamped with `now`. */
    method AfterMigrations(u: Upgrader, now: int)
      modifies this
      ensures entries == old(entries) + [MigrationEntry(0, now, u.productName, u.finalState)]
    {
      entries := entries + [MigrationEntry(0, now, u.productName, u.finalState)];
    }
  }
}
