/**
 * The legacy field transform runner (`FieldTransformMigration`): for one
 * node, every field mapper reads its field, maps it and writes it back when
 * the value changed; per-field tallies count successes and unchanged
 * fields; a node is saved only when some field changed, and a failed save
 * turns that node's successes into save errors. The node's tallies are then
 * added into the run's tallies.
 */
module FieldTransform {
  import opened Wrappers
  import opened Platform
  import opened Transforms

  /** The private `Counts` record of one field. */
  datatype Counts = Counts(success: nat, otherError: nat, mapError: nat, saveError: nat, unchangedCount: nat)

  const NoCounts := Counts(0, 0, 0, 0, 0)

  function Total(c: Counts): nat
  {
    c.success + c.otherError + c.mapError + c.saveError + c.unchangedCount
  }

  /** The component-wise `+=` of the `finally` block. */
  function Add(a: Counts, b: Counts): (r: Counts)
    ensures Total(r) == Total(a) + Total(b)
  {
    Counts(a.success + b.success, a.otherError + b.otherError, a.mapError + b.mapError,
           a.saveError + b.saveError, a.unchangedCount + b.unchangedCount)
  }

  type Tally = map<string, Counts>

  function Get(t: Tally, k: string): Counts
  {
    if k in t then t[k] else NoCounts
  }

  // ---------------------------------------------------------------- one field

  /**
   * `TryMap(ctx, content, field, mapper)`: `Err` when it throws (a missing
   * mapper, a failing read or map), else whether it wrote, and the fields
   * afterwards.
   */
  function TryMapSpec(svc: Services, fields: map<string, Value>, field: string, slot: Slot)
    : Result<(bool, map<string, Value>)>
  {
    match slot
    case Missing => Err(NullReference)
    case Present(tr) =>
      match TryGet(tr.get, Stored(fields), field)
      case Err(e) => Err(e)
      case Ok(None) => Ok((false, fields))
      case Ok(Some(from)) =>
        match tr.mapper(svc, from)
        case Err(e) => Err(e)
        case Ok(to) => if Unchanged(from, to) then Ok((false, fields)) else Ok((true, fields[field := to]))
  }

  /**
   * `TryMap` writes exactly when the read succeeded and the mapped value
   * differs from the read one; then the field holds the mapped value and
   * no other field changes. Otherwise nothing is written.
   */
  lemma TryMapWritesIffChanged(svc: Services, fields: map<string, Value>, field: string, slot: Slot)
    ensures var r := TryMapSpec(svc, fields, field, slot);
      (r.Ok? && r.value.0) <==>
        (slot.Present?
         && TryGet(slot.transform.get, Stored(fields), field).Ok?
         && TryGet(slot.transform.get, Stored(fields), field).value.Some?
         && slot.transform.mapper(svc, TryGet(slot.transform.get, Stored(fields), field).value.value).Ok?
         && slot.transform.mapper(svc, TryGet(slot.transform.get, Stored(fields), field).value.value).value
              != TryGet(slot.transform.get, Stored(fields), field).value.value)
    ensures var r := TryMapSpec(svc, fields, field, slot);
      r.Ok? && r.value.0 ==>
        r.value.1 == fields[field := slot.transform.mapper(svc, TryGet(slot.transform.get, Stored(fields), field).value.value).value]
    ensures var r := TryMapSpec(svc, fields, field, slot);
      r.Ok? && !r.value.0 ==> r.value.1 == fields
  {
    if slot.Present? {
      var g := TryGet(slot.transform.get, Stored(fields), field);
      if g.Ok? && g.value.Some? {
        var m := slot.transform.mapper(svc, g.value.value);
        if m.Ok? {
          UnchangedIffEqual(g.value.value, m.value);
        }
      }
    }
  }

  /** A content node: its property values, which `Set` writes in place. */
  class ContentNode {
    var fields: map<string, Value>

    constructor (initial: map<string, Value>)
      ensures fields == initial
    {
      fields := initial;
    }
  }

  method TryMap(svc: Services, content: ContentNode, field: string, slot: Slot) returns (r: Result<bool>)
    modifies content
    ensures var s := TryMapSpec(svc, old(content.fields), field, slot);
      (r.Ok? <==> s.Ok?)
      && (r.Ok? ==> r.value == s.value.0 && content.fields == s.value.1)
      && (r.Err? ==> content.fields == old(content.fields))
  {
    if slot.Missing? {
      return Err(NullReference);
    }
    var tr := slot.transform;
    var got := TryGet(tr.get, Stored(content.fields), field);
    if got.Err? {
      return Err(got.error);
    }
    if got.value.None? {
      return Ok(false);
    }
    var from := got.value.value;
    var mapped := tr.mapper(svc, from);
    if mapped.Err? {
      return Err(mapped.error);
    }
    var to := mapped.value;
    if Unchanged(from, to) {
      return Ok(false);
    }
    content.fields := content.fields[field := to];
    r := Ok(true);
  }

  // ---------------------------------------------------------------- one node

  /**
   * The field loop of `RemapContent` over the mappers in order: the fields
   * afterwards, the node's tallies (a tally is created for every mapper's
   * key, even when its `TryMap` throws), and whether any field changed.
   */
  function FieldsRun(svc: Services, upgrading: bool, fields: map<string, Value>, mappers: seq<(string, PropertyMigration)>)
    : (map<string, Value>, Tally, bool)
  {
    if mappers == [] then (fields, map[], false)
    else FieldStep(svc, upgrading, FieldsRun(svc, upgrading, fields, mappers[..|mappers| - 1]), mappers[|mappers| - 1])
  }

  /** One pass of the field loop: the tally for the key exists before `TryMap` runs. */
  function FieldStep(svc: Services, upgrading: bool, st: (map<string, Value>, Tally, bool), mapper: (string, PropertyMigration))
    : (map<string, Value>, Tally, bool)
  {
    Bump(st, mapper.0, TryMapSpec(svc, st.0, mapper.0, Direction(mapper.1, upgrading)))
  }

  /** The counting around one `TryMap` whose outcome is `out`. */
  function Bump(st: (map<string, Value>, Tally, bool), key: string, out: Result<(bool, map<string, Value>)>)
    : (map<string, Value>, Tally, bool)
  {
    var cur := Get(st.1, key);
    match out
    case Err(_) => (st.0, st.1[key := cur], st.2)
    case Ok((changed, f2)) =>
      (f2, st.1[key := if changed then cur.(success := cur.success + 1) else cur.(unchangedCount := cur.unchangedCount + 1)], st.2 || changed)
  }

  lemma FieldsRunPrefix(svc: Services, upgrading: bool, fields: map<string, Value>, mappers: seq<(string, PropertyMigration)>, i: int)
    requires 0 <= i < |mappers|
    ensures FieldsRun(svc, upgrading, fields, mappers[..i + 1])
         == FieldStep(svc, upgrading, FieldsRun(svc, upgrading, fields, mappers[..i]), mappers[i])
  {
    assert mappers[..i + 1][..i] == mappers[..i];
  }

  /** The save `catch`: `SaveError := Success; Success := 0` for every field. */
  function SaveFailed(c: Tally): (r: Tally)
    ensures r.Keys == c.Keys
  {
    map k | k in c :: c[k].(saveError := c[k].success, success := 0)
  }

  /** The outer `catch`: `OtherError := Success; Success := 0` for every field. */
  function OtherFailed(c: Tally): (r: Tally)
    ensures r.Keys == c.Keys
  {
    map k | k in c :: c[k].(otherError := c[k].success, success := 0)
  }

  /** What `RemapContent` leaves behind for one node. */
  datatype NodeResult = NodeResult(fields: map<string, Value>, counts: Tally, saved: bool)

  /**
   * `RemapContent` for one node. `stateFails` says whether
   * `RetrievePreChangeState` throws (before any tally exists) and `saveOk`
   * whether `SaveChanges` returns normally; both are decisions of the
   * content mapper, which is not part of this function.
   */
  function RemapSpec(svc: Services, upgrading: bool, mappers: seq<(string, PropertyMigration)>,
                     fields: map<string, Value>, stateFails: bool, saveOk: bool): NodeResult
  {
    if stateFails then NodeResult(fields, OtherFailed(map[]), false)
    else
      var run := FieldsRun(svc, upgrading, fields, mappers);
      if !run.2 then NodeResult(run.0, run.1, false)
      else NodeResult(run.0, if saveOk then run.1 else SaveFailed(run.1), true)
  }

  /** The `finally` merge of one field: stored as it is when new, else added component-wise. */
  function MergeOf(run: Tally, mine: Tally, k: string): Counts
    requires k in run || k in mine
  {
    if k !in run then mine[k] else if k !in mine then run[k] else Add(run[k], mine[k])
  }

  function MergeCounts(run: Tally, mine: Tally): (r: Tally)
    ensures r.Keys == run.Keys + mine.Keys
  {
    map k | k in run.Keys + mine.Keys :: MergeOf(run, mine, k)
  }

  lemma MergeChar(run: Tally, mine: Tally, m: Tally)
    requires forall k :: k in m <==> k in run || k in mine
    requires forall k :: k in m ==> m[k] == MergeOf(run, mine, k)
    ensures m == MergeCounts(run, mine)
  {
  }

  /** The run's per-field tallies of one content type. */
  class RunCounts {
    var byField: Tally

    constructor ()
      ensures byField == map[]
    {
      byField := map[];
    }

    /** The `finally` loop of `RemapContent`. */
    method Merge(mine: Tally)
      modifies this
      ensures byField == MergeCounts(old(byField), mine)
    {
      var todo := mine.Keys;
      ghost var part: Tally := map[];
      ghost var run0 := byField;
      while todo != {}
        invariant todo <= mine.Keys
        invariant forall k :: k in mine ==> (k in part <==> k !in todo)
        invariant forall k :: k in part ==> k in mine && part[k] == mine[k]
        invariant forall k :: k in byField <==> k in run0 || k in part
        invariant forall k :: k in byField ==> byField[k] == MergeOf(run0, part, k)
        decreases |todo|
      {
        var k :| k in todo;
        if k !in byField {
          byField := byField[k := mine[k]];
        } else {
          byField := byField[k := Add(byField[k], mine[k])];
        }
        todo := todo - {k};
        part := part[k := mine[k]];
      }
      MergeChar(run0, mine, byField);
    }
  }

  /** One iteration of the field loop of `RemapContent`, with its `catch`. */
  method MapField(svc: Services, upgrading: bool, content: ContentNode, myCounts: Tally, changed: bool,
                  mapper: (string, PropertyMigration))
    returns (counts': Tally, changed': bool)
    modifies content
    ensures (content.fields, counts', changed') == FieldStep(svc, upgrading, (old(content.fields), myCounts, changed), mapper)
  {
    var key := mapper.0;
    var count := Get(myCounts, key);
    counts' := myCounts[key := count];
    changed' := changed;
    ghost var spec := TryMapSpec(svc, content.fields, key, Direction(mapper.1, upgrading));
    var fieldChanged := TryMap(svc, content, key, Direction(mapper.1, upgrading));
    if fieldChanged.Ok? {
      changed' := changed' || fieldChanged.value;
      if fieldChanged.value {
        counts' := counts'[key := count.(success := count.success + 1)];
      } else {
        counts' := counts'[key := count.(unchangedCount := count.unchangedCount + 1)];
      }
      assert spec == Ok((fieldChanged.value, content.fields));
      assert FieldStep(svc, upgrading, (old(content.fields), myCounts, changed), mapper).0 == content.fields;
      assert FieldStep(svc, upgrading, (old(content.fields), myCounts, changed), mapper).2 == changed';
      assert FieldStep(svc, upgrading, (old(content.fields), myCounts, changed), mapper).1 == counts';
    } else {
      assert spec.Err?;
      assert FieldStep(svc, upgrading, (old(content.fields), myCounts, changed), mapper).0 == content.fields;
      assert FieldStep(svc, upgrading, (old(content.fields), myCounts, changed), mapper).2 == changed';
      assert FieldStep(svc, upgrading, (old(content.fields), myCounts, changed), mapper).1 == counts';
    }
  }

  /** `RemapContent(upgrading, mapping, ctx, content, direction, counts)`; `saved` says whether `SaveChanges` was called. */
  method RemapContent(svc: Services, upgrading: bool, mappers: seq<(string, PropertyMigration)>,
                      content: ContentNode, stateFails: bool, saveOk: bool, run: RunCounts)
    returns (saved: bool)
    modifies content, run
    ensures var r := RemapSpec(svc, upgrading, mappers, old(content.fields), stateFails, saveOk);
      content.fields == r.fields && saved == r.saved && run.byField == MergeCounts(old(run.byField), r.counts)
  {
    var myCounts: Tally := map[];
    saved := false;
    if stateFails {
      myCounts := OtherFailed(myCounts);
      run.Merge(myCounts);
      return;
    }
    var changed := false;
    ghost var fields0 := content.fields;
    var i := 0;
    while i < |mappers|
      modifies content
      invariant 0 <= i <= |mappers|
      invariant (content.fields, myCounts, changed) == FieldsRun(svc, upgrading, fields0, mappers[..i])
    {
      FieldsRunPrefix(svc, upgrading, fields0, mappers, i);
      myCounts, changed := MapField(svc, upgrading, content, myCounts, changed, mappers[i]);
      i := i + 1;
    }
    assert mappers[..i] == mappers;
    ghost var r := FieldsRun(svc, upgrading, fields0, mappers);
    assert r == (content.fields, myCounts, changed);
    if changed {
      saved := true;
      if !saveOk {
        myCounts := SaveFailed(myCounts);
      }
    }
    run.Merge(myCounts);
  }

  // ---------------------------------------------------------------- what the tallies say

  function Occurrences(mappers: seq<(string, PropertyMigration)>, k: string): nat
  {
    if mappers == [] then 0
    else Occurrences(mappers[..|mappers| - 1], k) + (if mappers[|mappers| - 1].0 == k then 1 else 0)
  }

  /** The keys of the tallies are the keys of the mappers `done`. */
  ghost predicate KeysOf(done: seq<(string, PropertyMigration)>, t: Tally)
  {
    forall k :: k in t <==> exists i :: 0 <= i < |done| && done[i].0 == k
  }

  /** Only successes and unchanged counts, at most one per mapper of the key. */
  ghost predicate OnlyCounted(done: seq<(string, PropertyMigration)>, t: Tally)
  {
    (forall k :: k in t ==> t[k].mapError == 0 && t[k].otherError == 0 && t[k].saveError == 0)
    && (forall k :: k in t ==> t[k].success + t[k].unchangedCount <= Occurrences(done, k))
  }

  /** The node changed exactly when some tally has a success, and an unchanged node keeps `fields`. */
  ghost predicate ChangedIffSuccess(fields: map<string, Value>, st: (map<string, Value>, Tally, bool))
  {
    (st.2 <==> exists k :: k in st.1 && st.1[k].success > 0)
    && (!st.2 ==> st.0 == fields)
  }

  /** What the field loop's state says after the mappers `done`, starting from `fields`. */
  ghost predicate TalliesAfter(fields: map<string, Value>, done: seq<(string, PropertyMigration)>, st: (map<string, Value>, Tally, bool))
  {
    KeysOf(done, st.1) && OnlyCounted(done, st.1) && ChangedIffSuccess(fields, st)
  }

  lemma BumpKeys(mappers: seq<(string, PropertyMigration)>, st: (map<string, Value>, Tally, bool), out: Result<(bool, map<string, Value>)>)
    requires mappers != []
    requires KeysOf(mappers[..|mappers| - 1], st.1)
    ensures KeysOf(mappers, Bump(st, mappers[|mappers| - 1].0, out).1)
  {
    var front := mappers[..|mappers| - 1];
    var key := mappers[|mappers| - 1].0;
    var nx := Bump(st, key, out);
    forall k
      ensures k in nx.1 <==> exists i :: 0 <= i < |mappers| && mappers[i].0 == k
    {
      if k in st.1 {
        var i :| 0 <= i < |front| && front[i].0 == k;
        assert mappers[i] == front[i];
      }
      if k != key && exists i :: 0 <= i < |mappers| && mappers[i].0 == k {
        var i :| 0 <= i < |mappers| && mappers[i].0 == k;
        assert i < |front| && front[i].0 == k;
      }
    }
  }

  lemma BumpCounted(mappers: seq<(string, PropertyMigration)>, st: (map<string, Value>, Tally, bool), out: Result<(bool, map<string, Value>)>)
    requires mappers != []
    requires OnlyCounted(mappers[..|mappers| - 1], st.1)
    ensures OnlyCounted(mappers, Bump(st, mappers[|mappers| - 1].0, out).1)
  {
  }

  lemma BumpChanged(fields: map<string, Value>, key: string, st: (map<string, Value>, Tally, bool), out: Result<(bool, map<string, Value>)>)
    requires ChangedIffSuccess(fields, st)
    requires out.Ok? && !out.value.0 ==> out.value.1 == st.0
    ensures ChangedIffSuccess(fields, Bump(st, key, out))
  {
    var nx := Bump(st, key, out);
    assert forall k :: k in st.1 ==> k in nx.1 && nx.1[k].success >= st.1[k].success;
    if out.Ok? && out.value.0 {
      assert nx.1[key].success > 0;
    } else if exists k :: k in nx.1 && nx.1[k].success > 0 {
      var k :| k in nx.1 && nx.1[k].success > 0;
      assert k in st.1 && st.1[k].success > 0;
    }
  }

  /** One pass of the field loop keeps `TalliesAfter`. */
  lemma FieldStepTallies(svc: Services, upgrading: bool, fields: map<string, Value>,
                         mappers: seq<(string, PropertyMigration)>, st: (map<string, Value>, Tally, bool))
    requires mappers != []
    requires TalliesAfter(fields, mappers[..|mappers| - 1], st)
    ensures TalliesAfter(fields, mappers, FieldStep(svc, upgrading, st, mappers[|mappers| - 1]))
  {
    var mapper := mappers[|mappers| - 1];
    var out := TryMapSpec(svc, st.0, mapper.0, Direction(mapper.1, upgrading));
    TryMapWritesIffChanged(svc, st.0, mapper.0, Direction(mapper.1, upgrading));
    BumpKeys(mappers, st, out);
    BumpCounted(mappers, st, out);
    BumpChanged(fields, mapper.0, st, out);
  }

  /**
   * After the field loop: one tally per mapper key, holding only successes
   * and unchanged counts (a throwing mapper adds to neither, so `MapError`
   * stays 0), at most one per mapper of that key; the node changed exactly
   * when some tally has a success, and an unchanged node keeps its fields.
   */
  lemma {:induction false} FieldsRunTallies(svc: Services, upgrading: bool, fields: map<string, Value>, mappers: seq<(string, PropertyMigration)>)
    ensures TalliesAfter(fields, mappers, FieldsRun(svc, upgrading, fields, mappers))
  {
    if mappers != [] {
      FieldsRunTallies(svc, upgrading, fields, mappers[..|mappers| - 1]);
      FieldStepTallies(svc, upgrading, fields, mappers, FieldsRun(svc, upgrading, fields, mappers[..|mappers| - 1]));
    }
  }

  /**
   * For one node: it is saved exactly when the pre-change state was read and
   * some field changed; `MapError` and `OtherError` are always 0; after a
   * failed save no field keeps a success and each has as many save errors
   * as it had successes; a node that is not saved keeps its fields.
   */
  lemma RemapOutcome(svc: Services, upgrading: bool, mappers: seq<(string, PropertyMigration)>,
                     fields: map<string, Value>, stateFails: bool, saveOk: bool)
    ensures var r := RemapSpec(svc, upgrading, mappers, fields, stateFails, saveOk);
      var run := FieldsRun(svc, upgrading, fields, mappers);
      (r.saved <==> !stateFails && exists k :: k in run.1 && run.1[k].success > 0)
      && (forall k :: k in r.counts ==> r.counts[k].mapError == 0 && r.counts[k].otherError == 0)
      && (!r.saved ==> r.fields == fields)
      && (stateFails ==> r.counts == map[])
      && (!stateFails ==> r.counts.Keys == run.1.Keys)
      && (r.saved && !saveOk ==> forall k :: k in r.counts ==>
            r.counts[k].success == 0 && r.counts[k].saveError == run.1[k].success
            && r.counts[k].unchangedCount == run.1[k].unchangedCount)
      && (forall k :: k in r.counts ==> Total(r.counts[k]) <= Occurrences(mappers, k))
  {
    FieldsRunTallies(svc, upgrading, fields, mappers);
  }

  /** Merging node tallies into the run does not depend on the order of the nodes. */
  lemma MergeOrderIrrelevant(run: Tally, a: Tally, b: Tally)
    ensures MergeCounts(MergeCounts(run, a), b) == MergeCounts(MergeCounts(run, b), a)
  {
    var l := MergeCounts(MergeCounts(run, a), b);
    var r := MergeCounts(MergeCounts(run, b), a);
    forall k | k in l.Keys
      ensures l[k] == r[k]
    {
      if k in run && k in a && k in b {
        AddSwap(run[k], a[k], b[k]);
      } else if k in a && k in b {
        assert Add(a[k], b[k]) == Add(b[k], a[k]);
      }
    }
  }

  lemma AddSwap(x: Counts, a: Counts, b: Counts)
    ensures Add(Add(x, a), b) == Add(Add(x, b), a)
  {
  }

  /** Merging adds the node's totals into the run's totals field by field; a new field's tally is stored as it is. */
  lemma MergeAdds(run: Tally, mine: Tally, k: string)
    ensures Total(Get(MergeCounts(run, mine), k)) == Total(Get(run, k)) + Total(Get(mine, k))
    ensures k !in run && k in mine ==> MergeCounts(run, mine)[k] == mine[k]
  {
  }
}
