/**
 * The grid migrator (`GridMigrator`): a grid value keeps its controls under
 * sections[s].rows[r].areas[a].controls[c]; the value of a control is handed
 * to the transforms of the grid control migrator registered for its editor
 * alias, and their setters are re-aimed at that control's value. Which
 * control migrators exist depends on the aliases the layouts of the data
 * type's configuration allow, each created once through the grid control
 * registry.
 */
module Grid {
  import opened Wrappers
  import opened Text
  import opened Json
  import opened DataTypeMigratorFactory
  import GridAliasMigratorFactory
  import JsonContent
  import DataTypeMigration

  // ---------------------------------------------------------------- the setter

  /** The properties the walk goes down below "sections": rows, areas, controls. */
  const Levels: seq<string> := ["rows", "areas", "controls"]

  /** `[at[0]][keys[0]][at[1]][keys[1]]...`: array indexes alternating with property names. */
  function Interleave(keys: seq<string>, at: seq<int>): seq<Step>
    decreases |at|
  {
    if at == [] then []
    else if keys == [] then [At(at[0])] + Interleave([], at[1..])
    else [At(at[0]), Prop(keys[0])] + Interleave(keys[1..], at[1..])
  }

  /** `obj?["sections"]?[s]?["rows"]?[r]?["areas"]?[a]?["controls"]?[c]` for `at == [s, r, a, c]`. */
  function ControlPath(at: seq<int>): seq<Step>
  {
    [Prop("sections")] + Interleave(Levels, at)
  }

  /** The chain of `PropertySetter`: the control path, then ["value"]. */
  function ValuePath(at: seq<int>): seq<Step>
  {
    ControlPath(at) + [Prop("value")]
  }

  /**
   * `PropertySetter(obj, s, r, a, c, value, setter)`: follows the value path
   * (throwing where an indexer throws); a null on the way, or a null object,
   * leaves the tree as it is; otherwise the inner setter writes the value
   * found there, and only that value changes.
   */
  function GridSetter(o: Json, at: seq<int>, val: Option<string>, inner: JsonContent.Setter): (r: Result<Json>)
    ensures o.JNull? ==> r == Ok(o)
    ensures !o.JNull? && Navigate(o, ValuePath(at)).Err? ==> r.Err?
    ensures !o.JNull? && Navigate(o, ValuePath(at)) == Ok(None) ==> r == Ok(o)
    ensures !o.JNull? && Present(o, ValuePath(at)) ==>
      var field := Navigate(o, ValuePath(at)).value.value;
      (inner(field, val).Err? ==> r.Err?)
      && (inner(field, val).Ok? ==>
          r.Ok? && Navigate(r.value, ValuePath(at)) == Ok(Some(inner(field, val).value))
          && forall q :: Diverges(ValuePath(at), q) ==> Navigate(r.value, q) == Navigate(o, q))
  {
    if o.JNull? then Ok(o)
    else
      var path := ValuePath(at);
      match Navigate(o, path)
      case Err(e) => Err(e)
      case Ok(None) => Ok(o)
      case Ok(Some(field)) =>
        match inner(field, val)
        case Err(e) => Err(e)
        case Ok(written) =>
          ReplaceReaches(o, path, written);
          forall q | Diverges(path, q)
            ensures Navigate(Replace(o, path, written), q) == Navigate(o, q)
          {
            ReplaceElsewhere(o, path, written, q);
          }
          Ok(Replace(o, path, written))
  }

  // ---------------------------------------------------------------- the controls visited

  /** `control?["editor"]?["alias"]?.ToString()` of an object control. */
  function EditorOf(control: Child): Result<Option<string>>
  {
    match Field(control, "editor")
    case None => Ok(None)
    case Some(e) =>
      match Index(e, Prop("alias"))
      case Err(err) => Err(err)
      case Ok(a) => Ok(TextOf(a))
  }

  /**
   * One control: its value and its editor alias are read (either read may
   * throw); it is visited only when the value exists, the alias is not blank
   * and a migrator is mapped to the alias.
   */
  function Visit(control: Child, migrators: map<string, Migrator>): (r: Result<Option<(Json, string)>>)
    ensures r.Ok? && r.value.Some? <==>
      control.Item? && control.item.JObj? && Lookup(control.item.props, "value").Some?
      && EditorOf(control).Ok? && !IsNullOrWhiteSpace(EditorOf(control).value)
      && EditorOf(control).value.value in migrators
    ensures r.Ok? && r.value.Some? ==>
      r.value.value == (Lookup(control.item.props, "value").value, EditorOf(control).value.value)
    ensures r.Err? <==> ChildIndex(control, "value").Err? || EditorOf(control).Err?
  {
    match ChildIndex(control, "value")
    case Err(e) => Err(e)
    case Ok(value) =>
      match EditorOf(control)
      case Err(e) => Err(e)
      case Ok(editor) =>
        if value.None? || IsNullOrWhiteSpace(editor) || editor.value !in migrators then Ok(None)
        else Ok(Some((value.value, editor.value)))
  }

  /** A visited control: where it is, its value and its editor alias. */
  datatype Hit = Hit(at: seq<int>, value: Json, editor: string)

  /**
   * The nested loops of `GetPropertyValuesMigrationsAndSetters` down to the
   * controls: `xs` are the children of the current level, `keys` the
   * properties still to go down and `prefix` the indexes counted so far. A
   * null property skips its subtree; indexing an array or a value throws.
   */
  function Walk(xs: seq<Child>, keys: seq<string>, prefix: seq<int>, migrators: map<string, Migrator>): Result<seq<Hit>>
    decreases |keys|, |xs|
  {
    if xs == [] then Ok([])
    else
      var n := |xs| - 1;
      match Walk(xs[..n], keys, prefix, migrators)
      case Err(e) => Err(e)
      case Ok(front) =>
        if keys == [] then
          match Visit(xs[n], migrators)
          case Err(e) => Err(e)
          case Ok(None) => Ok(front)
          case Ok(Some(vc)) => Ok(front + [Hit(prefix + [n], vc.0, vc.1)])
        else
          match ChildIndex(xs[n], keys[0])
          case Err(e) => Err(e)
          case Ok(None) => Ok(front)
          case Ok(Some(sub)) =>
            match Walk(Children(sub), keys[1..], prefix + [n], migrators)
            case Err(e) => Err(e)
            case Ok(more) => Ok(front + more)
  }

  /** The child the indexes `at` reach from `xs` going down `keys`. */
  function Reach(xs: seq<Child>, keys: seq<string>, at: seq<int>): Option<Child>
    decreases |keys|
  {
    if |at| != |keys| + 1 || !(0 <= at[0] < |xs|) then None
    else if keys == [] then Some(xs[at[0]])
    else
      match ChildIndex(xs[at[0]], keys[0])
      case Ok(Some(sub)) => Reach(Children(sub), keys[1..], at[1..])
      case _ => None
  }

  /** The control at `at` is visited with this value and alias. */
  predicate Visited(xs: seq<Child>, keys: seq<string>, at: seq<int>, value: Json, editor: string, migrators: map<string, Migrator>)
  {
    Reach(xs, keys, at).Some? && Visit(Reach(xs, keys, at).value, migrators) == Ok(Some((value, editor)))
  }

  lemma ReachFront(xs: seq<Child>, n: int, keys: seq<string>, at: seq<int>)
    requires 0 <= n <= |xs| && |at| == |keys| + 1 && at[0] < n
    ensures Reach(xs[..n], keys, at) == Reach(xs, keys, at)
  {
  }

  /** Every hit lies under `prefix` and is a control of `xs` visited with its value and alias. */
  predicate HitsUnder(hs: seq<Hit>, xs: seq<Child>, keys: seq<string>, prefix: seq<int>, migrators: map<string, Migrator>)
  {
    forall h :: h in hs ==>
      |h.at| == |prefix| + |keys| + 1 && h.at[..|prefix|] == prefix
      && Visited(xs, keys, h.at[|prefix|..], h.value, h.editor, migrators)
  }

  lemma UnderFront(xs: seq<Child>, n: int, keys: seq<string>, prefix: seq<int>, migrators: map<string, Migrator>, hs: seq<Hit>)
    requires 0 <= n <= |xs| && HitsUnder(hs, xs[..n], keys, prefix, migrators)
    ensures HitsUnder(hs, xs, keys, prefix, migrators)
  {
    forall h | h in hs
      ensures Visited(xs, keys, h.at[|prefix|..], h.value, h.editor, migrators)
    {
      ReachFront(xs, n, keys, h.at[|prefix|..]);
    }
  }

  lemma UnderSub(xs: seq<Child>, n: int, keys: seq<string>, prefix: seq<int>, migrators: map<string, Migrator>, sub: Json, hs: seq<Hit>)
    requires 0 <= n < |xs| && keys != [] && ChildIndex(xs[n], keys[0]) == Ok(Some(sub))
    requires HitsUnder(hs, Children(sub), keys[1..], prefix + [n], migrators)
    ensures HitsUnder(hs, xs, keys, prefix, migrators)
  {
    forall h | h in hs
      ensures |h.at| == |prefix| + |keys| + 1 && h.at[..|prefix|] == prefix
      ensures Visited(xs, keys, h.at[|prefix|..], h.value, h.editor, migrators)
    {
      assert h in hs;
      UnderSubAt(xs, n, keys, prefix, sub, h.at);
    }
  }

  /** A position under `prefix + [n]` is one under `prefix` whose control is reached through child `n`. */
  lemma UnderSubAt(xs: seq<Child>, n: int, keys: seq<string>, prefix: seq<int>, sub: Json, at: seq<int>)
    requires 0 <= n < |xs| && keys != [] && ChildIndex(xs[n], keys[0]) == Ok(Some(sub))
    requires |at| == |prefix| + 1 + |keys[1..]| + 1 && at[..|prefix| + 1] == prefix + [n]
    ensures |at| == |prefix| + |keys| + 1 && at[..|prefix|] == prefix
    ensures Reach(xs, keys, at[|prefix|..]) == Reach(Children(sub), keys[1..], at[|prefix + [n]|..])
  {
    var p1 := prefix + [n];
    assert at[..|prefix|] == at[..|p1|][..|prefix|];
    var tail := at[|prefix|..];
    assert tail[0] == n && tail[1..] == at[|p1|..];
    ReachInto(xs, keys, tail, sub);
  }

  lemma UnderAppend(a: seq<Hit>, b: seq<Hit>, xs: seq<Child>, keys: seq<string>, prefix: seq<int>, migrators: map<string, Migrator>)
    requires HitsUnder(a, xs, keys, prefix, migrators) && HitsUnder(b, xs, keys, prefix, migrators)
    ensures HitsUnder(a + b, xs, keys, prefix, migrators)
  {
  }

  /** Every hit of a walk is a visited control under `prefix`. */
  lemma {:induction false} WalkSound(xs: seq<Child>, keys: seq<string>, prefix: seq<int>, migrators: map<string, Migrator>)
    requires Walk(xs, keys, prefix, migrators).Ok?
    ensures HitsUnder(Walk(xs, keys, prefix, migrators).value, xs, keys, prefix, migrators)
    decreases |keys|, |xs|
  {
    if xs != [] {
      var n := |xs| - 1;
      WalkSound(xs[..n], keys, prefix, migrators);
      var front := Walk(xs[..n], keys, prefix, migrators).value;
      UnderFront(xs, n, keys, prefix, migrators, front);
      if keys == [] {
        if Visit(xs[n], migrators).value.Some? {
          var vc := Visit(xs[n], migrators).value.value;
          var last := [Hit(prefix + [n], vc.0, vc.1)];
          assert HitsUnder(last, xs, keys, prefix, migrators) by {
            assert (prefix + [n])[|prefix|..] == [n];
            assert (prefix + [n])[..|prefix|] == prefix;
          }
          UnderAppend(front, last, xs, keys, prefix, migrators);
        }
      } else if ChildIndex(xs[n], keys[0]).value.Some? {
        var sub := ChildIndex(xs[n], keys[0]).value.value;
        WalkSound(Children(sub), keys[1..], prefix + [n], migrators);
        var more := Walk(Children(sub), keys[1..], prefix + [n], migrators).value;
        UnderSub(xs, n, keys, prefix, migrators, sub, more);
        UnderAppend(front, more, xs, keys, prefix, migrators);
      }
    }
  }

  /** Every visited control under `xs` is a hit of the walk. */
  lemma {:induction false} WalkComplete(xs: seq<Child>, keys: seq<string>, prefix: seq<int>, migrators: map<string, Migrator>,
                                        at: seq<int>, value: Json, editor: string)
    requires Walk(xs, keys, prefix, migrators).Ok?
    requires Visited(xs, keys, at, value, editor, migrators)
    ensures Hit(prefix + at, value, editor) in Walk(xs, keys, prefix, migrators).value
    decreases |keys|, |xs|, 1
  {
    var n := |xs| - 1;
    if at[0] < n {
      ReachFront(xs, n, keys, at);
      var front := WalkFront(xs, keys, prefix, migrators);
      WalkComplete(xs[..n], keys, prefix, migrators, at, value, editor);
    } else {
      WalkCompleteLast(xs, keys, prefix, migrators, at, value, editor);
    }
  }

  /** The case of a control under the last child. */
  lemma {:induction false} WalkCompleteLast(xs: seq<Child>, keys: seq<string>, prefix: seq<int>, migrators: map<string, Migrator>,
                                            at: seq<int>, value: Json, editor: string)
    requires Walk(xs, keys, prefix, migrators).Ok?
    requires Visited(xs, keys, at, value, editor, migrators) && at[0] == |xs| - 1
    ensures Hit(prefix + at, value, editor) in Walk(xs, keys, prefix, migrators).value
    decreases |keys|, |xs|, 0
  {
    var n := |xs| - 1;
    if keys == [] {
      WalkCompleteLeaf(xs, prefix, migrators, at, value, editor);
    } else {
      var sub := ReachSub(xs, keys, at);
      WalkSub(xs, keys, prefix, migrators, sub);
      WalkComplete(Children(sub), keys[1..], prefix + [n], migrators, at[1..], value, editor);
      SplitHead(prefix, at);
    }
  }

  /** A control reached under the first key of a child is reached from that key's value. */
  lemma ReachSub(xs: seq<Child>, keys: seq<string>, at: seq<int>) returns (sub: Json)
    requires keys != [] && Reach(xs, keys, at).Some?
    ensures 0 <= at[0] < |xs| && ChildIndex(xs[at[0]], keys[0]) == Ok(Some(sub))
    ensures Reach(Children(sub), keys[1..], at[1..]) == Reach(xs, keys, at)
  {
    sub := ChildIndex(xs[at[0]], keys[0]).value.value;
  }

  /** Conversely, a control reached from the value of the first key of child `at[0]` is reached from the children. */
  lemma ReachInto(xs: seq<Child>, keys: seq<string>, at: seq<int>, sub: Json)
    requires keys != [] && |at| == |keys| + 1 && 0 <= at[0] < |xs| && ChildIndex(xs[at[0]], keys[0]) == Ok(Some(sub))
    ensures Reach(xs, keys, at) == Reach(Children(sub), keys[1..], at[1..])
  {
  }

  lemma SplitHead(prefix: seq<int>, at: seq<int>)
    requires at != []
    ensures prefix + [at[0]] + at[1..] == prefix + at
  {
    assert [at[0]] + at[1..] == at;
  }

  /** A walk that succeeds succeeds on all but the last child, and keeps what that found in front. */
  lemma WalkFront(xs: seq<Child>, keys: seq<string>, prefix: seq<int>, migrators: map<string, Migrator>) returns (front: seq<Hit>)
    requires xs != [] && Walk(xs, keys, prefix, migrators).Ok?
    ensures Walk(xs[..|xs| - 1], keys, prefix, migrators) == Ok(front)
    ensures forall h :: h in front ==> h in Walk(xs, keys, prefix, migrators).value
  {
    front := Walk(xs[..|xs| - 1], keys, prefix, migrators).value;
  }

  lemma WalkCompleteLeaf(xs: seq<Child>, prefix: seq<int>, migrators: map<string, Migrator>, at: seq<int>, value: Json, editor: string)
    requires Walk(xs, [], prefix, migrators).Ok?
    requires Visited(xs, [], at, value, editor, migrators) && at[0] == |xs| - 1
    ensures Hit(prefix + at, value, editor) in Walk(xs, [], prefix, migrators).value
  {
    assert |at| == 1;
    assert at == [|xs| - 1];
    WalkLeaf(xs, prefix, migrators, value, editor);
  }

  /** Without keys, a last control visited with a value and an alias is the last hit. */
  lemma WalkLeaf(xs: seq<Child>, prefix: seq<int>, migrators: map<string, Migrator>, value: Json, editor: string)
    requires xs != [] && Walk(xs, [], prefix, migrators).Ok?
    requires Visit(xs[|xs| - 1], migrators) == Ok(Some((value, editor)))
    ensures Hit(prefix + [|xs| - 1], value, editor) in Walk(xs, [], prefix, migrators).value
  {
    var front := Walk(xs[..|xs| - 1], [], prefix, migrators).value;
    assert Walk(xs, [], prefix, migrators).value == front + [Hit(prefix + [|xs| - 1], value, editor)];
  }

  /** With keys, the walk below the last child's first key succeeds and its hits are hits of the whole walk. */
  lemma WalkSub(xs: seq<Child>, keys: seq<string>, prefix: seq<int>, migrators: map<string, Migrator>, sub: Json)
    requires xs != [] && keys != [] && Walk(xs, keys, prefix, migrators).Ok?
    requires ChildIndex(xs[|xs| - 1], keys[0]) == Ok(Some(sub))
    ensures Walk(Children(sub), keys[1..], prefix + [|xs| - 1], migrators).Ok?
    ensures forall h :: h in Walk(Children(sub), keys[1..], prefix + [|xs| - 1], migrators).value ==> h in Walk(xs, keys, prefix, migrators).value
  {
    var front := Walk(xs[..|xs| - 1], keys, prefix, migrators).value;
    var more := Walk(Children(sub), keys[1..], prefix + [|xs| - 1], migrators).value;
    assert Walk(xs, keys, prefix, migrators).value == front + more;
  }

  /** The child reached from the children of `x` is an item found by following the path in `x`. */
  lemma {:induction false} ReachNavigates(x: Json, keys: seq<string>, at: seq<int>)
    requires Reach(Children(x), keys, at).Some? && Reach(Children(x), keys, at).value.Item?
    ensures Navigate(x, Interleave(keys, at)) == Ok(Some(Reach(Children(x), keys, at).value.item))
    decreases |keys|
  {
    var i := at[0];
    assert x.JArr? && Children(x)[i] == Item(x.items[i]);
    if keys == [] {
      assert at[1..] == [];
      assert Interleave(keys, at) == [At(i)];
      assert Navigate(x.items[i], []) == Ok(Some(x.items[i]));
    } else {
      var sub := ChildIndex(Children(x)[i], keys[0]).value.value;
      ReachNavigates(sub, keys[1..], at[1..]);
      var path := Interleave(keys, at);
      assert path[0] == At(i) && path[1..][0] == Prop(keys[0]) && path[1..][1..] == Interleave(keys[1..], at[1..]);
      assert Index(x.items[i], Prop(keys[0])) == Ok(Some(sub));
    }
  }

  /** Conversely, an object found by following the path is the child reached. */
  lemma {:induction false} NavigateReaches(x: Json, keys: seq<string>, at: seq<int>, c: Json)
    requires |at| == |keys| + 1 && Navigate(x, Interleave(keys, at)) == Ok(Some(c))
    ensures Reach(Children(x), keys, at) == Some(Item(c))
    decreases |keys|
  {
    var i := at[0];
    var path := Interleave(keys, at);
    assert path[0] == At(i);
    assert x.JArr? && 0 <= i < |x.items| && Children(x)[i] == Item(x.items[i]);
    if keys == [] {
      assert at[1..] == [] && path == [At(i)];
    } else {
      assert path[1..][0] == Prop(keys[0]) && path[1..][1..] == Interleave(keys[1..], at[1..]);
      var sub := Index(x.items[i], Prop(keys[0])).value.value;
      NavigateReaches(sub, keys[1..], at[1..], c);
    }
  }

  /** The controls found under `sections`. */
  function ControlsOf(sections: Json, migrators: map<string, Migrator>): Result<seq<Hit>>
  {
    Walk(Children(sections), Levels, [], migrators)
  }

  /**
   * With `grid["sections"] == sections`, the controls found are exactly
   * those at sections[s].rows[r].areas[a].controls[c] that have a value,
   * a non-blank editor alias and a migrator mapped to it.
   */
  lemma ControlsVisited(grid: Json, sections: Json, migrators: map<string, Migrator>)
    requires grid.JObj? && Lookup(grid.props, "sections") == Some(sections)
    requires ControlsOf(sections, migrators).Ok?
    ensures forall h :: h in ControlsOf(sections, migrators).value ==>
      |h.at| == 4 && Present(grid, ControlPath(h.at))
      && Visit(Item(Navigate(grid, ControlPath(h.at)).value.value), migrators) == Ok(Some((h.value, h.editor)))
    ensures forall at, c, v, e ::
      (|at| == 4 && Navigate(grid, ControlPath(at)) == Ok(Some(c)) && Visit(Item(c), migrators) == Ok(Some((v, e))))
      ==> Hit(at, v, e) in ControlsOf(sections, migrators).value
  {
    var xs := Children(sections);
    var hs := ControlsOf(sections, migrators).value;
    WalkSound(xs, Levels, [], migrators);
    assert HitsUnder(hs, xs, Levels, [], migrators);
    forall h | h in hs
      ensures |h.at| == 4 && Present(grid, ControlPath(h.at))
      && Visit(Item(Navigate(grid, ControlPath(h.at)).value.value), migrators) == Ok(Some((h.value, h.editor)))
    {
      assert h.at[0..] == h.at;
      var c := Reach(xs, Levels, h.at).value;
      assert c.Item? by {
        assert Visit(c, migrators).Ok?;
      }
      ReachNavigates(sections, Levels, h.at);
      NavigateAppend(grid, [Prop("sections")], Interleave(Levels, h.at));
    }
    forall at, c, v, e | |at| == 4 && Navigate(grid, ControlPath(at)) == Ok(Some(c)) && Visit(Item(c), migrators) == Ok(Some((v, e)))
      ensures Hit(at, v, e) in hs
    {
      NavigateAppend(grid, [Prop("sections")], Interleave(Levels, at));
      NavigateReaches(sections, Levels, at, c);
      WalkComplete(xs, Levels, [], migrators, at, v, e);
      assert [] + at == at;
    }
  }

  // ---------------------------------------------------------------- the transform

  /**
   * `GridPropertyTransform`: the migrators by editor alias (none null) and
   * what each grid control migrator's `GetJsonPropertyTransforms(alias)`
   * returns (`None` for null, `None` items for null transforms).
   */
  datatype GridPropertyTransform = GridPropertyTransform(
    migrators: map<string, Migrator>,
    aliasTransforms: (Migrator, string) -> Option<seq<Option<JsonContent.JsonTransformer>>>)

  /** The inner sites with their setters aimed at the control at `at`. */
  function Retarget(sites: seq<JsonContent.Site>, at: seq<int>): (r: seq<JsonContent.Site>)
    ensures |r| == |sites|
    ensures forall i :: 0 <= i < |r| ==> r[i].value == sites[i].value && r[i].migration == sites[i].migration
  {
    seq(|sites|, i requires 0 <= i < |sites| =>
      var inner := sites[i].setter;
      JsonContent.Site(sites[i].value, sites[i].migration, (o: Json, val: Option<string>) => GridSetter(o, at, val, inner)))
  }

  /** The loop over the inner transforms of one control: null transforms and null results are skipped. */
  function InnerSites(ts: seq<Option<JsonContent.JsonTransformer>>, value: Json, at: seq<int>): Result<seq<JsonContent.Site>>
  {
    if ts == [] then Ok([])
    else
      match InnerSites(ts[..|ts| - 1], value, at)
      case Err(e) => Err(e)
      case Ok(front) =>
        var t := ts[|ts| - 1];
        if t.None? then Ok(front)
        else
          match t.value.sitesOf(value)
          case Err(e) => Err(e)
          case Ok(None) => Ok(front)
          case Ok(Some(sites)) => Ok(front + Retarget(sites, at))
  }

  /** The sites of the visited controls, in order. */
  function HitSites(gt: GridPropertyTransform, hs: seq<Hit>): Result<seq<JsonContent.Site>>
  {
    if hs == [] then Ok([])
    else
      match HitSites(gt, hs[..|hs| - 1])
      case Err(e) => Err(e)
      case Ok(front) =>
        var h := hs[|hs| - 1];
        if h.editor !in gt.migrators then Ok(front)
        else
          match gt.aliasTransforms(gt.migrators[h.editor], h.editor)
          case None => Ok(front)
          case Some(ts) =>
            match InnerSites(ts, h.value, h.at)
            case Err(e) => Err(e)
            case Ok(more) => Ok(front + more)
  }

  /** The message of the exception deserialising a non-object as a `JObject` throws. */
  const NotAnObject: string := "Unexpected JSON token while reading JObject"

  /** `GetPropertyValuesMigrationsAndSetters(token)` on the tree of the grid. */
  function Sites(gt: GridPropertyTransform, token: Json): Result<Option<seq<JsonContent.Site>>>
  {
    if token.JNull? then Ok(Some([]))
    else if !token.JObj? then Err(NotAnObject)
    else
      match Lookup(token.props, "sections")
      case None => Ok(Some([]))
      case Some(sections) =>
        match ControlsOf(sections, gt.migrators)
        case Err(e) => Err(e)
        case Ok(hs) =>
          match HitSites(gt, hs)
          case Err(e) => Err(e)
          case Ok(sites) => Ok(Some(sites))
  }

  function AsTransformer(gt: GridPropertyTransform): JsonContent.JsonTransformer
  {
    JsonContent.JsonTransformer((token: Json) => Sites(gt, token))
  }

  /** Without sections, or with no controls visited, the transform finds nothing. */
  lemma NothingWithoutControls(gt: GridPropertyTransform, token: Json)
    requires token.JObj?
    requires Lookup(token.props, "sections").None? || ControlsOf(Lookup(token.props, "sections").value, gt.migrators) == Ok([])
    ensures Sites(gt, token) == Ok(Some([]))
  {
  }

  // ---------------------------------------------------------------- the migrator map

  /** The text items of "allowed": `allowed.Where(a => a.Type == String).Select(a => a.ToString())`. */
  function StringItems(cs: seq<Child>): (r: seq<string>)
    ensures forall s :: s in r <==> Item(JStr(s)) in cs
  {
    if cs == [] then []
    else
      var front := StringItems(cs[..|cs| - 1]);
      assert forall c :: c in cs <==> c in cs[..|cs| - 1] || c == cs[|cs| - 1];
      match cs[|cs| - 1]
      case Item(JStr(s)) => front + [s]
      case _ => front
  }

  /**
   * The aliases one area allows: all of them when "allowAll" is the boolean
   * true, else the text items of "allowed", or none (`None`, the area is
   * skipped) without it. Indexing a non-object area throws.
   */
  function AllowedOf(area: Child, all: seq<string>): (r: Result<Option<seq<string>>>)
    ensures r.Err? <==> !(area.Item? && area.item.JObj?)
    ensures r.Ok? && Field(area, "allowAll") == Some(JBool(true)) ==> r.value == Some(all)
    ensures r.Ok? && Field(area, "allowAll") != Some(JBool(true)) ==>
      (r.value.None? <==> Field(area, "allowed").None?)
      && (r.value.Some? ==> forall s :: s in r.value.value <==> Item(JStr(s)) in Children(Field(area, "allowed").value))
  {
    match ChildIndex(area, "allowAll")
    case Err(e) => Err(e)
    case Ok(allowAll) =>
      if allowAll == Some(JBool(true)) then Ok(Some(all))
      else
        match Field(area, "allowed")
        case None => Ok(None)
        case Some(a) => Ok(Some(StringItems(Children(a))))
  }

  /** The dictionary being filled and the factory's registry. */
  type State = (map<string, Option<Migrator>>, Registry)

  /** The loop over the allowed aliases: an alias not in the dictionary yet is created by the factory. */
  function AddAll(st: State, aliases: seq<string>): State
  {
    if aliases == [] then st
    else
      var s := AddAll(st, aliases[..|aliases| - 1]);
      var a := aliases[|aliases| - 1];
      if a in s.0 then s
      else
        var c := Create(s.1, a);
        (s.0[a := c.0], c.1)
  }

  /** The dictionary or the exception, and the registry either way. */
  type Found = (Result<map<string, Option<Migrator>>>, Registry)

  /** The loop over the areas of one layout. */
  function AreasSpec(st: State, areas: seq<Child>, all: seq<string>): Found
  {
    if areas == [] then (Ok(st.0), st.1)
    else
      var f := AreasSpec(st, areas[..|areas| - 1], all);
      if f.0.Err? then f
      else
        match AllowedOf(areas[|areas| - 1], all)
        case Err(e) => (Err(e), f.1)
        case Ok(None) => f
        case Ok(Some(alloweds)) =>
          var s := AddAll((f.0.value, f.1), alloweds);
          (Ok(s.0), s.1)
  }

  /** The loop over the layouts: a layout without "areas" is skipped. */
  function LayoutsSpec(st: State, layouts: seq<Child>, all: seq<string>): Found
  {
    if layouts == [] then (Ok(st.0), st.1)
    else
      var f := LayoutsSpec(st, layouts[..|layouts| - 1], all);
      if f.0.Err? then f
      else
        match ChildIndex(layouts[|layouts| - 1], "areas")
        case Err(e) => (Err(e), f.1)
        case Ok(None) => f
        case Ok(Some(areas)) => AreasSpec((f.0.value, f.1), Children(areas), all)
  }

  /** `GetMigratorMap(layouts, allAliases)`. */
  function MigratorMapSpec(reg: Registry, layouts: Json, all: seq<string>): Found
  {
    LayoutsSpec((map[], reg), Children(layouts), all)
  }

  // ---------------------------------------------------------------- what the map holds

  /** The aliases the areas allow. */
  function AreaAliases(areas: seq<Child>, all: seq<string>): set<string>
  {
    if areas == [] then {}
    else
      AreaAliases(areas[..|areas| - 1], all)
      + match AllowedOf(areas[|areas| - 1], all)
        case Ok(Some(alloweds)) => set s | s in alloweds
        case _ => {}
  }

  /** The aliases the areas of the layouts allow. */
  function LayoutAliases(layouts: seq<Child>, all: seq<string>): set<string>
  {
    if layouts == [] then {}
    else
      LayoutAliases(layouts[..|layouts| - 1], all)
      + match ChildIndex(layouts[|layouts| - 1], "areas")
        case Ok(Some(areas)) => AreaAliases(Children(areas), all)
        case _ => {}
  }

  /** Every entry of the dictionary is what the factory remembers for its alias. */
  predicate Consistent(m: map<string, Option<Migrator>>, reg: Registry)
  {
    forall k :: k in m ==> Key(k) in reg.known && reg.known[Key(k)] == m[k]
  }

  /** The registry only learns: constructors are untouched and what was remembered stays. */
  predicate Learns(reg: Registry, reg': Registry)
  {
    reg'.constructors == reg.constructors
    && forall k :: k in reg.known ==> k in reg'.known && reg'.known[k] == reg.known[k]
  }

  /** What one step of the dictionary keeps and adds. */
  predicate Grows(st: State, st': State, added: set<string>)
  {
    st'.0.Keys == st.0.Keys + added
    && (forall k :: k in st.0 ==> st'.0[k] == st.0[k])
    && Learns(st.1, st'.1)
    && (Consistent(st.0, st.1) ==> Consistent(st'.0, st'.1))
  }

  lemma GrowsTrans(a: State, b: State, c: State, x: set<string>, y: set<string>)
    requires Grows(a, b, x) && Grows(b, c, y)
    ensures Grows(a, c, x + y)
  {
  }

  /** A snapshot of the create step: an alias already in the dictionary leaves everything as it is. */
  lemma CreateGrows(s: State, a: string)
    ensures a !in s.0 ==> Grows(s, (s.0[a := Create(s.1, a).0], Create(s.1, a).1), {a})
    ensures a in s.0 ==> Grows(s, s, {a})
  {
    if a !in s.0 {
      var c := Create(s.1, a);
      CreateLearns(s.1, a);
      if Consistent(s.0, s.1) {
        CreateConsistent(s.0, s.1, a, c);
      }
      assert s.0[a := c.0].Keys == s.0.Keys + {a};
    }
  }

  /** The factory only learns, and afterwards remembers what it created. */
  lemma CreateLearns(reg: Registry, a: string)
    ensures Learns(reg, Create(reg, a).1)
    ensures Key(a) in Create(reg, a).1.known && Create(reg, a).1.known[Key(a)] == Create(reg, a).0
  {
  }

  lemma CreateConsistent(m: map<string, Option<Migrator>>, reg: Registry, a: string, c: (Option<Migrator>, Registry))
    requires Consistent(m, reg) && Learns(reg, c.1)
    requires Key(a) in c.1.known && c.1.known[Key(a)] == c.0
    ensures Consistent(m[a := c.0], c.1)
  {
    forall k | k in m[a := c.0]
      ensures Key(k) in c.1.known && c.1.known[Key(k)] == m[a := c.0][k]
    {
      if k != a {
        assert Key(k) in reg.known;
      }
    }
  }

  lemma SplitLast(xs: seq<string>)
    requires xs != []
    ensures xs == xs[..|xs| - 1] + [xs[|xs| - 1]]
  {
  }

  lemma ElementsSnoc(xs: seq<string>, front: seq<string>, a: string)
    requires xs == front + [a]
    ensures (set x | x in xs) == (set x | x in front) + {a}
  {
  }

  /**
   * Each allowed alias ends up in the dictionary; an alias already there is
   * not created again, and what was there stays.
   */
  lemma {:induction false} AddAllGrows(st: State, aliases: seq<string>)
    ensures Grows(st, AddAll(st, aliases), set s | s in aliases)
  {
    if aliases != [] {
      var front := aliases[..|aliases| - 1];
      var a := aliases[|aliases| - 1];
      AddAllGrows(st, front);
      var s := AddAll(st, front);
      CreateGrows(s, a);
      if a in s.0 {
        assert AddAll(st, aliases) == s;
      } else {
        assert AddAll(st, aliases) == (s.0[a := Create(s.1, a).0], Create(s.1, a).1);
      }
      SplitLast(aliases);
      ElementsSnoc(aliases, front, a);
      GrowsTrans(st, s, AddAll(st, aliases), set x | x in front, {a});
    }
  }

  lemma {:induction false} AreasGrows(st: State, areas: seq<Child>, all: seq<string>)
    requires AreasSpec(st, areas, all).0.Ok?
    ensures Grows(st, (AreasSpec(st, areas, all).0.value, AreasSpec(st, areas, all).1), AreaAliases(areas, all))
  {
    if areas != [] {
      var front := areas[..|areas| - 1];
      AreasGrows(st, front, all);
      var f := AreasSpec(st, front, all);
      var s := (f.0.value, f.1);
      match AllowedOf(areas[|areas| - 1], all)
      case Ok(None) =>
        assert Grows(s, s, {});
        GrowsTrans(st, s, s, AreaAliases(front, all), {});
      case Ok(Some(alloweds)) =>
        AddAllGrows(s, alloweds);
        GrowsTrans(st, s, AddAll(s, alloweds), AreaAliases(front, all), set x | x in alloweds);
    }
  }

  lemma {:induction false} LayoutsGrows(st: State, layouts: seq<Child>, all: seq<string>)
    requires LayoutsSpec(st, layouts, all).0.Ok?
    ensures Grows(st, (LayoutsSpec(st, layouts, all).0.value, LayoutsSpec(st, layouts, all).1), LayoutAliases(layouts, all))
  {
    if layouts != [] {
      var front := layouts[..|layouts| - 1];
      LayoutsGrows(st, front, all);
      var f := LayoutsSpec(st, front, all);
      var s := (f.0.value, f.1);
      match ChildIndex(layouts[|layouts| - 1], "areas")
      case Ok(None) =>
        assert Grows(s, s, {});
        GrowsTrans(st, s, s, LayoutAliases(front, all), {});
      case Ok(Some(areas)) =>
        AreasGrows(s, Children(areas), all);
        var g := AreasSpec(s, Children(areas), all);
        GrowsTrans(st, s, (g.0.value, g.1), LayoutAliases(front, all), AreaAliases(Children(areas), all));
    }
  }

  /**
   * The migrator map has exactly the aliases the layouts allow, each with
   * the migrator the factory remembers for it; the factory only learns.
   */
  lemma MigratorMapFacts(reg: Registry, layouts: Json, all: seq<string>)
    requires MigratorMapSpec(reg, layouts, all).0.Ok?
    ensures var f := MigratorMapSpec(reg, layouts, all);
      f.0.value.Keys == LayoutAliases(Children(layouts), all)
      && Consistent(f.0.value, f.1) && Learns(reg, f.1)
  {
    LayoutsGrows((map[], reg), Children(layouts), all);
  }

  lemma {:induction false} AreasErrSticky(st: State, areas: seq<Child>, all: seq<string>, i: int)
    requires 0 <= i <= |areas| && AreasSpec(st, areas[..i], all).0.Err?
    ensures AreasSpec(st, areas, all) == AreasSpec(st, areas[..i], all)
    decreases |areas| - i
  {
    if i < |areas| {
      var front := areas[..|areas| - 1];
      assert front[..i] == areas[..i];
      AreasErrSticky(st, front, all, i);
    } else {
      assert areas[..i] == areas;
    }
  }

  /** One layout's turn of the loop over the layouts. */
  function LayoutStep(s: State, c: Child, all: seq<string>): Found
  {
    match ChildIndex(c, "areas")
    case Err(e) => (Err(e), s.1)
    case Ok(None) => (Ok(s.0), s.1)
    case Ok(Some(areas)) => AreasSpec(s, Children(areas), all)
  }

  /** One area's turn of the loop over the areas. */
  function AreaStep(s: State, c: Child, all: seq<string>): Found
  {
    match AllowedOf(c, all)
    case Err(e) => (Err(e), s.1)
    case Ok(None) => (Ok(s.0), s.1)
    case Ok(Some(alloweds)) =>
      var s' := AddAll(s, alloweds);
      (Ok(s'.0), s'.1)
  }

  lemma LayoutsSnoc(st: State, layouts: seq<Child>, all: seq<string>, i: int)
    requires 0 <= i < |layouts|
    ensures var f := LayoutsSpec(st, layouts[..i], all);
      LayoutsSpec(st, layouts[..i + 1], all) == if f.0.Err? then f else LayoutStep((f.0.value, f.1), layouts[i], all)
  {
    assert layouts[..i + 1][..i] == layouts[..i];
  }

  lemma AreasSnoc(st: State, areas: seq<Child>, all: seq<string>, j: int)
    requires 0 <= j < |areas|
    ensures var f := AreasSpec(st, areas[..j], all);
      AreasSpec(st, areas[..j + 1], all) == if f.0.Err? then f else AreaStep((f.0.value, f.1), areas[j], all)
  {
    assert areas[..j + 1][..j] == areas[..j];
  }

  lemma {:induction false} LayoutsErrSticky(st: State, layouts: seq<Child>, all: seq<string>, i: int)
    requires 0 <= i <= |layouts| && LayoutsSpec(st, layouts[..i], all).0.Err?
    ensures LayoutsSpec(st, layouts, all) == LayoutsSpec(st, layouts[..i], all)
    decreases |layouts| - i
  {
    if i < |layouts| {
      var front := layouts[..|layouts| - 1];
      assert front[..i] == layouts[..i];
      LayoutsErrSticky(st, front, all, i);
    } else {
      assert layouts[..i] == layouts;
    }
  }

  /** The innermost loop of `GetMigratorMap`: creates each allowed alias not in the dictionary yet. */
  method AddAllowed(factory: GridAliasMigratorFactory.DefaultGridAliasMigratorFactory, m0: map<string, Option<Migrator>>, al: seq<string>)
    returns (m: map<string, Option<Migrator>>)
    modifies factory
    ensures (m, Registry(factory.constructors, factory.knownMigrators))
         == AddAll((m0, old(Registry(factory.constructors, factory.knownMigrators))), al)
  {
    ghost var st := (m0, Registry(factory.constructors, factory.knownMigrators));
    m := m0;
    var k := 0;
    while k < |al|
      invariant 0 <= k <= |al|
      invariant AddAll(st, al[..k]) == (m, Registry(factory.constructors, factory.knownMigrators))
    {
      assert al[..k + 1][..k] == al[..k];
      if al[k] !in m {
        var created := factory.CreateGridAliasMigrator(al[k]);
        m := m[al[k] := created];
      }
      k := k + 1;
    }
    assert al[..k] == al;
  }

  /** The body of the loop over the areas: the aliases one area allows. */
  method AddArea(factory: GridAliasMigratorFactory.DefaultGridAliasMigratorFactory, m0: map<string, Option<Migrator>>,
                 c: Child, all: seq<string>)
    returns (r: Result<map<string, Option<Migrator>>>)
    modifies factory
    ensures (r, Registry(factory.constructors, factory.knownMigrators))
         == AreaStep((m0, old(Registry(factory.constructors, factory.knownMigrators))), c, all)
  {
    var alloweds := AllowedOf(c, all);
    if alloweds.Err? {
      return Err(alloweds.error);
    }
    if alloweds.value.None? {
      return Ok(m0);
    }
    var m := AddAllowed(factory, m0, alloweds.value.value);
    r := Ok(m);
  }

  /** The body of the loop over the layouts: the areas of one layout, if it has any. */
  method AddLayout(factory: GridAliasMigratorFactory.DefaultGridAliasMigratorFactory, m0: map<string, Option<Migrator>>,
                   c: Child, all: seq<string>)
    returns (r: Result<map<string, Option<Migrator>>>)
    modifies factory
    ensures (r, Registry(factory.constructors, factory.knownMigrators))
         == LayoutStep((m0, old(Registry(factory.constructors, factory.knownMigrators))), c, all)
  {
    var areas := ChildIndex(c, "areas");
    if areas.Err? {
      return Err(areas.error);
    }
    if areas.value.None? {
      return Ok(m0);
    }
    r := AddAreas(factory, m0, Children(areas.value.value), all);
  }

  /** The loop of `GetMigratorMap` over the areas of one layout. */
  method AddAreas(factory: GridAliasMigratorFactory.DefaultGridAliasMigratorFactory, m0: map<string, Option<Migrator>>,
                  areas: seq<Child>, all: seq<string>)
    returns (r: Result<map<string, Option<Migrator>>>)
    modifies factory
    ensures (r, Registry(factory.constructors, factory.knownMigrators))
         == AreasSpec((m0, old(Registry(factory.constructors, factory.knownMigrators))), areas, all)
  {
    ghost var st := (m0, Registry(factory.constructors, factory.knownMigrators));
    var m := m0;
    var j := 0;
    while j < |areas|
      invariant 0 <= j <= |areas|
      invariant AreasSpec(st, areas[..j], all) == (Ok(m), Registry(factory.constructors, factory.knownMigrators))
    {
      AreasSnoc(st, areas, all, j);
      var step := AddArea(factory, m, areas[j], all);
      if step.Err? {
        AreasErrSticky(st, areas, all, j + 1);
        return step;
      }
      m := step.value;
      j := j + 1;
    }
    assert areas[..j] == areas;
    r := Ok(m);
  }

  /** `GetMigratorMap(layouts, allAliases)`: the loop over the layouts, creating through the factory. */
  method GetMigratorMap(factory: GridAliasMigratorFactory.DefaultGridAliasMigratorFactory, layouts: Json, all: seq<string>)
    returns (r: Result<map<string, Option<Migrator>>>)
    modifies factory
    ensures (r, Registry(factory.constructors, factory.knownMigrators))
         == MigratorMapSpec(old(Registry(factory.constructors, factory.knownMigrators)), layouts, all)
  {
    ghost var reg0 := Registry(factory.constructors, factory.knownMigrators);
    var ls := Children(layouts);
    var m: map<string, Option<Migrator>> := map[];
    var i := 0;
    while i < |ls|
      invariant 0 <= i <= |ls|
      invariant LayoutsSpec((map[], reg0), ls[..i], all) == (Ok(m), Registry(factory.constructors, factory.knownMigrators))
    {
      LayoutsSnoc((map[], reg0), ls, all, i);
      var step := AddLayout(factory, m, ls[i], all);
      if step.Err? {
        LayoutsErrSticky((map[], reg0), ls, all, i + 1);
        return step;
      }
      m := step.value;
      i := i + 1;
    }
    assert ls[..i] == ls;
    r := Ok(m);
  }

  // ---------------------------------------------------------------- the data type's transforms

  /** `migrators.RemoveAll(p => p.Value == null)`. */
  function Live(m: map<string, Option<Migrator>>): (r: map<string, Migrator>)
    ensures forall k :: k in r <==> k in m && m[k].Some?
    ensures forall k :: k in r ==> Some(r[k]) == m[k]
  {
    map k | k in m && m[k].Some? :: m[k].value
  }

  /** What `JsonConvert.DeserializeObject<JObject>` gives for a text: the object, null, or an exception. */
  type Parse = string -> Result<Option<Json>>

  /**
   * The layouts of the configuration, when there are any: the "items"
   * pre-value must exist and not be blank, and the object it holds must
   * have "layouts".
   */
  function LayoutsOf(preValues: Option<DataTypeMigration.PreValues>, parse: Parse): Result<Option<Json>>
  {
    if preValues.None? || "items" !in preValues.value then Ok(None)
    else
      var pv := preValues.value["items"];
      if pv.None? || IsNullOrWhiteSpace(pv.value.value) then Ok(None)
      else
        match parse(pv.value.value.value)
        case Err(e) => Err(e)
        case Ok(None) => Ok(None)
        case Ok(Some(config)) =>
          if config.JObj? then Ok(Lookup(config.props, "layouts")) else Err(NotAnObject)
  }

  /** The grid's transforms, the cached alias list and the registry after `GetJsonPropertyTransforms`. */
  function TransformsSpec(cached: Option<seq<string>>, reg: Registry, preValues: Option<DataTypeMigration.PreValues>, parse: Parse,
                          configured: seq<string>, aliasTransforms: (Migrator, string) -> Option<seq<Option<JsonContent.JsonTransformer>>>)
    : (Result<seq<GridPropertyTransform>>, Option<seq<string>>, Registry)
  {
    match LayoutsOf(preValues, parse)
    case Err(e) => (Err(e), cached, reg)
    case Ok(None) => (Ok([]), cached, reg)
    case Ok(Some(layouts)) =>
      var all := cached.GetOr(configured);
      var f := MigratorMapSpec(reg, layouts, all);
      match f.0
      case Err(e) => (Err(e), Some(all), f.1)
      case Ok(m) =>
        var live := Live(m);
        (Ok(if live == map[] then [] else [GridPropertyTransform(live, aliasTransforms)]), Some(all), f.1)
  }

  /** Without layouts nothing is produced, and neither the cache nor the registry changes. */
  lemma TransformsWithoutLayouts(cached: Option<seq<string>>, reg: Registry, preValues: Option<DataTypeMigration.PreValues>, parse: Parse,
                                 configured: seq<string>, aliasTransforms: (Migrator, string) -> Option<seq<Option<JsonContent.JsonTransformer>>>)
    requires LayoutsOf(preValues, parse) == Ok(None)
    ensures TransformsSpec(cached, reg, preValues, parse, configured, aliasTransforms) == (Ok([]), cached, reg)
  {
  }

  /**
   * At most one transform is produced; its migrators are non-null, have
   * aliases the layouts allow, and are the ones the factory remembers for
   * those aliases; the factory only learns.
   */
  lemma TransformsFacts(cached: Option<seq<string>>, reg: Registry, preValues: Option<DataTypeMigration.PreValues>, parse: Parse,
                        configured: seq<string>, aliasTransforms: (Migrator, string) -> Option<seq<Option<JsonContent.JsonTransformer>>>)
    requires LayoutsOf(preValues, parse).Ok? && LayoutsOf(preValues, parse).value.Some?
    ensures var t := TransformsSpec(cached, reg, preValues, parse, configured, aliasTransforms);
      var layouts := LayoutsOf(preValues, parse).value.value;
      t.1 == Some(cached.GetOr(configured))
      && Learns(reg, t.2)
      && (t.0.Ok? ==> |t.0.value| <= 1)
      && (forall gt :: t.0.Ok? && gt in t.0.value ==>
            gt.migrators != map[] && gt.aliasTransforms == aliasTransforms
            && (forall k :: k in gt.migrators ==>
                  k in LayoutAliases(Children(layouts), t.1.value)
                  && Key(k) in t.2.known && t.2.known[Key(k)] == Some(gt.migrators[k])))
  {
    var layouts := LayoutsOf(preValues, parse).value.value;
    var all := cached.GetOr(configured);
    if MigratorMapSpec(reg, layouts, all).0.Ok? {
      MigratorMapFacts(reg, layouts, all);
    } else {
      var f := LayoutsSpec((map[], reg), Children(layouts), all);
      LayoutsLearn((map[], reg), Children(layouts), all);
    }
  }

  lemma {:induction false} AddAllLearns(st: State, aliases: seq<string>)
    ensures Learns(st.1, AddAll(st, aliases).1)
  {
    AddAllGrows(st, aliases);
  }

  lemma {:induction false} AreasLearn(st: State, areas: seq<Child>, all: seq<string>)
    ensures Learns(st.1, AreasSpec(st, areas, all).1)
  {
    if areas != [] {
      var front := areas[..|areas| - 1];
      AreasLearn(st, front, all);
      var f := AreasSpec(st, front, all);
      if f.0.Ok? {
        match AllowedOf(areas[|areas| - 1], all)
        case Err(_) =>
        case Ok(None) =>
        case Ok(Some(alloweds)) => AddAllLearns((f.0.value, f.1), alloweds);
      }
    }
  }

  lemma {:induction false} LayoutsLearn(st: State, layouts: seq<Child>, all: seq<string>)
    ensures Learns(st.1, LayoutsSpec(st, layouts, all).1)
  {
    if layouts != [] {
      var front := layouts[..|layouts| - 1];
      LayoutsLearn(st, front, all);
      var f := LayoutsSpec(st, front, all);
      if f.0.Ok? {
        match ChildIndex(layouts[|layouts| - 1], "areas")
        case Err(_) =>
        case Ok(None) =>
        case Ok(Some(areas)) => AreasLearn((f.0.value, f.1), Children(areas), all);
      }
    }
  }

  /** Once the alias list is cached, the configured aliases no longer matter. */
  lemma CachedAliasesWin(cached: seq<string>, reg: Registry, preValues: Option<DataTypeMigration.PreValues>, parse: Parse,
                         configured: seq<string>, other: seq<string>, aliasTransforms: (Migrator, string) -> Option<seq<Option<JsonContent.JsonTransformer>>>)
    ensures TransformsSpec(Some(cached), reg, preValues, parse, configured, aliasTransforms)
         == TransformsSpec(Some(cached), reg, preValues, parse, other, aliasTransforms)
  {
  }

  /** `GridMigrator` with its static `_allAliases`. */
  class GridMigrator {
    var allAliases: Option<seq<string>>

    constructor ()
      ensures allAliases.None?
    {
      allAliases := None;
    }

    /**
     * `GetJsonPropertyTransforms(dataType, oldPreValues, retainInvalidData)`;
     * `configured` is what `GetAllAliasesAndRegisterGenericMigrators` returns
     * when the aliases are not cached yet.
     */
    method GetJsonPropertyTransforms(factory: GridAliasMigratorFactory.DefaultGridAliasMigratorFactory,
                                     preValues: Option<DataTypeMigration.PreValues>, parse: Parse, configured: seq<string>,
                                     aliasTransforms: (Migrator, string) -> Option<seq<Option<JsonContent.JsonTransformer>>>)
      returns (r: Result<seq<GridPropertyTransform>>)
      modifies this, factory
      ensures (r, allAliases, Registry(factory.constructors, factory.knownMigrators))
           == TransformsSpec(old(allAliases), old(Registry(factory.constructors, factory.knownMigrators)), preValues, parse, configured, aliasTransforms)
    {
      var layouts := LayoutsOf(preValues, parse);
      if layouts.Err? {
        return Err(layouts.error);
      }
      if layouts.value.None? {
        return Ok([]);
      }
      var all := if allAliases.Some? then allAliases.value else configured;
      if allAliases.None? {
        allAliases := Some(all);
      }
      var m := GetMigratorMap(factory, layouts.value.value, all);
      if m.Err? {
        return Err(m.error);
      }
      var live := Live(m.value);
      if live == map[] {
        return Ok([]);
      }
      r := Ok([GridPropertyTransform(live, aliasTransforms)]);
    }
  }
}
