/**
 * Option trees and the deep merge `extend` / `merge` of chartkick.js.
 *
 * A JavaScript object or array is a container of named slots; an array is an
 * object whose slot names are index strings ("0", "1", ...).  Both therefore
 * carry a `map<string, Tree>`.  `IsObject` is the source's `isPlainObject`,
 * i.e. `instanceof Object`, which also holds for arrays.
 */
module Trees {
  import opened Wrappers

  datatype Tree =
    | Undefined
    | Null
    | Bool(b: bool)
    | Num(x: real)
    | Str(s: string)
    | Arr(props: map<string, Tree>)
    | Obj(props: map<string, Tree>)

  /** `isPlainObject`: `instanceof Object`, true of arrays as well. */
  predicate IsObject(v: Tree) {
    v.Arr? || v.Obj?
  }

  /** A value that `extend` copies as it is and that is not `undefined`. */
  predicate IsLeaf(v: Tree) {
    !IsObject(v) && !v.Undefined?
  }

  /** `target[key]` as read by the source: `undefined` when the slot is absent. */
  function Get(m: map<string, Tree>, k: string): Tree {
    if k in m then m[k] else Undefined
  }

  /** The container `extend` recurses into when the source slot holds `s`:
    * an object source keeps any existing object (arrays included) and
    * otherwise starts from `{}`; an array source keeps an existing array and
    * otherwise starts from `[]`. */
  function Base(t: Tree, s: Tree): (b: Tree)
    requires IsObject(s)
    ensures IsObject(b)
    ensures s.Arr? ==> b.Arr?
    ensures IsObject(t) && (s.Obj? || t.Arr?) ==> b == t
    ensures !IsObject(t) ==> b.props == map[] && (b.Arr? <==> s.Arr?)
  {
    if s.Obj? then (if IsObject(t) then t else Obj(map[]))
    else (if t.Arr? then t else Arr(map[]))
  }

  /** Rebuild a container of the same kind with new slots. */
  function WithProps(c: Tree, p: map<string, Tree>): (r: Tree)
    requires IsObject(c)
    ensures IsObject(r) && r.props == p && (r.Arr? <==> c.Arr?)
  {
    if c.Arr? then Arr(p) else Obj(p)
  }

  /** The value a slot holds after `extend` has processed it, when the target
    * slot held `t` (`Undefined` if absent) and the source slot holds `s`. */
  function Absorb(t: Tree, s: Tree): Tree
    decreases s
  {
    if s.Undefined? then t
    else if !IsObject(s) then s
    else
      var base := Base(t, s);
      var b := base.props;
      var p := s.props;
      WithProps(base, map k | k in b.Keys + p.Keys && (k in b || p[k] != Undefined)
                              :: if k in p then Absorb(Get(b, k), p[k]) else b[k])
  }

  /** Absorbing a container merges its slots into the chosen base. */
  lemma AbsorbObject(t: Tree, s: Tree)
    requires IsObject(s)
    ensures Absorb(t, s) == WithProps(Base(t, s), Extend(Base(t, s).props, s.props))
  {
  }

  /** `extend(target, source)`: the target's slots after the loop over the source's keys. */
  function Extend(target: map<string, Tree>, source: map<string, Tree>): (r: map<string, Tree>)
    ensures r.Keys == target.Keys + set k | k in source && source[k] != Undefined
    ensures forall k :: k in target && k !in source ==> r[k] == target[k]
    ensures forall k :: k in target && k in source && source[k] == Undefined ==> r[k] == target[k]
    ensures forall k :: k in source && IsLeaf(source[k]) ==> r[k] == source[k]
    ensures forall k :: k in source && IsObject(source[k]) ==> IsObject(r[k])
    ensures forall k :: k in source && source[k].Arr? ==> r[k].Arr?
  {
    map k | k in target.Keys + source.Keys && (k in target || source[k] != Undefined)
          :: if k in source then Absorb(Get(target, k), source[k]) else target[k]
  }

  /** `merge(obj1, obj2)`: both extended, in order, into a fresh `{}`. */
  function Merge(obj1: map<string, Tree>, obj2: map<string, Tree>): map<string, Tree> {
    Extend(Extend(map[], obj1), obj2)
  }

  /** The value reached by following `path` from the top-level slots `m`. */
  function Lookup(m: map<string, Tree>, path: seq<string>): Option<Tree>
    decreases |path|
  {
    if path == [] || path[0] !in m then None
    else if |path| == 1 then Some(m[path[0]])
    else if IsObject(m[path[0]]) then Lookup(m[path[0]].props, path[1..])
    else None
  }

  predicate ObjectAt(m: map<string, Tree>, path: seq<string>) {
    Lookup(m, path).Some? && IsObject(Lookup(m, path).value)
  }

  /** `source` cannot change what lies at `path`: along the path it holds
    * nothing, `undefined`, or plain objects that reach no further. */
  predicate NotReached(s: map<string, Tree>, path: seq<string>)
    decreases |path|
  {
    path != [] &&
    (path[0] !in s || s[path[0]].Undefined? ||
     (|path| > 1 && s[path[0]].Obj? && NotReached(s[path[0]].props, path[1..])))
  }

  /** Along `path`, `source` holds nothing, `undefined` or plain objects. */
  predicate Transparent(s: map<string, Tree>, path: seq<string>)
    decreases |path|
  {
    path != [] &&
    (path[0] !in s || s[path[0]].Undefined? ||
     (s[path[0]].Obj? && (|path| == 1 || Transparent(s[path[0]].props, path[1..]))))
  }

  /** Two paths part ways at some position both have. */
  predicate Diverge(a: seq<string>, b: seq<string>)
    decreases |a|
  {
    |a| > 0 && |b| > 0 && (a[0] != b[0] || Diverge(a[1..], b[1..]))
  }

  /** The strict-mode assignment `m.p1.p2...pn[key] = v`: every slot on the
    * path must hold an object, otherwise the read of `undefined`/`null` or the
    * write to a primitive raises a TypeError. */
  function SetIn(m: map<string, Tree>, path: seq<string>, key: string, v: Tree): Result<map<string, Tree>>
    decreases |path|
  {
    if path == [] then Ok(m[key := v])
    else if path[0] !in m || !IsObject(m[path[0]]) then Err(TypeError)
    else
      match SetIn(m[path[0]].props, path[1..], key, v)
      case Ok(p) => Ok(m[path[0] := WithProps(m[path[0]], p)])
      case Err(e) => Err(e)
  }

  // ---------------------------------------------------------------------
  // Properties of extend / merge

  /** One slot of the merge, as the loop body computes it. */
  lemma ExtendAt(t: map<string, Tree>, s: map<string, Tree>, k: string)
    requires k in s
    requires k in t || s[k] != Undefined
    ensures k in Extend(t, s) && Extend(t, s)[k] == Absorb(Get(t, k), s[k])
  {
  }

  /** A leaf of the source, at any depth, is found at the same path afterwards. */
  lemma {:induction false} ExtendLeafWins(t: map<string, Tree>, s: map<string, Tree>, path: seq<string>)
    requires Lookup(s, path).Some? && IsLeaf(Lookup(s, path).value)
    ensures Lookup(Extend(t, s), path) == Lookup(s, path)
    decreases |path|
  {
    var k := path[0];
    ExtendAt(t, s, k);
    if |path| > 1 {
      var base := Base(Get(t, k), s[k]);
      AbsorbObject(Get(t, k), s[k]);
      ExtendLeafWins(base.props, s[k].props, path[1..]);
      assert Extend(t, s)[k].props == Extend(base.props, s[k].props);
    }
  }

  /** What the source does not reach keeps its old value (or stays absent),
    * unless that value is a container into which something may be merged. */
  lemma {:induction false} ExtendKeeps(t: map<string, Tree>, s: map<string, Tree>, path: seq<string>)
    requires NotReached(s, path)
    requires Lookup(t, path).None? || !IsObject(Lookup(t, path).value)
    ensures Lookup(Extend(t, s), path) == Lookup(t, path)
    decreases |path|
  {
    var k := path[0];
    if k in s && s[k].Obj? {
      ExtendAt(t, s, k);
      var base := Base(Get(t, k), s[k]);
      AbsorbObject(Get(t, k), s[k]);
      ExtendKeeps(base.props, s[k].props, path[1..]);
      assert Extend(t, s)[k].props == Extend(base.props, s[k].props);
    }
  }

  /** Nothing appears at a path that neither input has. */
  lemma {:induction false} ExtendNoNew(t: map<string, Tree>, s: map<string, Tree>, path: seq<string>)
    requires Lookup(t, path).None? && Lookup(s, path).None?
    ensures Lookup(Extend(t, s), path).None?
    decreases |path|
  {
    if path != [] && |path| > 1 && path[0] in s && IsObject(s[path[0]]) {
      var k := path[0];
      ExtendAt(t, s, k);
      var base := Base(Get(t, k), s[k]);
      AbsorbObject(Get(t, k), s[k]);
      ExtendNoNew(base.props, s[k].props, path[1..]);
      assert Extend(t, s)[k].props == Extend(base.props, s[k].props);
    }
  }

  /** A container stays a container when the source is transparent along the path. */
  lemma {:induction false} ExtendKeepsObject(t: map<string, Tree>, s: map<string, Tree>, path: seq<string>)
    requires ObjectAt(t, path) || ObjectAt(s, path)
    requires Transparent(s, path)
    ensures ObjectAt(Extend(t, s), path)
    decreases |path|
  {
    var k := path[0];
    if k in s && s[k].Obj? {
      ExtendAt(t, s, k);
      if |path| > 1 {
        var base := Base(Get(t, k), s[k]);
      AbsorbObject(Get(t, k), s[k]);
        ExtendKeepsObject(base.props, s[k].props, path[1..]);
        assert Extend(t, s)[k].props == Extend(base.props, s[k].props);
      }
    }
  }

  /** Merging a slot with itself changes nothing. */
  lemma {:induction false} AbsorbSelf(v: Tree)
    ensures Absorb(v, v) == v
    decreases v
  {
    if IsObject(v) {
      var p := v.props;
      forall k | k in p
        ensures Absorb(Get(p, k), p[k]) == p[k]
      {
        AbsorbSelf(p[k]);
      }
      AbsorbObject(v, v);
      assert Extend(p, p) == p;
    }
  }

  /** `extend(t, t)` leaves `t` as it was. */
  lemma ExtendIdempotent(t: map<string, Tree>)
    ensures Extend(t, t) == t
  {
    AbsorbSelf(Obj(t));
    AbsorbObject(Obj(t), Obj(t));
  }

  /** Where both inputs of `merge` hold a leaf at the same path, `obj2`'s wins. */
  lemma MergeRightWins(obj1: map<string, Tree>, obj2: map<string, Tree>, path: seq<string>)
    requires Lookup(obj2, path).Some? && IsLeaf(Lookup(obj2, path).value)
    ensures Lookup(Merge(obj1, obj2), path) == Lookup(obj2, path)
  {
    ExtendLeafWins(Extend(map[], obj1), obj2, path);
  }

  /** A leaf of `obj1` that `obj2` does not reach survives `merge`. */
  lemma MergeLeftKept(obj1: map<string, Tree>, obj2: map<string, Tree>, path: seq<string>)
    requires Lookup(obj1, path).Some? && IsLeaf(Lookup(obj1, path).value)
    requires NotReached(obj2, path)
    ensures Lookup(Merge(obj1, obj2), path) == Lookup(obj1, path)
  {
    ExtendLeafWins(map[], obj1, path);
    ExtendKeeps(Extend(map[], obj1), obj2, path);
  }

  /** Nested objects are unioned: `{a:{x:1}}` merged with `{a:{y:2}}` is `{a:{x:1,y:2}}`. */
  lemma MergeUnionExample()
    ensures Merge(map["a" := Obj(map["x" := Num(1.0)])], map["a" := Obj(map["y" := Num(2.0)])])
         == map["a" := Obj(map["x" := Num(1.0), "y" := Num(2.0)])]
  {
    var x, y := map["x" := Num(1.0)], map["y" := Num(2.0)];
    ExtendOne(map[], "x", Num(1.0));
    assert Extend(map[], x) == x;
    ExtendOne(map[], "a", Obj(x));
    AbsorbObject(Undefined, Obj(x));
    assert Extend(map[], map["a" := Obj(x)]) == map["a" := Obj(x)];
    ExtendOne(x, "y", Num(2.0));
    AbsorbObject(Obj(x), Obj(y));
    ExtendOne(map["a" := Obj(x)], "a", Obj(y));
  }

  /** Extending by a single defined slot. */
  lemma ExtendOne(t: map<string, Tree>, k: string, s: Tree)
    requires s != Undefined
    ensures Extend(t, map[k := s]) == t[k := Absorb(Get(t, k), s)]
  {
    var e := Extend(t, map[k := s]);
    assert e.Keys == t.Keys + {k};
    forall j | j in e
      ensures e[j] == t[k := Absorb(Get(t, k), s)][j]
    {
      ExtendSlot(t, map[k := s], j);
    }
  }

  // ---------------------------------------------------------------------
  // Properties of the path assignment

  /** The assignment succeeds exactly when every slot on the path holds an
    * object, and then the new value is found at `path + [key]`. */
  lemma {:induction false} SetInFound(m: map<string, Tree>, path: seq<string>, key: string, v: Tree)
    ensures SetIn(m, path, key, v).Ok? <==> (path == [] || ObjectAt(m, path))
    ensures SetIn(m, path, key, v).Ok? ==> Lookup(SetIn(m, path, key, v).value, path + [key]) == Some(v)
    decreases |path|
  {
    if path != [] && path[0] in m && IsObject(m[path[0]]) {
      SetInFound(m[path[0]].props, path[1..], key, v);
      assert (path + [key])[1..] == path[1..] + [key];
      if |path| == 1 {
        assert path[1..] == [];
      }
    }
  }

  /** Paths that part ways with `path + [key]` are untouched by the assignment. */
  lemma {:induction false} SetInElsewhere(m: map<string, Tree>, path: seq<string>, key: string, v: Tree, q: seq<string>)
    requires SetIn(m, path, key, v).Ok?
    requires Diverge(path + [key], q)
    ensures Lookup(SetIn(m, path, key, v).value, q) == Lookup(m, q)
    decreases |path|
  {
    if path != [] && q[0] == path[0] && |q| > 1 {
      assert (path + [key])[1..] == path[1..] + [key];
      SetInElsewhere(m[path[0]].props, path[1..], key, v, q[1..]);
    }
  }

  /** Containers along the assigned path stay containers. */
  lemma {:induction false} SetInKeepsPrefix(m: map<string, Tree>, path: seq<string>, key: string, v: Tree, q: seq<string>)
    requires SetIn(m, path, key, v).Ok?
    requires 0 < |q| <= |path| && q == path[..|q|]
    ensures ObjectAt(SetIn(m, path, key, v).value, q)
    decreases |path|
  {
    if |q| > 1 {
      SetInKeepsPrefix(m[path[0]].props, path[1..], key, v, q[1..]);
    }
  }

  /** An assignment along a path of objects succeeds, finds the value at
    * `path + [key]`, keeps the path's containers, and leaves every path that
    * parts ways with `path + [key]` as it was. */
  lemma SetInFrame(m: map<string, Tree>, path: seq<string>, key: string, v: Tree)
    ensures ObjectAt(m, path) ==>
              && SetIn(m, path, key, v).Ok?
              && ObjectAt(SetIn(m, path, key, v).value, path)
              && Lookup(SetIn(m, path, key, v).value, path + [key]) == Some(v)
    ensures ObjectAt(m, path) ==>
              forall q :: Diverge(path + [key], q) ==> Lookup(SetIn(m, path, key, v).value, q) == Lookup(m, q)
  {
    if ObjectAt(m, path) {
      SetInFound(m, path, key, v);
      SetInKeepsPrefix(m, path, key, v, path);
      forall q | Diverge(path + [key], q)
        ensures Lookup(SetIn(m, path, key, v).value, q) == Lookup(m, q)
      {
        SetInElsewhere(m, path, key, v, q);
      }
    }
  }

  // ---------------------------------------------------------------------
  // The mutable options object of `jsOptionsFunc`

  /** A JavaScript options object whose top-level slots are updated in place. */
  class Options {
    var root: map<string, Tree>

    constructor ()
      ensures root == map[]
    {
      root := map[];
    }

    /** `extend(this, source)`: the `for (key in source)` loop. */
    method ExtendWith(source: map<string, Tree>)
      modifies this
      ensures root == Extend(old(root), source)
    {
      ghost var t := old(root);
      var todo := source.Keys;
      ghost var done: set<string> := {};
      while todo != {}
        invariant todo !! done && todo + done == source.Keys
        invariant root == Extend(t, map k | k in done :: source[k])
        decreases todo
      {
        var k :| k in todo;
        ghost var before := map j | j in done :: source[j];
        ghost var after := map j | j in done + {k} :: source[j];
        ExtendUntouched(t, before, k);
        if k in root || source[k] != Undefined {
          root := root[k := Absorb(Get(root, k), source[k])];
        }
        ExtendStep(t, before, after, k, source[k]);
        todo := todo - {k};
        done := done + {k};
      }
      assert (map k | k in done :: source[k]) == source;
    }

    /** A strict-mode assignment `this.p1...pn[key] = v`; on a TypeError the
      * object is left as it was and `ok` is false. */
    method Set(path: seq<string>, key: string, v: Tree) returns (ok: bool)
      modifies this
      ensures ok == SetIn(old(root), path, key, v).Ok?
      ensures root == if ok then SetIn(old(root), path, key, v).value else old(root)
    {
      var r := SetIn(root, path, key, v);
      ok := r.Ok?;
      if ok {
        root := r.value;
      }
    }
  }

  /** Adding one source key to the processed part changes only that slot. */
  lemma ExtendStep(t: map<string, Tree>, before: map<string, Tree>, after: map<string, Tree>, k: string, sk: Tree)
    requires k !in before && after == before[k := sk]
    ensures Extend(t, after) ==
            if k in t || sk != Undefined then Extend(t, before)[k := Absorb(Get(t, k), sk)]
            else Extend(t, before)
  {
    var e1, e0 := Extend(t, after), Extend(t, before);
    var e2 := if k in t || sk != Undefined then e0[k := Absorb(Get(t, k), sk)] else e0;
    ExtendStepKeys(t, before, after, k, sk);
    forall j | j in e1
      ensures e1[j] == e2[j]
    {
      if j != k {
        ExtendSlot(t, after, j);
        ExtendSlot(t, before, j);
      }
    }
  }

  /** A slot the source does not have keeps the target's value. */
  lemma ExtendUntouched(t: map<string, Tree>, source: map<string, Tree>, k: string)
    requires k !in source
    ensures Get(Extend(t, source), k) == Get(t, k)
  {
  }

  lemma ExtendStepKeys(t: map<string, Tree>, before: map<string, Tree>, after: map<string, Tree>, k: string, sk: Tree)
    requires k !in before && after == before[k := sk]
    ensures Extend(t, after).Keys ==
            if k in t || sk != Undefined then Extend(t, before).Keys + {k} else Extend(t, before).Keys
  {
    forall j
      ensures j in Extend(t, after) <==> j in Extend(t, before) || (j == k && (k in t || sk != Undefined))
    {
      if j != k {
        assert j in after <==> j in before;
      }
    }
  }

  /** One slot of `extend`'s result. */
  lemma ExtendSlot(t: map<string, Tree>, source: map<string, Tree>, j: string)
    requires j in Extend(t, source)
    ensures Extend(t, source)[j] == if j in source then Absorb(Get(t, j), source[j]) else t[j]
  {
  }

  /** `merge(obj1, obj2)`: a fresh object; neither input is touched. */
  method MergeInto(obj1: map<string, Tree>, obj2: map<string, Tree>) returns (target: Options)
    ensures fresh(target)
    ensures target.root == Merge(obj1, obj2)
  {
    target := new Options();
    target.ExtendWith(obj1);
    target.ExtendWith(obj2);
  }
}
