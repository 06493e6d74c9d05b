/** JSON trees, and the recursive merge of one into another (src/realtime/session.py:75-91). */
module Json {
  import opened Wrappers

  datatype Json =
    | Null
    | Bool(value: bool)
    | Int(n: int)
    | Float(x: real)
    | Str(text: string)
    | Arr(items: seq<Json>)
    | Obj(fields: Fields)

  type Fields = map<string, Json>
  type Path = seq<string>

  /** What a chain of keys leads to. */
  function Get(j: Json, path: Path): Option<Json> {
    if path == [] then Some(j)
    else if j.Obj? && path[0] in j.fields then Get(j.fields[path[0]], path[1..])
    else None
  }

  /** The tree after the patch: objects merge, everything else replaces. */
  function Merge(base: Json, patch: Json): Json
    decreases patch
  {
    if !base.Obj? || !patch.Obj? then patch
    else
      Obj(map k | k in base.fields.Keys + patch.fields.Keys ::
            if k !in patch.fields then base.fields[k]
            else if k in base.fields then Merge(base.fields[k], patch.fields[k])
            else patch.fields[k])
  }

  /** The merged fields while the patch's keys in `remaining` still have to be gone over. */
  ghost predicate Merging(out: Fields, base: Fields, patch: Fields, remaining: set<string>) {
    && remaining <= patch.Keys
    && out.Keys == base.Keys + (patch.Keys - remaining)
    && (forall k | k in out && (k !in patch || k in remaining) :: out[k] == base[k])
    && (forall k | k in patch && k !in remaining :: out[k] == if k in base then Merge(base[k], patch[k]) else patch[k])
  }

  lemma Merged(out: Fields, base: Fields, patch: Fields)
    requires Merging(out, base, patch, {})
    ensures Obj(out) == Merge(Obj(base), Obj(patch))
  {
    assert out == Merge(Obj(base), Obj(patch)).fields;
  }

  lemma MergingNext(out: Fields, base: Fields, patch: Fields, remaining: set<string>, key: string, value: Json)
    requires Merging(out, base, patch, remaining) && key in remaining
    requires value == if key in base then Merge(base[key], patch[key]) else patch[key]
    ensures Merging(out[key := value], base, patch, remaining - {key})
  {
    hide Merge;
  }

  lemma Replaced(base: Json, patch: Json)
    requires !base.Obj? || !patch.Obj?
    ensures Merge(base, patch) == patch
  {
  }

  /** `merge_session_patch`, going over the patch's keys in any order. */
  method MergeSessionPatch(base: Fields, patch: Fields) returns (out: Fields)
    ensures Obj(out) == Merge(Obj(base), Obj(patch))
    decreases Obj(patch)
  {
    hide Merge;
    out := base;
    var remaining := patch.Keys;
    while remaining != {}
      invariant Merging(out, base, patch, remaining)
      decreases |remaining|
    {
      var key :| key in remaining;
      var value := patch[key];
      assert key in out <==> key in base;
      if value.Null? {
        if key in base {
          Replaced(base[key], Null);
        }
        MergingNext(out, base, patch, remaining, key, Null);
        out := out[key := Null];
      } else if value.Obj? && key in out && out[key].Obj? {
        var inner := MergeSessionPatch(out[key].fields, value.fields);
        MergingNext(out, base, patch, remaining, key, Obj(inner));
        out := out[key := Obj(inner)];
      } else {
        if key in base {
          Replaced(base[key], value);
        }
        MergingNext(out, base, patch, remaining, key, value);
        out := out[key := value];
      }
      remaining := remaining - {key};
    }
    Merged(out, base, patch);
  }

  // ----- What a merge does to every path -----

  /** Walking down the patch along the path ends at an object that lacks the next key. */
  predicate Untouched(patch: Json, path: Path) {
    path != [] && patch.Obj? && (path[0] in patch.fields ==> Untouched(patch.fields[path[0]], path[1..]))
  }

  /** Every path of a merged tree: a value of the patch is there, merged into the base's; a path the patch does
      not touch reads as before; and nothing is left below a value that the patch replaced. */
  lemma {:induction false} MergeReads(base: Json, patch: Json, path: Path)
    ensures Get(Merge(base, patch), path) ==
      match Get(patch, path)
      case Some(v) => Some(match Get(base, path) case Some(w) => Merge(w, v) case None => v)
      case None => if Untouched(patch, path) then Get(base, path) else None
  {
    if path != [] && patch.Obj? && path[0] in patch.fields && base.Obj? && path[0] in base.fields {
      MergeReads(base.fields[path[0]], patch.fields[path[0]], path[1..]);
    } else if path != [] && patch.Obj? && path[0] in patch.fields {
      AbsentBelow(base, patch, path);
    } else if path != [] && patch.Obj? && !base.Obj? {
      assert Get(patch, path) == None;
    }
  }

  /** Where the base has no object for the path's first key, the patch alone decides. */
  lemma {:induction false} AbsentBelow(base: Json, patch: Json, path: Path)
    requires path != [] && Get(base, path[..1]) == None
    ensures Get(base, path) == None
    ensures Untouched(patch, path) ==> Get(patch, path) == None
  {
    assert path[..1][0] == path[0];
    if Untouched(patch, path) {
      UntouchedAbsent(patch, path);
    }
  }

  lemma {:induction false} UntouchedAbsent(patch: Json, path: Path)
    requires Untouched(patch, path)
    ensures Get(patch, path) == None
  {
    if path[0] in patch.fields {
      UntouchedAbsent(patch.fields[path[0]], path[1..]);
    }
  }

  lemma {:induction false} MergeSelf(j: Json)
    ensures Merge(j, j) == j
  {
    if j.Obj? {
      forall k | k in j.fields ensures Merge(j.fields[k], j.fields[k]) == j.fields[k] {
        MergeSelf(j.fields[k]);
      }
      assert Merge(j, j).fields == j.fields;
    }
  }

  /** Applying the same patch again changes nothing. */
  lemma {:induction false} MergeTwice(base: Json, patch: Json)
    ensures Merge(Merge(base, patch), patch) == Merge(base, patch)
    decreases patch
  {
    if base.Obj? && patch.Obj? {
      var once := Merge(base, patch);
      forall k | k in patch.fields ensures Merge(once.fields[k], patch.fields[k]) == once.fields[k] {
        if k in base.fields {
          MergeTwice(base.fields[k], patch.fields[k]);
        } else {
          MergeSelf(patch.fields[k]);
        }
      }
      assert Merge(once, patch).fields == once.fields;
    } else {
      MergeSelf(patch);
    }
  }
}
