/** src/utils/follow-path.ts: the field walker that `path` hands the remaining segments to. */
module Utils {
  import opened Wrappers
  import opened GraphQL

  function Last(s: seq<Pathable>): Pathable
    requires |s| > 0
  {
    s[|s| - 1]
  }

  /** One step of a walk: `next` is the field named `name` of the bare object type
      that `prev` is a field of. */
  predicate StepsTo(schema: Schema, prev: Pathable, name: string, next: Pathable)
  {
    && BareObject(schema, prev).Some?
    && next.FieldAt?
    && FindField(BareObject(schema, prev).value.fields, name) == Some(next.field)
  }

  /** `q[start..]` is a walk from `q[start - 1]` that consumes `names` in order,
      one name per element. */
  predicate Walk(schema: Schema, q: seq<Pathable>, start: nat, names: seq<string>)
  {
    && 0 < start <= |q| <= start + |names|
    && forall i :: start <= i < |q| ==> StepsTo(schema, q[i - 1], names[i - start], q[i])
  }

  /** The walk cannot go on from `p` with `name`: `p` is a field of a bare object type
      that has no field called `name`. */
  predicate Missing(schema: Schema, p: Pathable, name: string)
  {
    BareObject(schema, p).Some? && FindField(BareObject(schema, p).value.fields, name).None?
  }

  /** followPath(fieldsPath, pathOfFieldnames). On success the result extends the input
      by a walk that either consumed every name or stopped at an element that is not a
      field of a bare object type (the remaining names are ignored). It only fails with
      `Could not find <name>`, for one of the given names. */
  function FollowPath(schema: Schema, fieldsPath: seq<Pathable>, names: seq<string>): (r: Result<seq<Pathable>, PathError>)
    requires |fieldsPath| > 0
    ensures r.Success? ==> fieldsPath <= r.value && Walk(schema, r.value, |fieldsPath|, names)
    ensures r.Success? ==> |r.value| == |fieldsPath| + |names| || BareObject(schema, Last(r.value)).None?
    ensures r.Failure? ==> r.error.CouldNotFind? && r.error.fieldName in names
    decreases |names|
  {
    if |names| == 0 then Success(fieldsPath)
    else
      match BareObject(schema, Last(fieldsPath))
      case None => Success(fieldsPath)
      case Some(obj) =>
        match FindField(obj.fields, names[0])
        case None => Failure(CouldNotFind(names[0]))
        case Some(child) =>
          var next := fieldsPath + [FieldAt(child)];
          var r := FollowPath(schema, next, names[1..]);
          if r.Success? then
            assert r.value[|fieldsPath|] == FieldAt(child) && r.value[|fieldsPath| - 1] == Last(fieldsPath);
            WalkCons(schema, fieldsPath, names, r.value);
            r
          else r
  }

  /** A walk from `path + [q[|path|]]` over `names[1..]` whose first element is a step
      is a walk from `path` over `names`. */
  lemma WalkCons(schema: Schema, path: seq<Pathable>, names: seq<string>, q: seq<Pathable>)
    requires |path| > 0 && |names| > 0 && |path| < |q| && path <= q
    requires StepsTo(schema, q[|path| - 1], names[0], q[|path|])
    requires Walk(schema, q, |path| + 1, names[1..])
    ensures Walk(schema, q, |path|, names)
  {
    forall i | |path| <= i < |q|
      ensures StepsTo(schema, q[i - 1], names[i - |path|], q[i])
    {
      if i > |path| {
        assert names[1..][i - (|path| + 1)] == names[i - |path|];
      }
    }
  }

  /** Walking is deterministic: from any point reached by a walk, followPath continues
      exactly as it would have from the start. */
  lemma {:induction false} FollowPathResume(schema: Schema, path: seq<Pathable>, names: seq<string>, q: seq<Pathable>)
    requires |path| > 0 && path <= q
    requires Walk(schema, q, |path|, names)
    ensures FollowPath(schema, path, names) == FollowPath(schema, q, names[|q| - |path|..])
    decreases |q| - |path|
  {
    if |q| == |path| {
      assert path == q;
      assert names[0..] == names;
    } else {
      var next := path + [q[|path|]];
      assert StepsTo(schema, q[|path| - 1], names[0], q[|path|]);
      assert Last(path) == q[|path| - 1];
      assert next <= q;
      forall i | |next| <= i < |q|
        ensures StepsTo(schema, q[i - 1], names[1..][i - |next|], q[i])
      {
        assert names[1..][i - |next|] == names[i - |path|];
      }
      FollowPathResume(schema, next, names[1..], q);
      assert names[1..][|q| - |next|..] == names[|q| - |path|..];
    }
  }

  /** A walk that consumed every name, or ended where no bare object type follows,
      is exactly what followPath returns. */
  lemma FollowPathComplete(schema: Schema, path: seq<Pathable>, names: seq<string>, q: seq<Pathable>)
    requires |path| > 0 && path <= q
    requires Walk(schema, q, |path|, names)
    requires |q| == |path| + |names| || BareObject(schema, Last(q)).None?
    ensures FollowPath(schema, path, names) == Success(q)
  {
    FollowPathResume(schema, path, names, q);
  }

  /** A walk that reaches an object type without the next name makes followPath throw
      `Could not find` for exactly that name. */
  lemma FollowPathStuck(schema: Schema, path: seq<Pathable>, names: seq<string>, q: seq<Pathable>)
    requires |path| > 0 && path <= q
    requires Walk(schema, q, |path|, names)
    requires |q| < |path| + |names| && Missing(schema, Last(q), names[|q| - |path|])
    ensures FollowPath(schema, path, names) == Failure(CouldNotFind(names[|q| - |path|]))
  {
    FollowPathResume(schema, path, names, q);
  }

  /** followPath fails only when some walk from its input gets stuck on a missing name. */
  lemma {:induction false} FollowPathFailure(schema: Schema, path: seq<Pathable>, names: seq<string>)
    requires |path| > 0
    requires FollowPath(schema, path, names).Failure?
    ensures exists q :: Walk(schema, q, |path|, names) && path <= q && |q| < |path| + |names|
                        && Missing(schema, Last(q), names[|q| - |path|])
    decreases |names|
  {
    var obj := BareObject(schema, Last(path)).value;
    match FindField(obj.fields, names[0])
    case None =>
      assert Walk(schema, path, |path|, names);
    case Some(child) =>
      var next := path + [FieldAt(child)];
      FollowPathFailure(schema, next, names[1..]);
      var q :| Walk(schema, q, |next|, names[1..]) && next <= q && |q| < |next| + |names[1..]|
               && Missing(schema, Last(q), names[1..][|q| - |next|]);
      assert q[|path|] == FieldAt(child) && q[|path| - 1] == Last(path);
      WalkCons(schema, path, names, q);
      assert names[1..][|q| - |next|] == names[|q| - |path|];
  }
}
