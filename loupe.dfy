/**
 * src/index.ts: the `Loupe` cursor. A cursor holds a schema and a scope stack whose
 * last element is the current position; the getters inspect that element, and
 * `path` / `parent` produce new cursors.
 */
module Index {
  import opened Wrappers
  import opened GraphQL
  import opened Strings
  import opened Utils

  /** The read-only view of an argument that the `arguments` getter builds:
      the definition's own properties, plus `raw`, the definition itself. */
  datatype Argument = Argument(name: string, description: Option<string>, defaultValue: Option<Value>,
                               typeRef: TypeRef, raw: Arg)

  // ---------------------------------------------------------------------------
  // Getters, as functions of the current scope (the last stack element)

  /** `name`: '#Schema' at the root, otherwise the type's or the field's own name. */
  function Name(p: Pathable): (r: string)
    ensures !p.FieldAt? ==> Type(p) == Some(r)
  {
    match p
    case Root => "#Schema"
    case TypeAt(obj) => obj.name
    case FieldAt(f) => f.name
  }

  /** `type`: '#Schema' at the root, an object type's own name, and for a field the
      name of its declared type with at most one List or NonNull wrapper taken off;
      a field whose type has two or more wrappers has no type name (undefined). */
  function Type(p: Pathable): (r: Option<string>)
    ensures p.Root? ==> r == Some("#Schema")
    ensures p.TypeAt? ==> r == Some(p.obj.name)
    ensures p.FieldAt? ==> (r.Some? <==> WrapperDepth(p.field.typeRef) <= 1)
    ensures p.FieldAt? && r.Some? ==> r.value == Innermost(p.field.typeRef)
  {
    match p
    case Root => Some("#Schema")
    case TypeAt(obj) => Some(obj.name)
    case FieldAt(f) =>
      match f.typeRef
      case Named(n) => Some(n)
      case NonNull(inner) => RefName(inner)
      case List(inner) => RefName(inner)
  }

  predicate IsRoot(p: Pathable)
    ensures IsRoot(p) ==> Name(p) == "#Schema" && Type(p) == Some("#Schema") && Arguments(p).None?
  {
    p.Root?
  }

  predicate IsSchema(p: Pathable)
    ensures IsSchema(p) <==> IsRoot(p)
  {
    IsRoot(p)
  }

  /** `isType` tests `instanceof GraphQLSchema`, the same test as `isRoot`. */
  predicate IsType(p: Pathable)
    ensures IsType(p) <==> IsRoot(p)
  {
    p.Root?
  }

  /** What `isType` is plausibly meant to answer: the position is an object type,
      whose type is its own name and which has no arguments. */
  predicate IsObjectType(p: Pathable)
    ensures IsObjectType(p) ==> !IsRoot(p) && Type(p) == Some(Name(p)) && Arguments(p).None?
  {
    p.TypeAt?
  }

  /** Fields are exactly the positions that have an argument list. */
  predicate IsField(p: Pathable)
    ensures IsField(p) <==> Arguments(p).Some?
  {
    p.FieldAt?
  }

  /** `isNonNull` looks only at the outermost wrapper of a field's type. */
  predicate IsNonNull(p: Pathable)
    ensures IsNonNull(p) ==> IsField(p) && WrapperDepth(p.field.typeRef) >= 1
  {
    IsField(p) && p.field.typeRef.NonNull?
  }

  /** `isList` looks only at the outermost wrapper, so `[T]!` is not a list. */
  predicate IsList(p: Pathable)
    ensures IsList(p) ==> IsField(p) && WrapperDepth(p.field.typeRef) >= 1
  {
    IsField(p) && p.field.typeRef.List?
  }

  function View(a: Arg): Argument
  {
    Argument(a.name, a.description, a.defaultValue, a.typeRef, a)
  }

  /** `arguments`: null at the root and at an object type; for a field, one view per
      declared argument, in declaration order (empty when there are none). */
  function Arguments(p: Pathable): (r: Option<seq<Argument>>)
    ensures r.None? <==> !p.FieldAt?
    ensures r.Some? ==> |r.value| == |p.field.args|
    ensures r.Some? ==> forall i :: 0 <= i < |r.value| ==>
      var a, v := p.field.args[i], r.value[i];
      v.name == a.name && v.description == a.description && v.defaultValue == a.defaultValue
      && v.typeRef == a.typeRef && v.raw == a
  {
    match p
    case FieldAt(f) => Some(seq(|f.args|, i requires 0 <= i < |f.args| => View(f.args[i])))
    case _ => None
  }

  // ---------------------------------------------------------------------------
  // path(pathString), as a function of the scope stack

  /** The new scope stack that `path` builds from `stack` and the split segments
      `requested`. From the root the first segment must name an object type, which is
      pushed. Then, when segments remain: on a stack of length 2 the next segment is
      looked up among the fields of the type on top (a missing field ends the path
      there, without error); on any other length the top element itself is the
      starting point. followPath's result, starting element included, is pushed. */
  function Resolve(schema: Schema, stack: seq<Pathable>, requested: seq<string>): (r: Result<seq<Pathable>, PathError>)
    requires |stack| > 0
    ensures r.Success? ==> stack <= r.value && |r.value| <= |stack| + |requested| + 1
    ensures r.Failure? && IsRoot(Last(stack)) ==> r.error != NoFieldMap
  {
    if |requested| < 1 then Success(stack)
    else
      var start: Result<(seq<Pathable>, seq<string>), PathError> :=
        if IsRoot(Last(stack)) then
          match GetObjectType(schema, requested[0])
          case None => Failure(TypeNotFound(requested[0]))
          case Some(obj) => Success((stack + [TypeAt(obj)], requested[1..]))
        else Success((stack, requested));
      match start
      case Failure(e) => Failure(e)
      case Success((scope, rest)) =>
        if |rest| == 0 then Success(scope)
        else if |scope| == 2 then
          match scope[1]
          case TypeAt(obj) =>
            (match FindField(obj.fields, rest[0])
             case None => Success(scope)
             case Some(f) =>
               match FollowPath(schema, [FieldAt(f)], rest[1..])
               case Failure(e) => Failure(e)
               case Success(fields) => Success(scope + fields))
          case _ => Failure(NoFieldMap)
        else
          match FollowPath(schema, [Last(scope)], rest)
          case Failure(e) => Failure(e)
          case Success(fields) => Success(scope + fields)
  }

  // ---------------------------------------------------------------------------
  // The cursor

  class Loupe {
    const schema: Schema
    var pathScope: seq<Pathable>

    predicate Valid()
      reads this
    {
      |pathScope| > 0
    }

    /** A cursor over a pre-built schema starts at the root. */
    constructor (schema: Schema)
      ensures this.schema == schema && pathScope == [Root] && Valid()
    {
      this.schema := schema;
      pathScope := [Root];
    }

    /** `scope`: the current position. */
    function Scope(): (r: Pathable)
      reads this
      requires Valid()
      ensures r == pathScope[|pathScope| - 1]
    {
      Last(pathScope)
    }

    /** `clone(pathScope)`: a new cursor over the same schema with the given stack,
        or with this cursor's stack when none is given. */
    method Clone(newScope: Option<seq<Pathable>>) returns (r: Loupe)
      requires Valid()
      requires newScope.Some? ==> |newScope.value| > 0
      ensures fresh(r) && r.Valid() && r.schema == schema
      ensures r.pathScope == if newScope.Some? then newScope.value else pathScope
    {
      var s := if newScope.Some? then newScope.value else pathScope;
      r := new Loupe(schema);
      r.pathScope := s;
    }

    /** `parent`: on a one-element stack, this cursor itself. Otherwise a new cursor
        holding all but the last element; `splice` removes those elements from this
        cursor's own stack, which keeps only its last element. */
    method Parent() returns (r: Loupe)
      requires Valid()
      modifies this
      ensures Valid() && r.Valid() && r.schema == schema
      ensures |old(pathScope)| == 1 ==> r == this && pathScope == old(pathScope)
      ensures |old(pathScope)| > 1 ==>
        && fresh(r)
        && r.pathScope == old(pathScope)[..|old(pathScope)| - 1]
        && pathScope == [old(Scope())]
    {
      if |pathScope| == 1 {
        return this;
      }
      var n := |pathScope|;
      var removed := pathScope[..n - 1];
      pathScope := pathScope[n - 1..];
      r := Clone(Some(removed));
    }

    /** `path(pathString)`: works on a copy of the stack, so this cursor is unchanged;
        the new cursor shares the schema and holds the stack `Resolve` describes. */
    method Path(pathString: string) returns (r: Result<Loupe, PathError>)
      requires Valid()
      ensures r.Failure? <==> Resolve(schema, pathScope, Split(pathString, '.')).Failure?
      ensures r.Failure? ==> r.error == Resolve(schema, pathScope, Split(pathString, '.')).error
      ensures r.Success? ==>
        && fresh(r.value) && r.value.Valid() && r.value.schema == schema
        && r.value.pathScope == Resolve(schema, pathScope, Split(pathString, '.')).value
    {
      var requestedPath := Split(pathString, '.');
      ghost var requested := requestedPath;
      var scope := pathScope;
      // `split` never returns an empty array, so the early `return this` is never taken.
      assert |requestedPath| >= 1;

      if IsRoot(Last(scope)) {
        var typeString := requestedPath[0];
        requestedPath := requestedPath[1..];
        var t := GetObjectType(schema, typeString);
        if t.None? {
          return Failure(TypeNotFound(typeString));
        }
        scope := scope + [TypeAt(t.value)];
      }

      var fields: seq<Pathable> := [];
      if |requestedPath| > 0 {
        var startingField: Option<Pathable>;
        if |scope| == 2 {
          if !scope[1].TypeAt? {
            return Failure(NoFieldMap);
          }
          var fieldName := requestedPath[0];
          requestedPath := requestedPath[1..];
          var f := FindField(scope[1].obj.fields, fieldName);
          startingField := if f.Some? then Some(FieldAt(f.value)) else None;
        } else {
          startingField := Some(Last(scope));
        }
        if startingField.Some? {
          var walked := FollowPath(schema, [startingField.value], requestedPath);
          if walked.Failure? {
            return Failure(walked.error);
          }
          fields := walked.value;
        }
      }

      scope := scope + fields;
      var l := Clone(Some(scope));
      return Success(l);
    }
  }
}
