/** Properties of the cursor's getters and of `path`, stated over `Index.Resolve`. */
module IndexLemmas {
  import opened Wrappers
  import opened GraphQL
  import opened Strings
  import opened Utils
  import opened Index

  /** At a fresh cursor's position: `isRoot`, names and types are '#Schema',
      there are no arguments, and it is neither a field, a non-null nor a list. */
  lemma RootGetters()
    ensures IsRoot(Root) && IsSchema(Root) && IsType(Root) && !IsObjectType(Root) && !IsField(Root)
    ensures Name(Root) == "#Schema" && Type(Root) == Some("#Schema")
    ensures Arguments(Root) == None && !IsNonNull(Root) && !IsList(Root)
  {
  }

  /** `isType` and `isRoot` agree at every position. */
  lemma IsTypeIsIsRoot(p: Pathable)
    ensures IsType(p) == IsRoot(p)
  {
  }

  /** `isType` as written is false at every object type and true at the root. */
  lemma IsTypeMissesObjectTypes(obj: ObjectType)
    ensures !IsType(TypeAt(obj)) && IsType(Root)
  {
  }

  /** With the intended `isType`, every position is exactly one of the root, an object
      type and a field. */
  lemma PositionKinds(p: Pathable)
    ensures IsRoot(p) || IsObjectType(p) || IsField(p)
    ensures !(IsRoot(p) && IsObjectType(p)) && !(IsRoot(p) && IsField(p)) && !(IsObjectType(p) && IsField(p))
  {
  }

  /** `path('T')` for an object type `T` ends at `T`, where the intended `isType` holds
      and `isType` as written does not. */
  lemma PathToTypeIsObjectType(schema: Schema, t: string)
    requires '.' !in t && GetObjectType(schema, t).Some?
    ensures var r := Resolve(schema, [Root], Split(t, '.'));
      r.Success? && IsObjectType(Last(r.value)) && !IsType(Last(r.value))
  {
    PathFromRootThenType(schema, t, "");
  }

  /** Only fields are non-null or lists, never both; and for a field with a type name, the
      name together with `isNonNull` and `isList` gives back its declared type. */
  lemma GettersDetermineFieldType(p: Pathable)
    ensures !(IsNonNull(p) && IsList(p))
    ensures !p.FieldAt? ==> !IsNonNull(p) && !IsList(p) && Arguments(p).None?
    ensures p.FieldAt? && Type(p).Some? ==>
      p.field.typeRef == (if IsNonNull(p) then NonNull(Named(Type(p).value))
                          else if IsList(p) then List(Named(Type(p).value))
                          else Named(Type(p).value))
  {
  }

  /** `isList` and `isNonNull` read only the outermost wrapper: a `[T]!` field is
      non-null but not a list, and with two wrappers it has no type name. */
  lemma NonNullList(n: string, t: string)
    ensures var p := FieldAt(Field(n, NonNull(List(Named(t))), []));
      IsNonNull(p) && !IsList(p) && Type(p) == None
  {
  }

  /** From the root the first segment must name an object type. */
  lemma PathFromRootNeedsType(schema: Schema, stack: seq<Pathable>, requested: seq<string>)
    requires |stack| > 0 && IsRoot(Last(stack)) && |requested| > 0
    requires GetObjectType(schema, requested[0]).None?
    ensures Resolve(schema, stack, requested) == Failure(TypeNotFound(requested[0]))
  {
  }

  /** `path('')` at the root looks up the type named '' (split gives [""]), so it fails
      instead of returning the cursor unchanged. */
  lemma EmptyPathAtRoot(schema: Schema, stack: seq<Pathable>)
    requires |stack| > 0 && IsRoot(Last(stack))
    requires GetObjectType(schema, "").None?
    ensures Resolve(schema, stack, Split("", '.')) == Failure(TypeNotFound(""))
  {
    assert Split("", '.') == [""];
  }

  /** From a fresh cursor, the type step and the field steps are sequenced: the first
      segment pushes its type, and the rest resolve from the cursor at that type. */
  lemma PathFromRootIsTypeThenRest(schema: Schema, requested: seq<string>)
    requires |requested| > 0 && GetObjectType(schema, requested[0]).Some?
    ensures Resolve(schema, [Root], requested)
         == Resolve(schema, [Root, TypeAt(GetObjectType(schema, requested[0]).value)], requested[1..])
  {
    var obj := GetObjectType(schema, requested[0]).value;
    assert [Root] + [TypeAt(obj)] == [Root, TypeAt(obj)];
  }

  /** The same on path strings: `path("T")` stops at `T`, and `path("T.rest")` goes where
      `path("T")` and then `path("rest")` go. */
  lemma PathFromRootThenType(schema: Schema, t: string, rest: string)
    requires '.' !in t && GetObjectType(schema, t).Some?
    ensures Resolve(schema, [Root], Split(t, '.')) == Success([Root, TypeAt(GetObjectType(schema, t).value)])
    ensures Resolve(schema, [Root], Split(t + "." + rest, '.'))
         == Resolve(schema, [Root, TypeAt(GetObjectType(schema, t).value)], Split(rest, '.'))
  {
    SplitWithoutSeparator(t, '.');
    PathFromRootIsTypeThenRest(schema, [t]);
    assert [t][1..] == [];
    SplitAtFirstSeparator(t, rest, '.');
    assert t + "." + rest == t + ['.'] + rest;
    var requested := Split(t + "." + rest, '.');
    assert requested[1..] == Split(rest, '.');
    PathFromRootIsTypeThenRest(schema, requested);
  }

  /** From a fresh cursor, `T.f` for an object type `T` with a field `f` ends at `f`. */
  lemma PathToTypeField(schema: Schema, t: string, name: string)
    requires GetObjectType(schema, t).Some?
    requires FindField(GetObjectType(schema, t).value.fields, name).Some?
    ensures Resolve(schema, [Root], [t, name])
         == Success([Root, TypeAt(GetObjectType(schema, t).value),
                     FieldAt(FindField(GetObjectType(schema, t).value.fields, name).value)])
  {
    var obj := GetObjectType(schema, t).value;
    var f := FindField(obj.fields, name).value;
    assert [t, name][1..] == [name] && [name][1..] == [];
    assert FollowPath(schema, [FieldAt(f)], []) == Success([FieldAt(f)]);
    assert [Root] + [TypeAt(obj)] + [FieldAt(f)] == [Root, TypeAt(obj), FieldAt(f)];
  }

  /** At an object type reached from the root (stack length 2), a first segment that is
      not a field ends the path at the type, silently; otherwise the field is pushed and
      followPath walks on from it. */
  lemma PathFromType(schema: Schema, s0: Pathable, obj: ObjectType, requested: seq<string>)
    requires |requested| > 0
    ensures FindField(obj.fields, requested[0]).None? ==>
      Resolve(schema, [s0, TypeAt(obj)], requested) == Success([s0, TypeAt(obj)])
    ensures var r := Resolve(schema, [s0, TypeAt(obj)], requested);
      r.Success? && FindField(obj.fields, requested[0]).Some? ==>
        && |r.value| >= 3
        && r.value[2] == FieldAt(FindField(obj.fields, requested[0]).value)
        && Walk(schema, r.value, 3, requested[1..])
        && (|r.value| == 2 + |requested| || BareObject(schema, Last(r.value)).None?)
    ensures var r := Resolve(schema, [s0, TypeAt(obj)], requested);
      r.Failure? ==> r.error.CouldNotFind? && r.error.fieldName in requested[1..]
  {
    var r := Resolve(schema, [s0, TypeAt(obj)], requested);
    var f := FindField(obj.fields, requested[0]);
    if r.Success? && f.Some? {
      var walked := FollowPath(schema, [FieldAt(f.value)], requested[1..]);
      assert r.value == [s0, TypeAt(obj)] + walked.value;
      forall i | 3 <= i < |r.value|
        ensures StepsTo(schema, r.value[i - 1], requested[1..][i - 3], r.value[i])
      {
        assert r.value[i - 1] == walked.value[i - 3] && r.value[i] == walked.value[i - 2];
      }
    }
  }

  /** On any other stack (not at the root, length other than 2) the current position is
      the starting point: it is pushed again, followed by followPath's walk from it. */
  lemma PathFromField(schema: Schema, stack: seq<Pathable>, requested: seq<string>)
    requires |stack| > 0 && |stack| != 2 && !IsRoot(Last(stack)) && |requested| > 0
    ensures var r := Resolve(schema, stack, requested);
      r.Success? ==>
        && |r.value| > |stack|
        && r.value[|stack|] == Last(stack)
        && Walk(schema, r.value, |stack| + 1, requested)
        && (|r.value| == |stack| + 1 + |requested| || BareObject(schema, Last(r.value)).None?)
    ensures var r := Resolve(schema, stack, requested);
      r.Failure? ==> r.error.CouldNotFind? && r.error.fieldName in requested
  {
    var r := Resolve(schema, stack, requested);
    if r.Success? {
      var walked := FollowPath(schema, [Last(stack)], requested);
      var n := |stack|;
      assert r.value == stack + walked.value;
      forall i | n + 1 <= i < |r.value|
        ensures StepsTo(schema, r.value[i - 1], requested[i - (n + 1)], r.value[i])
      {
        assert r.value[i - 1] == walked.value[i - 1 - n] && r.value[i] == walked.value[i - n];
      }
    }
  }

  /** From a fresh cursor, the positions pushed onto the stack are named by the path's
      segments, in order: the stack spells a prefix of the path. When every segment was
      used, the cursor's `name` is the last segment. */
  lemma PathFromRootSpellsSegments(schema: Schema, requested: seq<string>)
    requires WellFormed(schema) && |requested| > 0
    requires Resolve(schema, [Root], requested).Success?
    ensures var q := Resolve(schema, [Root], requested).value;
      && 2 <= |q| <= |requested| + 1
      && q[0] == Root && q[1].TypeAt?
      && (forall i :: 2 <= i < |q| ==> q[i].FieldAt?)
      && (forall i :: 1 <= i < |q| ==> Name(q[i]) == requested[i - 1])
    ensures var q := Resolve(schema, [Root], requested).value;
      |q| == |requested| + 1 ==> Name(Last(q)) == requested[|requested| - 1]
  {
    var q := Resolve(schema, [Root], requested).value;
    var obj := GetObjectType(schema, requested[0]).value;
    assert Name(q[1]) == requested[0];
    var rest := requested[1..];
    if |rest| > 0 && FindField(obj.fields, rest[0]).Some? {
      var f := FindField(obj.fields, rest[0]).value;
      var walked := FollowPath(schema, [FieldAt(f)], rest[1..]);
      assert q == [Root, TypeAt(obj)] + walked.value;
      forall i | 2 <= i < |q|
        ensures q[i].FieldAt? && Name(q[i]) == requested[i - 1]
      {
        if i == 2 {
          assert q[2] == FieldAt(f);
        } else {
          assert q[i] == walked.value[i - 2] && q[i - 1] == walked.value[i - 3];
          assert StepsTo(schema, walked.value[i - 3], rest[1..][i - 3], walked.value[i - 2]);
          assert rest[1..][i - 3] == requested[i - 1];
        }
      }
    }
  }

  /** `path` throws the `getFields` TypeError exactly on a two-element stack with a field
      on top, as chained `path` and `parent` calls can leave, when segments are given. */
  lemma NoFieldMapExactly(schema: Schema, stack: seq<Pathable>, requested: seq<string>)
    requires |stack| > 0
    ensures Resolve(schema, stack, requested) == Failure(NoFieldMap)
        <==> |stack| == 2 && stack[1].FieldAt? && |requested| > 0
  {
  }
}
