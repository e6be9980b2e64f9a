/**
 * The part of a graphql-js schema that the cursor touches, as plain values:
 * named types, fields with their declared type references and arguments,
 * the positions a cursor can stand on, and the errors navigation can raise.
 */
module GraphQL {
  import opened Wrappers

  /** A declared type reference: a named type, or a modifier around another reference.
      References name their target, so recursive types such as `friends: [Person]` are values. */
  datatype TypeRef = Named(name: string) | NonNull(ofType: TypeRef) | List(ofType: TypeRef)

  /** A literal default value of an argument. */
  datatype Value = IntValue(i: int) | StringValue(s: string) | BooleanValue(b: bool)

  /** An argument definition of a field (graphql-js `GraphQLArgument`). */
  datatype Arg = Arg(name: string, description: Option<string>, defaultValue: Option<Value>, typeRef: TypeRef)

  /** A field definition (graphql-js `GraphQLField`). */
  datatype Field = Field(name: string, typeRef: TypeRef, args: seq<Arg>)

  /** A composite type (graphql-js `GraphQLObjectType`); `fields` plays the part of `getFields()`. */
  datatype ObjectType = ObjectType(name: string, fields: seq<Field>)

  datatype NamedType = Object(obj: ObjectType) | Scalar(name: string)

  /** The schema's type map, as `getType` reads it. */
  type Schema = map<string, NamedType>

  /** One element of a cursor's scope stack (`Pathable` in src/index.ts):
      the schema itself, an object type, or a field. */
  datatype Pathable = Root | TypeAt(obj: ObjectType) | FieldAt(field: Field)

  /** What `path` can throw. */
  datatype PathError =
    | TypeNotFound(typeName: string)   // "<name> was not found as known Type on the schema"
    | CouldNotFind(fieldName: string)  // "Could not find <name>", thrown by followPath
    | NoFieldMap                       // `getFields` called on a scope that is not an object type

  function TypeName(t: NamedType): string
  {
    match t
    case Object(obj) => obj.name
    case Scalar(name) => name
  }

  /** No two fields share a name, as in the field map `getFields()` returns. */
  predicate DistinctFieldNames(fields: seq<Field>)
  {
    forall i, j :: 0 <= i < j < |fields| ==> fields[i].name != fields[j].name
  }

  /** A type map keyed by the names of its types, as graphql-js builds it, whose object
      types declare each field name once. */
  predicate WellFormed(schema: Schema)
  {
    forall n :: n in schema ==> TypeName(schema[n]) == n
                                && (schema[n].Object? ==> DistinctFieldNames(schema[n].obj.fields))
  }

  /** `schema.getType(name)` followed by `instanceof GraphQLObjectType`. */
  function GetObjectType(schema: Schema, name: string): (r: Option<ObjectType>)
    ensures r.Some? <==> name in schema && schema[name].Object?
    ensures r.Some? ==> schema[name] == Object(r.value)
    ensures WellFormed(schema) && r.Some? ==> r.value.name == name
  {
    if name in schema && schema[name].Object? then Some(schema[name].obj) else None
  }

  /** `type.getFields()[name]`: the field declared under `name`, or undefined. */
  function FindField(fields: seq<Field>, name: string): (r: Option<Field>)
    ensures r.Some? ==> r.value in fields && r.value.name == name
    ensures r.None? <==> forall f :: f in fields ==> f.name != name
  {
    if |fields| == 0 then None
    else if fields[0].name == name then Some(fields[0])
    else FindField(fields[1..], name)
  }

  /** `p.type instanceof GraphQLObjectType`: the object type that a field's declared type
      is, with no List or NonNull wrapper around it. Only fields have a `.type`. */
  function BareObject(schema: Schema, p: Pathable): (r: Option<ObjectType>)
    ensures r.Some? ==> && p.FieldAt? && WrapperDepth(p.field.typeRef) == 0
                        && Innermost(p.field.typeRef) in schema
                        && schema[Innermost(p.field.typeRef)] == Object(r.value)
    ensures (p.FieldAt? && WrapperDepth(p.field.typeRef) == 0
             && GetObjectType(schema, Innermost(p.field.typeRef)).Some?) ==> r.Some?
  {
    match p
    case FieldAt(f) => (if f.typeRef.Named? then GetObjectType(schema, f.typeRef.name) else None)
    case _ => None
  }

  /** The `.name` of a type reference: named types have one, List and NonNull do not. */
  function RefName(t: TypeRef): Option<string>
  {
    if t.Named? then Some(t.name) else None
  }

  /** How many List/NonNull modifiers are wrapped around the named type. */
  function WrapperDepth(t: TypeRef): nat
  {
    match t
    case Named(_) => 0
    case NonNull(inner) => 1 + WrapperDepth(inner)
    case List(inner) => 1 + WrapperDepth(inner)
  }

  /** The named type at the bottom of a reference. */
  function Innermost(t: TypeRef): string
  {
    match t
    case Named(n) => n
    case NonNull(inner) => Innermost(inner)
    case List(inner) => Innermost(inner)
  }

  /** With distinct field names, looking a name up finds the one field of that name,
      so the list of fields behaves as the field map keyed by name. */
  lemma {:induction false} FindFieldUnique(fields: seq<Field>, f: Field)
    requires DistinctFieldNames(fields) && f in fields
    ensures FindField(fields, f.name) == Some(f)
  {
    if fields[0] != f {
      assert f in fields[1..];
      assert fields[0].name != f.name by {
        var j :| 0 <= j < |fields| && fields[j] == f;
        assert j > 0;
      }
      FindFieldUnique(fields[1..], f);
    }
  }

  /** In a type map keyed by type names, the bare object type of a field carries the
      name its declared type refers to. */
  lemma BareObjectNamed(schema: Schema, p: Pathable)
    requires WellFormed(schema) && BareObject(schema, p).Some?
    ensures BareObject(schema, p).value.name == Innermost(p.field.typeRef)
  {
  }
}
