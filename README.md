# graphql-loupe in Dafny

graphql-loupe is a cursor over a GraphQL schema. A `Loupe` holds a schema and a
scope stack (`pathScope`) whose last element is the current position: the schema,
an object type or a field. A new cursor's stack holds just the schema. `path` adds to
a copy of the stack. On a stack of two or more elements, `parent` drops the last
element; on a one-element stack it returns the cursor itself. Because `parent` uses
`splice`, the cursor it is called on keeps only its own last element.

- The getters (`name`, `type`, `isRoot`, `isSchema`, `isType`, `isField`,
  `isNonNull`, `isList`, `arguments`) describe the current position.
- `path('Type.field.field')` returns a new cursor moved along a dot-separated path.
- `parent` returns a cursor one level up.

`path` hands the field segments that remain to `followPath`. `followPath` walks from
field to field as long as the last field's declared type is a bare object type.

The model has these parts:

- `wrappers.dfy`: `Option` and `Result`.
- `graphql.dfy` (module `GraphQL`): the part of a graphql-js schema that the cursor
  reads, as values.
  - Type references are `Named`, `NonNull` and `List`. A reference names its target,
    so recursive types are plain values.
  - Fields have arguments, and object types list their fields.
  - The schema is a type map (`map<string, NamedType>`).
  - The three kinds of stack element are `Root`, `TypeAt` and `FieldAt`.
  - The three errors `path` can throw are `TypeNotFound`, `CouldNotFind` and
    `NoFieldMap`.
  - Two lookups: `getType` followed by `instanceof GraphQLObjectType`, and
    `getFields()[name]`.
- `strings.dfy` (module `Strings`): JavaScript's `split` with a one-character
  separator, and `join`, its inverse.
- `follow_path.dfy` (module `Utils`): `followPath`, plus a reference definition of
  what a walk is (`Walk`). Lemmas tie `followPath` to that definition in both
  directions.
- `loupe.dfy` (module `Index`):
  - the getters, as functions of the current position;
  - `Resolve`, the stack that `path` builds, as a function of the old stack and the
    split segments;
  - `class Loupe`, with a mutable `pathScope: seq<Pathable>`. `Path` is proved to
    build the stack `Resolve` gives. `Clone` and `Parent` state their new stacks, and
    `Parent` also states the receiver's stack after `splice`.
- `loupe_lemmas.dfy` (module `IndexLemmas`): properties of the getters and of `path`
  over all schemas.
- `fixtures.dfy` (module `Fixtures`): the schema of `test/fixtures/schema.ts` as a
  value, and the test suite's expectations proved about the model.

The model follows the code:

- `isType` is the same test as `isRoot`.
- `followPath` does not look through `List` or `NonNull`. A path stops at a list
  field, for example `Query.people.name` stops at `people`.
- `type` gives the name of the declared type after taking off at most one wrapper.
  It does not render `[T]` or `T!`.
- When the current position is not the root and the stack is not two elements long,
  `path` pushes the current position a second time, because `followPath` returns its
  starting field too. So `path('Person.address').path('city')` holds `address` twice
  (`IndexLemmas.PathFromField`, `Fixtures.PathFromAddressRepeatsAddress`).
  A later `parent` then stays at `address`.
- On a two-element stack, `path` looks the next segment up among the fields of the
  element on top (`IndexLemmas.PathFromType`). If that element is a field, as after
  `parent` and `path` calls can leave it, `getFields` throws a TypeError
  (`IndexLemmas.NoFieldMapExactly`).
- `test/path.test.ts:38` expects the `.name` of the `[Person]` list type of
  `Query.people` to be `Person`. A list type has no name in graphql-js.
  `Fixtures.PeopleGetters` states what the code gives: the declared type has no name,
  and the `type` getter gives `Person`.

## Model

| member | source | states |
|---|---|---|
| GraphQL.GetObjectType | src/index.ts:148-150 | a type is found exactly when the name is in the type map and maps to an object type; in a type map keyed by type names, the type found carries the requested name |
| GraphQL.FindField | src/index.ts:165 | a found field is one of the type's fields and carries the requested name; nothing is found exactly when no field has that name |
| Strings.Split | src/index.ts:139 | `split('.')` gives at least one segment, no segment contains the separator, and joining the segments with '.' gives the input back |
| Strings.SplitWithoutSeparator | src/index.ts:139 | a string without '.' splits into itself alone |
| Strings.SplitAtFirstSeparator | src/index.ts:139 | splitting `a.b`, where `a` has no '.', gives `a` followed by the segments of `b` |
| Strings.SplitJoin | src/index.ts:139 | splitting the join of separator-free segments gives those segments back |
| GraphQL.FindFieldUnique | src/index.ts:165 | in a type whose field names are distinct, as the `getFields()` map keys them, looking up a field's name finds that field |
| GraphQL.BareObjectNamed | src/utils/follow-path.ts:11-13 | in a type map keyed by type names, a field's bare object type carries the name its declared type refers to |
| GraphQL.BareObject | src/utils/follow-path.ts:11 | a position whose type is a bare object type is a field whose declared type has no wrapper and names an object type in the type map, and every such field has one |
| Utils.FollowPath | src/utils/follow-path.ts:4-24 | on success the input stack is a prefix of the result, and what was added is a walk consuming the names in order; the walk used every name or stopped at an element whose type is not a bare object type; the only failure is `Could not find` for one of the names |
| Utils.WalkCons | src/utils/follow-path.ts:12-17 | a step to a field followed by a walk over the remaining names is a walk over all the names |
| Utils.FollowPathResume | src/utils/follow-path.ts:4-24 | walking is deterministic: from any stack a walk reached, followPath continues exactly as from the start |
| Utils.FollowPathComplete | src/utils/follow-path.ts:4-24 | every walk that used all names, or reached a field whose type is not a bare object type, is exactly followPath's result |
| Utils.FollowPathStuck | src/utils/follow-path.ts:11-20 | a walk that reaches an object type without the next name makes followPath fail with `Could not find` for that name |
| Utils.FollowPathFailure | src/utils/follow-path.ts:18-20 | followPath fails only when some walk from its input gets stuck there on a missing name |
| Index.Name | src/index.ts:59-65 | at the root and at an object type, `name` agrees with `type` |
| Index.IsRoot | src/index.ts:81-83 | at the root, `name` and `type` are '#Schema' and there are no arguments |
| Index.IsSchema | src/index.ts:85-87 | `isSchema` is `isRoot` |
| Index.IsType | src/index.ts:89-91 | `isType` holds exactly where `isRoot` does |
| Index.IsObjectType | src/index.ts:89-91 | the plausibly intended `isType`: where it holds, the position is not the root, its type is its own name, and it has no arguments |
| Index.IsField | src/index.ts:93-95 | the fields are exactly the positions that have an argument list |
| Index.IsNonNull | src/index.ts:97-103 | a non-null position is a field whose declared type is wrapped |
| Index.IsList | src/index.ts:105-111 | a list position is a field whose declared type is wrapped |
| Index.Type | src/index.ts:67-79 | '#Schema' at the root; an object type's own name; for a field, a name exactly when its declared type has at most one wrapper, and then that name is the named type inside |
| Index.Arguments | src/index.ts:113-126 | null exactly at the root and at object types; for a field, one entry per declared argument, in order, copying name, description, default value and type, with `raw` being the argument itself |
| Index.Resolve | src/index.ts:138-178 | the new stack keeps the old one as a prefix and grows by at most one element more than there are segments; a path from the root never fails with the `getFields` error |
| Index.Loupe.constructor | src/index.ts:38-45 | a new cursor over a built schema stands at the root |
| Index.Loupe.Scope | src/index.ts:47-49 | the current position is the stack's last element |
| Index.Loupe.Clone | src/index.ts:203-211 | a fresh cursor over the same schema whose stack is the given one, or this cursor's when none is given |
| Index.Loupe.Parent | src/index.ts:128-136 | on a one-element stack it returns the cursor itself, unchanged; otherwise a fresh cursor with all but the last element, and this cursor's own stack is cut down to its last element by `splice` |
| Index.Loupe.Path | src/index.ts:138-178 | the receiver is unchanged; it fails exactly when `Resolve` on the split path fails, with the same error; otherwise it gives a fresh cursor over the same schema holding the stack `Resolve` gives |
| IndexLemmas.RootGetters | src/index.ts:59-126 | at the root, `isRoot`, `isSchema` and `isType` hold; `name` and `type` are '#Schema'; `arguments` is null; it is not a field, a non-null or a list |
| IndexLemmas.IsTypeIsIsRoot | src/index.ts:81-91 | `isType` and `isRoot` agree at every position |
| IndexLemmas.IsTypeMissesObjectTypes | src/index.ts:89-91 | `isType` is false at every object type and true at the root |
| IndexLemmas.PathToTypeIsObjectType | src/index.ts:89-91 | `path('T')` for an object type `T` succeeds at `T`; there the intended `isType` holds and `isType` as written does not |
| IndexLemmas.PositionKinds | src/index.ts:81-95 | with the intended `isType`, every position is exactly one of root, object type and field |
| IndexLemmas.GettersDetermineFieldType | src/index.ts:67-111 | no position is both non-null and a list; only fields are either or have arguments; for a field with a type name, that name together with `isNonNull` and `isList` gives back its declared type |
| IndexLemmas.NonNullList | src/index.ts:97-111 | a `[T]!` field is non-null but not a list, and has no type name |
| IndexLemmas.PathFromRootNeedsType | src/index.ts:146-152 | from the root, a first segment that is not an object type fails with TypeNotFound for that segment |
| IndexLemmas.EmptyPathAtRoot | src/index.ts:139-152 | `path('')` at the root looks up the type named '' and fails, because split never gives an empty array |
| IndexLemmas.PathFromRootIsTypeThenRest | src/index.ts:146-178 | from a fresh cursor, `path` pushes the first segment's type and then resolves the rest from the cursor at that type |
| IndexLemmas.PathFromRootThenType | src/index.ts:139-178 | `path('T')` stops at `T`, and `path('T.rest')` goes where `path('rest')` goes from the cursor at `T` |
| IndexLemmas.PathToTypeField | src/index.ts:159-175 | from a fresh cursor, `T.f` ends at field `f` of type `T` |
| IndexLemmas.PathFromType | src/index.ts:162-175 | at a type on a two-element stack, a first segment that is not a field ends the path there without an error; otherwise the field is pushed and the rest is a walk from it; failures are `Could not find` for a later segment |
| IndexLemmas.PathFromField | src/index.ts:166-175 | on any other stack the current position is pushed again, then the walk from it; failures are `Could not find` for a segment |
| IndexLemmas.NoFieldMapExactly | src/index.ts:162-165 | `path` raises the `getFields` TypeError exactly on a two-element stack with a field on top, when segments are given |
| IndexLemmas.PathFromRootSpellsSegments | src/index.ts:146-175 | from a fresh cursor, the pushed positions are a type and then fields, named by the path's segments in order; when every segment was used, the cursor's `name` is the last segment |
| Fixtures.PeopleSchemaIsWellFormed | test/fixtures/schema.ts:1-28 | the fixture's type map is keyed by the types' own names, and no type declares a field name twice |
| Fixtures.PathToQuery | test/path.test.ts:12-15 | `path('Query')` ends at the Query type, whose name and type are 'Query' and which has no arguments |
| Fixtures.PathToPerson | test/path.test.ts:17-20 | `path('Person')` ends at the Person type |
| Fixtures.ResolvePersonName | test/path.test.ts:22-25 | the segments `Person`, `name` resolve to the `name` field of the Person type |
| Fixtures.PathToPersonName | test/path.test.ts:22-25 | `path('Person.name')` ends at the `name` field |
| Fixtures.PersonNameGetters | test/type.test.ts:20-22 | the `name` field is named 'name', has type 'String', is a field and is neither non-null nor a list |
| Fixtures.ResolvePersonAddressCity | test/path.test.ts:27-32 | the segments `Person`, `address`, `city` resolve to the `city` field through `address` |
| Fixtures.CityGetters | test/path.test.ts:27-32 | the `city` field's name is 'city' and its declared type's name is 'String' |
| Fixtures.PathToCity | test/path.test.ts:27-32 | `path('Person.address.city')` ends at the `city` field |
| Fixtures.ResolveQueryPeople | test/path.test.ts:34-39 | the segments `Query`, `people` resolve to the `people` field of the Query type |
| Fixtures.PathToPeople | test/path.test.ts:34-39 | `path('Query.people')` ends at the `people` field |
| Fixtures.PeopleGetters | test/path.test.ts:34-39 | the `people` field is named 'people'; its declared list type has no name; `type` gives 'Person' |
| Fixtures.ResolvePersonSocialSecurityNumber | test/type.test.ts:24-26 | the segments `Person`, `socialSecurityNumber` resolve to that field of the Person type |
| Fixtures.PathToSocialSecurityNumber | test/type.test.ts:24-26 | `path('Person.socialSecurityNumber')` ends at that field |
| Fixtures.SocialSecurityNumberGetters | test/is-non-null.test.ts:12-14 | `socialSecurityNumber` has type 'String', is non-null and is not a list |
| Fixtures.ResolvePersonFriends | test/type.test.ts:28-30 | the segments `Person`, `friends` resolve to that field of the Person type |
| Fixtures.PathToFriends | test/type.test.ts:28-30 | `path('Person.friends')` ends at that field |
| Fixtures.FriendsGetters | test/is-list.test.ts:12-22 | `friends` has type 'Person', is a list and is not non-null; the Person type is neither |
| Fixtures.PathToAddressCity | test/arguments.test.ts:17-19 | `Address.city` is a field with no arguments, and the Address type is not a field |
| Fixtures.PathToAddress | test/is-field.test.ts:12-16 | `path('Address')` ends at the Address type, which is not a field |
| Fixtures.PeopleArguments | test/arguments.test.ts:21-29 | `Query.people` has one argument: `pageCount`, of type Int, with default 10 and the fixture's description |
| Fixtures.PathPastMissingField | src/index.ts:162-172 | `Person.doesNotExist` ends at the Person type, without an error |
| Fixtures.ResolvePersonAddressZip | src/utils/follow-path.ts:18-20 | the segments `Person`, `address`, `zip` fail with `Could not find zip` |
| Fixtures.PathToMissingNestedField | src/utils/follow-path.ts:18-20 | `path('Person.address.zip')` fails with `Could not find zip` |
| Fixtures.ResolveQueryPeopleName | src/utils/follow-path.ts:11-23 | the segments `Query`, `people`, `name` stop at the list field `people` |
| Fixtures.PathStopsAtList | src/utils/follow-path.ts:11-23 | `path('Query.people.name')` stops at `people` |
| Fixtures.PathToUnknownType | src/index.ts:148-152 | `path('Nobody')` fails at the root with TypeNotFound |
| Fixtures.PathToScalarType | src/index.ts:148-152 | `path('String')`, naming a scalar, fails at the root with TypeNotFound |
| Fixtures.SplitTwo | src/index.ts:139 | `a.b` splits into `a` and `b` |
| Fixtures.SplitThree | src/index.ts:139 | `a.b.c` splits into `a`, `b` and `c` |
| Fixtures.TwoFieldsFromType | src/utils/follow-path.ts:11-17 | in any schema, from a type, `f.g` through an object-typed field `f` ends at `g` |
| Fixtures.PathFromAddressRepeatsAddress | src/index.ts:166-175 | a second `path('city')` from `Person.address` pushes `address` again and then `city` |
| Fixtures.ParentOfRoot | test/parent.test.ts:13-16 | `parent` of a fresh cursor is that cursor, still at the root |
| Fixtures.ParentOfField | test/parent.test.ts:18-28 | from `Person.name`, `parent` gives a cursor named 'Person', and its `parent` is at the root |
| Fixtures.ParentsOfPersonName | test/parent.test.ts:18-28 | going up twice from the stack of `Person.name` gives the Person type and then the root; `splice` leaves each receiver with only its last element |

## Left out

- `query` (src/index.ts:180-182) and `mock` (src/index.ts:184-201) execute or mock
  queries through graphql-js and graphql-tools, code that is not part of this model.
- `ast` (src/index.ts:55-57) returns a parser AST node; AST nodes are not part of
  this model.
- The constructor: its string branch calls graphql-js `buildSchema`, a parser that is
  not part of this model. The cursor is built from a schema value, as when the source
  is given a `GraphQLSchema`.
- `isField` tests whether the position's AST node is a `FieldDefinition`. The model
  answers whether the position is a field. The two agree for fields declared in SDL.
  Some fields have no AST node, so the source's `isField`, `isNonNull` and `isList`
  are falsy there; the model does not capture that. Such fields are the fields of
  introspection types, which `getType('__Schema')` reaches even in a schema built
  from SDL, and every field of a schema built in code.
- `getType` and `getFields()[name]` are JavaScript object lookups. Keys inherited
  through the prototype, such as `constructor`, are not modelled.
- Introspection types (`__Schema` and the like) are not in the fixture's type map.
- Index.Loupe.Clone: requires a non-empty stack. The source accepts an empty array,
  after which `scope` is undefined, `isRoot`, `isSchema` and `isType` give false, and
  the other getters throw a TypeError.
- Index.Loupe.Clone: when no stack is given, the source shares the receiver's array
  with the new cursor, so a later `parent` on either cursor changes both. The model
  copies the stack as a value.
- Index.Loupe.Path: exceptions are modelled as `Failure` results; the source throws
  them. `NoFieldMap` stands for the TypeError raised when `getFields` is called on a
  two-element stack whose top is not an object type.
- `NamedType` has two cases, `Object` and `Scalar`. `Scalar` also stands for
  interface, union, enum and input object types. The cursor only ever asks whether a
  named type is an object type, and the model keeps that answer for every kind.
- A field whose declared type names a type missing from the type map is treated as
  not having an object type, so `followPath` stops at it. graphql-js cannot build
  such a schema, and `WellFormed` does not exclude it.
- Argument default values: only Int, String and Boolean literals are modelled.
- The `Loupe` factory function `loupe` (src/index.ts:215-217) equals the constructor.

## Findings

| source | as written | input that shows it | evidently intended | confidence | as-written member | corrected member |
|---|---|---|---|---|---|---|
| src/index.ts:89-91 | `isType` tests `instanceof GraphQLSchema`, the same test as `isRoot` | `path('Query').isType` is false, and `isType` at the root is true | plausibly: `isType` is true exactly at an object type; no test or comment says so, but `isRoot` and `isSchema` already answer the root question | low, not executed | IndexLemmas.IsTypeMissesObjectTypes | IndexLemmas.PathToTypeIsObjectType |
