/**
 * The schema of test/fixtures/schema.ts as a value, and the expectations of the
 * cursor's tests proved about the model.
 */
module Fixtures {
  import opened Wrappers
  import opened GraphQL
  import opened Strings
  import opened Utils
  import opened Index
  import opened IndexLemmas

  const PageCountDescription: string :=
    "pageCount is used for pagination\nSpecify the numbebr of people to include per page"

  const PageCount: Arg := Arg("pageCount", Some(PageCountDescription), Some(IntValue(10)), Named("Int"))

  const PersonField: Field := Field("person", Named("Person"), [Arg("name", None, None, Named("String"))])
  const PeopleField: Field := Field("people", List(Named("Person")), [PageCount])
  const QueryType: ObjectType := ObjectType("Query", [PersonField, PeopleField])

  const NameField: Field := Field("name", Named("String"), [])
  const AddressField: Field := Field("address", Named("Address"), [])
  const SocialSecurityNumberField: Field := Field("socialSecurityNumber", NonNull(Named("String")), [])
  const FriendsField: Field := Field("friends", List(Named("Person")), [])
  const PersonType: ObjectType :=
    ObjectType("Person", [NameField, AddressField, SocialSecurityNumberField, FriendsField])

  const CityField: Field := Field("city", Named("String"), [])
  const AddressType: ObjectType := ObjectType("Address", [CityField])

  const PeopleSchema: Schema := map[
    "Query" := Object(QueryType),
    "Person" := Object(PersonType),
    "Address" := Object(AddressType),
    "String" := Scalar("String"),
    "Int" := Scalar("Int"),
    "Boolean" := Scalar("Boolean")
  ]

  lemma PeopleSchemaIsWellFormed()
    ensures WellFormed(PeopleSchema)
  {
  }

  // Facts about the fixture, one per lemma, that the tests below are built from

  lemma QueryIsObject() ensures GetObjectType(PeopleSchema, "Query") == Some(QueryType) {}
  lemma PersonIsObject() ensures GetObjectType(PeopleSchema, "Person") == Some(PersonType) {}
  lemma AddressIsObject() ensures GetObjectType(PeopleSchema, "Address") == Some(AddressType) {}

  lemma NobodyIsNotAType() ensures GetObjectType(PeopleSchema, "Nobody") == None {}
  lemma StringIsNotAnObject() ensures GetObjectType(PeopleSchema, "String") == None {}

  lemma QueryHasPeople() ensures FindField(QueryType.fields, "people") == Some(PeopleField) {}
  lemma PersonHasName() ensures FindField(PersonType.fields, "name") == Some(NameField) {}
  lemma PersonHasAddress() ensures FindField(PersonType.fields, "address") == Some(AddressField) {}
  lemma PersonHasSocialSecurityNumber()
    ensures FindField(PersonType.fields, "socialSecurityNumber") == Some(SocialSecurityNumberField) {}
  lemma PersonHasFriends() ensures FindField(PersonType.fields, "friends") == Some(FriendsField) {}
  lemma PersonLacksDoesNotExist() ensures FindField(PersonType.fields, "doesNotExist") == None {}
  lemma AddressHasCity() ensures FindField(AddressType.fields, "city") == Some(CityField) {}
  lemma AddressLacksZip() ensures FindField(AddressType.fields, "zip") == None {}

  lemma SplitTwo(a: string, b: string)
    requires '.' !in a && '.' !in b
    ensures Split(a + "." + b, '.') == [a, b]
  {
    SplitWithoutSeparator(b, '.');
    SplitAtFirstSeparator(a, b, '.');
    assert a + "." + b == a + ['.'] + b;
  }

  lemma DotsAssociate(a: string, b: string, c: string)
    ensures a + "." + b + "." + c == a + ['.'] + (b + "." + c)
  {
  }

  lemma SplitThree(a: string, b: string, c: string)
    requires '.' !in a && '.' !in b && '.' !in c
    ensures Split(a + "." + b + "." + c, '.') == [a, b, c]
  {
    var bc := b + "." + c;
    DotsAssociate(a, b, c);
    SplitTwo(b, c);
    SplitAtFirstSeparator(a, bc, '.');
    assert [a] + [b, c] == [a, b, c];
  }

  lemma SplitPersonName()
    ensures Split("Person.name", '.') == ["Person", "name"]
  {
    assert "Person" + "." + "name" == "Person.name";
    SplitTwo("Person", "name");
  }

  lemma SplitPersonAddressCity()
    ensures Split("Person.address.city", '.') == ["Person", "address", "city"]
  {
    assert "Person" + "." + "address" + "." + "city" == "Person.address.city";
    SplitThree("Person", "address", "city");
  }

  lemma SplitQueryPeople()
    ensures Split("Query.people", '.') == ["Query", "people"]
  {
    assert "Query" + "." + "people" == "Query.people";
    SplitTwo("Query", "people");
  }

  lemma SplitPersonSocialSecurityNumber()
    ensures Split("Person.socialSecurityNumber", '.') == ["Person", "socialSecurityNumber"]
  {
    assert "Person" + "." + "socialSecurityNumber" == "Person.socialSecurityNumber";
    SplitTwo("Person", "socialSecurityNumber");
  }

  lemma SplitPersonFriends()
    ensures Split("Person.friends", '.') == ["Person", "friends"]
  {
    assert "Person" + "." + "friends" == "Person.friends";
    SplitTwo("Person", "friends");
  }

  lemma SplitAddressCity()
    ensures Split("Address.city", '.') == ["Address", "city"]
  {
    assert "Address" + "." + "city" == "Address.city";
    SplitTwo("Address", "city");
  }

  lemma SplitPersonDoesNotExist()
    ensures Split("Person.doesNotExist", '.') == ["Person", "doesNotExist"]
  {
    assert "Person" + "." + "doesNotExist" == "Person.doesNotExist";
    SplitTwo("Person", "doesNotExist");
  }

  lemma SplitPersonAddressZip()
    ensures Split("Person.address.zip", '.') == ["Person", "address", "zip"]
  {
    assert "Person" + "." + "address" + "." + "zip" == "Person.address.zip";
    SplitThree("Person", "address", "zip");
  }

  lemma SplitQueryPeopleName()
    ensures Split("Query.people.name", '.') == ["Query", "people", "name"]
  {
    assert "Query" + "." + "people" + "." + "name" == "Query.people.name";
    SplitThree("Query", "people", "name");
  }

  /** From the cursor at the type `t`, the segments `f.g` for a field `f` whose type is
      the bare object type `o` with a field `g`. */
  lemma TwoFieldsFromType(schema: Schema, t: ObjectType, f: Field, o: ObjectType, g: Field)
    requires FindField(t.fields, f.name) == Some(f)
    requires f.typeRef == Named(o.name) && GetObjectType(schema, o.name) == Some(o)
    requires FindField(o.fields, g.name) == Some(g)
    ensures Resolve(schema, [Root, TypeAt(t)], [f.name, g.name])
         == Success([Root, TypeAt(t), FieldAt(f), FieldAt(g)])
  {
    assert [f.name, g.name][1..] == [g.name] && [g.name][1..] == [];
    assert BareObject(schema, Last([FieldAt(f)])) == Some(o);
    assert [FieldAt(f)] + [FieldAt(g)] == [FieldAt(f), FieldAt(g)];
    assert FollowPath(schema, [FieldAt(f), FieldAt(g)], []) == Success([FieldAt(f), FieldAt(g)]);
    assert [Root, TypeAt(t)] + [FieldAt(f), FieldAt(g)] == [Root, TypeAt(t), FieldAt(f), FieldAt(g)];
  }

  // test/path.test.ts

  lemma PathToQuery()
    ensures Resolve(PeopleSchema, [Root], Split("Query", '.')) == Success([Root, TypeAt(QueryType)])
    ensures Name(TypeAt(QueryType)) == "Query" && Type(TypeAt(QueryType)) == Some("Query")
    ensures Arguments(TypeAt(QueryType)) == None
  {
    QueryIsObject();
    PathFromRootThenType(PeopleSchema, "Query", "");
  }

  /** `path('Person')` ends at the Person type. */
  lemma PathToPerson()
    ensures Resolve(PeopleSchema, [Root], Split("Person", '.')) == Success([Root, TypeAt(PersonType)])
  {
    PersonIsObject();
    PathFromRootThenType(PeopleSchema, "Person", "");
  }

  lemma ResolvePersonName()
    ensures Resolve(PeopleSchema, [Root], ["Person", "name"])
         == Success([Root, TypeAt(PersonType), FieldAt(NameField)])
  {
    PersonIsObject();
    PersonHasName();
    PathToTypeField(PeopleSchema, "Person", "name");
  }

  lemma PathToPersonName()
    ensures Resolve(PeopleSchema, [Root], Split("Person.name", '.'))
         == Success([Root, TypeAt(PersonType), FieldAt(NameField)])
  {
    SplitPersonName();
    ResolvePersonName();
  }

  lemma PersonNameGetters()
    ensures Name(FieldAt(NameField)) == "name" && Type(FieldAt(NameField)) == Some("String")
    ensures !IsNonNull(FieldAt(NameField)) && !IsList(FieldAt(NameField)) && IsField(FieldAt(NameField))
  {
  }

  lemma ResolvePersonAddressCity()
    ensures Resolve(PeopleSchema, [Root], ["Person", "address", "city"])
         == Success([Root, TypeAt(PersonType), FieldAt(AddressField), FieldAt(CityField)])
  {
    PersonIsObject();
    PersonHasAddress();
    AddressIsObject();
    AddressHasCity();
    PathFromRootIsTypeThenRest(PeopleSchema, ["Person", "address", "city"]);
    assert ["Person", "address", "city"][1..] == ["address", "city"];
    TwoFieldsFromType(PeopleSchema, PersonType, AddressField, AddressType, CityField);
  }

  lemma CityGetters()
    ensures Name(FieldAt(CityField)) == "city" && RefName(CityField.typeRef) == Some("String")
  {
  }

  /** `Person.address.city` walks on through the object-typed field `address`. */
  lemma PathToCity()
    ensures Resolve(PeopleSchema, [Root], Split("Person.address.city", '.'))
         == Success([Root, TypeAt(PersonType), FieldAt(AddressField), FieldAt(CityField)])
  {
    SplitPersonAddressCity();
    ResolvePersonAddressCity();
  }

  lemma ResolveQueryPeople()
    ensures Resolve(PeopleSchema, [Root], ["Query", "people"])
         == Success([Root, TypeAt(QueryType), FieldAt(PeopleField)])
  {
    QueryIsObject();
    QueryHasPeople();
    PathToTypeField(PeopleSchema, "Query", "people");
  }

  /** `Query.people` ends at the field. Its declared type `[Person]` is a list, which has
      no `name` of its own, while the `type` getter gives 'Person'. */
  lemma PathToPeople()
    ensures Resolve(PeopleSchema, [Root], Split("Query.people", '.'))
         == Success([Root, TypeAt(QueryType), FieldAt(PeopleField)])
  {
    SplitQueryPeople();
    ResolveQueryPeople();
  }

  lemma PeopleGetters()
    ensures Name(FieldAt(PeopleField)) == "people"
    ensures RefName(PeopleField.typeRef) == None && Type(FieldAt(PeopleField)) == Some("Person")
  {
  }

  // test/type.test.ts, test/is-non-null.test.ts, test/is-list.test.ts

  lemma ResolvePersonSocialSecurityNumber()
    ensures Resolve(PeopleSchema, [Root], ["Person", "socialSecurityNumber"])
         == Success([Root, TypeAt(PersonType), FieldAt(SocialSecurityNumberField)])
  {
    PersonIsObject();
    PersonHasSocialSecurityNumber();
    PathToTypeField(PeopleSchema, "Person", "socialSecurityNumber");
  }

  lemma PathToSocialSecurityNumber()
    ensures Resolve(PeopleSchema, [Root], Split("Person.socialSecurityNumber", '.'))
         == Success([Root, TypeAt(PersonType), FieldAt(SocialSecurityNumberField)])
  {
    SplitPersonSocialSecurityNumber();
    ResolvePersonSocialSecurityNumber();
  }

  lemma SocialSecurityNumberGetters()
    ensures Type(FieldAt(SocialSecurityNumberField)) == Some("String")
    ensures IsNonNull(FieldAt(SocialSecurityNumberField)) && !IsList(FieldAt(SocialSecurityNumberField))
  {
  }

  lemma ResolvePersonFriends()
    ensures Resolve(PeopleSchema, [Root], ["Person", "friends"])
         == Success([Root, TypeAt(PersonType), FieldAt(FriendsField)])
  {
    PersonIsObject();
    PersonHasFriends();
    PathToTypeField(PeopleSchema, "Person", "friends");
  }

  lemma PathToFriends()
    ensures Resolve(PeopleSchema, [Root], Split("Person.friends", '.'))
         == Success([Root, TypeAt(PersonType), FieldAt(FriendsField)])
  {
    SplitPersonFriends();
    ResolvePersonFriends();
  }

  lemma FriendsGetters()
    ensures Type(FieldAt(FriendsField)) == Some("Person")
    ensures IsList(FieldAt(FriendsField)) && !IsNonNull(FieldAt(FriendsField))
    ensures !IsNonNull(TypeAt(PersonType)) && !IsList(TypeAt(PersonType))
  {
  }

  // test/is-field.test.ts, test/arguments.test.ts

  lemma PathToAddressCity()
    ensures Resolve(PeopleSchema, [Root], Split("Address.city", '.'))
         == Success([Root, TypeAt(AddressType), FieldAt(CityField)])
    ensures !IsField(TypeAt(AddressType)) && IsField(FieldAt(CityField))
    ensures Arguments(FieldAt(CityField)) == Some([])
  {
    SplitAddressCity();
    AddressIsObject();
    AddressHasCity();
    PathToTypeField(PeopleSchema, "Address", "city");
  }

  /** `path('Address')` ends at the Address type, which is not a field. */
  lemma PathToAddress()
    ensures Resolve(PeopleSchema, [Root], Split("Address", '.')) == Success([Root, TypeAt(AddressType)])
    ensures !IsField(TypeAt(AddressType))
  {
    AddressIsObject();
    PathFromRootThenType(PeopleSchema, "Address", "");
  }

  lemma PeopleArguments()
    ensures var args := Arguments(FieldAt(PeopleField));
      && args.Some? && |args.value| == 1
      && args.value[0].name == "pageCount"
      && RefName(args.value[0].typeRef) == Some("Int")
      && args.value[0].defaultValue == Some(IntValue(10))
      && args.value[0].description == Some(PageCountDescription)
  {
  }

  // Edge cases that follow from the code

  /** A second segment that is not a field of the type is not an error: the path stops
      at the type. */
  lemma PathPastMissingField()
    ensures Resolve(PeopleSchema, [Root], Split("Person.doesNotExist", '.'))
         == Success([Root, TypeAt(PersonType)])
  {
    SplitPersonDoesNotExist();
    PersonIsObject();
    PersonLacksDoesNotExist();
    PathFromRootIsTypeThenRest(PeopleSchema, ["Person", "doesNotExist"]);
    assert ["Person", "doesNotExist"][1..] == ["doesNotExist"];
    PathFromType(PeopleSchema, Root, PersonType, ["doesNotExist"]);
  }

  lemma ResolvePersonAddressZip()
    ensures Resolve(PeopleSchema, [Root], ["Person", "address", "zip"]) == Failure(CouldNotFind("zip"))
  {
    PersonIsObject();
    PersonHasAddress();
    AddressIsObject();
    AddressLacksZip();
    PathFromRootIsTypeThenRest(PeopleSchema, ["Person", "address", "zip"]);
    assert ["Person", "address", "zip"][1..] == ["address", "zip"];
    assert ["address", "zip"][1..] == ["zip"];
    assert BareObject(PeopleSchema, Last([FieldAt(AddressField)])) == Some(AddressType);
  }

  /** Deeper down, a missing field makes followPath throw. */
  lemma PathToMissingNestedField()
    ensures Resolve(PeopleSchema, [Root], Split("Person.address.zip", '.'))
         == Failure(CouldNotFind("zip"))
  {
    SplitPersonAddressZip();
    ResolvePersonAddressZip();
  }

  lemma ResolveQueryPeopleName()
    ensures Resolve(PeopleSchema, [Root], ["Query", "people", "name"])
         == Success([Root, TypeAt(QueryType), FieldAt(PeopleField)])
  {
    QueryIsObject();
    QueryHasPeople();
    PathFromRootIsTypeThenRest(PeopleSchema, ["Query", "people", "name"]);
    assert ["Query", "people", "name"][1..] == ["people", "name"];
    assert ["people", "name"][1..] == ["name"];
    assert BareObject(PeopleSchema, Last([FieldAt(PeopleField)])) == None;
    assert [Root, TypeAt(QueryType)] + [FieldAt(PeopleField)] == [Root, TypeAt(QueryType), FieldAt(PeopleField)];
  }

  /** followPath does not look through a list: `Query.people.name` stops at `people`. */
  lemma PathStopsAtList()
    ensures Resolve(PeopleSchema, [Root], Split("Query.people.name", '.'))
         == Success([Root, TypeAt(QueryType), FieldAt(PeopleField)])
  {
    SplitQueryPeopleName();
    ResolveQueryPeopleName();
  }

  /** An unknown first segment fails at the root. */
  lemma PathToUnknownType()
    ensures Resolve(PeopleSchema, [Root], Split("Nobody", '.')) == Failure(TypeNotFound("Nobody"))
  {
    SplitWithoutSeparator("Nobody", '.');
    NobodyIsNotAType();
    PathFromRootNeedsType(PeopleSchema, [Root], ["Nobody"]);
  }

  /** So does one naming a scalar type. */
  lemma PathToScalarType()
    ensures Resolve(PeopleSchema, [Root], Split("String", '.')) == Failure(TypeNotFound("String"))
  {
    SplitWithoutSeparator("String", '.');
    StringIsNotAnObject();
    PathFromRootNeedsType(PeopleSchema, [Root], ["String"]);
  }

  /** test/parent.test.ts: `parent` at the root is the cursor itself. */
  method ParentOfRoot() returns (l: Loupe, p: Loupe)
    ensures p == l && l.pathScope == [Root]
  {
    l := new Loupe(PeopleSchema);
    p := l.Parent();
  }

  /** test/parent.test.ts: from `Person.name` up to `Person`, and on up to the root. */
  method ParentOfField() returns (up: Loupe, top: Loupe)
    ensures up.pathScope == [TypeAt(PersonType)] && Name(up.Scope()) == "Person"
    ensures top.pathScope == [Root] && IsRoot(top.Scope())
  {
    var l := new Loupe(PeopleSchema);
    PathToPersonName();
    var r := l.Path("Person.name");
    assert r.Success?;
    assert r.value.pathScope == [Root, TypeAt(PersonType), FieldAt(NameField)];
    up, top := ParentsOfPersonName(r.value);
  }

  /** Going up twice from `Person.name`. `splice` leaves each cursor that `parent` is
      called on with only its last element. */
  method ParentsOfPersonName(named: Loupe) returns (up: Loupe, top: Loupe)
    requires named.pathScope == [Root, TypeAt(PersonType), FieldAt(NameField)]
    modifies named
    ensures named.pathScope == [FieldAt(NameField)]
    ensures up.pathScope == [TypeAt(PersonType)] && Name(up.Scope()) == "Person"
    ensures top.pathScope == [Root] && IsRoot(top.Scope())
  {
    up := named.Parent();
    assert up.pathScope == [Root, TypeAt(PersonType)];
    assert Name(up.Scope()) == "Person";
    top := up.Parent();
  }

  /** A second `path` from a field pushes that field again before walking on:
      `path('Person.address').path('city')` holds `address` twice. */
  lemma PathFromAddressRepeatsAddress()
    ensures Resolve(PeopleSchema, [Root, TypeAt(PersonType), FieldAt(AddressField)], ["city"])
         == Success([Root, TypeAt(PersonType), FieldAt(AddressField), FieldAt(AddressField), FieldAt(CityField)])
  {
    AddressIsObject();
    AddressHasCity();
    assert BareObject(PeopleSchema, Last([FieldAt(AddressField)])) == Some(AddressType);
    assert [FieldAt(AddressField)] + [FieldAt(CityField)] == [FieldAt(AddressField), FieldAt(CityField)];
    assert ["city"][1..] == [];
    var stack := [Root, TypeAt(PersonType), FieldAt(AddressField)];
    assert Last(stack) == FieldAt(AddressField);
    assert FollowPath(PeopleSchema, [FieldAt(AddressField)], ["city"])
        == Success([FieldAt(AddressField), FieldAt(CityField)]);
    assert stack + [FieldAt(AddressField), FieldAt(CityField)]
        == [Root, TypeAt(PersonType), FieldAt(AddressField), FieldAt(AddressField), FieldAt(CityField)];
  }
}
