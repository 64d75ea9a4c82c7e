/**
  Properties of the code the result-from-entity mapper generator emits:
  wrappers it sees through, the shape of list loops and interface chains,
  which branch an interface chain runs, and how constructor fields follow
  the mapper calls in the emitted code.
 */
module MapperProperties {
  import opened Options
  import opened MapperCode
  import opened MapperEmission

  // ---------------------------------------------------------------------
  // Wrappers
  // ---------------------------------------------------------------------

  /** `TypeMapper` emits nothing for a NonNull wrapper: it maps the wrapped
      type for the same property. */
  lemma {:induction false} TypeMapperSeesThroughNonNull(naming: Naming, p: Property, d: TypeDescriptor)
    ensures TypeMapper(naming, p, d) == TypeMapper(naming, p, StripNonNull(d))
    decreases d
  {
    if d.NonNull? {
      TypeMapperSeesThroughNonNull(naming, p, d.inner);
    }
  }

  /** `MapTypeDescriptor` emits nothing for List and NonNull wrappers, however
      deeply nested: it maps the named type inside them. */
  lemma {:induction false} MapTypeDescriptorSeesThroughWrappers(naming: Naming, variableName: string, mappingArgument: string, d: TypeDescriptor)
    ensures MapTypeDescriptor(naming, variableName, mappingArgument, d) == MapTypeDescriptor(naming, variableName, mappingArgument, Core(d))
    decreases d
  {
    match d
    case List(inner) => MapTypeDescriptorSeesThroughWrappers(naming, variableName, mappingArgument, inner);
    case NonNull(inner) => MapTypeDescriptorSeesThroughWrappers(naming, variableName, mappingArgument, inner);
    case _ =>
  }

  /** The errors of `MapTypeDescriptor`: a leaf inside the wrappers is an
      argument error, an unrecognised descriptor or kind is out of range, an
      interface without implementors fails at its first implementor, and
      everything else succeeds. */
  lemma MapTypeDescriptorErrors(naming: Naming, variableName: string, mappingArgument: string, d: TypeDescriptor)
    ensures var r := MapTypeDescriptor(naming, variableName, mappingArgument, d);
      && (Core(d).Named? && Core(d).named.kind == LeafType ==> r == Err(ArgumentError))
      && (Core(d).Unrecognized? ==> r == Err(ArgumentOutOfRange))
      && (Core(d).Named? && Core(d).named.kind == UnknownKind ==> r == Err(ArgumentOutOfRange))
      && ((Core(d).Named? && Core(d).named.kind == EntityType && Core(d).named.isInterface
           && Core(d).named.implementedBy == []) ==> r == Err(NoImplementor))
      && (r.Err? <==> (|| Core(d).Unrecognized?
                       || Core(d).named.kind in {LeafType, UnknownKind}
                       || (Core(d).named.kind == EntityType && Core(d).named.isInterface && Core(d).named.implementedBy == [])))
  {
    MapTypeDescriptorSeesThroughWrappers(naming, variableName, mappingArgument, d);
  }

  // ---------------------------------------------------------------------
  // Properties of each shape
  // ---------------------------------------------------------------------

  /** A leaf property, possibly non-null, emits no statement and registers no
      field; its constructor argument is the entity's member itself. */
  lemma {:induction false} LeafPropertiesEmitNothing(naming: Naming, ps: seq<Property>)
    requires forall i :: 0 <= i < |ps| ==> naming.isLeafType(ps[i].descriptor)
    ensures var r := MapProperties(naming, ps);
      && r.Ok?
      && r.value.emission == Emission([], [])
      && forall i :: 0 <= i < |ps| ==> r.value.args[i] == Member(EntityParamName, ps[i].name)
    decreases |ps|
  {
    if ps != [] {
      LeafPropertiesEmitNothing(naming, ps[..|ps| - 1]);
    }
  }

  /** A named, non-leaf property is mapped into the variable named after the
      property, reading the member named after the property. */
  lemma NamedProperty(naming: Naming, p: Property, n: NamedType)
    requires StripNonNull(p.descriptor) == Named(n) && !naming.isLeafType(p.descriptor)
    ensures var x := naming.withLowerFirstChar(p.name);
      var named := MapTypeDescriptor(naming, x, p.name, Named(n));
      && (MapProperty(naming, p).Ok? <==> named.Ok?)
      && (named.Ok? ==> MapProperty(naming, p) == Ok(PropertyMapping(named.value, Ident(x))))
  {
    TypeMapperSeesThroughNonNull(naming, p, p.descriptor);
  }

  /** Where a named property's value is read from: a data type reads the
      entity's member `entity.<Name>`, while an entity looks up the bare
      `<Name>` in the entity store, and an interface tests the runtime type
      name of the bare `<Name>` in every branch of its chain. */
  lemma NamedPropertyReads(naming: Naming, p: Property, n: NamedType)
    requires StripNonNull(p.descriptor) == Named(n) && !naming.isLeafType(p.descriptor)
    ensures var r := MapProperty(naming, p);
      && (n.kind == DataType ==>
            && r.Ok? && |r.value.emission.stmts| > 0
            && r.value.emission.stmts[0].Assign? && r.value.emission.stmts[0].value.MapCall?
            && r.value.emission.stmts[0].value.arg == Member(EntityParamName, p.name))
      && (n.kind == EntityType && !n.isInterface ==>
            && r.Ok? && |r.value.emission.stmts| > 0
            && r.value.emission.stmts[0].Assign? && r.value.emission.stmts[0].value.MapCall?
            && r.value.emission.stmts[0].value.arg == GetEntity(naming.entityTypeName(n.graphQLTypeName), Ident(p.name)))
      && (n.kind == EntityType && n.isInterface && n.implementedBy != [] ==>
            && r.Ok? && |r.value.emission.stmts| > 2 && r.value.emission.stmts[2].IfChain?
            && forall b :: b in r.value.emission.stmts[2].branches ==> b.subject == p.name)
  {
    NamedProperty(naming, p, n);
  }

  /** A list property, possibly non-null, declares a new list named after the
      property, loops over the entity's member with a loop variable named
      after the list, ends the loop body by adding `mappedItem` to the list,
      and passes the list to the constructor. */
  lemma ListProperty(naming: Naming, p: Property, inner: TypeDescriptor)
    requires StripNonNull(p.descriptor) == List(inner) && !naming.isLeafType(p.descriptor)
    ensures var x := naming.withLowerFirstChar(p.name);
      var item := MapTypeDescriptor(naming, MappedItemName, x + "Item", inner);
      var r := MapProperty(naming, p);
      && (r.Ok? <==> item.Ok?)
      && (r.Ok? ==>
            && r.value.argument == Ident(x)
            && r.value.emission.fields == item.value.fields
            && |r.value.emission.stmts| == 3
            && r.value.emission.stmts[0] == Assign(true, x, NewList(TypeName(p.descriptor)))
            && r.value.emission.stmts[1] == ForEach(x + "Item", Member(EntityParamName, p.name),
                                                   item.value.stmts + [EmptyLine, Add(x, MappedItemName)])
            && r.value.emission.stmts[2] == EmptyLine)
  {
    TypeMapperSeesThroughNonNull(naming, p, p.descriptor);
  }

  /** As written, a list of data-kind items maps each item into a variable
      named after the loop variable and reads it as a member of the entity,
      while the loop body adds `mappedItem`, a name that only the entity
      branches declare. */
  lemma DataListItem(naming: Naming, p: Property, n: NamedType)
    requires StripNonNull(p.descriptor) == List(Named(n)) && n.kind == DataType && !naming.isLeafType(p.descriptor)
    ensures var x := naming.withLowerFirstChar(p.name);
      var r := MapProperty(naming, p);
      && r.Ok?
      && |r.value.emission.stmts| == 3
      && r.value.emission.stmts[1].ForEach?
      && var body := r.value.emission.stmts[1].body;
      && |body| == 4
      && body[0].Assign? && body[0].declares
      && body[0].target == naming.withLowerFirstChar(x + "Item")
      && body[0].value.MapCall? && body[0].value.arg == Member(EntityParamName, x + "Item")
      && body[3] == Add(x, MappedItemName)
  {
    ListProperty(naming, p, Named(n));
  }

  /** A list of entities maps each item into a new `mappedItem` variable,
      the one the loop body adds to the list. */
  lemma EntityListItem(naming: Naming, p: Property, n: NamedType)
    requires StripNonNull(p.descriptor) == List(Named(n)) && n.kind == EntityType && !n.isInterface
    requires !naming.isLeafType(p.descriptor)
    ensures var x := naming.withLowerFirstChar(p.name);
      var r := MapProperty(naming, p);
      && r.Ok?
      && |r.value.emission.stmts| == 3
      && r.value.emission.stmts[1].ForEach?
      && var body := r.value.emission.stmts[1].body;
      && |body| == 4
      && body[0].Assign? && body[0].declares && body[0].target == MappedItemName
      && body[0].value.MapCall?
      && body[0].value.arg == GetEntity(naming.entityTypeName(n.graphQLTypeName), Ident(x + "Item"))
      && body[3] == Add(x, MappedItemName)
  {
    ListProperty(naming, p, Named(n));
  }

  /** A list of leaves is passed through as `entity.<Name>` when the leaf
      test accepts the list; otherwise `MapTypeDescriptor` reaches the leaf
      inside the list and generation fails with an argument error. */
  lemma ListOfLeaves(naming: Naming, p: Property, n: NamedType)
    requires StripNonNull(p.descriptor) == List(Named(n)) && n.kind == LeafType
    ensures naming.isLeafType(p.descriptor) ==>
      MapProperty(naming, p) == Ok(PropertyMapping(Emission([], []), Member(EntityParamName, p.name)))
    ensures !naming.isLeafType(p.descriptor) ==> MapProperty(naming, p) == Err(ArgumentError)
  {
    TypeMapperSeesThroughNonNull(naming, p, p.descriptor);
  }

  // ---------------------------------------------------------------------
  // Interface dispatch
  // ---------------------------------------------------------------------

  /** The interface chain runs the branch of the first implementor whose
      GraphQL type name equals the runtime type name, compared as equal
      strings; that branch assigns the variable declared before the chain
      through the implementor's own mapper. A runtime type name that no
      implementor has reaches the final `throw`. */
  lemma {:induction false} InterfaceDispatch(naming: Naming, variableName: string, mappingArgument: string, n: NamedType, tag: string)
    requires n.kind == EntityType && n.isInterface && n.implementedBy != []
    ensures var r := MapTypeDescriptor(naming, variableName, mappingArgument, Named(n));
      && r.Ok? && r.value.stmts[2].IfChain?
      && var run := Dispatch(r.value.stmts[2].branches, r.value.stmts[2].otherwise, tag);
      && ((forall j :: 0 <= j < |n.implementedBy| ==> n.implementedBy[j].graphQLTypeName != tag)
          ==> run == [Throw(NotSupported)])
      && (forall i ::
            (&& 0 <= i < |n.implementedBy| && n.implementedBy[i].graphQLTypeName == tag
             && (forall j :: 0 <= j < i ==> n.implementedBy[j].graphQLTypeName != tag))
            ==> run == ConcreteMapping(naming, variableName, mappingArgument, n.implementedBy[i], false).stmts)
  {
    var r := InterfaceMapping(naming, variableName, mappingArgument, n);
    assert MapTypeDescriptor(naming, variableName, mappingArgument, Named(n)) == r;
    var chain := r.value.stmts[2];
    var impls := n.implementedBy;
    forall i | (&& 0 <= i < |impls| && impls[i].graphQLTypeName == tag
                && (forall j :: 0 <= j < i ==> impls[j].graphQLTypeName != tag))
      ensures Dispatch(chain.branches, chain.otherwise, tag)
           == ConcreteMapping(naming, variableName, mappingArgument, impls[i], false).stmts
    {
      DispatchTakesFirstMatch(chain.branches, chain.otherwise, tag, i);
    }
  }

  /** An if/else-if chain runs the first branch whose type name matches. */
  lemma DispatchTakesFirstMatch(branches: seq<Branch>, otherwise: seq<Stmt>, tag: string, i: nat)
    requires i < |branches| && branches[i].typeName == tag
    requires forall j :: 0 <= j < i ==> branches[j].typeName != tag
    ensures Dispatch(branches, otherwise, tag) == branches[i].body
  {
  }

  // ---------------------------------------------------------------------
  // Constructor fields follow the mapper calls
  // ---------------------------------------------------------------------

  lemma {:induction false} CalledMappersAppend(a: seq<Stmt>, b: seq<Stmt>)
    ensures CalledMappers(a + b) == CalledMappers(a) + CalledMappers(b)
    decreases |a|
  {
    if a == [] {
      assert a + b == b;
    } else {
      assert (a + b)[1..] == a[1..] + b;
      CalledMappersAppend(a[1..], b);
    }
  }

  lemma {:induction false} ImplementorBranchesCallTheirFields(naming: Naming, variableName: string, mappingArgument: string, impls: seq<NamedType>)
    ensures BranchMappers(ImplementorBranches(naming, variableName, mappingArgument, impls))
         == FieldNames(ImplementorFields(naming, variableName, mappingArgument, impls))
    decreases |impls|
  {
    if impls != [] {
      var bs := ImplementorBranches(naming, variableName, mappingArgument, impls);
      var fs := ImplementorFields(naming, variableName, mappingArgument, impls);
      assert bs[1..] == ImplementorBranches(naming, variableName, mappingArgument, impls[1..]);
      assert fs[1..] == ImplementorFields(naming, variableName, mappingArgument, impls[1..]);
      ImplementorBranchesCallTheirFields(naming, variableName, mappingArgument, impls[1..]);
      var c := ConcreteMapping(naming, variableName, mappingArgument, impls[0], false);
      assert CalledMappers(c.stmts[1..]) == [];
      assert CalledMappers(bs[0].body) == [fs[0].name];
    }
  }

  /** Every mapper call `MapTypeDescriptor` emits registers exactly one
      constructor field, for the mapper it calls, in the order of the calls:
      the fields are not de-duplicated. */
  lemma {:induction false} MapTypeDescriptorFieldsFollowCalls(naming: Naming, variableName: string, mappingArgument: string, d: TypeDescriptor)
    ensures var r := MapTypeDescriptor(naming, variableName, mappingArgument, d);
      r.Ok? ==> FieldNames(r.value.fields) == CalledMappers(r.value.stmts)
    decreases d
  {
    match d
    case List(inner) => MapTypeDescriptorFieldsFollowCalls(naming, variableName, mappingArgument, inner);
    case NonNull(inner) => MapTypeDescriptorFieldsFollowCalls(naming, variableName, mappingArgument, inner);
    case Named(n) =>
      var r := MapTypeDescriptor(naming, variableName, mappingArgument, d);
      if r.Ok? {
        var stmts := r.value.stmts;
        assert CalledMappers(stmts) == StmtMappers(stmts[0]) + CalledMappers(stmts[1..]);
        if n.kind == EntityType && n.isInterface {
          var impls := n.implementedBy;
          ImplementorBranchesCallTheirFields(naming, variableName, mappingArgument, impls);
          assert CalledMappers([Throw(NotSupported)]) == [];
          assert StmtMappers(stmts[2]) == FieldNames(r.value.fields);
          assert CalledMappers(stmts[1..]) == StmtMappers(stmts[2]) + CalledMappers(stmts[3..]);
        } else {
          assert CalledMappers(stmts[1..]) == [];
        }
      }
    case Unrecognized =>
  }

  lemma {:induction false} TypeMapperFieldsFollowCalls(naming: Naming, p: Property, d: TypeDescriptor)
    ensures var r := TypeMapper(naming, p, d);
      r.Ok? ==> FieldNames(r.value.emission.fields) == CalledMappers(r.value.emission.stmts)
    decreases d
  {
    match d
    case List(inner) =>
      var x := naming.withLowerFirstChar(p.name);
      var item := MapTypeDescriptor(naming, MappedItemName, x + "Item", inner);
      if item.Ok? {
        var tail := [EmptyLine, Add(x, MappedItemName)];
        var loop := ForEach(x + "Item", Member(EntityParamName, p.name), item.value.stmts + tail);
        var stmts := [Assign(true, x, NewList(TypeName(p.descriptor))), loop, EmptyLine];
        assert TypeMapper(naming, p, d) == Ok(PropertyMapping(Emission(stmts, item.value.fields), Ident(x)));
        MapTypeDescriptorFieldsFollowCalls(naming, MappedItemName, x + "Item", inner);
        CalledMappersAppend(item.value.stmts, tail);
        assert CalledMappers(tail[1..]) == [];
        assert CalledMappers(tail) == [];
        assert CalledMappers(stmts[2..]) == [];
        assert CalledMappers(stmts[1..]) == StmtMappers(loop) + CalledMappers(stmts[2..]);
      }
    case Named(_) => MapTypeDescriptorFieldsFollowCalls(naming, naming.withLowerFirstChar(p.name), p.name, d);
    case NonNull(inner) => TypeMapperFieldsFollowCalls(naming, p, inner);
    case Unrecognized =>
  }

  /** Emissions written one after the other keep their fields in step with
      their calls. */
  lemma EmissionsConcatenate(a: Emission, b: Emission)
    requires FieldNames(a.fields) == CalledMappers(a.stmts)
    requires FieldNames(b.fields) == CalledMappers(b.stmts)
    ensures FieldNames(a.fields + b.fields) == CalledMappers(a.stmts + b.stmts)
  {
    CalledMappersAppend(a.stmts, b.stmts);
    FieldNamesAppend(a.fields, b.fields);
  }

  lemma FieldNamesAppend(a: seq<Field>, b: seq<Field>)
    ensures FieldNames(a + b) == FieldNames(a) + FieldNames(b)
  {
    var l, r := FieldNames(a + b), FieldNames(a) + FieldNames(b);
    assert |l| == |r|;
    forall i | 0 <= i < |l| ensures l[i] == r[i] {
      if i < |a| {
        assert (a + b)[i] == a[i];
      } else {
        assert (a + b)[i] == b[i - |a|];
      }
    }
  }

  lemma MapPropertyFieldsFollowCalls(naming: Naming, p: Property)
    ensures var r := MapProperty(naming, p);
      r.Ok? ==> FieldNames(r.value.emission.fields) == CalledMappers(r.value.emission.stmts)
  {
    if !naming.isLeafType(p.descriptor) {
      TypeMapperFieldsFollowCalls(naming, p, p.descriptor);
    }
  }

  lemma {:induction false} MapPropertiesFieldsFollowCalls(naming: Naming, ps: seq<Property>)
    ensures var r := MapProperties(naming, ps);
      r.Ok? ==> FieldNames(r.value.emission.fields) == CalledMappers(r.value.emission.stmts)
    decreases |ps|
  {
    if ps != [] {
      var front := MapProperties(naming, ps[..|ps| - 1]);
      var last := MapProperty(naming, ps[|ps| - 1]);
      if front.Ok? && last.Ok? {
        MapPropertiesFieldsFollowCalls(naming, ps[..|ps| - 1]);
        MapPropertyFieldsFollowCalls(naming, ps[|ps| - 1]);
        EmissionsConcatenate(front.value.emission, last.value.emission);
      }
    }
  }

  /** One more iteration of the property loop. */
  lemma MapPropertiesStep(naming: Naming, ps: seq<Property>, i: nat)
    requires i < |ps| && MapProperties(naming, ps[..i]).Ok?
    ensures var done := MapProperties(naming, ps[..i]).value;
      MapProperties(naming, ps[..i + 1])
        == match MapProperty(naming, ps[i])
           case Err(e) => Err(e)
           case Ok(m) => Ok(PropertiesMapping(
             Emission(done.emission.stmts + m.emission.stmts, done.emission.fields + m.emission.fields),
             done.args + [m.argument]))
  {
    assert ps[..i + 1][..i] == ps[..i];
  }

  lemma ImplementorsStep(naming: Naming, variableName: string, mappingArgument: string, impls: seq<NamedType>, i: nat)
    requires i < |impls|
    ensures ImplementorBranches(naming, variableName, mappingArgument, impls[..i + 1])
         == ImplementorBranches(naming, variableName, mappingArgument, impls[..i])
            + [ImplementorBranch(naming, variableName, mappingArgument, impls[i])]
    ensures ImplementorFields(naming, variableName, mappingArgument, impls[..i + 1])
         == ImplementorFields(naming, variableName, mappingArgument, impls[..i])
            + ConcreteMapping(naming, variableName, mappingArgument, impls[i], false).fields
  {
  }

  /** When the property loop fails, it fails with the error of the first
      property that fails. */
  lemma {:induction false} MapPropertiesFailsAtFirstFailure(naming: Naming, ps: seq<Property>)
    ensures MapProperties(naming, ps).Err? ==>
      exists i :: (&& 0 <= i < |ps|
                   && MapProperty(naming, ps[i]) == Err(MapProperties(naming, ps).error)
                   && forall j :: 0 <= j < i ==> MapProperty(naming, ps[j]).Ok?)
    decreases |ps|
  {
    if ps != [] && MapProperties(naming, ps).Err? {
      var front := ps[..|ps| - 1];
      if MapProperties(naming, front).Err? {
        MapPropertiesFailsAtFirstFailure(naming, front);
        var i :| (&& 0 <= i < |front|
                  && MapProperty(naming, front[i]) == Err(MapProperties(naming, front).error)
                  && forall j :: 0 <= j < i ==> MapProperty(naming, front[j]).Ok?);
        assert ps[i] == front[i];
        assert forall j :: 0 <= j < i ==> ps[j] == front[j];
      } else {
        var i := |ps| - 1;
        MapPropertiesSucceedsIffEveryPropertyDoes(naming, front);
        assert forall j :: 0 <= j < i ==> ps[j] == front[j];
      }
    }
  }

  /** The property loop succeeds exactly when every property maps. */
  lemma {:induction false} MapPropertiesSucceedsIffEveryPropertyDoes(naming: Naming, ps: seq<Property>)
    ensures MapProperties(naming, ps).Ok? <==> forall i :: 0 <= i < |ps| ==> MapProperty(naming, ps[i]).Ok?
    decreases |ps|
  {
    if ps != [] {
      var front := ps[..|ps| - 1];
      MapPropertiesSucceedsIffEveryPropertyDoes(naming, front);
      assert forall i :: 0 <= i < |front| ==> ps[i] == front[i];
    }
  }

  /** The property loop stops at the first property that fails: once a
      prefix fails, every longer prefix fails with the same error. */
  lemma {:induction false} MapPropertiesKeepsFirstError(naming: Naming, ps: seq<Property>, i: nat)
    requires i <= |ps| && MapProperties(naming, ps[..i]).Err?
    ensures MapProperties(naming, ps) == MapProperties(naming, ps[..i])
    decreases |ps|
  {
    if i < |ps| {
      var front := ps[..|ps| - 1];
      assert front[..i] == ps[..i];
      MapPropertiesKeepsFirstError(naming, front, i);
    } else {
      assert ps[..i] == ps;
    }
  }

  /** The generated class's constructor fields are the entity store followed
      by one field per mapper call in its `Map` method, in the order of the
      calls; a mapper called twice is registered twice. */
  lemma GeneratedFieldsFollowCalls(naming: Naming, root: TypeDescriptor)
    ensures var r := WriteMapper(naming, root);
      r.Ok? ==> FieldNames(r.value.fields) == [StoreFieldName] + CalledMappers(r.value.mapMethod.body)
  {
    var r := WriteMapper(naming, root);
    if r.Ok? {
      var n := RootType(root).value;
      var pm := MapProperties(naming, n.properties).value;
      MapPropertiesFieldsFollowCalls(naming, n.properties);
      CalledMappersAppend(pm.emission.stmts, [Return(n.name, pm.args)]);
      assert CalledMappers([Return(n.name, pm.args)]) == [];
      assert FieldNames([Field(EntityStore, StoreFieldName)] + pm.emission.fields)
          == [StoreFieldName] + FieldNames(pm.emission.fields);
    }
  }

  /** Two properties of the same data type register the same data mapper
      field twice, next to the entity store. */
  lemma SameDataMapperRegisteredTwice(naming: Naming, name: string, graphQLName: string, first: string, second: string, item: NamedType)
    requires item.kind == DataType && !naming.isLeafType(Named(item))
    ensures var root := Named(NamedType(name, graphQLName, DataType, false, [], [Property(first, Named(item)), Property(second, Named(item))]));
      var r := WriteMapper(naming, root);
      && r.Ok?
      && |r.value.fields| == 3
      && r.value.fields[1] == r.value.fields[2]
      && r.value.fields[1].fieldType == EntityMapper(naming.dataTypeName(item.name), item.name)
  {
    var ps := [Property(first, Named(item)), Property(second, Named(item))];
    var data := DataMapping(naming, first, item);
    var data' := DataMapping(naming, second, item);
    assert ps[..1] == [ps[0]];
    assert ps[..1][..0] == [];
    assert MapProperty(naming, ps[0]).value.emission == data;
    assert MapProperty(naming, ps[1]).value.emission == data';
    assert MapProperties(naming, ps[..1][..0]) == Ok(PropertiesMapping(Emission([], []), []));
    assert MapProperties(naming, ps[..1]).value.emission.fields == data.fields;
    assert MapProperties(naming, ps).value.emission.fields == data.fields + data'.fields;
  }
}
