/**
  The result-from-entity mapper generator as the source writes it: an object
  whose class builder and constructor builder it fills in place. The code
  containers (the `Map` method body, a foreach body, an if body) are passed
  down the recursive calls and come back extended; the constructor call's
  arguments travel with the method body. Each method is proved to append
  exactly what the matching function of MapperEmission describes.
 */
module MapperGenerator {
  import opened Options
  import opened MapperCode
  import opened MapperEmission
  import opened MapperProperties
  import opened Sequences

  class ResultFromEntityTypeMapperGenerator {
    /** The class builder: the class name and the interfaces it implements. */
    var className: string
    var implements: seq<FieldType>
    /** The constructor builder: the type it constructs and its fields. */
    var constructorTypeName: string
    var fields: seq<Field>
    /** The methods added to the class. */
    var methods: seq<MapMethod>

    constructor()
      ensures className == "" && implements == [] && constructorTypeName == ""
      ensures fields == [] && methods == []
    {
      className := "";
      implements := [];
      constructorTypeName := "";
      fields := [];
      methods := [];
    }

    /** Generates the mapper class for `root`: a named type, possibly
        non-null, whose properties become the arguments of one constructor
        call. */
    method WriteAsync(naming: Naming, root: TypeDescriptor) returns (error: Option<MapperError>)
      modifies this
      ensures RootType(root).None? ==> error == Some(ArgumentError) && unchanged(this)
      ensures WriteMapper(naming, root).Err? ==> error == Some(WriteMapper(naming, root).error)
      ensures WriteMapper(naming, root).Ok? ==> var unit := WriteMapper(naming, root).value;
        && error.None?
        && className == unit.className
        && implements == old(implements) + [unit.implements]
        && constructorTypeName == unit.constructorTypeName
        && fields == old(fields) + unit.fields
        && methods == old(methods) + [unit.mapMethod]
    {
      var named := RootType(root);
      if named.None? {
        return Some(ArgumentError);
      }
      var descriptor := named.value;

      var sourceType := SourceTypeName(naming, descriptor);
      implements := implements + [EntityMapper(sourceType, descriptor.name)];
      className :=
        if descriptor.kind == EntityType
        then naming.entityMapperName(descriptor.name, descriptor.graphQLTypeName)
        else naming.dataMapperName(descriptor.name, descriptor.graphQLTypeName);
      constructorTypeName := descriptor.name;
      fields := fields + [Field(EntityStore, StoreFieldName)];

      var mapped := MapProperties(naming, descriptor.properties);
      ghost var spec := MapperEmission.MapProperties(naming, descriptor.properties);
      if mapped.Err? {
        assert WriteMapper(naming, root) == Err(mapped.error);
        return Some(mapped.error);
      }
      var code, args := mapped.value.0, mapped.value.1;
      code := code + [Return(descriptor.name, args)];
      var mapMethod := MapMethod(descriptor.name, sourceType, EntityParamName, code);
      methods := methods + [mapMethod];
      error := None;
      AppendAssociates(old(fields), [Field(EntityStore, StoreFieldName)], spec.value.emission.fields);
      assert WriteMapper(naming, root) == Ok(MapperUnit(className, EntityMapper(sourceType, descriptor.name), descriptor.name,
                                                        [Field(EntityStore, StoreFieldName)] + spec.value.emission.fields,
                                                        mapMethod));
    }

    /** The loop of `WriteAsync` over the root's properties: a leaf passes
        the entity's member to the constructor, any other property goes
        through `TypeMapper`; the first failure aborts the loop. */
    method MapProperties(naming: Naming, ps: seq<Property>) returns (r: Result<(seq<Stmt>, seq<Expr>)>)
      modifies this`fields
      ensures var spec := MapperEmission.MapProperties(naming, ps);
        && (spec.Err? ==> r == Err(spec.error))
        && (spec.Ok? ==> r == Ok((spec.value.emission.stmts, spec.value.args))
                         && fields == old(fields) + spec.value.emission.fields)
    {
      var code: seq<Stmt> := [];
      var args: seq<Expr> := [];
      for i := 0 to |ps|
        invariant MapperEmission.MapProperties(naming, ps[..i]).Ok?
        invariant code == MapperEmission.MapProperties(naming, ps[..i]).value.emission.stmts
        invariant args == MapperEmission.MapProperties(naming, ps[..i]).value.args
        invariant fields == old(fields) + MapperEmission.MapProperties(naming, ps[..i]).value.emission.fields
      {
        MapPropertiesStep(naming, ps, i);
        ghost var done := MapperEmission.MapProperties(naming, ps[..i]).value;
        var p := ps[i];
        if naming.isLeafType(p.descriptor) {
          args := args + [Member(EntityParamName, p.name)];
          assert done.emission.stmts + [] == done.emission.stmts;
          assert done.emission.fields + [] == done.emission.fields;
        } else {
          var mapped := TypeMapper(naming, code, args, p, p.descriptor);
          if mapped.Err? {
            MapPropertiesKeepsFirstError(naming, ps, i + 1);
            assert ps[..|ps|] == ps;
            return Err(mapped.error);
          }
          code, args := mapped.value.0, mapped.value.1;
          ghost var spec := MapperEmission.TypeMapper(naming, p, p.descriptor);
          assert spec.Ok?;
          AppendAssociates(old(fields), done.emission.fields, spec.value.emission.fields);
        }
      }
      assert ps[..|ps|] == ps;
      r := Ok((code, args));
    }

    /** Maps one property that is not a leaf, appending its statements to
        `code` and its constructor argument to `args`. */
    method TypeMapper(naming: Naming, code: seq<Stmt>, args: seq<Expr>, p: Property, d: TypeDescriptor)
      returns (r: Result<(seq<Stmt>, seq<Expr>)>)
      modifies this`fields
      ensures MapperEmission.TypeMapper(naming, p, d).Err? ==> r == Err(MapperEmission.TypeMapper(naming, p, d).error)
      ensures MapperEmission.TypeMapper(naming, p, d).Ok? ==> var m := MapperEmission.TypeMapper(naming, p, d).value;
        && r == Ok((code + m.emission.stmts, args + [m.argument]))
        && fields == old(fields) + m.emission.fields
      decreases d
    {
      match d {
        case List(inner) =>
          var listVar := naming.withLowerFirstChar(p.name);
          var code' := code + [Assign(true, listVar, NewList(TypeName(p.descriptor)))];
          var loopItem := listVar + "Item";
          var item := MapTypeDescriptor(naming, [], MappedItemName, loopItem, inner);
          if item.Err? {
            return Err(item.error);
          }
          var body := item.value + [EmptyLine, Add(listVar, MappedItemName)];
          var loop := ForEach(loopItem, Member(EntityParamName, p.name), body);
          code' := code' + [loop, EmptyLine];
          ghost var spec := MapperEmission.MapTypeDescriptor(naming, MappedItemName, loopItem, inner).value;
          assert [] + spec.stmts == spec.stmts;
          assert code' == code + [Assign(true, listVar, NewList(TypeName(p.descriptor))), loop, EmptyLine];
          r := Ok((code', args + [Ident(listVar)]));
        case Named(n) =>
          var mappedType := naming.withLowerFirstChar(p.name);
          var mapped := MapTypeDescriptor(naming, code, mappedType, p.name, d);
          if mapped.Err? {
            return Err(mapped.error);
          }
          r := Ok((mapped.value, args + [Ident(mappedType)]));
        case NonNull(inner) =>
          r := TypeMapper(naming, code, args, p, inner);
        case Unrecognized =>
          r := Err(ArgumentOutOfRange);
      }
    }

    /** Appends to `code` the statements that map `mappingArgument` into
        `variableName` according to `d`. */
    method MapTypeDescriptor(naming: Naming, code: seq<Stmt>, variableName: string, mappingArgument: string, d: TypeDescriptor)
      returns (r: Result<seq<Stmt>>)
      modifies this`fields
      ensures var spec := MapperEmission.MapTypeDescriptor(naming, variableName, mappingArgument, d);
        && (spec.Err? ==> r == Err(spec.error) && old(fields) <= fields)
        && (spec.Ok? ==> r == Ok(code + spec.value.stmts) && fields == old(fields) + spec.value.fields)
      decreases d
    {
      match d {
        case List(inner) =>
          r := MapTypeDescriptor(naming, code, variableName, mappingArgument, inner);
        case NonNull(inner) =>
          r := MapTypeDescriptor(naming, code, variableName, mappingArgument, inner);
        case Named(n) =>
          match n.kind {
            case LeafType =>
              r := Err(ArgumentError);
            case DataType =>
              var dataMapperName := naming.dataMapperName(n.name, n.graphQLTypeName);
              var dataMapperType := EntityMapper(naming.dataTypeName(n.name), n.name);
              var dataMapperField := naming.toFieldName(dataMapperName);
              var call := MappingCall(dataMapperType, dataMapperName, dataMapperField, Member(EntityParamName, mappingArgument));
              var dataItemVariable := naming.withLowerFirstChar(mappingArgument);
              r := Ok(code + [Assign(true, dataItemVariable, call), EmptyLine]);
            case EntityType =>
              if n.isInterface {
                r := MapInterface(naming, code, variableName, mappingArgument, n);
              } else {
                var code' := MapConcreteType(naming, code, variableName, mappingArgument, n, true);
                r := Ok(code');
              }
            case UnknownKind =>
              r := Err(ArgumentOutOfRange);
          }
        case Unrecognized =>
          r := Err(ArgumentOutOfRange);
      }
    }

    /** Declares `variableName` and appends the if/else-if chain over the
        interface's implementors. */
    method MapInterface(naming: Naming, code: seq<Stmt>, variableName: string, mappingArgument: string, n: NamedType)
      returns (r: Result<seq<Stmt>>)
      modifies this`fields
      ensures var spec := InterfaceMapping(naming, variableName, mappingArgument, n);
        && (spec.Err? ==> r == Err(spec.error) && fields == old(fields))
        && (spec.Ok? ==> r == Ok(code + spec.value.stmts) && fields == old(fields) + spec.value.fields)
    {
      var code' := code + [DeclareDefault(n.name, variableName), EmptyLine];
      var impls := n.implementedBy;
      if |impls| == 0 {
        return Err(NoImplementor);
      }
      var first := ImplementorIf(naming, variableName, mappingArgument, impls[0]);
      var branches := [first];
      assert impls[..1] == [impls[0]];
      for i := 1 to |impls|
        invariant branches == ImplementorBranches(naming, variableName, mappingArgument, impls[..i])
        invariant fields == old(fields) + ImplementorFields(naming, variableName, mappingArgument, impls[..i])
      {
        var next := ImplementorIf(naming, variableName, mappingArgument, impls[i]);
        branches := branches + [next];
        ImplementorsStep(naming, variableName, mappingArgument, impls, i);
      }
      assert impls[..|impls|] == impls;
      var chain := IfChain(branches, [Throw(NotSupported)]);
      assert InterfaceMapping(naming, variableName, mappingArgument, n)
          == Ok(Emission([DeclareDefault(n.name, variableName), EmptyLine, chain],
                         ImplementorFields(naming, variableName, mappingArgument, impls)));
      assert code' + [chain] == code + [DeclareDefault(n.name, variableName), EmptyLine, chain];
      r := Ok(code' + [chain]);
    }

    /** One branch of the interface chain, mapping into the variable the
        chain's declaration introduced. */
    method ImplementorIf(naming: Naming, variableName: string, mappingArgument: string, impl: NamedType) returns (b: Branch)
      modifies this`fields
      ensures b == ImplementorBranch(naming, variableName, mappingArgument, impl)
      ensures fields == old(fields) + ConcreteMapping(naming, variableName, mappingArgument, impl, false).fields
    {
      var body := MapConcreteType(naming, [], variableName, mappingArgument, impl, false);
      b := Branch(mappingArgument, impl.graphQLTypeName, body);
    }

    /** Appends the assignment of the named type's entity mapper result. */
    method MapConcreteType(naming: Naming, code: seq<Stmt>, variableName: string, argumentName: string, n: NamedType, createNewVar: bool)
      returns (code': seq<Stmt>)
      modifies this`fields
      ensures var spec := ConcreteMapping(naming, variableName, argumentName, n, createNewVar);
        code' == code + spec.stmts && fields == old(fields) + spec.fields
    {
      var entityMapperName := naming.entityMapperName(n.name, n.graphQLTypeName);
      var entityMapperType := EntityMapper(naming.entityTypeName(n.name), n.name);
      var entityMapperField := naming.toFieldName(entityMapperName);
      var mappingArgument :=
        if n.kind == EntityType
        then GetEntity(naming.entityTypeName(n.graphQLTypeName), Ident(argumentName))
        else Ident(argumentName);
      var call := MappingCall(entityMapperType, entityMapperName, entityMapperField, mappingArgument);
      code' := code + [Assign(createNewVar, variableName, call), EmptyLine];
    }

    /** Registers the mapper as a constructor field and returns the call of
        its `Map` method. The set of registered names is created afresh on
        every call, so the field is registered every time. */
    method MappingCall(mapperType: FieldType, mapperName: string, mapperFieldName: string, mappingArgument: Expr)
      returns (call: Expr)
      modifies this`fields
      ensures fields == old(fields) + [Field(mapperType, mapperFieldName)]
      ensures call == MapCall(mapperFieldName, mappingArgument)
    {
      var mapperSet: set<string> := {};
      if mapperName !in mapperSet {
        mapperSet := mapperSet + {mapperName};
        fields := fields + [Field(mapperType, mapperFieldName)];
      }
      call := MapCall(mapperFieldName, mappingArgument);
    }
  }
}
