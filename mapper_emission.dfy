/**
  What the result-from-entity mapper generator emits, as functions of the
  descriptor it is given: the statements each step appends to the code
  container it writes into, the constructor fields it registers and the
  arguments it passes to the result's constructor. The generator class in
  MapperGenerator is proved to append exactly these; the lemmas here state
  what the emitted code means.
 */
module MapperEmission {
  import opened Options
  import opened MapperCode

  /** What one step appends: statements to the current code container and
      fields to the constructor, both in order. */
  datatype Emission = Emission(stmts: seq<Stmt>, fields: seq<Field>)

  /** What mapping one property contributes: its emission and its single
      constructor argument. */
  datatype PropertyMapping = PropertyMapping(emission: Emission, argument: Expr)

  /** What mapping all properties contributes: the emissions of the
      properties one after the other and the constructor arguments. */
  datatype PropertiesMapping = PropertiesMapping(emission: Emission, args: seq<Expr>)

  /** The generated mapper class: its name, the interface it implements, the
      type its constructor builds, its constructor-assigned fields and its
      `Map` method. */
  datatype MapperUnit = MapperUnit(
    className: string,
    implements: FieldType,
    constructorTypeName: string,
    fields: seq<Field>,
    mapMethod: MapMethod)

  // ---------------------------------------------------------------------
  // Reading the emitted code
  // ---------------------------------------------------------------------

  /** The mapper fields called by `stmts`, in the order the calls appear. */
  function CalledMappers(stmts: seq<Stmt>): seq<string>
    decreases stmts, 1
  {
    if stmts == [] then [] else StmtMappers(stmts[0]) + CalledMappers(stmts[1..])
  }

  function StmtMappers(s: Stmt): seq<string>
    decreases s, 0
  {
    match s
    case Assign(_, _, value) => if value.MapCall? then [value.mapperField] else []
    case ForEach(_, _, body) => CalledMappers(body)
    case IfChain(branches, otherwise) => BranchMappers(branches) + CalledMappers(otherwise)
    case _ => []
  }

  function BranchMappers(branches: seq<Branch>): seq<string>
    decreases branches
  {
    if branches == [] then []
    else CalledMappers(branches[0].body) + BranchMappers(branches[1..])
  }

  function FieldNames(fields: seq<Field>): (r: seq<string>)
    ensures |r| == |fields|
    ensures forall i :: 0 <= i < |fields| ==> r[i] == fields[i].name
  {
    if fields == [] then [] else [fields[0].name] + FieldNames(fields[1..])
  }

  /** The index of the first branch whose type name equals the runtime
      type name `tag`: the branch an if/else-if chain runs. */
  function SelectBranch(branches: seq<Branch>, tag: string): (r: Option<nat>)
    ensures r.Some? ==> r.value < |branches| && branches[r.value].typeName == tag
    ensures r.Some? ==> forall j :: 0 <= j < r.value ==> branches[j].typeName != tag
    ensures r.None? <==> forall j :: 0 <= j < |branches| ==> branches[j].typeName != tag
  {
    if branches == [] then None
    else if branches[0].typeName == tag then Some(0)
    else match SelectBranch(branches[1..], tag)
      case None => None
      case Some(i) => Some(i + 1)
  }

  /** The statements an if/else-if chain runs when its subject's runtime type
      name is `tag`. */
  function Dispatch(branches: seq<Branch>, otherwise: seq<Stmt>, tag: string): seq<Stmt>
  {
    match SelectBranch(branches, tag)
    case Some(i) => branches[i].body
    case None => otherwise
  }

  /** The descriptor with every List and NonNull wrapper removed. */
  function Core(d: TypeDescriptor): (r: TypeDescriptor)
    ensures !r.List? && !r.NonNull?
  {
    match d
    case List(inner) => Core(inner)
    case NonNull(inner) => Core(inner)
    case _ => d
  }

  // ---------------------------------------------------------------------
  // The emission functions, one per method of the generator
  // ---------------------------------------------------------------------

  /** `MapConcreteType`: assign the result of the named type's entity mapper
      to `variableName`, looking the argument up in the entity store first
      when the type is an entity. */
  function ConcreteMapping(naming: Naming, variableName: string, argumentName: string, n: NamedType, createNewVar: bool): (r: Emission)
    ensures |r.stmts| == 2 && r.stmts[0].Assign? && r.stmts[1] == EmptyLine
    ensures r.stmts[0].target == variableName && r.stmts[0].declares == createNewVar
    ensures r.stmts[0].value.MapCall?
    ensures r.stmts[0].value.arg.GetEntity? <==> n.kind == EntityType
    ensures r.stmts[0].value.arg == Ident(argumentName)
         || r.stmts[0].value.arg == GetEntity(naming.entityTypeName(n.graphQLTypeName), Ident(argumentName))
    ensures |r.fields| == 1 && r.fields[0].name == r.stmts[0].value.mapperField
    ensures r.fields[0].name == naming.toFieldName(naming.entityMapperName(n.name, n.graphQLTypeName))
  {
    var mapperName := naming.entityMapperName(n.name, n.graphQLTypeName);
    var mapperType := EntityMapper(naming.entityTypeName(n.name), n.name);
    var mapperField := naming.toFieldName(mapperName);
    var arg :=
      if n.kind == EntityType
      then GetEntity(naming.entityTypeName(n.graphQLTypeName), Ident(argumentName))
      else Ident(argumentName);
    Emission([Assign(createNewVar, variableName, MapCall(mapperField, arg)), EmptyLine],
             [Field(mapperType, mapperField)])
  }

  /** The data-kind case of `MapTypeDescriptor`: call the data mapper on
      `entity.<mappingArgument>` and assign the result to a new variable named
      after `mappingArgument` (not after the variable the caller asked for). */
  function DataMapping(naming: Naming, mappingArgument: string, n: NamedType): (r: Emission)
    ensures |r.stmts| == 2 && r.stmts[0].Assign? && r.stmts[1] == EmptyLine
    ensures r.stmts[0].declares && r.stmts[0].target == naming.withLowerFirstChar(mappingArgument)
    ensures r.stmts[0].value.MapCall? && r.stmts[0].value.arg == Member(EntityParamName, mappingArgument)
    ensures |r.fields| == 1 && r.fields[0].name == r.stmts[0].value.mapperField
    ensures r.fields[0].fieldType == EntityMapper(naming.dataTypeName(n.name), n.name)
  {
    var mapperName := naming.dataMapperName(n.name, n.graphQLTypeName);
    var mapperType := EntityMapper(naming.dataTypeName(n.name), n.name);
    var mapperField := naming.toFieldName(mapperName);
    Emission(
      [Assign(true, naming.withLowerFirstChar(mappingArgument), MapCall(mapperField, Member(EntityParamName, mappingArgument))),
       EmptyLine],
      [Field(mapperType, mapperField)])
  }

  /** One branch of the interface chain: test the runtime type name against
      the implementor's GraphQL name and map with the implementor's mapper,
      assigning the variable declared before the chain. */
  function ImplementorBranch(naming: Naming, variableName: string, mappingArgument: string, impl: NamedType): Branch
  {
    Branch(mappingArgument, impl.graphQLTypeName,
           ConcreteMapping(naming, variableName, mappingArgument, impl, false).stmts)
  }

  function ImplementorBranches(naming: Naming, variableName: string, mappingArgument: string, impls: seq<NamedType>): (r: seq<Branch>)
    ensures |r| == |impls|
    ensures forall i :: 0 <= i < |impls| ==> r[i] == ImplementorBranch(naming, variableName, mappingArgument, impls[i])
  {
    seq(|impls|, i requires 0 <= i < |impls| => ImplementorBranch(naming, variableName, mappingArgument, impls[i]))
  }

  function ImplementorFields(naming: Naming, variableName: string, mappingArgument: string, impls: seq<NamedType>): (r: seq<Field>)
    ensures |r| == |impls|
    ensures forall i :: 0 <= i < |impls| ==> r[i] == ConcreteMapping(naming, variableName, mappingArgument, impls[i], false).fields[0]
  {
    seq(|impls|, i requires 0 <= i < |impls| => ConcreteMapping(naming, variableName, mappingArgument, impls[i], false).fields[0])
  }

  /** `MapInterface`: declare the variable with its default value, then an
      if/else-if chain with one branch per implementor, in order, ending in
      a throw; an interface without implementors fails at `ImplementedBy[0]`. */
  function InterfaceMapping(naming: Naming, variableName: string, mappingArgument: string, n: NamedType): (r: Result<Emission>)
    ensures r.Err? <==> n.implementedBy == []
    ensures r.Err? ==> r.error == NoImplementor
    ensures r.Ok? ==> (
      && |r.value.stmts| == 3
      && r.value.stmts[0] == DeclareDefault(n.name, variableName)
      && r.value.stmts[1] == EmptyLine
      && r.value.stmts[2].IfChain?
      && r.value.stmts[2].otherwise == [Throw(NotSupported)])
    ensures r.Ok? ==> var branches := r.value.stmts[2].branches;
      |branches| == |n.implementedBy|
      && forall i :: 0 <= i < |branches| ==>
           branches[i].subject == mappingArgument
           && branches[i].typeName == n.implementedBy[i].graphQLTypeName
           && branches[i].body == ConcreteMapping(naming, variableName, mappingArgument, n.implementedBy[i], false).stmts
    ensures r.Ok? ==> |r.value.fields| == |n.implementedBy|
  {
    if n.implementedBy == [] then Err(NoImplementor)
    else
      var branches := ImplementorBranches(naming, variableName, mappingArgument, n.implementedBy);
      Ok(Emission(
        [DeclareDefault(n.name, variableName), EmptyLine, IfChain(branches, [Throw(NotSupported)])],
        ImplementorFields(naming, variableName, mappingArgument, n.implementedBy)))
  }

  /** `MapTypeDescriptor`: lists and non-null types are mapped as the type
      they wrap; a leaf is an argument error; a data type goes through its
      data mapper; an entity through the entity store, by interface dispatch
      when it is an interface. */
  function MapTypeDescriptor(naming: Naming, variableName: string, mappingArgument: string, d: TypeDescriptor): (r: Result<Emission>)
    decreases d
  {
    match d
    case List(inner) => MapTypeDescriptor(naming, variableName, mappingArgument, inner)
    case NonNull(inner) => MapTypeDescriptor(naming, variableName, mappingArgument, inner)
    case Named(n) =>
      (match n.kind
       case LeafType => Err(ArgumentError)
       case DataType => Ok(DataMapping(naming, mappingArgument, n))
       case EntityType =>
         if n.isInterface then InterfaceMapping(naming, variableName, mappingArgument, n)
         else Ok(ConcreteMapping(naming, variableName, mappingArgument, n, true))
       case UnknownKind => Err(ArgumentOutOfRange))
    case Unrecognized => Err(ArgumentOutOfRange)
  }

  /** `TypeMapper`: a list property becomes a new list filled by a loop over
      the entity's member; a named property is mapped into a variable; in
      both cases the constructor argument is the property's name with a
      lower-case first letter. */
  function TypeMapper(naming: Naming, p: Property, d: TypeDescriptor): (r: Result<PropertyMapping>)
    ensures r.Ok? ==> r.value.argument == Ident(naming.withLowerFirstChar(p.name))
    decreases d
  {
    match d
    case List(inner) =>
      var listVar := naming.withLowerFirstChar(p.name);
      var loopItem := listVar + "Item";
      (match MapTypeDescriptor(naming, MappedItemName, loopItem, inner)
       case Err(e) => Err(e)
       case Ok(item) =>
         var body := item.stmts + [EmptyLine, Add(listVar, MappedItemName)];
         Ok(PropertyMapping(
           Emission(
             [Assign(true, listVar, NewList(TypeName(p.descriptor))),
              ForEach(loopItem, Member(EntityParamName, p.name), body),
              EmptyLine],
             item.fields),
           Ident(listVar))))
    case Named(_) =>
      var mappedType := naming.withLowerFirstChar(p.name);
      (match MapTypeDescriptor(naming, mappedType, p.name, d)
       case Err(e) => Err(e)
       case Ok(e) => Ok(PropertyMapping(e, Ident(mappedType))))
    case NonNull(inner) => TypeMapper(naming, p, inner)
    case Unrecognized => Err(ArgumentOutOfRange)
  }

  /** The constructor argument the generator passes for `p`: the entity's
      member itself for a leaf, otherwise the variable the mapping filled. */
  function ConstructorArgument(naming: Naming, p: Property): Expr
  {
    if naming.isLeafType(p.descriptor) then Member(EntityParamName, p.name)
    else Ident(naming.withLowerFirstChar(p.name))
  }

  /** One iteration of the property loop of `WriteAsync`. */
  function MapProperty(naming: Naming, p: Property): (r: Result<PropertyMapping>)
    ensures r.Ok? ==> r.value.argument == ConstructorArgument(naming, p)
    ensures naming.isLeafType(p.descriptor) ==> r == Ok(PropertyMapping(Emission([], []), Member(EntityParamName, p.name)))
  {
    if naming.isLeafType(p.descriptor) then Ok(PropertyMapping(Emission([], []), Member(EntityParamName, p.name)))
    else TypeMapper(naming, p, p.descriptor)
  }

  /** The whole property loop of `WriteAsync`; the first property that fails
      aborts it. */
  function MapProperties(naming: Naming, ps: seq<Property>): (r: Result<PropertiesMapping>)
    ensures r.Ok? ==> |r.value.args| == |ps|
    ensures r.Ok? ==> forall i :: 0 <= i < |ps| ==> r.value.args[i] == ConstructorArgument(naming, ps[i])
    decreases |ps|
  {
    if ps == [] then Ok(PropertiesMapping(Emission([], []), []))
    else
      match MapProperties(naming, ps[..|ps| - 1])
      case Err(e) => Err(e)
      case Ok(done) =>
        match MapProperty(naming, ps[|ps| - 1])
        case Err(e) => Err(e)
        case Ok(m) =>
          Ok(PropertiesMapping(
            Emission(done.emission.stmts + m.emission.stmts, done.emission.fields + m.emission.fields),
            done.args + [m.argument]))
  }

  /** The root descriptor must be a named type, possibly non-null. */
  function RootType(root: TypeDescriptor): (r: Option<NamedType>)
    ensures r.Some? <==> root.Named? || (root.NonNull? && root.inner.Named?)
  {
    match root
    case Named(n) => Some(n)
    case NonNull(Named(n)) => Some(n)
    case _ => None
  }

  /** The type the generated `Map` method takes: the entity type for an
      entity, the data type otherwise. */
  function SourceTypeName(naming: Naming, n: NamedType): string
  {
    if n.kind == EntityType then naming.entityTypeName(n.graphQLTypeName) else naming.dataTypeName(n.name)
  }

  /** `WriteAsync`: the mapper class generated for `root`. */
  function WriteMapper(naming: Naming, root: TypeDescriptor): (r: Result<MapperUnit>)
    ensures RootType(root).None? ==> r == Err(ArgumentError)
    ensures RootType(root).Some? ==> (r.Ok? <==> MapProperties(naming, RootType(root).value.properties).Ok?)
    ensures r.Ok? ==> |r.value.fields| > 0 && r.value.fields[0] == Field(EntityStore, StoreFieldName)
    ensures r.Ok? ==> var n := RootType(root).value;
      && r.value.constructorTypeName == n.name
      && (n.kind == EntityType ==> r.value.className == naming.entityMapperName(n.name, n.graphQLTypeName))
      && (n.kind != EntityType ==> r.value.className == naming.dataMapperName(n.name, n.graphQLTypeName))
    ensures r.Ok? ==> var n := RootType(root).value; var body := r.value.mapMethod.body;
      && r.value.mapMethod.parameterName == EntityParamName
      && r.value.mapMethod.returnType == n.name
      && |body| > 0 && body[|body| - 1].Return?
      && body[|body| - 1].typeName == n.name
      && |body[|body| - 1].args| == |n.properties|
      && forall i :: 0 <= i < |n.properties| ==> body[|body| - 1].args[i] == ConstructorArgument(naming, n.properties[i])
  {
    match RootType(root)
    case None => Err(ArgumentError)
    case Some(n) =>
      match MapProperties(naming, n.properties)
      case Err(e) => Err(e)
      case Ok(pm) =>
        var sourceType := SourceTypeName(naming, n);
        Ok(MapperUnit(
          if n.kind == EntityType
          then naming.entityMapperName(n.name, n.graphQLTypeName)
          else naming.dataMapperName(n.name, n.graphQLTypeName),
          EntityMapper(sourceType, n.name),
          n.name,
          [Field(EntityStore, StoreFieldName)] + pm.emission.fields,
          MapMethod(n.name, sourceType, EntityParamName, pm.emission.stmts + [Return(n.name, pm.args)])))
  }
}
