/**
  Values shared by the result-from-entity mapper generator: the type
  descriptors it walks, the statements and expressions it emits, the
  constructor fields it registers, the naming conventions it relies on and
  the exceptions it raises.
 */
module MapperCode {

  /** The kind of a named type. `UnknownKind` stands for any other value the
      enum can hold, which the generator rejects. */
  datatype TypeKind = LeafType | DataType | EntityType | UnknownKind

  /** A type descriptor: a named type, a list of a type, a non-null type, or
      an implementation of the descriptor interface the generator does not
      recognise. */
  datatype TypeDescriptor =
    | Named(named: NamedType)
    | List(inner: TypeDescriptor)
    | NonNull(inner: TypeDescriptor)
    | Unrecognized

  /** A named type with its properties and, for an interface, the named
      types implementing it. */
  datatype NamedType = NamedType(
    name: string,
    graphQLTypeName: string,
    kind: TypeKind,
    isInterface: bool,
    implementedBy: seq<NamedType>,
    properties: seq<Property>)

  datatype Property = Property(name: string, descriptor: TypeDescriptor)

  /** The helpers the generator calls but does not define: its naming
      conventions and the test whether a descriptor is a leaf type; every
      result in this model holds for every choice of them. */
  datatype Naming = Naming(
    isLeafType: TypeDescriptor -> bool,
    withLowerFirstChar: string -> string,
    toFieldName: string -> string,
    entityMapperName: (string, string) -> string,
    dataMapperName: (string, string) -> string,
    entityTypeName: string -> string,
    dataTypeName: string -> string)

  /** Expressions that appear in generated code. */
  datatype Expr =
    | Ident(name: string)                          // a variable or bare argument
    | Member(target: string, member: string)       // target.member
    | GetEntity(entityType: string, key: Expr)     // _entityStore.GetEntity<entityType>(key)
    | MapCall(mapperField: string, arg: Expr)      // mapperField.Map(arg)
    | NewList(elementType: string)                 // new List<elementType>()

  /** Statements that appear in the generated `Map` method. */
  datatype Stmt =
    | Assign(declares: bool, target: string, value: Expr)  // [var ]target = value;
    | DeclareDefault(typeName: string, target: string)     // typeName target = default!;
    | ForEach(item: string, source: Expr, body: seq<Stmt>) // foreach (var item in source) { body }
    | IfChain(branches: seq<Branch>, otherwise: seq<Stmt>) // if ... else if ... else { otherwise }
    | Add(list: string, item: string)                      // list.Add(item);
    | Throw(exception: string)                             // throw new exception();
    | Return(typeName: string, args: seq<Expr>)            // return new typeName(args);
    | EmptyLine

  /** One branch `if (subject.Name.Equals("typeName", StringComparison.Ordinal)) { body }`. */
  datatype Branch = Branch(subject: string, typeName: string, body: seq<Stmt>)

  /** The type of a constructor-assigned field. */
  datatype FieldType =
    | EntityStore                                   // IEntityStore
    | EntityMapper(source: string, result: string)  // IEntityMapper<source, result>

  datatype Field = Field(fieldType: FieldType, name: string)

  /** The generated `Map(entity)` method. */
  datatype MapMethod = MapMethod(returnType: string, parameterType: string, parameterName: string, body: seq<Stmt>)

  /** The exceptions the generator throws while generating. */
  datatype MapperError =
    | ArgumentError          // ArgumentException
    | ArgumentOutOfRange     // ArgumentOutOfRangeException
    | NoImplementor          // ImplementedBy[0] on an empty list

  datatype Result<T> = Ok(value: T) | Err(error: MapperError)

  const EntityParamName: string := "entity"
  const StoreFieldName: string := "_entityStore"
  const MapMethodName: string := "Map"
  const MappedItemName: string := "mappedItem"
  const NotSupported: string := "NotSupportedException"

  /** The descriptor with its outer NonNull wrappers removed. */
  function StripNonNull(d: TypeDescriptor): (r: TypeDescriptor)
    ensures !r.NonNull?
  {
    if d.NonNull? then StripNonNull(d.inner) else d
  }

  /** The name of a descriptor: a list or non-null type is named after the
      type it wraps. */
  function TypeName(d: TypeDescriptor): string
  {
    match d
    case Named(n) => n.name
    case List(inner) => TypeName(inner)
    case NonNull(inner) => TypeName(inner)
    case Unrecognized => ""
  }
}
