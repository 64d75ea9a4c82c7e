# Entity mappers, type modules and the query-cache rule, in Dafny

This project models three pieces of the HotChocolate / StrawberryShake
code base and proves properties of them.

- **StrawberryShake's `ResultFromEntityTypeMapperGenerator`.** It writes the C# class that maps an entity
  read from the client's entity store to a result type. The class has a
  constructor field for the entity store, one constructor field per
  entity or data mapper it calls, and a `Map(entity)` method. That method maps
  every property of the result type and ends by returning
  `new Result(args…)`.
  - Lists become a new list variable and a `foreach` that maps each item.
  - Entities are read from the store through their entity mapper.
  - Data types go through their data mapper.
  - Interfaces become an if/else-if chain over the runtime type name of
    each implementor, which ends in a `throw`.

  The files are:
  - `mapper_code.dfy`: the descriptors, the generated statements and the
    helpers the generator calls: its naming conventions and leaf test.
  - `mapper_emission.dfy`: what each generator method emits, as functions.
  - `mapper_generator.dfy`: the generator class, whose builder state
    (class name, implemented interface, constructor type and fields,
    methods) its methods update in place. Each method is proved to append
    exactly what its function describes.
  - `mapper_properties.dfy`: the lemmas.
- **HotChocolate's type-module source generator (`ModuleGenerator`).** It
  collects the types, type extensions and data loaders found in a
  compilation. It writes one `Add<Module>(this IRequestExecutorBuilder)`
  extension method that registers each of them, gated by the module's
  options. It then adds a root type for every operation type (query,
  mutation, subscription) that a registered type extension extends.
  - The generated source is a sequence of `Line` values. `Text` and
    `Indent` give each line's exact text and indentation depth.
  - `module_generator.dfy` holds the generator.
  - `module_properties.dfy` holds the lemmas.
- **The admission rule of HotChocolate's `DefaultQueryCache`.** A result is
  written to the cache only when all three of these hold:
  - it is one complete query result;
  - the operation is a query;
  - it carries no errors.

  It is in `query_cache.dfy`. `options.dfy` holds the shared `Option` type, and `sequences.dfy` the one fact about appending that both generators use.

Unbounded strings and sequences stand in for `StringBuilder`, `List<T>` and
`IReadOnlyCollection<T>`. Exceptions the generators throw become an
`Err(...)` or `Some(error)` result.

## Model

| member | source | states |
|---|---|---|
| MapperCode.StripNonNull | src/StrawberryShake/CodeGeneration/src/CodeGeneration.CSharp/Generators/ResultFromEntityTypeMapperGenerator.cs:143-149 | what the NonNull case of `TypeMapper` reaches is never itself NonNull |
| MapperEmission.SelectBranch | src/StrawberryShake/CodeGeneration/src/CodeGeneration.CSharp/Generators/ResultFromEntityTypeMapperGenerator.cs:250-261 | the branch an if/else-if chain runs is the first whose type name matches; there is none exactly when no branch matches |
| MapperEmission.Core | src/StrawberryShake/CodeGeneration/src/CodeGeneration.CSharp/Generators/ResultFromEntityTypeMapperGenerator.cs:164-171 | peeling List and NonNull wrappers ends at a type that is neither |
| MapperEmission.ConcreteMapping | src/StrawberryShake/CodeGeneration/src/CodeGeneration.CSharp/Generators/ResultFromEntityTypeMapperGenerator.cs:281-317 | `MapConcreteType` writes one assignment of the variable (declared only when `createNewVar`) and an empty line; the mapped value is the entity mapper's call; its argument goes through `GetEntity` exactly when the type is an entity; one field is registered, the one the call uses |
| MapperEmission.DataMapping | src/StrawberryShake/CodeGeneration/src/CodeGeneration.CSharp/Generators/ResultFromEntityTypeMapperGenerator.cs:177-202 | the data case declares a variable named after the lowered mapping argument, assigned from the data mapper applied to `entity.<argument>`; it registers one field of type `IEntityMapper<DataType, Name>`, the one the call uses |
| MapperEmission.InterfaceMapping | src/StrawberryShake/CodeGeneration/src/CodeGeneration.CSharp/Generators/ResultFromEntityTypeMapperGenerator.cs:241-279 | `MapInterface` fails exactly when the interface has no implementor; otherwise it writes the `default!` declaration, an empty line and an if chain with one branch per implementor that tests the implementor's GraphQL type name and ends in `throw new NotSupportedException()`; it registers one field per implementor |
| MapperEmission.TypeMapper | src/StrawberryShake/CodeGeneration/src/CodeGeneration.CSharp/Generators/ResultFromEntityTypeMapperGenerator.cs:96-154 | a property that maps passes the variable named after its lowered name to the constructor |
| MapperEmission.MapProperty | src/StrawberryShake/CodeGeneration/src/CodeGeneration.CSharp/Generators/ResultFromEntityTypeMapperGenerator.cs:71-85 | a leaf property writes nothing and passes `entity.<Name>`; any property that maps passes its constructor argument |
| MapperEmission.MapProperties | src/StrawberryShake/CodeGeneration/src/CodeGeneration.CSharp/Generators/ResultFromEntityTypeMapperGenerator.cs:71-85 | the property loop passes one constructor argument per property, in order |
| MapperEmission.RootType | src/StrawberryShake/CodeGeneration/src/CodeGeneration.CSharp/Generators/ResultFromEntityTypeMapperGenerator.cs:25-30 | only a named type, or a NonNull around one, is accepted as the root |
| MapperEmission.WriteMapper | src/StrawberryShake/CodeGeneration/src/CodeGeneration.CSharp/Generators/ResultFromEntityTypeMapperGenerator.cs:19-94 | any other root is an argument error; otherwise the class is built exactly when every property maps; the entity-store field comes first; the constructor builds the root's type; the class is named by the entity mapper convention for an entity and the data mapper convention otherwise; `Map` takes `entity`, returns the root's type and ends with `return new <Name>(…)`, whose arguments are the properties' constructor arguments, one per property, in order |
| MapperGenerator.ResultFromEntityTypeMapperGenerator.constructor | src/StrawberryShake/CodeGeneration/src/CodeGeneration.CSharp/Generators/ResultFromEntityTypeMapperGenerator.cs:13-17 | a new generator starts with empty builders |
| MapperGenerator.ResultFromEntityTypeMapperGenerator.WriteAsync | src/StrawberryShake/CodeGeneration/src/CodeGeneration.CSharp/Generators/ResultFromEntityTypeMapperGenerator.cs:19-94 | a bad root leaves the generator unchanged and reports an argument error; otherwise the builders end up holding exactly the mapper `WriteMapper` describes, or its error is reported |
| MapperGenerator.ResultFromEntityTypeMapperGenerator.MapProperties | src/StrawberryShake/CodeGeneration/src/CodeGeneration.CSharp/Generators/ResultFromEntityTypeMapperGenerator.cs:71-85 | the loop appends the statements, arguments and fields `MapProperties` describes, or stops with its first error |
| MapperGenerator.ResultFromEntityTypeMapperGenerator.TypeMapper | src/StrawberryShake/CodeGeneration/src/CodeGeneration.CSharp/Generators/ResultFromEntityTypeMapperGenerator.cs:96-154 | appends exactly the emission and the argument of the `TypeMapper` function, or returns its error |
| MapperGenerator.ResultFromEntityTypeMapperGenerator.MapTypeDescriptor | src/StrawberryShake/CodeGeneration/src/CodeGeneration.CSharp/Generators/ResultFromEntityTypeMapperGenerator.cs:156-239 | appends exactly the emission of the `MapTypeDescriptor` function, or returns its error |
| MapperGenerator.ResultFromEntityTypeMapperGenerator.MapInterface | src/StrawberryShake/CodeGeneration/src/CodeGeneration.CSharp/Generators/ResultFromEntityTypeMapperGenerator.cs:241-279 | appends exactly the emission of `InterfaceMapping`, or fails at `ImplementedBy[0]` |
| MapperGenerator.ResultFromEntityTypeMapperGenerator.ImplementorIf | src/StrawberryShake/CodeGeneration/src/CodeGeneration.CSharp/Generators/ResultFromEntityTypeMapperGenerator.cs:263-278 | returns the implementor's branch and registers its mapper field |
| MapperGenerator.ResultFromEntityTypeMapperGenerator.MapConcreteType | src/StrawberryShake/CodeGeneration/src/CodeGeneration.CSharp/Generators/ResultFromEntityTypeMapperGenerator.cs:281-317 | appends exactly the statements and the field of `ConcreteMapping` |
| MapperGenerator.ResultFromEntityTypeMapperGenerator.MappingCall | src/StrawberryShake/CodeGeneration/src/CodeGeneration.CSharp/Generators/ResultFromEntityTypeMapperGenerator.cs:319-341 | the set of seen names is fresh on every call, so the field is always registered; returns the call of the field's `Map` on the argument |
| MapperProperties.TypeMapperSeesThroughNonNull | src/StrawberryShake/CodeGeneration/src/CodeGeneration.CSharp/Generators/ResultFromEntityTypeMapperGenerator.cs:143-149 | mapping a NonNull property is mapping its inner type |
| MapperProperties.MapTypeDescriptorSeesThroughWrappers | src/StrawberryShake/CodeGeneration/src/CodeGeneration.CSharp/Generators/ResultFromEntityTypeMapperGenerator.cs:164-171 | nested List/NonNull wrappers emit nothing of their own |
| MapperProperties.MapTypeDescriptorErrors | src/StrawberryShake/CodeGeneration/src/CodeGeneration.CSharp/Generators/ResultFromEntityTypeMapperGenerator.cs:162-238 | leaf is `ArgumentException`, an unknown descriptor or kind is `ArgumentOutOfRangeException`, an interface without implementors fails, and nothing else fails |
| MapperProperties.LeafPropertiesEmitNothing | src/StrawberryShake/CodeGeneration/src/CodeGeneration.CSharp/Generators/ResultFromEntityTypeMapperGenerator.cs:73-76 | properties that are all leaves write no code and register no field, and pass `entity.<Name>` for each |
| MapperProperties.NamedProperty | src/StrawberryShake/CodeGeneration/src/CodeGeneration.CSharp/Generators/ResultFromEntityTypeMapperGenerator.cs:133-141 | a named property that the leaf test refuses maps into the variable named after it, through `MapTypeDescriptor` with the property's name as the mapping argument, and fails exactly when that fails |
| MapperProperties.NamedPropertyReads | src/StrawberryShake/CodeGeneration/src/CodeGeneration.CSharp/Generators/ResultFromEntityTypeMapperGenerator.cs:133-222 | as written, only a data-kind property is read as `entity.<Name>`; a concrete entity looks up the bare `<Name>` in the entity store, and every branch of an interface chain tests the bare `<Name>` |
| MapperProperties.ListOfLeaves | src/StrawberryShake/CodeGeneration/src/CodeGeneration.CSharp/Generators/ResultFromEntityTypeMapperGenerator.cs:73-84 | a list of leaves is passed as `entity.<Name>` when the leaf test accepts the list, and is an argument error otherwise |
| MapperProperties.ListProperty | src/StrawberryShake/CodeGeneration/src/CodeGeneration.CSharp/Generators/ResultFromEntityTypeMapperGenerator.cs:105-131 | a list property declares `new List<T>()`, loops over `entity.<Name>` with `<name>Item`, adds `mappedItem`, then an empty line, and passes the list |
| MapperProperties.DataListItem | src/StrawberryShake/CodeGeneration/src/CodeGeneration.CSharp/Generators/ResultFromEntityTypeMapperGenerator.cs:113-126 | as written, a data item inside a list is assigned to the lowered loop-variable name, read as `entity.<name>Item`, while the loop adds `mappedItem` |
| MapperProperties.EntityListItem | src/StrawberryShake/CodeGeneration/src/CodeGeneration.CSharp/Generators/ResultFromEntityTypeMapperGenerator.cs:113-126 | an entity item inside a list is read from the store and assigned to the `mappedItem` the loop adds |
| MapperProperties.InterfaceDispatch | src/StrawberryShake/CodeGeneration/src/CodeGeneration.CSharp/Generators/ResultFromEntityTypeMapperGenerator.cs:247-278 | the chain runs the first implementor whose GraphQL type name equals the runtime name, and throws when none does |
| MapperProperties.DispatchTakesFirstMatch | src/StrawberryShake/CodeGeneration/src/CodeGeneration.CSharp/Generators/ResultFromEntityTypeMapperGenerator.cs:250-259 | an if/else-if chain runs its first matching branch |
| MapperProperties.CalledMappersAppend | src/StrawberryShake/CodeGeneration/src/CodeGeneration.CSharp/Generators/ResultFromEntityTypeMapperGenerator.cs:87 | the mappers called by two code blocks in a row are those of the first, then those of the second |
| MapperProperties.ImplementorBranchesCallTheirFields | src/StrawberryShake/CodeGeneration/src/CodeGeneration.CSharp/Generators/ResultFromEntityTypeMapperGenerator.cs:250-278 | each interface branch calls exactly the field registered for it, in order |
| MapperProperties.MapTypeDescriptorFieldsFollowCalls | src/StrawberryShake/CodeGeneration/src/CodeGeneration.CSharp/Generators/ResultFromEntityTypeMapperGenerator.cs:156-239 | the fields registered are the mappers called, one for one, in order |
| MapperProperties.TypeMapperFieldsFollowCalls | src/StrawberryShake/CodeGeneration/src/CodeGeneration.CSharp/Generators/ResultFromEntityTypeMapperGenerator.cs:96-154 | the same for one property |
| MapperProperties.EmissionsConcatenate | src/StrawberryShake/CodeGeneration/src/CodeGeneration.CSharp/Generators/ResultFromEntityTypeMapperGenerator.cs:71-85 | fields-follow-calls is kept when emissions are written one after the other |
| MapperProperties.FieldNamesAppend | src/StrawberryShake/CodeGeneration/src/CodeGeneration.CSharp/Generators/ResultFromEntityTypeMapperGenerator.cs:330-332 | field names of appended field lists append |
| MapperProperties.MapPropertyFieldsFollowCalls | src/StrawberryShake/CodeGeneration/src/CodeGeneration.CSharp/Generators/ResultFromEntityTypeMapperGenerator.cs:73-84 | fields follow calls for one property, leaf or not |
| MapperProperties.MapPropertiesFieldsFollowCalls | src/StrawberryShake/CodeGeneration/src/CodeGeneration.CSharp/Generators/ResultFromEntityTypeMapperGenerator.cs:71-85 | fields follow calls for the whole property loop |
| MapperProperties.MapPropertiesStep | src/StrawberryShake/CodeGeneration/src/CodeGeneration.CSharp/Generators/ResultFromEntityTypeMapperGenerator.cs:71-85 | one more loop iteration appends that property's emission and argument |
| MapperProperties.ImplementorsStep | src/StrawberryShake/CodeGeneration/src/CodeGeneration.CSharp/Generators/ResultFromEntityTypeMapperGenerator.cs:250-257 | one more implementor appends its branch and its field |
| MapperProperties.MapPropertiesFailsAtFirstFailure | src/StrawberryShake/CodeGeneration/src/CodeGeneration.CSharp/Generators/ResultFromEntityTypeMapperGenerator.cs:71-85 | a failing loop fails with the error of its first failing property |
| MapperProperties.MapPropertiesSucceedsIffEveryPropertyDoes | src/StrawberryShake/CodeGeneration/src/CodeGeneration.CSharp/Generators/ResultFromEntityTypeMapperGenerator.cs:71-85 | the loop succeeds exactly when every property maps |
| MapperProperties.MapPropertiesKeepsFirstError | src/StrawberryShake/CodeGeneration/src/CodeGeneration.CSharp/Generators/ResultFromEntityTypeMapperGenerator.cs:71-85 | once a prefix of the properties fails, the whole loop fails with that error |
| MapperProperties.GeneratedFieldsFollowCalls | src/StrawberryShake/CodeGeneration/src/CodeGeneration.CSharp/Generators/ResultFromEntityTypeMapperGenerator.cs:49-53 | the class's fields are the entity store, then one per mapper call in `Map`, in call order |
| MapperProperties.SameDataMapperRegisteredTwice | src/StrawberryShake/CodeGeneration/src/CodeGeneration.CSharp/Generators/ResultFromEntityTypeMapperGenerator.cs:325-333 | two properties of the same data type register the same mapper field twice |
| ModuleGeneration.Consume | src/HotChocolate/Core/src/Types.Analyzers/Generators/ModuleGenerator.cs:13-14 | the generator consumes every info except those of other kinds |
| ModuleGeneration.LastSegment | src/HotChocolate/Core/src/Types.Analyzers/Generators/ModuleGenerator.cs:26 | `Split('.').Last()`: the longest suffix without a dot, preceded by a dot unless it is the whole name |
| ModuleGeneration.FirstModuleIndex | src/HotChocolate/Core/src/Types.Analyzers/Generators/ModuleGenerator.cs:22 | the position of the first module declaration, none exactly when there is none |
| ModuleGeneration.ChosenModule | src/HotChocolate/Core/src/Types.Analyzers/Generators/ModuleGenerator.cs:21-27 | the module is always a module declaration |
| ModuleGeneration.Batch | src/HotChocolate/Core/src/Types.Analyzers/Generators/ModuleGenerator.cs:29 | the batch holds exactly the infos that are not module declarations; it is empty exactly when every info is one |
| ModuleGeneration.FirstIndex | src/HotChocolate/Core/src/Types.Analyzers/Generators/ModuleGenerator.cs:61 | the position of the first occurrence |
| ModuleGeneration.Distinct | src/HotChocolate/Core/src/Types.Analyzers/Generators/ModuleGenerator.cs:61 | `Distinct()` keeps every element of the batch, and no element twice |
| ModuleGeneration.ItemLine | src/HotChocolate/Core/src/Types.Analyzers/Generators/ModuleGenerator.cs:65-120 | a type is added by `AddType`, a static extension by `AddTypeExtension(typeof(…))`, any other extension by `AddTypeExtension<…>`, a data loader by `AddDataLoader`, each under its own name |
| ModuleGeneration.ItemLines | src/HotChocolate/Core/src/Types.Analyzers/Generators/ModuleGenerator.cs:63-121 | one pass of the loop writes at most one line, and one exactly when the options let the item through |
| ModuleGeneration.RootOperations | src/HotChocolate/Core/src/Types.Analyzers/Generators/ModuleGenerator.cs:124-137 | each operation type whose flag is set, and only those, in the order Query, Mutation, Subscription |
| ModuleGeneration.Generate | src/HotChocolate/Core/src/Types.Analyzers/Generators/ModuleGenerator.cs:16-145 | no source exactly when the batch is empty; otherwise the header for the chosen module, the registration lines of the distinct batch, the root types of the accumulated operations and the footer |
| ModuleGeneration.WriteHeader | src/HotChocolate/Core/src/Types.Analyzers/Generators/ModuleGenerator.cs:35-57 | a new builder holds the usings, the namespace, the class declaration for the module and the opening of `Add<Module>` |
| ModuleGeneration.WriteRegistrations | src/HotChocolate/Core/src/Types.Analyzers/Generators/ModuleGenerator.cs:59-122 | the loop over the distinct items appends their registration lines, in order, and leaves `operations` holding the operation types their registered extensions declare |
| ModuleGeneration.WriteItem | src/HotChocolate/Core/src/Types.Analyzers/Generators/ModuleGenerator.cs:63-121 | one loop pass appends the item's lines and adds its operation types to `operations` |
| ModuleGeneration.WriteRootTypes | src/HotChocolate/Core/src/Types.Analyzers/Generators/ModuleGenerator.cs:124-137 | appends the root-type section for the accumulated operations |
| ModuleGeneration.WriteTryAddOperationType | src/HotChocolate/Core/src/Types.Analyzers/Generators/ModuleGenerator.cs:147-180 | appends the five lines of one `TryAddRootType` registration |
| ModuleGeneration.WriteFooter | src/HotChocolate/Core/src/Types.Analyzers/Generators/ModuleGenerator.cs:139-142 | appends `return builder;` and the three closing braces |
| ModuleGeneration.RegistrationStep | src/HotChocolate/Core/src/Types.Analyzers/Generators/ModuleGenerator.cs:61-122 | one more loop pass extends the registration lines and the operations by that item's |
| ModuleGeneration.RootTypeLinesAppend | src/HotChocolate/Core/src/Types.Analyzers/Generators/ModuleGenerator.cs:124-137 | the three guarded calls write exactly the root-type section |
| ModuleGeneration.TryAddOperationTypesAppend | src/HotChocolate/Core/src/Types.Analyzers/Generators/ModuleGenerator.cs:124-137 | registrations of two runs of operation types concatenate |
| ModuleProperties.FirstDeclaredModuleWins | src/HotChocolate/Core/src/Types.Analyzers/Generators/ModuleGenerator.cs:21-22 | when module declarations are present, the first one declared is the module |
| ModuleProperties.DefaultModule | src/HotChocolate/Core/src/Types.Analyzers/Generators/ModuleGenerator.cs:21-27 | without a module declaration the module is `AssemblyTypes` when there is no assembly name, else `<last segment>Types`, with the default options |
| ModuleProperties.LastSegmentAfterLastDot | src/HotChocolate/Core/src/Types.Analyzers/Generators/ModuleGenerator.cs:26 | the module name takes what follows the last dot of the assembly name |
| ModuleProperties.AssemblyNameSegment | src/HotChocolate/Core/src/Types.Analyzers/Generators/ModuleGenerator.cs:21-27 | the assembly `Contoso.Api` gives the module `ApiTypes` |
| ModuleProperties.FirstIndexInPrefix | src/HotChocolate/Core/src/Types.Analyzers/Generators/ModuleGenerator.cs:61 | a first occurrence inside a prefix is the first occurrence in the whole batch |
| ModuleProperties.DistinctKeepsFirstOccurrenceOrder | src/HotChocolate/Core/src/Types.Analyzers/Generators/ModuleGenerator.cs:61 | the loop visits the distinct items in the order of their first occurrence |
| ModuleProperties.ItemRegisteredOnce | src/HotChocolate/Core/src/Types.Analyzers/Generators/ModuleGenerator.cs:61-76 | for any options and any batch, a type or data loader of the batch that the options let through gets its line exactly once, however often it occurs |
| ModuleProperties.ItemLineCount | src/HotChocolate/Core/src/Types.Analyzers/Generators/ModuleGenerator.cs:61-121 | over items without duplicates, the line of a type or data loader occurs once when the item is present and let through, and never otherwise |
| ModuleProperties.DuplicateItemRegisteredOnce | src/HotChocolate/Core/src/Types.Analyzers/Generators/ModuleGenerator.cs:61-76 | example: the batch `Book`, `BookById`, `Book` registers `Book` once, in its first place, then the data loader |
| ModuleProperties.UnregisteredInfosWriteNothing | src/HotChocolate/Core/src/Types.Analyzers/Generators/ModuleGenerator.cs:63-121 | module declarations and unconsumed infos write no line and add no operation type |
| ModuleProperties.RegistrationLinesAreRegisteredItems | src/HotChocolate/Core/src/Types.Analyzers/Generators/ModuleGenerator.cs:61-122 | every registration line belongs to an item the options let through, and every such item has its line |
| ModuleProperties.RegistrationFollowsOptions | src/HotChocolate/Core/src/Types.Analyzers/Generators/ModuleGenerator.cs:66-67 | without RegisterTypes only data loaders are registered; without RegisterDataLoader no data loader is |
| ModuleProperties.DefaultOptionsRegisterEveryItem | src/HotChocolate/Core/src/Types.Analyzers/Generators/ModuleGenerator.cs:23-27 | under the default options each type, extension and data loader gets its line, one for one, in order |
| ModuleProperties.OperationsAreTheUnion | src/HotChocolate/Core/src/Types.Analyzers/Generators/ModuleGenerator.cs:101-105 | after the loop an operation type is flagged exactly when RegisterTypes is set and some type extension declares it |
| ModuleProperties.RootTypeLineFor | src/HotChocolate/Core/src/Types.Analyzers/Generators/ModuleGenerator.cs:147-180 | each operation type in the run gets its root type, and five lines each |
| ModuleProperties.RootTypesRegisteredOnceInOrder | src/HotChocolate/Core/src/Types.Analyzers/Generators/ModuleGenerator.cs:124-137 | a root type is added exactly for each flagged operation type, once, in the order Query, Mutation, Subscription |
| ModuleProperties.RootTypesFollowExtensions | src/HotChocolate/Core/src/Types.Analyzers/Generators/ModuleGenerator.cs:78-137 | a root type is added exactly when RegisterTypes is set and a type extension extends that operation type |
| QueryCache.ShouldCacheResult | src/HotChocolate/Caching/src/Caching/DefaultQueryCache.cs:18-41 | true exactly for a complete query result of a query operation without errors; a missing or streamed result, a missing or non-query operation, or a non-empty error list gives false |
| QueryCache.ErrorsDecideQueryResults | src/HotChocolate/Caching/src/Caching/DefaultQueryCache.cs:33-38 | for a query's result a missing and an empty error list are admitted alike, and one error refuses it |
| QueryCache.OnlyQueriesAreCached | src/HotChocolate/Caching/src/Caching/DefaultQueryCache.cs:26-31 | a cached result comes from a query; the same result under a mutation, a subscription or no operation is refused |

## Left out

- Code writing: the `CodeWriter`, `CodeFileBuilder`, `ClassBuilder`, `MethodBuilder` and the other builders are modelled as datatypes of the statements, fields and methods they hold. The namespace, access modifiers, `AssertNonNull` and the text layout of the mapper are not modelled.
- `StringBuilder`: its text is modelled as a sequence of `Line` values. The exact text and indentation depth of each line are given by `ModuleGeneration.Text` and `ModuleGeneration.Indent`.
- `SourceProductionContext.AddSource`: the source is returned instead. The UTF-8 encoding and the file name are not modelled.
- `Compilation`: only its assembly name is modelled, as an optional string.
- Roslyn syntax infos: these are modelled as a datatype compared by value. The info types are not part of this model, so this model assumes that `Distinct()` compares them by value, as record equality would.
- `ModuleOptions` and `OperationType` flags: these are modelled as sets of their named flags. `|=` is a union and `(a & t) == t` is an inclusion test. The numeric values of the enums are not part of this model.
- ModuleGeneration.WriteHeader, ModuleGeneration.WriteRegistrations, ModuleGeneration.WriteItem, ModuleGeneration.WriteRootTypes, ModuleGeneration.WriteFooter: `Generate` is one method in the source. Here its header, its `foreach` loop, one pass of that loop, its three root-type `if`s and its footer are separate methods. `Generate` calls them in the same order.
- StrawberryShake naming helpers are not part of this model. They are passed in as functions, so every lemma holds for every naming:
  - `WithLowerFirstChar`, `ToFieldName`;
  - the mapper, entity-type and data-type name conventions.
- The leaf test and descriptor names: `IsLeafType()`, `IsEntityType()` and `ITypeDescriptor.Name` are not part of this model. The leaf test is passed in as a function, like the naming helpers, so the lemmas hold for any leaf test; which wrappers it looks through is left open. `MapperProperties.ListOfLeaves` states both outcomes for a list of leaves. The name of a descriptor is the name of its innermost named type.
- MapperProperties.DataListItem: the data branch inside a list is modelled as written, and is likely a defect of the source. It declares a variable named after the loop item and reads `entity.<name>Item`, while the loop body adds `mappedItem`, which only the entity branches declare, so the generated code would not compile. No corrected form is modelled.
- MapperProperties.NamedPropertyReads: the reads are modelled as written. A data-kind property reads `entity.<Name>`, while entity and interface properties use the bare `<Name>` where the entity's member seems meant. No corrected form is modelled.
- MapperGenerator.ResultFromEntityTypeMapperGenerator.WriteAsync: after an error thrown past the point where the class name is set, the builder state is stated only as the reported error, not field by field.
- `CacheQueryResultAsync`, and the commented-out read methods of `DefaultQueryCache`: they are abstract, or absent, and asynchronous.
- QueryCache.ShouldCacheResult: the error list is modelled only by its presence and length, and the result kinds other than a single query result by one `ResponseStream` case.
