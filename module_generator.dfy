/**
  The type-module source generator: from the syntax infos collected in one
  compilation it writes a static class with one `Add<Module>` extension
  method that registers every distinct type, type extension and data loader,
  then the root types the extensions extend, and returns the builder.

  The generated source is modelled as its lines (an indentation depth and a
  text); `None` stands for "no source added".
 */
module ModuleGeneration {
  import opened Options
  import opened Sequences

  // ---------------------------------------------------------------------
  // Flags
  // ---------------------------------------------------------------------

  /** The root operation types. A value of the `OperationType` flags enum
      is the set of its flags: `No` is the empty set, `operations |= t` is
      union, and `(operations & t) != t` says that `t` has a flag
      `operations` lacks. */
  datatype RootOperation = Query | Mutation | Subscription

  /** The flags of the `ModuleOptions` enum; `Default` has both. */
  datatype ModuleOption = RegisterTypes | RegisterDataLoader

  const DefaultOptions: set<ModuleOption> := {RegisterTypes, RegisterDataLoader}

  // ---------------------------------------------------------------------
  // Syntax infos
  // ---------------------------------------------------------------------

  /** What the syntax inspectors report. `OtherInfo` stands for every other
      kind of syntax info, which this generator does not consume. Two infos
      are the same item when all their components are equal. */
  datatype SyntaxInfo =
    | TypeInfo(name: string)
    | TypeExtensionInfo(name: string, isStatic: bool, operationType: set<RootOperation>)
    | DataLoaderInfo(name: string)
    | ModuleInfo(moduleName: string, options: set<ModuleOption>)
    | OtherInfo(name: string)

  /** The generator consumes types, type extensions, data loaders and module
      declarations, and no other kind of syntax info. */
  function Consume(info: SyntaxInfo): (r: bool)
    ensures r <==> !info.OtherInfo?
  {
    info.TypeInfo? || info.TypeExtensionInfo? || info.DataLoaderInfo? || info.ModuleInfo?
  }

  // ---------------------------------------------------------------------
  // The module name and options
  // ---------------------------------------------------------------------

  /** The last `.`-separated segment of `s`: what follows its last dot, or
      all of `s` when it has none. */
  function LastSegment(s: string): (r: string)
    ensures |r| <= |s| && r == s[|s| - |r|..]
    ensures forall i :: 0 <= i < |r| ==> r[i] != '.'
    ensures |r| < |s| ==> s[|s| - |r| - 1] == '.'
  {
    if s == [] || s[|s| - 1] == '.' then []
    else LastSegment(s[..|s| - 1]) + [s[|s| - 1]]
  }

  /** The position of the first module declaration among `infos`. */
  function FirstModuleIndex(infos: seq<SyntaxInfo>): (r: Option<nat>)
    ensures r.Some? ==> r.value < |infos| && infos[r.value].ModuleInfo?
    ensures r.Some? ==> forall j :: 0 <= j < r.value ==> !infos[j].ModuleInfo?
    ensures r.None? <==> forall j :: 0 <= j < |infos| ==> !infos[j].ModuleInfo?
  {
    if infos == [] then None
    else if infos[0].ModuleInfo? then Some(0)
    else match FirstModuleIndex(infos[1..])
      case None => None
      case Some(i) => Some(i + 1)
  }

  /** The module the generator writes: the first declared one, or else one
      named after the assembly with the default options. */
  function ChosenModule(assemblyName: Option<string>, infos: seq<SyntaxInfo>): (r: SyntaxInfo)
    ensures r.ModuleInfo?
  {
    match FirstModuleIndex(infos)
    case Some(i) => infos[i]
    case None =>
      ModuleInfo(
        if assemblyName.None? then "AssemblyTypes" else LastSegment(assemblyName.value) + "Types",
        DefaultOptions)
  }

  /** The infos the generator registers: all but the module declarations,
      in order. */
  function Batch(infos: seq<SyntaxInfo>): (r: seq<SyntaxInfo>)
    ensures |r| <= |infos|
    ensures forall x :: x in r <==> x in infos && !x.ModuleInfo?
    ensures r == [] <==> forall i :: 0 <= i < |infos| ==> infos[i].ModuleInfo?
  {
    if infos == [] then []
    else
      assert infos == [infos[0]] + infos[1..];
      (if infos[0].ModuleInfo? then [] else [infos[0]]) + Batch(infos[1..])
  }

  /** The position of the first occurrence of `x` in `s`. */
  function FirstIndex<T(==)>(s: seq<T>, x: T): (r: nat)
    requires x in s
    ensures r < |s| && s[r] == x
    ensures forall j :: 0 <= j < r ==> s[j] != x
  {
    if s[0] == x then 0 else 1 + FirstIndex(s[1..], x)
  }

  /** `Enumerable.Distinct`: the first occurrence of every element, in the
      order of the input. */
  function Distinct<T(==, !new)>(s: seq<T>): (r: seq<T>)
    ensures forall x :: x in r <==> x in s
    ensures forall i, j :: 0 <= i < j < |r| ==> r[i] != r[j]
    decreases |s|
  {
    if s == [] then []
    else
      var d := Distinct(s[..|s| - 1]);
      assert s == s[..|s| - 1] + [s[|s| - 1]];
      if s[|s| - 1] in d then d else d + [s[|s| - 1]]
  }

  // ---------------------------------------------------------------------
  // The generated lines
  // ---------------------------------------------------------------------

  /** One generated line, by what it says; `Indent` and `Text` give its
      indentation depth and its exact text. */
  datatype Line =
    | UsingSystem
    | UsingConfiguration
    | Blank
    | NamespaceDecl
    | OpenBrace(depth: nat)
    | CloseBrace(depth: nat)
    | ClassDecl(moduleName: string)
    | MethodDecl(moduleName: string)
    | AddType(name: string)
    | AddTypeExtensionOf(name: string)
    | AddTypeExtension(name: string)
    | AddDataLoader(name: string)
    | ConfigureSchema
    | TryAddRootType
    | NewObjectType
    | NameRootType(op: RootOperation)
    | AsRootType(op: RootOperation)
    | ReturnBuilder

  function Indent(l: Line): nat
  {
    match l
    case UsingSystem => 0
    case UsingConfiguration => 0
    case Blank => 0
    case NamespaceDecl => 0
    case OpenBrace(depth) => depth
    case CloseBrace(depth) => depth
    case ClassDecl(_) => 1
    case MethodDecl(_) => 2
    case ConfigureSchema => 3
    case TryAddRootType => 4
    case NewObjectType => 5
    case NameRootType(_) => 6
    case AsRootType(_) => 5
    case _ => 3
  }

  function Text(l: Line): string
  {
    match l
    case UsingSystem => "using System;"
    case UsingConfiguration => "using HotChocolate.Execution.Configuration;"
    case Blank => ""
    case NamespaceDecl => "namespace Microsoft.Extensions.DependencyInjection"
    case OpenBrace(_) => "{"
    case CloseBrace(_) => "}"
    case ClassDecl(m) => "public static class " + m + "RequestExecutorBuilderExtensions"
    case MethodDecl(m) => "public static IRequestExecutorBuilder Add" + m + "(this IRequestExecutorBuilder builder)"
    case AddType(n) => "builder.AddType<" + n + ">();"
    case AddTypeExtensionOf(n) => "builder.AddTypeExtension(typeof(" + n + "));"
    case AddTypeExtension(n) => "builder.AddTypeExtension<" + n + ">();"
    case AddDataLoader(n) => "builder.AddDataLoader<" + n + ">();"
    case ConfigureSchema => "builder.ConfigureSchema("
    case TryAddRootType => "b => b.TryAddRootType("
    case NewObjectType => "() => new global::HotChocolate.Types.ObjectType("
    case NameRootType(op) => "d => d.Name(global::HotChocolate.Types.OperationTypeNames." + OperationName(op) + ")),"
    case AsRootType(op) => "HotChocolate.Language.OperationType." + OperationName(op) + "));"
    case ReturnBuilder => "return builder;"
  }

  /** The enum member's name, which the generated code spells out. */
  function OperationName(op: RootOperation): string
  {
    match op
    case Query => "Query"
    case Mutation => "Mutation"
    case Subscription => "Subscription"
  }

  /** The usings, the namespace, the class and the opening of the
      extension method. */
  function Header(moduleName: string): seq<Line>
  {
    [UsingSystem, UsingConfiguration, Blank, NamespaceDecl, OpenBrace(0),
     ClassDecl(moduleName), OpenBrace(1), MethodDecl(moduleName), OpenBrace(2)]
  }

  /** The return statement and the closing braces. */
  function Footer(): seq<Line>
  {
    [ReturnBuilder, CloseBrace(2), CloseBrace(1), CloseBrace(0)]
  }

  /** Whether the module's options let `item` be registered: types and
      type extensions under RegisterTypes, data loaders under
      RegisterDataLoader, nothing else ever. */
  predicate Registered(options: set<ModuleOption>, item: SyntaxInfo)
  {
    || ((item.TypeInfo? || item.TypeExtensionInfo?) && RegisterTypes in options)
    || (item.DataLoaderInfo? && RegisterDataLoader in options)
  }

  /** The registration line of a type, a type extension or a data loader:
      a static extension is registered by `typeof`, any other by type
      argument. */
  function ItemLine(item: SyntaxInfo): (r: Line)
    requires item.TypeInfo? || item.TypeExtensionInfo? || item.DataLoaderInfo?
    ensures r.AddType? <==> item.TypeInfo?
    ensures r.AddTypeExtensionOf? <==> item.TypeExtensionInfo? && item.isStatic
    ensures r.AddTypeExtension? <==> item.TypeExtensionInfo? && !item.isStatic
    ensures r.AddDataLoader? <==> item.DataLoaderInfo?
    ensures r.name == item.name
  {
    match item
    case TypeInfo(n) => AddType(n)
    case TypeExtensionInfo(n, isStatic, _) => if isStatic then AddTypeExtensionOf(n) else AddTypeExtension(n)
    case DataLoaderInfo(n) => AddDataLoader(n)
  }

  /** What one pass of the loop writes for `item`. */
  function ItemLines(options: set<ModuleOption>, item: SyntaxInfo): (r: seq<Line>)
    ensures |r| <= 1
    ensures r != [] <==> Registered(options, item)
  {
    if Registered(options, item) then [ItemLine(item)] else []
  }

  /** What the loop writes for `items`, in order. */
  function RegistrationLines(options: set<ModuleOption>, items: seq<SyntaxInfo>): seq<Line>
    decreases |items|
  {
    if items == [] then []
    else RegistrationLines(options, items[..|items| - 1]) + ItemLines(options, items[|items| - 1])
  }

  /** The operation types one item adds to `operations`: a type
      extension's own under RegisterTypes, nothing otherwise. */
  function ItemOperations(options: set<ModuleOption>, item: SyntaxInfo): set<RootOperation>
  {
    if item.TypeExtensionInfo? && RegisterTypes in options then item.operationType else {}
  }

  /** The `operations` flags after the loop over `items`. */
  function Operations(options: set<ModuleOption>, items: seq<SyntaxInfo>): set<RootOperation>
    decreases |items|
  {
    if items == [] then {}
    else Operations(options, items[..|items| - 1]) + ItemOperations(options, items[|items| - 1])
  }

  function Rank(op: RootOperation): nat
  {
    match op
    case Query => 0
    case Mutation => 1
    case Subscription => 2
  }

  /** The root types registered for `operations`: each one whose flag is
      set, once, in the order Query, Mutation, Subscription. */
  function RootOperations(operations: set<RootOperation>): (r: seq<RootOperation>)
    ensures Query in r <==> Query in operations
    ensures Mutation in r <==> Mutation in operations
    ensures Subscription in r <==> Subscription in operations
    ensures forall i, j :: 0 <= i < j < |r| ==> Rank(r[i]) < Rank(r[j])
  {
    (if Query in operations then [Query] else [])
    + (if Mutation in operations then [Mutation] else [])
    + (if Subscription in operations then [Subscription] else [])
  }

  /** `WriteTryAddOperationType`: the `ConfigureSchema` call that adds an
      object type named after `op` as that root type unless one is there. */
  function TryAddOperationType(op: RootOperation): seq<Line>
  {
    [ConfigureSchema, TryAddRootType, NewObjectType, NameRootType(op), AsRootType(op)]
  }

  function TryAddOperationTypes(ops: seq<RootOperation>): seq<Line>
  {
    if ops == [] then [] else TryAddOperationType(ops[0]) + TryAddOperationTypes(ops[1..])
  }

  function RootTypeLines(operations: set<RootOperation>): seq<Line>
  {
    TryAddOperationTypes(RootOperations(operations))
  }

  /** The whole generated source for a module and its distinct items. */
  function ModuleSource(moduleName: string, options: set<ModuleOption>, items: seq<SyntaxInfo>): seq<Line>
  {
    Header(moduleName) + RegistrationLines(options, items)
    + RootTypeLines(Operations(options, items)) + Footer()
  }

  // ---------------------------------------------------------------------
  // The generator
  // ---------------------------------------------------------------------

  /** `Generate`: the source added for the compilation, or `None` when
      there is nothing but module declarations to register. */
  method Generate(assemblyName: Option<string>, infos: seq<SyntaxInfo>) returns (source: Option<seq<Line>>)
    ensures source.None? <==> Batch(infos) == []
    ensures source.Some? ==> var chosen := ChosenModule(assemblyName, infos);
      source.value == ModuleSource(chosen.moduleName, chosen.options, Distinct(Batch(infos)))
  {
    var chosen := ChosenModule(assemblyName, infos);
    var batch := Batch(infos);
    if |batch| == 0 {
      return None;
    }

    var code := WriteHeader(chosen.moduleName);

    var items := Distinct(batch);
    var operations;
    code, operations := WriteRegistrations(code, chosen.options, items);
    code := WriteRootTypes(code, operations);
    code := WriteFooter(code);
    assert code == ModuleSource(chosen.moduleName, chosen.options, items);
    return Some(code);
  }

  /** A new builder with the usings, the namespace, the class and the
      opening of the extension method, written one line at a time. */
  method WriteHeader(moduleName: string) returns (code': seq<Line>)
    ensures code' == Header(moduleName)
  {
    code' := [UsingSystem];
    code' := code' + [UsingConfiguration];
    code' := code' + [Blank];
    code' := code' + [NamespaceDecl];
    code' := code' + [OpenBrace(0)];
    code' := code' + [ClassDecl(moduleName)];
    code' := code' + [OpenBrace(1)];
    code' := code' + [MethodDecl(moduleName)];
    code' := code' + [OpenBrace(2)];
  }

  /** The return statement and the closing braces, one line at a time. */
  method WriteFooter(code: seq<Line>) returns (code': seq<Line>)
    ensures code' == code + Footer()
  {
    code' := code + [ReturnBuilder];
    code' := code' + [CloseBrace(2)];
    code' := code' + [CloseBrace(1)];
    code' := code' + [CloseBrace(0)];
  }

  /** The `foreach` over the distinct items: their registration lines
      and the operation types their extensions declare. */
  method WriteRegistrations(code: seq<Line>, options: set<ModuleOption>, items: seq<SyntaxInfo>)
    returns (code': seq<Line>, operations: set<RootOperation>)
    ensures code' == code + RegistrationLines(options, items)
    ensures operations == Operations(options, items)
  {
    code', operations := code, {};
    for i := 0 to |items|
      invariant code' == code + RegistrationLines(options, items[..i])
      invariant operations == Operations(options, items[..i])
    {
      RegistrationStep(options, items, i);
      code', operations := WriteItem(options, items[i], code', operations);
      AppendAssociates(code, RegistrationLines(options, items[..i]), ItemLines(options, items[i]));
    }
    assert items[..|items|] == items;
  }

  /** One pass of the loop: the registration line of `item` if the
      options allow it, and, for a type extension under RegisterTypes, its
      operation types added to `operations` unless all are there already. */
  method WriteItem(options: set<ModuleOption>, item: SyntaxInfo, code: seq<Line>, operations: set<RootOperation>)
    returns (code': seq<Line>, operations': set<RootOperation>)
    ensures code' == code + ItemLines(options, item)
    ensures operations' == operations + ItemOperations(options, item)
  {
    code', operations' := code, operations;
    match item {
      case TypeInfo(n) =>
        if RegisterTypes in options {
          code' := code' + [AddType(n)];
        }
      case TypeExtensionInfo(n, isStatic, t) =>
        if RegisterTypes in options {
          if isStatic {
            code' := code' + [AddTypeExtensionOf(n)];
          } else {
            code' := code' + [AddTypeExtension(n)];
          }
          if t != {} && operations' * t != t {
            operations' := operations' + t;
          }
        }
      case DataLoaderInfo(n) =>
        if RegisterDataLoader in options {
          code' := code' + [AddDataLoader(n)];
        }
      case _ =>
    }
  }

  /** The root-type registrations after the loop: Query, Mutation and
      Subscription, in this order, each if `operations` has its flag. */
  method WriteRootTypes(code: seq<Line>, operations: set<RootOperation>) returns (code': seq<Line>)
    ensures code' == code + RootTypeLines(operations)
  {
    ghost var q := if Query in operations then TryAddOperationType(Query) else [];
    ghost var m := if Mutation in operations then TryAddOperationType(Mutation) else [];
    ghost var u := if Subscription in operations then TryAddOperationType(Subscription) else [];
    code' := code;
    if Query in operations {
      code' := WriteTryAddOperationType(code', Query);
    }
    assert code' == code + q;
    if Mutation in operations {
      code' := WriteTryAddOperationType(code', Mutation);
    }
    assert code' == code + q + m;
    if Subscription in operations {
      code' := WriteTryAddOperationType(code', Subscription);
    }
    assert code' == code + q + m + u;
    RootTypeLinesAppend(operations);
    AppendAssociates(code, q + m, u);
    AppendAssociates(code, q, m);
  }

  /** `WriteTryAddOperationType`: appends the root-type registration of
      `op`. */
  method WriteTryAddOperationType(code: seq<Line>, op: RootOperation) returns (code': seq<Line>)
    ensures code' == code + TryAddOperationType(op)
  {
    code' := code + [ConfigureSchema];
    code' := code' + [TryAddRootType];
    code' := code' + [NewObjectType];
    code' := code' + [NameRootType(op)];
    code' := code' + [AsRootType(op)];
  }

  /** One more pass of the loop. */
  lemma RegistrationStep(options: set<ModuleOption>, items: seq<SyntaxInfo>, i: nat)
    requires i < |items|
    ensures RegistrationLines(options, items[..i + 1]) == RegistrationLines(options, items[..i]) + ItemLines(options, items[i])
    ensures Operations(options, items[..i + 1]) == Operations(options, items[..i]) + ItemOperations(options, items[i])
  {
    assert items[..i + 1][..i] == items[..i];
  }

  /** The root-type section is the three optional registrations, one after
      the other. */
  lemma RootTypeLinesAppend(operations: set<RootOperation>)
    ensures RootTypeLines(operations)
         == (if Query in operations then TryAddOperationType(Query) else [])
            + (if Mutation in operations then TryAddOperationType(Mutation) else [])
            + (if Subscription in operations then TryAddOperationType(Subscription) else [])
  {
    var q := if Query in operations then [Query] else [];
    var m := if Mutation in operations then [Mutation] else [];
    var u := if Subscription in operations then [Subscription] else [];
    assert RootOperations(operations) == q + m + u;
    TryAddOperationTypesAppend(q + m, u);
    TryAddOperationTypesAppend(q, m);
    TryAddAtMostOne(q);
    TryAddAtMostOne(m);
    TryAddAtMostOne(u);
  }

  lemma TryAddAtMostOne(ops: seq<RootOperation>)
    requires |ops| <= 1
    ensures TryAddOperationTypes(ops) == if ops == [] then [] else TryAddOperationType(ops[0])
  {
    if ops != [] {
      assert ops[1..] == [];
    }
  }

  lemma {:induction false} TryAddOperationTypesAppend(a: seq<RootOperation>, b: seq<RootOperation>)
    ensures TryAddOperationTypes(a + b) == TryAddOperationTypes(a) + TryAddOperationTypes(b)
    decreases |a|
  {
    if a == [] {
      assert a + b == b;
    } else {
      assert (a + b)[1..] == a[1..] + b;
      TryAddOperationTypesAppend(a[1..], b);
    }
  }
}
