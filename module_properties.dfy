/**
  What the type-module source generator promises about the source it
  writes: which module it names, which items it registers and under which
  options, which root types it adds and in what order.
 */
module ModuleProperties {
  import opened Options
  import opened ModuleGeneration

  // ---------------------------------------------------------------------
  // The module
  // ---------------------------------------------------------------------

  /** A declared module wins, and the first one declared. */
  lemma FirstDeclaredModuleWins(assemblyName: Option<string>, infos: seq<SyntaxInfo>, i: nat)
    requires i < |infos| && infos[i].ModuleInfo?
    requires forall j :: 0 <= j < i ==> !infos[j].ModuleInfo?
    ensures ChosenModule(assemblyName, infos) == infos[i]
  {
    var k := FirstModuleIndex(infos);
    assert k.Some? by {
      assert infos[i].ModuleInfo?;
    }
    assert !(k.value < i);
    assert !(i < k.value) by {
      assert infos[k.value].ModuleInfo?;
    }
  }

  /** Without a module declaration the module is named after the last
      segment of the assembly name, or `AssemblyTypes` when there is no
      assembly name, and has the default options. */
  lemma DefaultModule(assemblyName: Option<string>, infos: seq<SyntaxInfo>)
    requires forall j :: 0 <= j < |infos| ==> !infos[j].ModuleInfo?
    ensures ChosenModule(assemblyName, infos).options == DefaultOptions
    ensures assemblyName.None? ==> ChosenModule(assemblyName, infos).moduleName == "AssemblyTypes"
    ensures assemblyName.Some? ==> ChosenModule(assemblyName, infos).moduleName == LastSegment(assemblyName.value) + "Types"
  {
    assert FirstModuleIndex(infos).None?;
  }

  /** The module is named after what follows the last dot of the
      assembly name. */
  lemma {:induction false} LastSegmentAfterLastDot(prefix: string, segment: string)
    requires forall i :: 0 <= i < |segment| ==> segment[i] != '.'
    ensures LastSegment(prefix + "." + segment) == segment
    decreases |segment|
  {
    var s := prefix + "." + segment;
    if segment != [] {
      var front := segment[..|segment| - 1];
      assert s[..|s| - 1] == prefix + "." + front;
      LastSegmentAfterLastDot(prefix, front);
      assert segment == front + [segment[|segment| - 1]];
    }
  }

  /** The module of a dotted assembly name without a module declaration. */
  lemma AssemblyNameSegment()
    ensures ChosenModule(Some("Contoso.Api"), [TypeInfo("Query")]).moduleName == "ApiTypes"
  {
    LastSegmentAfterLastDot("Contoso", "Api");
    assert "Contoso" + "." + "Api" == "Contoso.Api";
  }

  // ---------------------------------------------------------------------
  // The items
  // ---------------------------------------------------------------------

  lemma FirstIndexInPrefix<T>(s: seq<T>, front: seq<T>, x: T)
    requires |front| <= |s| && front == s[..|front|] && x in front
    ensures FirstIndex(s, x) == FirstIndex(front, x)
  {
    var k := FirstIndex(front, x);
    assert s[k] == x;
    assert forall j :: 0 <= j < k ==> s[j] == front[j];
  }

  /** An element that does not occur before the end occurs first at the
      end. */
  lemma FirstIndexOfNewLast<T>(s: seq<T>, front: seq<T>)
    requires s != [] && front == s[..|s| - 1] && s[|s| - 1] !in front
    ensures FirstIndex(s, s[|s| - 1]) == |s| - 1
  {
    assert forall m :: 0 <= m < |s| - 1 ==> s[m] == front[m] && s[m] != s[|s| - 1];
  }

  /** `Distinct` keeps the items in the order of their first occurrence
      in the batch. */
  lemma {:induction false} DistinctKeepsFirstOccurrenceOrder<T(!new)>(s: seq<T>)
    ensures forall i, j :: 0 <= i < j < |Distinct(s)| ==>
      FirstIndex(s, Distinct(s)[i]) < FirstIndex(s, Distinct(s)[j])
    decreases |s|
  {
    if s != [] {
      var front, last := s[..|s| - 1], s[|s| - 1];
      DistinctKeepsFirstOccurrenceOrder(front);
      var d, r := Distinct(front), Distinct(s);
      assert r == d || (r == d + [last] && last !in front);
      forall i, j | 0 <= i < j < |r| ensures FirstIndex(s, r[i]) < FirstIndex(s, r[j]) {
        assert r[i] == d[i] && d[i] in front;
        if j < |d| {
          assert r[j] == d[j] && d[j] in front;
          FirstIndexOrderKept(s, front, d[i], d[j]);
        } else {
          assert r[j] == last;
          FirstIndexBeforeNewLast(s, front, d[i]);
        }
      }
    }
  }

  /** Two elements of a prefix keep their order of first occurrence. */
  lemma FirstIndexOrderKept<T>(s: seq<T>, front: seq<T>, x: T, y: T)
    requires |front| <= |s| && front == s[..|front|] && x in front && y in front
    requires FirstIndex(front, x) < FirstIndex(front, y)
    ensures FirstIndex(s, x) < FirstIndex(s, y)
  {
    FirstIndexInPrefix(s, front, x);
    FirstIndexInPrefix(s, front, y);
  }

  /** An element of the prefix occurs before a last element new to it. */
  lemma FirstIndexBeforeNewLast<T>(s: seq<T>, front: seq<T>, x: T)
    requires s != [] && front == s[..|s| - 1] && x in front && s[|s| - 1] !in front
    ensures FirstIndex(s, x) < FirstIndex(s, s[|s| - 1])
  {
    FirstIndexInPrefix(s, front, x);
    FirstIndexOfNewLast(s, front);
  }

  /** A type or a data loader the options let through is registered exactly
      once, however many times it occurs in the batch. */
  lemma ItemRegisteredOnce(options: set<ModuleOption>, s: seq<SyntaxInfo>, item: SyntaxInfo)
    requires item in s && (item.TypeInfo? || item.DataLoaderInfo?) && Registered(options, item)
    ensures multiset(RegistrationLines(options, Distinct(s)))[ItemLine(item)] == 1
  {
    ItemLineCount(options, Distinct(s), item);
  }

  /** In items without duplicates, the line of a type or a data loader
      occurs once when the item is there and registered, and never
      otherwise. */
  lemma {:induction false} ItemLineCount(options: set<ModuleOption>, items: seq<SyntaxInfo>, item: SyntaxInfo)
    requires item.TypeInfo? || item.DataLoaderInfo?
    requires forall i, j :: 0 <= i < j < |items| ==> items[i] != items[j]
    ensures multiset(RegistrationLines(options, items))[ItemLine(item)]
         == if item in items && Registered(options, item) then 1 else 0
    decreases |items|
  {
    if items != [] {
      var front, last := items[..|items| - 1], items[|items| - 1];
      ItemLineCount(options, front, item);
      assert multiset(RegistrationLines(options, items))
          == multiset(RegistrationLines(options, front)) + multiset(ItemLines(options, last));
      assert items == front + [last];
      if last == item {
        assert item !in front by {
          forall i | 0 <= i < |front| ensures front[i] != item {
            assert front[i] == items[i];
          }
        }
      }
    }
  }

  /** For example, a type listed twice ahead of and after a data loader is
      registered once, in its first place. */
  lemma DuplicateItemRegisteredOnce()
    ensures RegistrationLines(DefaultOptions, Distinct([TypeInfo("Book"), DataLoaderInfo("BookById"), TypeInfo("Book")]))
         == [AddType("Book"), AddDataLoader("BookById")]
  {
    var s := [TypeInfo("Book"), DataLoaderInfo("BookById"), TypeInfo("Book")];
    assert s[..2][..1] == [TypeInfo("Book")];
    assert s[..2] == [TypeInfo("Book"), DataLoaderInfo("BookById")];
    assert Distinct(s[..1]) == [TypeInfo("Book")];
    assert Distinct(s) == [TypeInfo("Book"), DataLoaderInfo("BookById")];
    var r := [TypeInfo("Book"), DataLoaderInfo("BookById")];
    assert r[..1] == [TypeInfo("Book")];
  }

  /** Module declarations and the infos the generator does not consume
      never produce a line or a root type. */
  lemma UnregisteredInfosWriteNothing(options: set<ModuleOption>, item: SyntaxInfo)
    requires !Consume(item) || item.ModuleInfo?
    ensures ItemLines(options, item) == [] && ItemOperations(options, item) == {}
  {
  }

  /** Every registration line is the line of an item the options let
      through, and every such item has its line. */
  lemma {:induction false} RegistrationLinesAreRegisteredItems(options: set<ModuleOption>, items: seq<SyntaxInfo>)
    ensures forall l :: l in RegistrationLines(options, items) ==>
      exists i :: 0 <= i < |items| && Registered(options, items[i]) && l == ItemLine(items[i])
    ensures forall i :: 0 <= i < |items| && Registered(options, items[i]) ==>
      ItemLine(items[i]) in RegistrationLines(options, items)
    decreases |items|
  {
    if items != [] {
      var front := items[..|items| - 1];
      RegistrationLinesAreRegisteredItems(options, front);
      assert forall i :: 0 <= i < |front| ==> items[i] == front[i];
    }
  }

  /** Types and type extensions are registered only under RegisterTypes,
      data loaders only under RegisterDataLoader. */
  lemma RegistrationFollowsOptions(options: set<ModuleOption>, items: seq<SyntaxInfo>)
    ensures RegisterTypes !in options ==>
      forall l :: l in RegistrationLines(options, items) ==> l.AddDataLoader?
    ensures RegisterDataLoader !in options ==>
      forall l :: l in RegistrationLines(options, items) ==> !l.AddDataLoader?
  {
    RegistrationLinesAreRegisteredItems(options, items);
  }

  /** With the default options every type, type extension and data loader
      gets exactly one line, in item order. */
  lemma {:induction false} DefaultOptionsRegisterEveryItem(items: seq<SyntaxInfo>)
    requires forall i :: 0 <= i < |items| ==>
      items[i].TypeInfo? || items[i].TypeExtensionInfo? || items[i].DataLoaderInfo?
    ensures |RegistrationLines(DefaultOptions, items)| == |items|
    ensures forall i :: 0 <= i < |items| ==> RegistrationLines(DefaultOptions, items)[i] == ItemLine(items[i])
    decreases |items|
  {
    if items != [] {
      var front := items[..|items| - 1];
      DefaultOptionsRegisterEveryItem(front);
      assert forall i :: 0 <= i < |front| ==> items[i] == front[i];
    }
  }

  // ---------------------------------------------------------------------
  // The root types
  // ---------------------------------------------------------------------

  /** After the loop `operations` holds an operation type exactly when
      RegisterTypes is set and some type extension declares it; `No`
      declares none. */
  lemma {:induction false} OperationsAreTheUnion(options: set<ModuleOption>, items: seq<SyntaxInfo>, op: RootOperation)
    ensures op in Operations(options, items) <==>
      RegisterTypes in options
      && exists i :: 0 <= i < |items| && items[i].TypeExtensionInfo? && op in items[i].operationType
    decreases |items|
  {
    if items != [] {
      var front := items[..|items| - 1];
      OperationsAreTheUnion(options, front, op);
      assert forall i :: 0 <= i < |front| ==> items[i] == front[i];
      if op in Operations(options, items) && !(op in Operations(options, front)) {
        assert items[|items| - 1].TypeExtensionInfo?;
      }
    }
  }

  lemma {:induction false} RootTypeLineFor(ops: seq<RootOperation>, op: RootOperation)
    ensures AsRootType(op) in TryAddOperationTypes(ops) <==> op in ops
    ensures |TryAddOperationTypes(ops)| == 5 * |ops|
    decreases |ops|
  {
    if ops != [] {
      RootTypeLineFor(ops[1..], op);
      assert ops == [ops[0]] + ops[1..];
    }
  }

  /** The root-type section registers each operation type whose flag is
      set, once, with five lines each, in the order Query, Mutation,
      Subscription. */
  lemma RootTypesRegisteredOnceInOrder(operations: set<RootOperation>, op: RootOperation)
    ensures AsRootType(op) in RootTypeLines(operations) <==> op in operations
    ensures |RootTypeLines(operations)| == 5 * |RootOperations(operations)|
    ensures var ops := RootOperations(operations);
      forall i, j :: 0 <= i < j < |ops| ==> Rank(ops[i]) < Rank(ops[j])
  {
    RootTypeLineFor(RootOperations(operations), op);
    match op
    case Query =>
    case Mutation =>
    case Subscription =>
  }

  /** The generated source adds an operation type as a root type exactly
      when RegisterTypes is set and a registered type extension extends it. */
  lemma RootTypesFollowExtensions(options: set<ModuleOption>, items: seq<SyntaxInfo>, op: RootOperation)
    ensures AsRootType(op) in RootTypeLines(Operations(options, items)) <==>
      RegisterTypes in options
      && exists i :: 0 <= i < |items| && items[i].TypeExtensionInfo? && op in items[i].operationType
  {
    OperationsAreTheUnion(options, items, op);
    RootTypesRegisteredOnceInOrder(Operations(options, items), op);
  }
}
