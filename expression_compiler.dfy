/** ExpressionCompiler: turns a delegate signature, parameter names and an
    expression into a one-method compilation unit, hands it to the compiler, and
    returns the emitted assembly image.

    The Roslyn parser and the emitter are oracles, passed in as functions:
    `parse` stands for SyntaxFactory.ParseExpression and `emit` for
    CSharpCompilation.Emit. The delegate type T is given by its Invoke signature. */
module ExpressionCompiler {
  import opened Roslyn
  import opened Expresso

  datatype Option<T> = None | Some(value: T)

  /** typeof(T).GetMethod("Invoke"): the delegate's parameter types, in order, and
      its return type. */
  datatype DelegateSignature = DelegateSignature(parameterTypes: seq<ClrType>, returnType: ClrType)

  const SingleMethod: string := "SingleMethod"
  const SingleNameSpace: string := "SingleNameSpace"
  const SingleClass: string := "SingleClass"
  const InMemoryAssembly: string := "InMemoryAssembly"

  // ---------------------------------------------------------------- CreateMethodDeclarationSyntax<T>

  /** The method description that a delegate signature and a list of names of
      the same length determine: names and types paired position by position. */
  function SynthesizedMethod(signature: DelegateSignature, name: string, expression: string, parameterNames: seq<string>): ExpressoMethod
    requires |parameterNames| == |signature.parameterTypes|
  {
    ExpressoMethod(name, signature.returnType, expression,
      seq(|parameterNames|, i requires 0 <= i < |parameterNames| =>
        ExpressoParameter(parameterNames[i], signature.parameterTypes[i])))
  }

  /** CreateMethodDeclarationSyntax<T>: ArgumentException when the number of names
      differs from the delegate's parameter count; otherwise parameter i is named
      parameterNames[i] and has the delegate's i-th parameter type. */
  method CreateMethodDeclarationSyntax(signature: DelegateSignature, name: string, expression: string, parameterNames: seq<string>)
    returns (r: Result<ExpressoMethod>)
    ensures r.Failure? <==> |signature.parameterTypes| != |parameterNames|
    ensures r.Failure? ==> r.error == ArgumentError(|signature.parameterTypes|, |parameterNames|)
    ensures r.Success? ==>
      && r.value.name == name
      && r.value.returnType == signature.returnType
      && r.value.expression == expression
      && |r.value.parameters| == |parameterNames|
      && (forall i :: 0 <= i < |parameterNames| ==>
            r.value.parameters[i] == ExpressoParameter(parameterNames[i], signature.parameterTypes[i]))
    ensures r.Success? ==> r.value == SynthesizedMethod(signature, name, expression, parameterNames)
  {
    var parameters := signature.parameterTypes;
    if |parameters| != |parameterNames| {
      return Failure(ArgumentError(|parameters|, |parameterNames|));
    }
    var expressoParameters := new ExpressoParameter[|parameters|];
    for i := 0 to |parameters|
      invariant forall k :: 0 <= k < i ==> expressoParameters[k] == ExpressoParameter(parameterNames[k], parameters[k])
    {
      expressoParameters[i] := ExpressoParameter(parameterNames[i], parameters[i]);
    }
    return Success(ExpressoMethod(name, signature.returnType, expression, expressoParameters[..]));
  }

  // ---------------------------------------------------------------- referenced types

  /** A type the compilation must reference: a parameter type, the return type
      unless it is void, or object. */
  ghost predicate IsReferencedType(m: ExpressoMethod, t: ClrType)
  {
    || (exists p :: p in m.parameters && p.paramType == t)
    || (t == m.returnType && t != VoidType)
    || t == ObjectType
  }

  /** The HashSet `allTypes` of CompileExpression. */
  method CollectReferencedTypes(m: ExpressoMethod) returns (allTypes: set<ClrType>)
    ensures forall t :: t in allTypes <==> IsReferencedType(m, t)
  {
    allTypes := set p | p in m.parameters :: p.paramType;
    if m.returnType != VoidType {
      allTypes := allTypes + {m.returnType};
    }
    allTypes := allTypes + {ObjectType};
  }

  /** object is always referenced, and void only through a parameter: the return
      type void is never added. */
  lemma ReferencedVoidOnlyThroughParameters(m: ExpressoMethod)
    ensures IsReferencedType(m, ObjectType)
    ensures IsReferencedType(m, VoidType) <==> exists p :: p in m.parameters && p.paramType == VoidType
  {
  }

  // ---------------------------------------------------------------- CreateCompilationUnitSyntax

  /** One namespace holding one class holding the given methods. */
  function CreateCompilationUnitSyntax(nameSpaceName: string, className: string, methods: seq<MethodDeclarationSyntax>): (r: CompilationUnitSyntax)
    ensures |r.members| == 1 && r.members[0].name == nameSpaceName
    ensures |r.members[0].members| == 1
    ensures r.members[0].members[0].identifier == className
    ensures r.members[0].members[0].members == methods
  {
    CompilationUnit([NamespaceDeclaration(nameSpaceName, [ClassDeclaration(className, methods)])])
  }

  /** assembly.GetType(qualifiedName), read off the syntax that was compiled:
      the first class whose namespace-qualified name matches, None when none does. */
  function GetType(namespaces: seq<NamespaceDeclarationSyntax>, qualifiedName: string): (r: Option<ClassDeclarationSyntax>)
    ensures r.Some? ==> exists ns :: ns in namespaces && r.value in ns.members && ns.name + "." + r.value.identifier == qualifiedName
    ensures r.None? ==> forall ns, c :: ns in namespaces && c in ns.members ==> ns.name + "." + c.identifier != qualifiedName
  {
    if namespaces == [] then None
    else match FindClass(namespaces[0].name, namespaces[0].members, qualifiedName)
      case Some(c) => Some(c)
      case None => GetType(namespaces[1..], qualifiedName)
  }

  function FindClass(nameSpaceName: string, classes: seq<ClassDeclarationSyntax>, qualifiedName: string): (r: Option<ClassDeclarationSyntax>)
    ensures r.Some? ==> r.value in classes && nameSpaceName + "." + r.value.identifier == qualifiedName
    ensures r.None? ==> forall c :: c in classes ==> nameSpaceName + "." + c.identifier != qualifiedName
  {
    if classes == [] then None
    else if nameSpaceName + "." + classes[0].identifier == qualifiedName then Some(classes[0])
    else FindClass(nameSpaceName, classes[1..], qualifiedName)
  }

  /** type.GetMember(name) with the default binding flags: the public members with
      that name, in declaration order. */
  function GetMember(methods: seq<MethodDeclarationSyntax>, name: string): (r: seq<MethodDeclarationSyntax>)
    ensures forall d :: d in r <==> d in methods && d.identifier == name && PublicKeyword in d.modifiers
  {
    if methods == [] then []
    else (if methods[0].identifier == name && PublicKeyword in methods[0].modifiers then [methods[0]] else [])
         + GetMember(methods[1..], name)
  }

  /** The lookup of "SingleNameSpace.SingleClass" and then "SingleMethod" finds the
      synthesized class and exactly the synthesized method, so `member[0]` exists
      and is that method. ToMethodDeclarationSyntax makes every declaration public,
      so the declaration CompileExpression submits meets the requirements. */
  lemma SynthesizedMethodIsFound(d: MethodDeclarationSyntax)
    requires d.identifier == SingleMethod
    requires PublicKeyword in d.modifiers
    ensures GetType(CreateCompilationUnitSyntax(SingleNameSpace, SingleClass, [d]).members, SingleNameSpace + "." + SingleClass)
      == Some(ClassDeclaration(SingleClass, [d]))
    ensures GetMember([d], SingleMethod) == [d]
  {
    var unit := CreateCompilationUnitSyntax(SingleNameSpace, SingleClass, [d]);
    assert FindClass(SingleNameSpace, unit.members[0].members, SingleNameSpace + "." + SingleClass)
      == Some(ClassDeclaration(SingleClass, [d]));
  }

  // ---------------------------------------------------------------- Compile

  /** CSharpCompilation.Create("InMemoryAssembly", [tree], references, DLL) */
  function CreateCompilation(syntaxTree: CompilationUnitSyntax, usedTypes: set<ClrType>): (c: Compilation)
    ensures c.syntaxTrees == [syntaxTree] && c.references == usedTypes
    ensures c.assemblyName == InMemoryAssembly && c.outputKind == DynamicallyLinkedLibrary
  {
    Compilation(InMemoryAssembly, [syntaxTree], usedTypes, DynamicallyLinkedLibrary)
  }

  /** Compile: CompilerException with the emitter's diagnostics when emission
      fails, the emitted image otherwise. */
  function Compile(syntaxTree: CompilationUnitSyntax, usedTypes: set<ClrType>, emit: Compilation -> EmitResult): (r: Result<seq<bv8>>)
    ensures r.Failure? <==> !emit(CreateCompilation(syntaxTree, usedTypes)).success
    ensures r.Failure? ==> r.error == CompilerError(emit(CreateCompilation(syntaxTree, usedTypes)).diagnostics)
    ensures r.Success? ==> r.value == emit(CreateCompilation(syntaxTree, usedTypes)).image
  {
    var result := emit(CreateCompilation(syntaxTree, usedTypes));
    if !result.success then Failure(CompilerError(result.diagnostics)) else Success(result.image)
  }

  // ---------------------------------------------------------------- CompileExpression

  /** CompileExpression<T>. `submitted` records the compilation handed to the
      emitter, None when Compile was never reached. The result stops at the
      emitted image: loading it and binding the delegate are not modelled. */
  method CompileExpression(signature: DelegateSignature, expression: string, parameterNames: seq<string>,
                           parse: string -> ExpressionSyntax, emit: Compilation -> EmitResult)
    returns (r: Result<seq<bv8>>, ghost submitted: Option<Compilation>)
    ensures |signature.parameterTypes| != |parameterNames| ==>
      r == Failure(ArgumentError(|signature.parameterTypes|, |parameterNames|))
    ensures |signature.parameterTypes| == |parameterNames| && parse(expression).diagnostics != [] ==>
      r == Failure(CompilerError(parse(expression).diagnostics))
    ensures r.Success? ==> |signature.parameterTypes| == |parameterNames| && parse(expression).diagnostics == []
    ensures submitted.None? <==> |signature.parameterTypes| != |parameterNames| || parse(expression).diagnostics != []
    ensures submitted.Some? ==>
      && (var m := SynthesizedMethod(signature, SingleMethod, expression, parameterNames);
          && ToMethodDeclarationSyntax(m, parse).Success?
          && submitted.value == CreateCompilation(
               CreateCompilationUnitSyntax(SingleNameSpace, SingleClass, [ToMethodDeclarationSyntax(m, parse).value]),
               submitted.value.references)
          && (forall t :: t in submitted.value.references <==> IsReferencedType(m, t)))
      && (r.Success? <==> emit(submitted.value).success)
      && (r.Failure? ==> r.error == CompilerError(emit(submitted.value).diagnostics))
      && (r.Success? ==> r.value == emit(submitted.value).image)
  {
    submitted := None;
    var created := CreateMethodDeclarationSyntax(signature, SingleMethod, expression, parameterNames);
    if created.Failure? {
      return Failure(created.error), submitted;
    }
    var expressoMethod := created.value;

    var allTypes := CollectReferencedTypes(expressoMethod);

    var declaration := ToMethodDeclarationSyntax(expressoMethod, parse);
    if declaration.Failure? {
      return Failure(declaration.error), submitted;
    }
    var compilationUnit := CreateCompilationUnitSyntax(SingleNameSpace, SingleClass, [declaration.value]);

    submitted := Some(CreateCompilation(compilationUnit, allTypes));
    r := Compile(compilationUnit, allTypes, emit);
  }

  /** End to end, the synthesized declaration carries the delegate's signature as
      text: it is named SingleMethod, its return type reads back as the delegate's
      return type, and parameter i carries name i and the full name of the
      delegate's i-th parameter type. */
  lemma SynthesizedDeclarationMatchesDelegate(signature: DelegateSignature, expression: string, parameterNames: seq<string>,
                                              parse: string -> ExpressionSyntax)
    requires |parameterNames| == |signature.parameterTypes|
    requires parse(expression).diagnostics == []
    ensures var d := ToMethodDeclarationSyntax(SynthesizedMethod(signature, SingleMethod, expression, parameterNames), parse).value;
      && d.identifier == SingleMethod
      && TypeOfSyntax(d.returnType) == signature.returnType
      && |d.parameters| == |parameterNames|
      && forall i :: 0 <= i < |parameterNames| ==>
           d.parameters[i].identifier == parameterNames[i] && TypeOfSyntax(d.parameters[i].paramType) == signature.parameterTypes[i]
  {
    var m := SynthesizedMethod(signature, SingleMethod, expression, parameterNames);
    DeclarationPreservesSignature(m, parse);
    var d := ToMethodDeclarationSyntax(m, parse).value;
    forall i | 0 <= i < |parameterNames|
      ensures d.parameters[i].identifier == parameterNames[i] && TypeOfSyntax(d.parameters[i].paramType) == signature.parameterTypes[i]
    {
      assert DeclaredSignature(d).parameters[i] == m.parameters[i];
    }
  }
}
