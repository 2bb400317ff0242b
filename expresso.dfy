/** The value types of Expresso (ExpressoParameter, ExpressoMethod), the exceptions
    it raises, and the translation of a method description into C# syntax. */
module Expresso {
  import opened Roslyn

  /** The two exceptions the compiler raises. ArgumentException carries the
      delegate's parameter count and the number of names supplied; its message
      text is not modelled. CompilerException carries its diagnostics. */
  datatype Error =
    | ArgumentError(delegateParameters: nat, suppliedNames: nat)
    | CompilerError(diagnostics: seq<Diagnostic>)

  datatype Result<T> = Success(value: T) | Failure(error: Error)

  datatype ExpressoParameter = ExpressoParameter(name: string, paramType: ClrType)

  datatype ExpressoMethod = ExpressoMethod(
    name: string,
    returnType: ClrType,
    expression: string,
    parameters: seq<ExpressoParameter>)

  /** What a method declaration says about its caller-visible shape. */
  datatype MethodSignature = MethodSignature(name: string, returnType: ClrType, parameters: seq<ExpressoParameter>)

  // ---------------------------------------------------------------- TypeExtensions

  /** TypeExtensions.ToTypeSyntax: `void` becomes the keyword, every other type
      the type name parsed from its full name. */
  function ToTypeSyntax(t: ClrType): (r: TypeSyntax)
    ensures r == VoidKeyword <==> t == VoidType
    ensures r.NamedType? ==> r.name == t.fullName
  {
    if t == VoidType then VoidKeyword else NamedType(t.fullName)
  }

  /** Reads the type back from type syntax, taking a type name's text as the full
      name of the type it stands for; the inverse of ToTypeSyntax on that text. */
  function TypeOfSyntax(s: TypeSyntax): ClrType
  {
    match s
    case VoidKeyword => VoidType
    case NamedType(name) => ClrType(name)
  }

  lemma TypeSyntaxRoundTrip(t: ClrType)
    ensures TypeOfSyntax(ToTypeSyntax(t)) == t
  {
  }

  // ---------------------------------------------------------------- ExpressoParameter

  /** ExpressoParameter.ToParameterSyntax: the parameter's name, and its type parsed
      from its full name (no special case for void, unlike ToTypeSyntax). */
  function ToParameterSyntax(p: ExpressoParameter): (r: ParameterSyntax)
    ensures r.identifier == p.name
    ensures r.paramType.NamedType? && r.paramType.name == p.paramType.fullName
  {
    ParameterSyntax(p.name, NamedType(p.paramType.fullName))
  }

  /** Reads the parameter back from a parameter declaration: its identifier and the
      full-name text of its type; the inverse of ToParameterSyntax. */
  function ParameterOfSyntax(s: ParameterSyntax): ExpressoParameter
  {
    ExpressoParameter(s.identifier, TypeOfSyntax(s.paramType))
  }

  lemma ParameterSyntaxRoundTrip(p: ExpressoParameter)
    ensures ParameterOfSyntax(ToParameterSyntax(p)) == p
  {
  }

  /** A parameter's type is written as ToTypeSyntax would write it exactly when
      the parameter is not of type void. */
  lemma ParameterTypeAgreesWithTypeSyntax(p: ExpressoParameter)
    ensures ToParameterSyntax(p).paramType == ToTypeSyntax(p.paramType) <==> p.paramType != VoidType
  {
  }

  /** Parameters.Select(x => x.ToParameterSyntax()).ToArray() */
  function ToParameterList(ps: seq<ExpressoParameter>): (r: seq<ParameterSyntax>)
    ensures |r| == |ps|
    ensures forall i :: 0 <= i < |ps| ==> r[i] == ToParameterSyntax(ps[i])
  {
    seq(|ps|, i requires 0 <= i < |ps| => ToParameterSyntax(ps[i]))
  }

  // ---------------------------------------------------------------- ExpressoMethod

  /** ExpressoMethod.ToMethodDeclarationSyntax. The expression text is parsed first;
      any diagnostic on the parsed expression raises CompilerException with those
      diagnostics. Otherwise the result is a public method with the mapped return
      type, the supplied name, the parameters in order, and a body that returns
      the parsed expression. */
  function ToMethodDeclarationSyntax(m: ExpressoMethod, parse: string -> ExpressionSyntax): (r: Result<MethodDeclarationSyntax>)
    ensures r.Failure? <==> parse(m.expression).diagnostics != []
    ensures r.Failure? ==> r.error == CompilerError(parse(m.expression).diagnostics)
    ensures r.Success? ==>
      && r.value.modifiers == [PublicKeyword]
      && r.value.identifier == m.name
      && r.value.returnType == ToTypeSyntax(m.returnType)
      && |r.value.parameters| == |m.parameters|
      && (forall i :: 0 <= i < |m.parameters| ==> r.value.parameters[i] == ToParameterSyntax(m.parameters[i]))
      && r.value.body == Block([ReturnStatement(parse(m.expression))])
  {
    var returnStatement := parse(m.expression);
    if returnStatement.diagnostics != [] then
      Failure(CompilerError(returnStatement.diagnostics))
    else
      Success(MethodDeclaration(
        ToTypeSyntax(m.returnType),
        m.name,
        [PublicKeyword],
        ToParameterList(m.parameters),
        Block([ReturnStatement(returnStatement)])))
  }

  function SignatureOf(m: ExpressoMethod): MethodSignature
  {
    MethodSignature(m.name, m.returnType, m.parameters)
  }

  /** The signature text a method declaration carries, read back from its syntax:
      its identifier, and type names taken as full names. */
  function DeclaredSignature(d: MethodDeclarationSyntax): MethodSignature
  {
    MethodSignature(
      d.identifier,
      TypeOfSyntax(d.returnType),
      seq(|d.parameters|, i requires 0 <= i < |d.parameters| => ParameterOfSyntax(d.parameters[i])))
  }

  /** The declaration keeps the full-name text of the method's signature: reading
      it back gives the method's name, the full names of its return and parameter
      types, and its parameter names, in order. Whether the C# compiler reads such a
      full name as the same type is not decided here. */
  lemma DeclarationPreservesSignature(m: ExpressoMethod, parse: string -> ExpressionSyntax)
    requires ToMethodDeclarationSyntax(m, parse).Success?
    ensures DeclaredSignature(ToMethodDeclarationSyntax(m, parse).value) == SignatureOf(m)
  {
    var d := ToMethodDeclarationSyntax(m, parse).value;
    var back := DeclaredSignature(d).parameters;
    forall i | 0 <= i < |m.parameters|
      ensures back[i] == m.parameters[i]
    {
      ParameterSyntaxRoundTrip(m.parameters[i]);
    }
    TypeSyntaxRoundTrip(m.returnType);
  }

  /** The parse gate decides alone: the declaration is built exactly when the
      parser reports nothing, whatever the name, return type and parameters. */
  lemma ParseGateIgnoresSignature(m1: ExpressoMethod, m2: ExpressoMethod, parse: string -> ExpressionSyntax)
    requires m1.expression == m2.expression
    ensures ToMethodDeclarationSyntax(m1, parse).Success? == ToMethodDeclarationSyntax(m2, parse).Success?
    ensures ToMethodDeclarationSyntax(m1, parse).Failure? ==>
      ToMethodDeclarationSyntax(m1, parse) == ToMethodDeclarationSyntax(m2, parse)
  {
  }
}
