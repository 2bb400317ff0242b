/** The part of the .NET runtime and of the Roslyn C# compiler that Expresso talks to,
    reduced to the values that cross the boundary. Parsing and emitting are not
    modelled here: they are oracles that the operations of ExpressionCompiler take
    as function parameters. */
module Roslyn {

  /** A runtime type (System.Type), identified by its full name. */
  datatype ClrType = ClrType(fullName: string)

  /** typeof(void) */
  const VoidType: ClrType := ClrType("System.Void")

  /** typeof(object) */
  const ObjectType: ClrType := ClrType("System.Object")

  /** Microsoft.CodeAnalysis.DiagnosticSeverity */
  datatype Severity = Hidden | Info | Warning | Error

  /** Microsoft.CodeAnalysis.Diagnostic: its id, severity, whether it is a warning
      that the compilation options escalated to an error, and its message. */
  datatype Diagnostic = Diagnostic(id: string, severity: Severity, isWarningAsError: bool, message: string)

  /** A type as it appears in syntax: the `void` keyword, or a type name parsed
      from text (held here as that text). */
  datatype TypeSyntax = VoidKeyword | NamedType(name: string)

  /** A parsed expression tree. The tree itself belongs to the parser; the model
      keeps its full text and the diagnostics the parser attached to it. */
  datatype ExpressionSyntax = ExpressionSyntax(fullText: string, diagnostics: seq<Diagnostic>)

  datatype ParameterSyntax = ParameterSyntax(identifier: string, paramType: TypeSyntax)

  datatype StatementSyntax = ReturnStatement(expression: ExpressionSyntax)

  datatype BlockSyntax = Block(statements: seq<StatementSyntax>)

  datatype Modifier = PublicKeyword | StaticKeyword

  datatype MethodDeclarationSyntax = MethodDeclaration(
    returnType: TypeSyntax,
    identifier: string,
    modifiers: seq<Modifier>,
    parameters: seq<ParameterSyntax>,
    body: BlockSyntax)

  datatype ClassDeclarationSyntax = ClassDeclaration(identifier: string, members: seq<MethodDeclarationSyntax>)

  datatype NamespaceDeclarationSyntax = NamespaceDeclaration(name: string, members: seq<ClassDeclarationSyntax>)

  datatype CompilationUnitSyntax = CompilationUnit(members: seq<NamespaceDeclarationSyntax>)

  datatype OutputKind = ConsoleApplication | DynamicallyLinkedLibrary

  /** CSharpCompilation.Create(name, syntaxTrees, references, options) */
  datatype Compilation = Compilation(
    assemblyName: string,
    syntaxTrees: seq<CompilationUnitSyntax>,
    references: set<ClrType>,
    outputKind: OutputKind)

  /** The outcome of Compilation.Emit: success flag, diagnostics, and the bytes
      written to the output stream. */
  datatype EmitResult = EmitResult(success: bool, diagnostics: seq<Diagnostic>, image: seq<bv8>)
}
