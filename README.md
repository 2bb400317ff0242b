# Expresso expression compiler — Dafny model

Expresso compiles a C# expression string into a delegate at run time. The caller
names a delegate type `T` and the parameter names. `ExpressionCompiler.CompileExpression<T>`
then does four things:

- it pairs the names with the parameter types of `T.Invoke` into an `ExpressoMethod`;
- it collects the set of types the compilation must reference;
- it parses the expression and wraps it in a public method `SingleMethod` returning it,
  inside class `SingleClass` inside namespace `SingleNameSpace`;
- it hands that compilation unit to Roslyn and raises `CompilerException` when emission fails.

`Program.Main` catches `CompilerException` and prints the diagnostics that are errors
or warnings escalated to errors.

This project models that orchestration in Dafny:

- `roslyn.dfy` (module `Roslyn`): the values that cross the boundary to .NET and Roslyn.
  These are `System.Type` (by full name), diagnostics, the syntax nodes Expresso builds,
  the compilation and the emit result.
- `expresso.dfy` (module `Expresso`): the exceptions, `ExpressoParameter`, `ExpressoMethod`,
  `TypeExtensions.ToTypeSyntax`, `ToParameterSyntax` and the parse gate `ToMethodDeclarationSyntax`.
- `expression_compiler.dfy` (module `ExpressionCompiler`): `CreateMethodDeclarationSyntax<T>`
  (an array filled by a loop), the referenced-type `HashSet`, `CreateCompilationUnitSyntax`,
  `Compile` and `CompileExpression`.
- `program.dfy` (module `Program`): the failure filter of `Main`.

Roslyn's parser and emitter are oracles. Every operation that needs one takes it as a
function parameter: `parse: string -> ExpressionSyntax` stands for
`SyntaxFactory.ParseExpression` together with `GetDiagnostics()`, and
`emit: Compilation -> EmitResult` stands for `CSharpCompilation.Emit`. The delegate type
`T` is given by its `Invoke` signature (`DelegateSignature`). `CompileExpression` has a
ghost out-parameter `submitted`. It holds the compilation handed to the emitter, and it is
`None` when `Compile` is never reached.

## Model

| member | source | states |
|---|---|---|
| `Expresso.ToTypeSyntax` | Program.cs:25-28 | The result is the `void` keyword exactly when the type is `void`; otherwise it is the type's full name. |
| `Expresso.TypeSyntaxRoundTrip` | Program.cs:25-28 | `ToTypeSyntax` keeps the full-name text: reading the text back gives the original type, so no two types are written the same way. |
| `Expresso.ToParameterSyntax` | Program.cs:42-44 | A parameter keeps its name, and its type is always written by full name, `void` included. |
| `Expresso.ParameterSyntaxRoundTrip` | Program.cs:42-44 | A parameter's syntax keeps its name and the full-name text of its type; reading both back gives the original parameter. |
| `Expresso.ParameterTypeAgreesWithTypeSyntax` | Program.cs:42-44 | A parameter's type syntax equals `ToTypeSyntax` of its type exactly when the type is not `void`. |
| `Expresso.ToParameterList` | Program.cs:75 | Element i of the `Select` is `ToParameterSyntax` of parameter i, so number and order are kept. |
| `Expresso.ToMethodDeclarationSyntax` | Program.cs:63-77 | Fails with `CompilerException` carrying exactly the parse diagnostics iff there are any. Otherwise the declaration is public only, has the given name and mapped return type, has parameters mapped position by position, and has a body of exactly one `return` of the parsed expression. |
| `Expresso.DeclarationPreservesSignature` | Program.cs:73-76 | A built declaration keeps the signature as text: reading it back gives the method's name, the full names of its return and parameter types, and its parameter names, in order. |
| `Expresso.ParseGateIgnoresSignature` | Program.cs:65-71 | Whether the declaration is built depends only on the expression text; a rejection carries the same diagnostics whatever the signature. |
| `ExpressionCompiler.CreateMethodDeclarationSyntax` | Program.cs:129-145 | `ArgumentException` (both counts recorded) iff the delegate's parameter count differs from the number of names. Otherwise the method keeps name, return type and expression, and parameter i is (name i, delegate parameter type i). |
| `ExpressionCompiler.CollectReferencedTypes` | Program.cs:86-91 | A type is in the set iff it is a parameter type, or the return type and not `void`, or `object`. |
| `ExpressionCompiler.ReferencedVoidOnlyThroughParameters` | Program.cs:86-91 | `object` is always referenced; `void` is referenced only if some parameter has type `void`, never as the return type. |
| `ExpressionCompiler.CreateCompilationUnitSyntax` | Program.cs:165-173 | The unit has exactly one namespace with the given name, holding exactly one class with the given name, holding exactly the given methods. |
| `ExpressionCompiler.GetType` | Program.cs:100 | Finds a class whose namespace-qualified name is the one asked for, declared in one of the unit's namespaces; `None` only when no class has that name. |
| `ExpressionCompiler.FindClass` | Program.cs:100 | Within one namespace: a found class is declared there under that qualified name; `None` only when no class there has it. |
| `ExpressionCompiler.GetMember` | Program.cs:100 | Member lookup with the default binding flags returns the public members with that name, and no others. |
| `ExpressionCompiler.SynthesizedMethodIsFound` | Program.cs:93-102 | Looking up `SingleNameSpace.SingleClass` in the synthesized unit finds the synthesized class. Looking up `SingleMethod` in it finds exactly the synthesized method, which is public, so `member[0]` exists. |
| `ExpressionCompiler.CreateCompilation` | Program.cs:109-113 | The compilation is named `InMemoryAssembly`, is a DLL, has the one syntax tree, and references exactly the used types. |
| `ExpressionCompiler.Compile` | Program.cs:105-127 | Fails with `CompilerException` carrying the emitter's diagnostics iff emission fails; otherwise yields the emitted image. |
| `ExpressionCompiler.CompileExpression` | Program.cs:82-103 | On an arity mismatch: `ArgumentException`, and the backend is not reached. On parse diagnostics: `CompilerException` with exactly those diagnostics, and the backend is not reached. Otherwise the emitter receives one namespace, one class and the `SingleMethod` declaration, referencing exactly the referenced-type set; the result fails iff emission fails. |
| `ExpressionCompiler.SynthesizedDeclarationMatchesDelegate` | Program.cs:84-94 | The synthesized declaration carries the delegate's signature as text. It is named `SingleMethod`, and its return type reads back as the delegate's. Its parameter i has name i and the full name of the delegate's i-th parameter type. |
| `Program.Failures` | Program.cs:212-213 | Keeps a diagnostic iff it is an error or a warning-as-error; never grows the list. |
| `Program.FailuresAppend` | Program.cs:212-213 | Filtering a concatenation gives the concatenation of the filtered parts, so order is kept. |
| `Program.FailuresCount` | Program.cs:212-213 | Each failing diagnostic is kept as many times as it occurs; every other one is dropped. |
| `Program.FailuresKeepAllFailures` | Program.cs:212-213 | A list made only of failing diagnostics passes through unchanged. |
| `Program.FailuresIdempotent` | Program.cs:212-213 | Filtering twice equals filtering once. |
| `Program.CompileFailureIsReported` | Program.cs:117-121 | Records an assumption about the emitter, carried through `Compile`'s contract. If the emitter fails exactly when it reports a failing diagnostic, a `CompilerException` from `Compile` always leaves `Main` something to print. |

## Left out

- Roslyn itself: how `ParseExpression`, `ParseTypeName`, `CSharpCompilation.Create` and `Emit` behave. Parsing and emitting are oracle parameters. A parsed type name is held as its text, and a parsed expression as its text plus its diagnostics.
- `System.Type` is identified by its full name alone. Two distinct types with the same full name (from different assemblies) are not told apart.
- The model takes a type's full-name text as naming that type in C# syntax. The source writes every type as `ParseTypeName(type.FullName)`, which does not name the type for nested types (`Ns.Outer+Inner`), closed generic types (``List`1[[System.Int32, …]]``) or by-ref parameters (`System.Int32&`). For such delegates the declaration does not have the delegate's signature and emission fails. The read-back lemmas therefore speak of the text kept, not of the type the C# compiler would see.
- Reflection: `typeof(T).GetMethod("Invoke")` and `GetParameters` become the `DelegateSignature` value. `where T : Delegate` also admits `System.Delegate` and `System.MulticastDelegate`, which declare no `Invoke`: `GetMethod` returns null and Program.cs:132 throws `NullReferenceException` before the arity check. `DelegateSignature` cannot represent that case, so the model does not capture it. `Assembly.Load`, `assembly.GetType(...)` on the loaded assembly and `Delegate.CreateDelegate` are not modelled. `CompileExpression` stops at the emitted image; the lookup of `SingleNameSpace.SingleClass` and `SingleMethod` is modelled on the compiled syntax (`GetType`, `GetMember`), which assumes the emitter keeps declared names.
- `MetadataReference.CreateFromFile(x.Assembly.Location)` and the `MemoryStream`: file and stream I/O. The compilation's references are the referenced types themselves.
- Exception message strings, including the `ArgumentException` text, whose two interpolated counts appear in swapped positions. `ArgumentError` records the two counts by meaning, not by position in the text.
- `Compile` drops the emitter's diagnostics when emission succeeds, and so does the model.
- `Main`'s demo calls, `Stopwatch` timing and console output. Only the failure filter is modelled. `Main` catches only `CompilerException`, so an `ArgumentException` escapes; this is not modelled further.
- The private overload `CreateMethodDeclarationSyntax(string, Type, string, params ExpressoParameter[])` at Program.cs:147-163 is never called. Its behaviour is identical to `ToMethodDeclarationSyntax`, which models it.
- `ExpressoParameter` and `ExpressoMethod` are immutable in the source, so they are datatypes. The `Parameters` array of an `ExpressoMethod` is never written after construction and is held as its contents.
- The sample calculator and the `IsDynamic` property option: they are not part of this model. A variable registry, compile cache and concurrency control are not present in this source, so they are not modelled.
