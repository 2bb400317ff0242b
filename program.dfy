/** The failure report of Program.Main: of the diagnostics a CompilerException
    carries, the ones written to standard error. */
module Program {
  import opened Roslyn
  import opened Expresso
  import opened ExpressionCompiler

  /** A diagnostic that makes the compilation fail: an error, or a warning
      escalated to an error. */
  predicate IsFailure(d: Diagnostic)
  {
    d.isWarningAsError || d.severity == Severity.Error
  }

  /** e.Diagnostics.Where(d => d.IsWarningAsError || d.Severity == Error) */
  function Failures(ds: seq<Diagnostic>): (r: seq<Diagnostic>)
    ensures |r| <= |ds|
    ensures forall d :: d in r <==> d in ds && IsFailure(d)
  {
    if ds == [] then []
    else (if IsFailure(ds[0]) then [ds[0]] else []) + Failures(ds[1..])
  }

  /** The filter keeps the order: filtering a concatenation is concatenating the
      filtered parts. */
  lemma {:induction false} FailuresAppend(a: seq<Diagnostic>, b: seq<Diagnostic>)
    ensures Failures(a + b) == Failures(a) + Failures(b)
  {
    if a == [] {
      assert a + b == b;
    } else {
      assert (a + b)[0] == a[0];
      assert (a + b)[1..] == a[1..] + b;
      FailuresAppend(a[1..], b);
    }
  }

  /** Each failing diagnostic is kept as often as it occurs, every other one is dropped. */
  lemma {:induction false} FailuresCount(ds: seq<Diagnostic>, d: Diagnostic)
    ensures multiset(Failures(ds))[d] == if IsFailure(d) then multiset(ds)[d] else 0
  {
    if ds != [] {
      assert ds == [ds[0]] + ds[1..];
      FailuresCount(ds[1..], d);
    }
  }

  /** A sequence of failing diagnostics is reported in full. */
  lemma {:induction false} FailuresKeepAllFailures(ds: seq<Diagnostic>)
    requires forall i :: 0 <= i < |ds| ==> IsFailure(ds[i])
    ensures Failures(ds) == ds
  {
    if ds != [] {
      FailuresKeepAllFailures(ds[1..]);
    }
  }

  /** Filtering twice is filtering once. */
  lemma {:induction false} FailuresIdempotent(ds: seq<Diagnostic>)
    ensures Failures(Failures(ds)) == Failures(ds)
  {
    var r := Failures(ds);
    forall i | 0 <= i < |r|
      ensures IsFailure(r[i])
    {
      assert r[i] in r;
    }
    FailuresKeepAllFailures(r);
  }

  /** Records an assumption about the emitter rather than a property of Expresso's
      own code: when the emitter fails exactly when it reports a failing
      diagnostic, a CompilerException raised by Compile always leaves Main
      something to print, and a successful Compile had nothing to print. The
      conclusion is that assumption carried through Compile's contract. */
  lemma CompileFailureIsReported(syntaxTree: CompilationUnitSyntax, usedTypes: set<ClrType>, emit: Compilation -> EmitResult)
    requires emit(CreateCompilation(syntaxTree, usedTypes)).success
             <==> Failures(emit(CreateCompilation(syntaxTree, usedTypes)).diagnostics) == []
    ensures Compile(syntaxTree, usedTypes, emit).Failure? ==>
      Failures(Compile(syntaxTree, usedTypes, emit).error.diagnostics) != []
    ensures Compile(syntaxTree, usedTypes, emit).Success? ==>
      Failures(emit(CreateCompilation(syntaxTree, usedTypes)).diagnostics) == []
  {
  }
}
