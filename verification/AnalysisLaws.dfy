/** What the analysis reports is what the expression contains, no less and no more. */
module AnalysisLaws {
  import opened Basics
  import opened Expressions

  /** `sub` is evaluated somewhere in `e`; the names behind the head of a path are keys, not roots. */
  ghost predicate Inside(e: Expr, sub: Expr) {
    sub == e ||
    match e
    case Index(inner) => Inside(inner, sub)
    case Not(operand) => Inside(operand, sub)
    case Binary(_, lhs, rhs) => Inside(lhs, sub) || Inside(rhs, sub)
    case Call(_, args) => exists i | 0 <= i < |args| :: Inside(args[i], sub)
    case Context(parts) => exists i | 0 <= i < |parts| :: Read(e, i) && Inside(parts[i], sub)
    case _ => false
  }

  ghost predicate Names(e: Expr, root: string) {
    exists name :: Inside(e, Identifier(name)) && Lower(name) == root
  }

  ghost predicate CallsAny(e: Expr, functions: set<Function>) {
    exists f, args :: f in functions && Inside(e, Call(f, args))
  }

  const STATUS := {Success, Always, Cancelled, Failure}

  /** The analysis reports exactly the roots and functions in the expression. */
  ghost predicate Exact(e: Expr, a: Analysis) {
    && (forall root :: root in a.roots <==> Names(e, root))
    && (a.status <==> CallsAny(e, STATUS))
    && (a.hash <==> CallsAny(e, {HashFiles}))
  }

  // ---------------------------------------------------------------- lists of parts

  lemma {:induction false} ArgsReport(e: Expr, n: nat)
    requires e.Call? && n <= |e.args|
    ensures var a := AnalyzeArgs(e, n);
      && (forall root :: root in a.roots <==> exists i :: 0 <= i < n && root in Analyze(e.args[i]).roots)
      && (a.status <==> exists i :: 0 <= i < n && Analyze(e.args[i]).status)
      && (a.hash <==> exists i :: 0 <= i < n && Analyze(e.args[i]).hash)
  {
    hide Analyze;
    if n > 0 { ArgsReport(e, n - 1); }
  }

  /** The part at `i` of a path is evaluated. */
  predicate Read(e: Expr, i: nat)
    requires e.Context? && i < |e.parts|
  {
    i == 0 || !e.parts[i].Identifier?
  }

  lemma PartReports(e: Expr, i: nat)
    requires e.Context? && 1 <= i < |e.parts|
    ensures AnalyzePart(e, i) == if Read(e, i) then Analyze(e.parts[i]) else NOTHING
  {
  }

  lemma {:induction false} PartsReport(e: Expr, n: nat)
    requires e.Context? && 1 <= n <= |e.parts|
    ensures var a := Merge(Analyze(e.parts[0]), AnalyzeParts(e, n));
      && (forall root :: root in a.roots <==> exists i :: 0 <= i < n && Read(e, i) && root in Analyze(e.parts[i]).roots)
      && (a.status <==> exists i :: 0 <= i < n && Read(e, i) && Analyze(e.parts[i]).status)
      && (a.hash <==> exists i :: 0 <= i < n && Read(e, i) && Analyze(e.parts[i]).hash)
  {
    if n == 1 {
      assert Read(e, 0);
      assert AnalyzeParts(e, 1) == NOTHING;
    } else {
      PartsReport(e, n - 1);
      PartReports(e, n - 1);
      assert AnalyzeParts(e, n) == Merge(AnalyzeParts(e, n - 1), AnalyzePart(e, n - 1));
      hide Analyze, AnalyzePart, AnalyzeParts, Read;
      var before, now := Merge(Analyze(e.parts[0]), AnalyzeParts(e, n - 1)), Merge(Analyze(e.parts[0]), AnalyzeParts(e, n));
      assert now == Merge(before, AnalyzePart(e, n - 1));
    }
  }

  // ---------------------------------------------------------------- the law

  lemma CallInside(e: Expr)
    requires e.Call? && forall i | 0 <= i < |e.args| :: Exact(e.args[i], Analyze(e.args[i]))
    ensures Exact(e, Analyze(e))
  {
    ArgsReport(e, |e.args|);
    assert Inside(e, e);
  }

  lemma ContextInside(e: Expr)
    requires e.Context? && forall i | 0 <= i < |e.parts| :: Exact(e.parts[i], Analyze(e.parts[i]))
    ensures Exact(e, Analyze(e))
  {
    if e.parts != [] {
      PartsReport(e, |e.parts|);
      assert Analyze(e) == Merge(Analyze(e.parts[0]), AnalyzeParts(e, |e.parts|));
      hide Analyze, AnalyzeParts, Read;
      forall root ensures root in Analyze(e).roots <==> Names(e, root) { ContextNames(e, root); }
      ContextCalls(e, STATUS);
      ContextCalls(e, {HashFiles});
      hide Names, CallsAny;
    }
  }

  lemma ContextNames(e: Expr, root: string)
    requires e.Context?
    ensures Names(e, root) <==> exists i :: 0 <= i < |e.parts| && Read(e, i) && Names(e.parts[i], root)
  {
    hide Read;
    if i :| 0 <= i < |e.parts| && Read(e, i) && Names(e.parts[i], root) {
      var name :| Inside(e.parts[i], Identifier(name)) && Lower(name) == root;
      assert Inside(e, Identifier(name));
    }
  }

  lemma ContextCalls(e: Expr, functions: set<Function>)
    requires e.Context?
    ensures CallsAny(e, functions) <==> exists i :: 0 <= i < |e.parts| && Read(e, i) && CallsAny(e.parts[i], functions)
  {
    hide Read;
    if i :| 0 <= i < |e.parts| && Read(e, i) && CallsAny(e.parts[i], functions) {
      var f, args :| f in functions && Inside(e.parts[i], Call(f, args));
      assert Inside(e, Call(f, args));
    }
  }

  lemma {:induction false} AnalysisExactly(e: Expr)
    ensures Exact(e, Analyze(e))
  {
    match e
    case Index(inner) => AnalysisExactly(inner);
    case Not(operand) => AnalysisExactly(operand);
    case Binary(_, lhs, rhs) =>
      AnalysisExactly(lhs);
      AnalysisExactly(rhs);
    case Call(_, args) =>
      forall i | 0 <= i < |args| ensures Exact(args[i], Analyze(args[i])) { AnalysisExactly(args[i]); }
      CallInside(e);
    case Context(parts) =>
      forall i | 0 <= i < |parts| ensures Exact(parts[i], Analyze(parts[i])) { AnalysisExactly(parts[i]); }
      ContextInside(e);
    case _ =>
  }
}
