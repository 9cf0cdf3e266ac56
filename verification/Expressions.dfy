/** The expression evaluator and the static analysis of expressions. */
module Expressions {
  import opened Basics

  /** Objects keep their entries in the order their map iterates. */
  datatype Value =
    | Null
    | Boolean(flag: bool)
    | Number(number: real)
    | Text(text: string)
    | Array(values: seq<Value>)
    | Object(entries: seq<(string, Value)>)

  datatype Function =
    | Success | Always | Cancelled | Failure | HashFiles
    | ContainsText | StartsWith | EndsWith | FormatText | JoinValues | ToJson | FromJson | Choose

  datatype BinOp = And | Or | Eq | Neq | Gt | Ge | Lt | Le

  datatype Expr =
    | Literal(value: Value)
    | Star
    | Identifier(name: string)
    | Index(inner: Expr)
    | Call(func: Function, args: seq<Expr>)
    | Context(parts: seq<Expr>)
    | Binary(op: BinOp, lhs: Expr, rhs: Expr)
    | Not(operand: Expr)

  datatype Error =
    | Parse(source: string)
    | UnknownContext(name: string)
    | InvalidAccess(index: string, kind: string)
    | Unsupported(what: string)
    | InvalidFunction(func: string)
    | JsonConversion
    | HashFilesFailed(reason: string)
    | UnclosedTemplate

  datatype Status = Succeeded | Failed | WasCancelled | Skipped

  datatype Environment = Environment(roots: map<string, Value>, status: Status, workspace: Option<string>)

  /** The parser, the value semantics and the other foreign code the evaluator calls. */
  datatype Library = Library(
    parse: string -> Option<Expr>,
    display: Value -> string,
    truthy: Value -> bool,
    compare: (BinOp, Value, Value) -> bool,
    upper: string -> string,
    whole: real -> Option<nat>,
    parseJson: string -> Option<Value>,
    printJson: Value -> Option<string>,
    hash: (string, seq<string>) -> Result<string, string>)

  // ---------------------------------------------------------------- library functions of the language

  function StartsText(s: string, prefix: string): bool {
    prefix <= s
  }

  function EndsText(s: string, suffix: string): bool {
    |suffix| <= |s| && s[|s| - |suffix|..] == suffix
  }

  function HasText(s: string, part: string): bool {
    StartsText(s, part) || (s != "" && HasText(s[1..], part))
  }

  const MAX_USIZE := 0x1_0000_0000_0000_0000

  function DigitsValue(s: string): Option<nat> {
    if s == "" then Some(0)
    else if '0' <= s[|s| - 1] <= '9' then
      match DigitsValue(s[..|s| - 1])
      case Some(n) => Some(10 * n + (s[|s| - 1] - '0') as nat)
      case None => None
    else None
  }

  /** parse::<usize>: digits, possibly after a plus sign, within 64 bits. */
  function ParseUsize(s: string): Option<nat> {
    var digits := if s != "" && s[0] == '+' then s[1..] else s;
    if digits == "" then None
    else match DigitsValue(digits)
      case Some(n) => if n < MAX_USIZE then Some(n) else None
      case None => None
  }

  function KindOf(v: Value): string {
    match v
    case Null => "null"
    case Boolean(_) => "a boolean"
    case Number(_) => "a number"
    case Text(_) => "a string"
    case Array(_) => "an array"
    case Object(_) => "an object"
  }

  function FindEntry(entries: seq<(string, Value)>, key: string): Option<Value> {
    if entries == [] then None
    else if Lower(entries[0].0) == Lower(key) then Some(entries[0].1)
    else FindEntry(entries[1..], key)
  }

  function ElementAt(values: seq<Value>, i: nat): Value {
    if i < |values| then values[i] else Text("")
  }

  function AccessValue(lib: Library, v: Value, index: Value): Result<Value, Error> {
    match v
    case Object(entries) => Ok(FindEntry(entries, lib.display(index)).GetOr(Text("")))
    case Array(values) =>
      (match index
       case Number(n) =>
         (match lib.whole(n)
          case Some(i) => Ok(ElementAt(values, i))
          case None => Err(InvalidAccess(lib.display(index), "an array")))
       case Text(s) =>
         (match ParseUsize(s)
          case Some(i) => Ok(ElementAt(values, i))
          case None => Err(InvalidAccess(s, "an array")))
       case _ => Err(InvalidAccess(lib.display(index), "an array")))
    case Null => Ok(Null)
    case Text(s) => if s == "" then Ok(v) else Err(InvalidAccess(lib.display(index), KindOf(v)))
    case _ => Err(InvalidAccess(lib.display(index), KindOf(v)))
  }

  datatype Selection = One(value: Value) | Many(values: seq<Value>)

  function AccessEach(lib: Library, values: seq<Value>, index: Value): Result<seq<Value>, Error> {
    if values == [] then Ok([])
    else match AccessValue(lib, values[0], index)
      case Err(e) => Err(e)
      case Ok(v) =>
        match AccessEach(lib, values[1..], index)
        case Err(e) => Err(e)
        case Ok(rest) => Ok([v] + rest)
  }

  function Access(lib: Library, s: Selection, index: Value): Result<Selection, Error> {
    match s
    case One(v) => (match AccessValue(lib, v, index) case Ok(w) => Ok(One(w)) case Err(e) => Err(e))
    case Many(values) => (match AccessEach(lib, values, index) case Ok(w) => Ok(Many(w)) case Err(e) => Err(e))
  }

  function EntryValues(entries: seq<(string, Value)>): seq<Value> {
    seq(|entries|, i requires 0 <= i < |entries| => entries[i].1)
  }

  function Expand(v: Value): Result<seq<Value>, Error> {
    match v
    case Array(values) => Ok(values)
    case Object(entries) => Ok(EntryValues(entries))
    case _ => Err(InvalidAccess("*", KindOf(v)))
  }

  function ExpandEach(values: seq<Value>): Result<seq<Value>, Error> {
    if values == [] then Ok([])
    else match Expand(values[0])
      case Err(e) => Err(e)
      case Ok(first) =>
        match ExpandEach(values[1..])
        case Err(e) => Err(e)
        case Ok(rest) => Ok(first + rest)
  }

  function Wildcard(s: Selection): Result<Selection, Error> {
    match (match s case One(v) => Expand(v) case Many(values) => ExpandEach(values))
    case Ok(values) => Ok(Many(values))
    case Err(e) => Err(e)
  }

  function Finish(s: Selection): Value {
    match s
    case One(v) => v
    case Many(values) => Array(values)
  }

  function Displays(lib: Library, values: seq<Value>): (r: seq<string>)
    ensures |r| == |values| && forall i | 0 <= i < |values| :: r[i] == lib.display(values[i])
  {
    seq(|values|, i requires 0 <= i < |values| => lib.display(values[i]))
  }

  function JoinTexts(texts: seq<string>, separator: string): string {
    if texts == [] then "" else if |texts| == 1 then texts[0] else texts[0] + separator + JoinTexts(texts[1..], separator)
  }

  function Choice(arguments: seq<Value>, fallback: Value): Result<Value, Error> {
    if |arguments| < 2 then Ok(fallback)
    else if arguments[0] == Boolean(true) then Ok(arguments[1])
    else if arguments[0] == Boolean(false) then Choice(arguments[2..], fallback)
    else Err(InvalidFunction("case"))
  }

  predicate Composite(v: Value) {
    v.Array? || v.Object?
  }

  /** The functions that look at their arguments only. */
  function ApplyFunction(lib: Library, f: Function, a: seq<Value>): Result<Value, Error>
    requires f.ContainsText? || f.StartsWith? || f.EndsWith? || f.JoinValues? || f.ToJson? || f.FromJson? || f.Choose?
  {
    match f
    case ContainsText =>
      if |a| != 2 || a[0].Object? then Err(InvalidFunction("contains"))
      else if a[0].Array? then Ok(Boolean(exists i | 0 <= i < |a[0].values| :: lib.compare(Eq, a[0].values[i], a[1])))
      else Ok(Boolean(HasText(lib.upper(lib.display(a[0])), lib.upper(lib.display(a[1])))))
    case StartsWith =>
      if |a| != 2 then Err(InvalidFunction("startsWith"))
      else if Composite(a[0]) || Composite(a[1]) then Ok(Boolean(false))
      else Ok(Boolean(StartsText(lib.upper(lib.display(a[0])), lib.upper(lib.display(a[1])))))
    case EndsWith =>
      if |a| != 2 then Err(InvalidFunction("endsWith"))
      else if Composite(a[0]) || Composite(a[1]) then Ok(Boolean(false))
      else Ok(Boolean(EndsText(lib.upper(lib.display(a[0])), lib.upper(lib.display(a[1])))))
    case JoinValues =>
      if a == [] || |a| > 2 then Err(InvalidFunction("join"))
      else
        var separator := if |a| == 2 then lib.display(a[1]) else ",";
        Ok(Text(match a[0]
                case Array(values) => JoinTexts(Displays(lib, values), separator)
                case Object(_) => ""
                case v => lib.display(v)))
    case ToJson =>
      if |a| != 1 then Err(InvalidFunction("toJSON"))
      else (match lib.printJson(a[0]) case Some(s) => Ok(Text(s)) case None => Err(JsonConversion))
    case FromJson =>
      if |a| != 1 then Err(InvalidFunction("fromJSON"))
      else (match lib.parseJson(lib.display(a[0])) case Some(v) => Ok(v) case None => Err(InvalidFunction("fromJSON")))
    case Choose =>
      if |a| < 3 || |a| % 2 == 0 then Err(InvalidFunction("case")) else Choice(a[..|a| - 1], a[|a| - 1])
  }

  // ---------------------------------------------------------------- format

  /** The first position of a character, or the length. */
  function Find(s: string, c: char): (i: nat)
    ensures i <= |s| && (forall k | 0 <= k < i :: s[k] != c) && (i < |s| ==> s[i] == c)
  {
    if s == "" || s[0] == c then 0 else 1 + Find(s[1..], c)
  }

  /** The loop of format from the rest `t` of the template on. */
  function FormatRest(t: string, a: seq<string>): Result<string, Error> {
    if t == "" then Ok("")
    else if t[0] == '{' && |t| > 1 && t[1] == '{' then Prefixed("{", FormatRest(t[2..], a))
    else if t[0] == '}' && |t| > 1 && t[1] == '}' then Prefixed("}", FormatRest(t[2..], a))
    else if t[0] == '{' then
      var end := Find(t[1..], '}');
      if 1 + end == |t| then Err(InvalidFunction("format"))
      else
        var field := t[1..1 + end];
        match ParseUsize(field[..Find(field, ':')])
        case Some(i) => if i < |a| then Prefixed(a[i], FormatRest(t[end + 2..], a)) else Err(InvalidFunction("format"))
        case None => Err(InvalidFunction("format"))
    else if t[0] == '}' then Err(InvalidFunction("format"))
    else Prefixed([t[0]], FormatRest(t[1..], a))
  }

  function Prefixed(p: string, r: Result<string, Error>): Result<string, Error> {
    match r
    case Ok(s) => Ok(p + s)
    case Err(e) => Err(e)
  }

  function FormatValues(lib: Library, a: seq<Value>): Result<Value, Error> {
    if a == [] then Err(InvalidFunction("format"))
    else match FormatRest(lib.display(a[0]), Displays(lib, a[1..]))
      case Ok(s) => Ok(Text(s))
      case Err(e) => Err(e)
  }

  // ---------------------------------------------------------------- evaluation

  function RootOf(env: Environment, name: string): Result<Value, Error> {
    if Lower(name) in env.roots then Ok(env.roots[Lower(name)]) else Err(UnknownContext(name))
  }

  predicate StatusFunction(f: Function) {
    f == Success || f == Always || f == Cancelled || f == Failure
  }

  function StatusValue(env: Environment, f: Function): Value
    requires StatusFunction(f)
  {
    match f
    case Success => Boolean(env.status == Succeeded)
    case Always => Boolean(true)
    case Cancelled => Boolean(env.status == WasCancelled)
    case Failure => Boolean(env.status == Failed)
  }

  function HashValue(lib: Library, env: Environment, a: seq<Value>): Result<Value, Error> {
    match env.workspace
    case None => Err(Unsupported("hashFiles"))
    case Some(path) =>
      match lib.hash(path, Displays(lib, a))
      case Ok(s) => Ok(Text(s))
      case Err(reason) => Err(HashFilesFailed(reason))
  }

  function Evaluate(lib: Library, env: Environment, e: Expr): Result<Value, Error>
    decreases e, 2, 0
  {
    match e
    case Literal(v) => Ok(v)
    case Star => Err(InvalidAccess("*", "a root expression"))
    case Identifier(name) => RootOf(env, name)
    case Index(inner) => Evaluate(lib, env, inner)
    case Not(operand) =>
      (match Evaluate(lib, env, operand) case Ok(v) => Ok(Boolean(!lib.truthy(v))) case Err(err) => Err(err))
    case Binary(op, lhs, rhs) =>
      (match Evaluate(lib, env, lhs)
       case Err(err) => Err(err)
       case Ok(l) =>
         if op == And then if lib.truthy(l) then Evaluate(lib, env, rhs) else Ok(l)
         else if op == Or then if lib.truthy(l) then Ok(l) else Evaluate(lib, env, rhs)
         else match Evaluate(lib, env, rhs)
           case Err(err) => Err(err)
           case Ok(r) => Ok(Boolean(lib.compare(op, l, r))))
    case Call(f, args) =>
      if StatusFunction(f) then Ok(StatusValue(env, f))
      else
        (match Arguments(lib, env, e, 0)
         case Err(err) => Err(err)
         case Ok(a) =>
           if f == HashFiles then HashValue(lib, env, a)
           else if f == FormatText then FormatValues(lib, a)
           else ApplyFunction(lib, f, a))
    case Context(parts) =>
      if parts == [] then Err(UnknownContext(""))
      else
        match Evaluate(lib, env, parts[0])
        case Err(err) => Err(err)
        case Ok(v) =>
          match Path(lib, env, e, 1, One(v))
          case Err(err) => Err(err)
          case Ok(s) => Ok(Finish(s))
  }

  /** The arguments of a call from the `i`th on, left to right. */
  function Arguments(lib: Library, env: Environment, e: Expr, i: nat): Result<seq<Value>, Error>
    requires e.Call? && i <= |e.args|
    decreases e, 1, |e.args| - i
  {
    if i == |e.args| then Ok([])
    else match Evaluate(lib, env, e.args[i])
      case Err(err) => Err(err)
      case Ok(v) =>
        match Arguments(lib, env, e, i + 1)
        case Err(err) => Err(err)
        case Ok(rest) => Ok([v] + rest)
  }

  /** The parts of a context path from the `i`th on, applied to what is selected so far. */
  function Path(lib: Library, env: Environment, e: Expr, i: nat, s: Selection): Result<Selection, Error>
    requires e.Context? && i <= |e.parts|
    decreases e, 1, |e.parts| - i
  {
    if i == |e.parts| then Ok(s)
    else match Step(lib, env, e, i, s)
      case Err(err) => Err(err)
      case Ok(t) => Path(lib, env, e, i + 1, t)
  }

  function Step(lib: Library, env: Environment, e: Expr, i: nat, s: Selection): Result<Selection, Error>
    requires e.Context? && i < |e.parts|
    decreases e, 0, i
  {
    var part := e.parts[i];
    if part.Star? then Wildcard(s)
    else if part.Identifier? then Access(lib, s, Text(part.name))
    else
      match Evaluate(lib, env, if part.Index? then part.inner else part)
      case Err(err) => Err(err)
      case Ok(index) => Access(lib, s, index)
  }

  // ---------------------------------------------------------------- analysis

  datatype Analysis = Analysis(roots: set<string>, status: bool, hash: bool)

  const NOTHING := Analysis({}, false, false)

  function Merge(a: Analysis, b: Analysis): Analysis {
    Analysis(a.roots + b.roots, a.status || b.status, a.hash || b.hash)
  }

  /** What the analysis reports for one expression. */
  function Analyze(e: Expr): Analysis
    decreases e, 2, 0
  {
    match e
    case Literal(_) => NOTHING
    case Star => NOTHING
    case Identifier(name) => Analysis({Lower(name)}, false, false)
    case Index(inner) => Analyze(inner)
    case Not(operand) => Analyze(operand)
    case Binary(_, lhs, rhs) => Merge(Analyze(lhs), Analyze(rhs))
    case Call(f, args) => Merge(Analysis({}, StatusFunction(f), f == HashFiles), AnalyzeArgs(e, |args|))
    case Context(parts) => if parts == [] then NOTHING else Merge(Analyze(parts[0]), AnalyzeParts(e, |parts|))
  }

  function AnalyzeArgs(e: Expr, n: nat): Analysis
    requires e.Call? && n <= |e.args|
    decreases e, 1, n
  {
    if n == 0 then NOTHING else Merge(AnalyzeArgs(e, n - 1), Analyze(e.args[n - 1]))
  }

  /** The parts after the head: names, stars and literals read nothing. */
  function AnalyzeParts(e: Expr, n: nat): Analysis
    requires e.Context? && 1 <= n <= |e.parts|
    decreases e, 1, n
  {
    if n == 1 then NOTHING else Merge(AnalyzeParts(e, n - 1), AnalyzePart(e, n - 1))
  }

  function AnalyzePart(e: Expr, i: nat): Analysis
    requires e.Context? && i < |e.parts|
    decreases e, 0, i
  {
    match e.parts[i]
    case Identifier(_) => NOTHING
    case Star => NOTHING
    case Literal(_) => NOTHING
    case Index(inner) => Analyze(inner)
    case part => Analyze(part)
  }

  predicate Covers(a: Analysis, b: Analysis) {
    b.roots <= a.roots && (b.status ==> a.status) && (b.hash ==> a.hash)
  }

  lemma {:induction false} ArgCovered(e: Expr, n: nat, i: nat)
    requires e.Call? && i < n <= |e.args|
    ensures Covers(AnalyzeArgs(e, n), Analyze(e.args[i]))
  {
    hide Analyze;
    if i < n - 1 { ArgCovered(e, n - 1, i); }
  }

  lemma {:induction false} PartCovered(e: Expr, n: nat, i: nat)
    requires e.Context? && 1 <= i < n <= |e.parts|
    ensures Covers(AnalyzeParts(e, n), AnalyzePart(e, i))
  {
    hide Analyze, AnalyzePart;
    if i < n - 1 { PartCovered(e, n - 1, i); }
  }

  lemma MergeAssociative(a: Analysis, b: Analysis, c: Analysis)
    ensures Merge(Merge(a, b), c) == Merge(a, Merge(b, c))
  {
  }

  /** The shared record the recursive analysis fills. */
  class Analyzer {
    var roots: set<string>
    var status: bool
    var hash: bool

    function Found(): Analysis
      reads this
    {
      Analysis(roots, status, hash)
    }

    constructor ()
      ensures Found() == NOTHING
    {
      roots, status, hash := {}, false, false;
    }

    method Visit(e: Expr)
      modifies this
      ensures Found() == Merge(old(Found()), Analyze(e))
      decreases e, 2, 0
    {
      match e
      case Literal(_) =>
      case Star =>
      case Identifier(name) => roots := roots + {Lower(name)};
      case Index(inner) => Visit(inner);
      case Not(operand) => Visit(operand);
      case Binary(_, lhs, rhs) =>
        Visit(lhs);
        Visit(rhs);
        MergeAssociative(old(Found()), Analyze(lhs), Analyze(rhs));
      case Call(f, _) =>
        status := status || StatusFunction(f);
        hash := hash || f == HashFiles;
        assert Found() == Merge(old(Found()), Analysis({}, StatusFunction(f), f == HashFiles));
        VisitArgs(e);
        MergeAssociative(old(Found()), Analysis({}, StatusFunction(f), f == HashFiles), AnalyzeArgs(e, |e.args|));
      case Context(parts) =>
        if parts == [] { return; }
        Visit(parts[0]);
        VisitParts(e);
        MergeAssociative(old(Found()), Analyze(parts[0]), AnalyzeParts(e, |parts|));
    }

    method VisitArgs(e: Expr)
      requires e.Call?
      modifies this
      ensures Found() == Merge(old(Found()), AnalyzeArgs(e, |e.args|))
      decreases e, 1, 0
    {
      var i := 0;
      while i < |e.args|
        invariant 0 <= i <= |e.args| && Found() == Merge(old(Found()), AnalyzeArgs(e, i))
      {
        Visit(e.args[i]);
        MergeAssociative(old(Found()), AnalyzeArgs(e, i), Analyze(e.args[i]));
        i := i + 1;
      }
    }

    method VisitParts(e: Expr)
      requires e.Context? && e.parts != []
      modifies this
      ensures Found() == Merge(old(Found()), AnalyzeParts(e, |e.parts|))
      decreases e, 1, 0
    {
      var i := 1;
      while i < |e.parts|
        invariant 1 <= i <= |e.parts| && Found() == Merge(old(Found()), AnalyzeParts(e, i))
      {
        VisitPart(e, i);
        MergeAssociative(old(Found()), AnalyzeParts(e, i), AnalyzePart(e, i));
        i := i + 1;
      }
    }

    method VisitPart(e: Expr, i: nat)
      requires e.Context? && i < |e.parts|
      modifies this
      ensures Found() == Merge(old(Found()), AnalyzePart(e, i))
      decreases e, 0, i
    {
      match e.parts[i]
      case Identifier(_) =>
      case Star =>
      case Literal(_) =>
      case Index(inner) => Visit(inner);
      case part => Visit(part);
    }
  }

  // ---------------------------------------------------------------- soundness

  /** Two environments look the same through an analysis. */
  predicate Agree(a: Analysis, x: Environment, y: Environment) {
    && (forall r | r in a.roots :: r in x.roots <==> r in y.roots)
    && (forall r | r in a.roots && r in x.roots && r in y.roots :: x.roots[r] == y.roots[r])
    && (a.status ==> x.status == y.status)
    && (a.hash ==> x.workspace == y.workspace)
  }

  lemma AgreeLess(a: Analysis, b: Analysis, x: Environment, y: Environment)
    requires Agree(a, x, y) && Covers(a, b)
    ensures Agree(b, x, y)
  {
  }

  /** Environments that agree on what the analysis reports give the same value or the same error. */
  lemma {:induction false} AnalysisSound(lib: Library, e: Expr, x: Environment, y: Environment)
    requires Agree(Analyze(e), x, y)
    ensures Evaluate(lib, x, e) == Evaluate(lib, y, e)
    decreases e, 2, 0
  {
    match e
    case Literal(_) =>
    case Star =>
    case Identifier(name) =>
    case Index(inner) => AnalysisSound(lib, inner, x, y);
    case Not(operand) => AnalysisSound(lib, operand, x, y);
    case Binary(_, lhs, rhs) =>
      AnalysisSound(lib, lhs, x, y);
      AnalysisSound(lib, rhs, x, y);
    case Call(f, args) =>
      if !StatusFunction(f) {
        ArgumentsSound(lib, e, 0, x, y);
      }
    case Context(parts) =>
      if parts != [] {
        AnalysisSound(lib, parts[0], x, y);
        match Evaluate(lib, x, parts[0])
        case Err(_) =>
        case Ok(v) => PathSound(lib, e, 1, One(v), x, y);
      }
  }

  lemma {:induction false} ArgumentsSound(lib: Library, e: Expr, i: nat, x: Environment, y: Environment)
    requires e.Call? && i <= |e.args| && Agree(Analyze(e), x, y)
    ensures Arguments(lib, x, e, i) == Arguments(lib, y, e, i)
    decreases e, 1, |e.args| - i
  {
    if i < |e.args| {
      ArgCovered(e, |e.args|, i);
      AgreeLess(Analyze(e), Analyze(e.args[i]), x, y);
      hide Analyze, Agree, Evaluate;
      AnalysisSound(lib, e.args[i], x, y);
      ArgumentsSound(lib, e, i + 1, x, y);
    }
  }

  lemma {:induction false} PathSound(lib: Library, e: Expr, i: nat, s: Selection, x: Environment, y: Environment)
    requires e.Context? && 1 <= i <= |e.parts| && Agree(Analyze(e), x, y)
    ensures Path(lib, x, e, i, s) == Path(lib, y, e, i, s)
    decreases e, 1, |e.parts| - i
  {
    if i < |e.parts| {
      PartCovered(e, |e.parts|, i);
      AgreeLess(Analyze(e), AnalyzePart(e, i), x, y);
      PartSound(lib, e, i, x, y);
      hide Analyze, Agree, Evaluate, Access, Wildcard;
      assert Step(lib, x, e, i, s) == Step(lib, y, e, i, s);
      if Step(lib, x, e, i, s).Ok? {
        PathSound(lib, e, i + 1, Step(lib, x, e, i, s).value, x, y);
      }
    }
  }

  lemma {:induction false} PartSound(lib: Library, e: Expr, i: nat, x: Environment, y: Environment)
    requires e.Context? && 1 <= i < |e.parts| && Agree(AnalyzePart(e, i), x, y)
    ensures var part := e.parts[i];
            part.Star? || part.Identifier? ||
            Evaluate(lib, x, if part.Index? then part.inner else part) == Evaluate(lib, y, if part.Index? then part.inner else part)
    decreases e, 0, i
  {
    match e.parts[i]
    case Identifier(_) =>
    case Star =>
    case Literal(_) =>
    case Index(inner) => AnalysisSound(lib, inner, x, y);
    case part => AnalysisSound(lib, part, x, y);
  }

  /** The report can be too large: a short circuit hides a root the value cannot depend on. */
  lemma AnalysisOverApproximates(lib: Library, x: Environment, y: Environment)
    requires lib.truthy(Boolean(true))
    ensures var e := Binary(Or, Literal(Boolean(true)), Identifier("github"));
            Evaluate(lib, x, e) == Evaluate(lib, y, e) && Analyze(e).roots != {}
  {
    assert Lower("github") in Analyze(Binary(Or, Literal(Boolean(true)), Identifier("github"))).roots;
  }
}
