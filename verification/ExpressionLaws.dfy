/** What expressions evaluate to: a relation for the syntax, and laws for the operators and functions. */
module ExpressionLaws {
  import opened Basics
  import opened Names
  import opened Expressions
  import opened Compatibility

  // ---------------------------------------------------------------- every way through a value

  /** What a part of a path asks for: the entry under a key, or with `None` every child. */
  type Key = Option<Value>

  function Children(v: Value): Option<seq<Value>> {
    match v
    case Array(values) => Some(values)
    case Object(entries) => Some(seq(|entries|, i requires 0 <= i < |entries| => entries[i].1))
    case _ => None
  }

  /** The values at the end of every way from `v` along `keys`, in order; `None` if a way is blocked. */
  function Ways(lib: Library, v: Value, keys: seq<Key>): Option<seq<Value>>
    decreases |keys|, 0
  {
    if keys == [] then Some([v])
    else if keys[0].None? then
      (match Children(v) case Some(children) => WaysEach(lib, children, keys[1..]) case None => None)
    else
      match AccessValue(lib, v, keys[0].value) case Ok(w) => Ways(lib, w, keys[1..]) case Err(_) => None
  }

  function WaysEach(lib: Library, values: seq<Value>, keys: seq<Key>): Option<seq<Value>>
    decreases |keys|, 1, |values|
  {
    if values == [] then Some([])
    else
      match (Ways(lib, values[0], keys), WaysEach(lib, values[1..], keys))
      case (Some(first), Some(rest)) => Some(first + rest)
      case _ => None
  }

  // ---------------------------------------------------------------- the meaning of an expression

  ghost predicate EachYields(lib: Library, env: Environment, e: Expr, n: nat, a: seq<Value>)
    requires e.Call? && n <= |e.args|
    decreases e, 1, n
  {
    |a| == n && forall i | 0 <= i < n :: Yields(lib, env, e.args[i], a[i])
  }

  /** Each part of a path after the head is a star, a name, or an expression for a key. */
  ghost predicate KeysYield(lib: Library, env: Environment, e: Expr, keys: seq<Key>)
    requires e.Context? && e.parts != []
    decreases e, 1, 0
  {
    && |keys| == |e.parts| - 1
    && forall i | 0 <= i < |keys| :: KeyYields(lib, env, e, i + 1, keys[i])
  }

  ghost predicate KeyYields(lib: Library, env: Environment, e: Expr, i: nat, key: Key)
    requires e.Context? && i < |e.parts|
    decreases e, 0, i
  {
    match e.parts[i]
    case Star => key == None
    case Identifier(name) => key == Some(Text(name))
    case Index(inner) => key.Some? && Yields(lib, env, inner, key.value)
    case part => key.Some? && Yields(lib, env, part, key.value)
  }

  /** Expression `e` has the value `v`. */
  ghost predicate Yields(lib: Library, env: Environment, e: Expr, v: Value)
    decreases e, 2, 0
  {
    match e
    case Literal(w) => v == w
    case Star => false
    case Identifier(name) => exists root :: root in env.roots && root == Lower(name) && v == env.roots[root]
    case Index(inner) => Yields(lib, env, inner, v)
    case Not(operand) => exists w :: Yields(lib, env, operand, w) && v == Boolean(!lib.truthy(w))
    case Binary(op, lhs, rhs) =>
      if op == And then exists l :: Yields(lib, env, lhs, l) && if lib.truthy(l) then Yields(lib, env, rhs, v) else v == l
      else if op == Or then exists l :: Yields(lib, env, lhs, l) && if lib.truthy(l) then v == l else Yields(lib, env, rhs, v)
      else exists l, r :: Yields(lib, env, lhs, l) && Yields(lib, env, rhs, r) && v == Boolean(lib.compare(op, l, r))
    case Call(f, args) =>
      (match f
       case Success => v == Boolean(env.status == Succeeded)
       case Always => v == Boolean(true)
       case Cancelled => v == Boolean(env.status == WasCancelled)
       case Failure => v == Boolean(env.status == Failed)
       case HashFiles =>
         exists a :: EachYields(lib, env, e, |args|, a) && env.workspace.Some?
                     && lib.hash(env.workspace.value, Displays(lib, a)).Ok?
                     && v == Text(lib.hash(env.workspace.value, Displays(lib, a)).value)
       case FormatText => exists a :: EachYields(lib, env, e, |args|, a) && FormatValues(lib, a) == Ok(v)
       case _ => exists a :: EachYields(lib, env, e, |args|, a) && Gives(lib, f, a, v))
    case Context(parts) =>
      && parts != []
      && exists head, keys :: Yields(lib, env, parts[0], head) && KeysYield(lib, env, e, keys) && Found(lib, head, keys, v)
  }

  /** One value without stars, an array of all with. */
  predicate Found(lib: Library, head: Value, keys: seq<Key>, v: Value) {
    var ways := Ways(lib, head, keys);
    && ways.Some?
    && if None in keys then v == Array(ways.value) else ways.value == [v]
  }

  // ---------------------------------------------------------------- the functions of the language

  predicate OccursAt(part: string, s: string, i: nat) {
    i + |part| <= |s| && s[i..i + |part|] == part
  }

  predicate Occurs(part: string, s: string) {
    exists i | 0 <= i <= |s| :: OccursAt(part, s, i)
  }

  /** The texts with the separator between any two neighbours, built from the end. */
  function Joined(texts: seq<string>, separator: string): string {
    if texts == [] then ""
    else if |texts| == 1 then texts[0]
    else Joined(texts[..|texts| - 1], separator) + separator + texts[|texts| - 1]
  }

  /** Condition `k` is the first that is not false, and picks `v`; `k` may stand for the fallback. */
  predicate Picks(a: seq<Value>, k: nat, v: Value) {
    && 2 * k < |a|
    && (forall i | 0 <= i < k :: a[2 * i] == Boolean(false))
    && if 2 * k == |a| - 1 then v == a[2 * k] else a[2 * k] == Boolean(true) && v == a[2 * k + 1]
  }

  /** The function gives `v` for the arguments. */
  ghost predicate Gives(lib: Library, f: Function, a: seq<Value>, v: Value) {
    match f
    case ContainsText =>
      && |a| == 2 && !a[0].Object?
      && v == Boolean(if a[0].Array? then exists x | x in a[0].values :: lib.compare(Eq, x, a[1])
                      else Occurs(lib.upper(lib.display(a[1])), lib.upper(lib.display(a[0]))))
    case StartsWith =>
      && |a| == 2
      && v == Boolean(!Composite(a[0]) && !Composite(a[1])
                      && exists rest :: lib.upper(lib.display(a[0])) == lib.upper(lib.display(a[1])) + rest)
    case EndsWith =>
      && |a| == 2
      && v == Boolean(!Composite(a[0]) && !Composite(a[1])
                      && exists front :: lib.upper(lib.display(a[0])) == front + lib.upper(lib.display(a[1])))
    case JoinValues =>
      && 1 <= |a| <= 2
      && v == Text(if a[0].Object? then ""
                   else Joined(if a[0].Array? then Displays(lib, a[0].values) else [lib.display(a[0])],
                               if |a| == 2 then lib.display(a[1]) else ","))
    case ToJson => |a| == 1 && lib.printJson(a[0]).Some? && v == Text(lib.printJson(a[0]).value)
    case FromJson => |a| == 1 && lib.parseJson(lib.display(a[0])) == Some(v)
    case Choose => |a| >= 3 && |a| % 2 == 1 && exists k: nat :: Picks(a, k, v)
    case _ => false
  }

  lemma OccursLater(part: string, s: string, i: nat)
    requires s != ""
    ensures OccursAt(part, s[1..], i) <==> OccursAt(part, s, i + 1)
  {
    if i + 1 + |part| <= |s| { assert s[1..][i..i + |part|] == s[i + 1..i + 1 + |part|]; }
  }

  lemma OccursFirst(part: string, s: string)
    ensures OccursAt(part, s, 0) <==> StartsText(s, part)
  {
  }

  lemma {:induction false} HasTextOccurs(s: string, part: string)
    ensures HasText(s, part) <==> Occurs(part, s)
  {
    OccursFirst(part, s);
    if s == "" {
      assert forall i: nat | OccursAt(part, s, i) :: i == 0;
    } else {
      var rest := s[1..];
      HasTextOccurs(rest, part);
      hide OccursAt, StartsText;
      if i :| 0 <= i <= |s| && OccursAt(part, s, i) {
        if i > 0 { OccursLater(part, s, i - 1); }
      }
      if i :| 0 <= i <= |rest| && OccursAt(part, rest, i) { OccursLater(part, s, i); }
    }
  }

  lemma {:induction false} JoinTextsJoined(texts: seq<string>, separator: string)
    ensures JoinTexts(texts, separator) == Joined(texts, separator)
  {
    if |texts| > 1 {
      JoinTextsJoined(texts[1..], separator);
      var front, last := texts[..|texts| - 1], texts[|texts| - 1];
      JoinTextsJoined(front, separator);
      if |texts| > 2 {
        assert front[1..] == texts[1..][..|texts| - 2];
        JoinTextsJoined(front[1..], separator);
        assert Joined(texts[1..], separator) == Joined(front[1..], separator) + separator + last;
        calc {
          JoinTexts(texts, separator);
          texts[0] + separator + (Joined(front[1..], separator) + separator + last);
          (texts[0] + separator + Joined(front[1..], separator)) + separator + last;
          Joined(front, separator) + separator + last;
        }
      } else {
        assert front == [texts[0]] && texts[1..] == [last];
      }
    }
  }

  lemma PicksFirst(a: seq<Value>, v: Value)
    requires |a| > 1 && a[0] != Boolean(false)
    ensures (exists k: nat :: Picks(a, k, v)) <==> a[0] == Boolean(true) && v == a[1]
  {
    forall k: nat | Picks(a, k, v) ensures k == 0 {
      if k > 0 { FalseFirst(a, k, v); }
    }
    if a[0] == Boolean(true) && v == a[1] { assert Picks(a, 0, v); }
  }

  lemma FalseFirst(a: seq<Value>, k: nat, v: Value)
    requires Picks(a, k, v) && k > 0
    ensures a[0] == Boolean(false)
  {
    assert a[2 * 0] == Boolean(false);
  }

  lemma PicksLater(a: seq<Value>, k: nat, v: Value)
    requires |a| > 2 && a[0] == Boolean(false)
    ensures Picks(a, k + 1, v) <==> Picks(a[2..], k, v)
  {
    var rest := a[2..];
    assert 2 * (k + 1) < |a| ==> rest[2 * k] == a[2 * (k + 1)];
    if Picks(rest, k, v) {
      forall i | 0 <= i < k + 1 ensures a[2 * i] == Boolean(false) {
        if i > 0 { assert rest[2 * (i - 1)] == a[2 * i]; }
      }
    }
    if Picks(a, k + 1, v) {
      forall i | 0 <= i < k ensures rest[2 * i] == Boolean(false) { assert rest[2 * i] == a[2 * (i + 1)]; }
    }
  }

  lemma PicksShifted(a: seq<Value>, v: Value)
    requires |a| > 2 && a[0] == Boolean(false)
    ensures (exists k: nat :: Picks(a, k, v)) <==> exists k: nat :: Picks(a[2..], k, v)
  {
    if k: nat :| Picks(a, k, v) {
      NotTheFirst(a, k, v);
      PicksLater(a, k - 1, v);
    }
    if k: nat :| Picks(a[2..], k, v) { PicksLater(a, k, v); }
  }

  lemma NotTheFirst(a: seq<Value>, k: nat, v: Value)
    requires |a| > 2 && a[0] == Boolean(false) && Picks(a, k, v)
    ensures k > 0
  {
  }

  lemma PicksLast(a: seq<Value>, v: Value)
    requires |a| == 1
    ensures (exists k: nat :: Picks(a, k, v)) <==> v == a[0]
  {
    if v == a[0] { assert Picks(a, 0, v); }
  }

  lemma {:induction false} ChoicePicks(a: seq<Value>, v: Value)
    requires |a| % 2 == 1
    ensures Choice(a[..|a| - 1], a[|a| - 1]) == Ok(v) <==> exists k: nat :: Picks(a, k, v)
    decreases |a|
  {
    hide Picks;
    if |a| == 1 {
      PicksLast(a, v);
    } else if a[0] == Boolean(false) {
      PicksShifted(a, v);
      assert a[..|a| - 1][2..] == a[2..][..|a| - 3];
      ChoicePicks(a[2..], v);
    } else {
      PicksFirst(a, v);
    }
  }

  lemma ContainsGives(lib: Library, a: seq<Value>, v: Value)
    ensures ApplyFunction(lib, ContainsText, a) == Ok(v) <==> Gives(lib, ContainsText, a, v)
  {
    if |a| == 2 && a[0].Array? {
      var values := a[0].values;
      assert (exists i | 0 <= i < |values| :: lib.compare(Eq, values[i], a[1])) <==> (exists x | x in values :: lib.compare(Eq, x, a[1]));
    } else if |a| == 2 {
      HasTextOccurs(lib.upper(lib.display(a[0])), lib.upper(lib.display(a[1])));
    }
  }

  lemma EndsGives(lib: Library, f: Function, a: seq<Value>, v: Value)
    requires f.StartsWith? || f.EndsWith?
    ensures ApplyFunction(lib, f, a) == Ok(v) <==> Gives(lib, f, a, v)
  {
    if |a| == 2 {
      var s, t := lib.upper(lib.display(a[0])), lib.upper(lib.display(a[1]));
      if t <= s { assert s == t + s[|t|..]; }
      if EndsText(s, t) { assert s == s[..|s| - |t|] + t; }
    }
  }

  /** The function returns a value if and only if that is the one the language gives it. */
  lemma GivesExactly(lib: Library, f: Function, a: seq<Value>, v: Value)
    requires f.ContainsText? || f.StartsWith? || f.EndsWith? || f.JoinValues? || f.ToJson? || f.FromJson? || f.Choose?
    ensures ApplyFunction(lib, f, a) == Ok(v) <==> Gives(lib, f, a, v)
  {
    match f
    case ContainsText => ContainsGives(lib, a, v);
    case JoinValues =>
      if 1 <= |a| <= 2 && a[0].Array? {
        JoinTextsJoined(Displays(lib, a[0].values), if |a| == 2 then lib.display(a[1]) else ",");
      }
    case Choose => if |a| >= 3 && |a| % 2 == 1 { ChoicePicks(a, v); }
    case StartsWith => EndsGives(lib, f, a, v);
    case EndsWith => EndsGives(lib, f, a, v);
    case _ =>
  }

  // ---------------------------------------------------------------- step by step and way by way

  function Reached(s: Selection): seq<Value> {
    match s case One(v) => [v] case Many(values) => values
  }

  /** The selection after all keys, one key at a time over everything selected so far. */
  function Walk(lib: Library, s: Selection, keys: seq<Key>): Option<Selection>
    decreases |keys|
  {
    if keys == [] then Some(s)
    else
      match (if keys[0].None? then Wildcard(s) else Access(lib, s, keys[0].value))
      case Ok(t) => Walk(lib, t, keys[1..])
      case Err(_) => None
  }

  lemma {:induction false} WaysConcat(lib: Library, a: seq<Value>, b: seq<Value>, keys: seq<Key>)
    ensures WaysEach(lib, a + b, keys)
            == match (WaysEach(lib, a, keys), WaysEach(lib, b, keys)) case (Some(x), Some(y)) => Some(x + y) case _ => None
  {
    if a == [] {
      assert a + b == b;
      match WaysEach(lib, b, keys) case Some(y) => assert [] + y == y; case None =>
    } else {
      assert (a + b)[1..] == a[1..] + b;
      WaysConcat(lib, a[1..], b, keys);
      match (Ways(lib, a[0], keys), WaysEach(lib, a[1..], keys), WaysEach(lib, b, keys))
      case (Some(x), Some(y), Some(z)) => assert x + (y + z) == (x + y) + z;
      case _ =>
    }
  }

  lemma WaysOne(lib: Library, v: Value, keys: seq<Key>)
    ensures WaysEach(lib, [v], keys) == Ways(lib, v, keys)
  {
    match Ways(lib, v, keys) case Some(x) => assert x + [] == x; case None =>
  }

  lemma {:induction false} WaysOfAccess(lib: Library, values: seq<Value>, key: Value, keys: seq<Key>)
    ensures WaysEach(lib, values, [Some(key)] + keys)
            == match AccessEach(lib, values, key) case Ok(next) => WaysEach(lib, next, keys) case Err(_) => None
  {
    assert ([Some(key)] + keys)[1..] == keys;
    if values != [] {
      WaysOfAccess(lib, values[1..], key, keys);
    }
  }

  lemma {:induction false} WaysOfExpand(lib: Library, values: seq<Value>, keys: seq<Key>)
    ensures WaysEach(lib, values, [None] + keys)
            == match ExpandEach(values) case Ok(next) => WaysEach(lib, next, keys) case Err(_) => None
  {
    var star: Key := None;
    assert ([star] + keys)[1..] == keys;
    if values != [] {
      WaysOfExpand(lib, values[1..], keys);
      match (Expand(values[0]), ExpandEach(values[1..]))
      case (Ok(first), Ok(rest)) => WaysConcat(lib, first, rest, keys);
      case _ =>
    }
  }

  /** Selecting step by step finds what is at the end of every way, in the order of the ways. */
  lemma {:induction false} WalkIsWays(lib: Library, s: Selection, keys: seq<Key>)
    ensures var ways := WaysEach(lib, Reached(s), keys);
      && (Walk(lib, s, keys).None? <==> ways.None?)
      && (ways.Some? ==> Reached(Walk(lib, s, keys).value) == ways.value
                         && (Walk(lib, s, keys).value.Many? <==> s.Many? || None in keys))
    decreases |keys|
  {
    if keys == [] {
      WaysEnd(lib, Reached(s));
    } else {
      var rest := keys[1..];
      assert keys == [keys[0]] + rest;
      match keys[0]
      case None =>
        WaysOfExpand(lib, Reached(s), rest);
        if s.One? { ExpandOne(s.value); }
        if Wildcard(s).Ok? { WalkIsWays(lib, Wildcard(s).value, rest); }
      case Some(key) =>
        WaysOfAccess(lib, Reached(s), key, rest);
        if s.One? { AccessOne(lib, s.value, key); }
        if Access(lib, s, key).Ok? { WalkIsWays(lib, Access(lib, s, key).value, rest); }
    }
  }

  lemma ExpandOne(v: Value)
    ensures ExpandEach([v]) == Expand(v)
  {
    match Expand(v) case Ok(x) => assert x + [] == x; case Err(_) =>
  }

  lemma AccessOne(lib: Library, v: Value, key: Value)
    ensures AccessEach(lib, [v], key) == match AccessValue(lib, v, key) case Ok(w) => Ok([w]) case Err(e) => Err(e)
  {
    match AccessValue(lib, v, key) case Ok(w) => assert [w] + [] == [w]; case Err(_) =>
  }

  lemma {:induction false} WaysEnd(lib: Library, values: seq<Value>)
    ensures WaysEach(lib, values, []) == Some(values)
  {
    if values != [] {
      WaysEnd(lib, values[1..]);
      assert [values[0]] + values[1..] == values;
    }
  }

  // ---------------------------------------------------------------- the evaluator

  ghost predicate SuffixYields(lib: Library, env: Environment, e: Expr, i: nat, keys: seq<Key>)
    requires e.Context? && 1 <= i <= |e.parts|
  {
    |keys| == |e.parts| - i && forall k | 0 <= k < |keys| :: KeyYields(lib, env, e, i + k, keys[k])
  }

  lemma WalkOne(lib: Library, s: Selection, key: Key)
    ensures Walk(lib, s, [key])
            == match (if key.None? then Wildcard(s) else Access(lib, s, key.value)) case Ok(t) => Some(t) case Err(_) => None
  {
    assert [key][1..] == [];
  }

  /** A step does what the key of its part says. */
  lemma {:induction false} StepIs(lib: Library, env: Environment, e: Expr, i: nat, s: Selection, t: Selection)
    requires e.Context? && 1 <= i < |e.parts|
    ensures Step(lib, env, e, i, s) == Ok(t) <==> exists key :: KeyYields(lib, env, e, i, key) && Walk(lib, s, [key]) == Some(t)
    decreases e, 0, i
  {
    hide Access, Wildcard, Walk;
    var part := e.parts[i];
    if part.Star? {
      WalkOne(lib, s, None);
      assert KeyYields(lib, env, e, i, None);
    } else if part.Identifier? {
      WalkOne(lib, s, Some(Text(part.name)));
      assert KeyYields(lib, env, e, i, Some(Text(part.name)));
    } else {
      var inner := if part.Index? then part.inner else part;
      KeyIs(lib, env, e, i, inner);
      hide KeyYields, Evaluate;
      if Evaluate(lib, env, inner).Ok? {
        WalkOne(lib, s, Some(Evaluate(lib, env, inner).value));
        assert KeyYields(lib, env, e, i, Some(Evaluate(lib, env, inner).value));
      }
    }
  }

  lemma {:induction false} KeyIs(lib: Library, env: Environment, e: Expr, i: nat, inner: Expr)
    requires e.Context? && i < |e.parts| && !e.parts[i].Star? && !e.parts[i].Identifier?
    requires inner == if e.parts[i].Index? then e.parts[i].inner else e.parts[i]
    ensures forall key :: KeyYields(lib, env, e, i, key) <==> key.Some? && Evaluate(lib, env, inner) == Ok(key.value)
    decreases e, 0, 0
  {
    EvaluatesExactly(lib, env, inner);
    hide Evaluate;
  }

  lemma {:induction false} PathIs(lib: Library, env: Environment, e: Expr, i: nat, s: Selection, t: Selection)
    requires e.Context? && 1 <= i <= |e.parts|
    ensures Path(lib, env, e, i, s) == Ok(t) <==> exists keys :: SuffixYields(lib, env, e, i, keys) && Walk(lib, s, keys) == Some(t)
    decreases e, 1, |e.parts| - i
  {
    if i == |e.parts| {
      assert SuffixYields(lib, env, e, i, []);
    } else {
      PathStepIs(lib, env, e, i, s, t);
    }
  }

  lemma {:induction false} PathStepIs(lib: Library, env: Environment, e: Expr, i: nat, s: Selection, t: Selection)
    requires e.Context? && 1 <= i < |e.parts|
    ensures Path(lib, env, e, i, s) == Ok(t) <==> exists keys :: SuffixYields(lib, env, e, i, keys) && Walk(lib, s, keys) == Some(t)
    decreases e, 1, |e.parts| - i, 0
  {
    hide Step, Access, Wildcard, KeyYields, Evaluate;
    if Path(lib, env, e, i, s) == Ok(t) {
      var u := Step(lib, env, e, i, s).value;
      StepIs(lib, env, e, i, s, u);
      PathIs(lib, env, e, i + 1, u, t);
      var key :| KeyYields(lib, env, e, i, key) && Walk(lib, s, [key]) == Some(u);
      var keys :| SuffixYields(lib, env, e, i + 1, keys) && Walk(lib, u, keys) == Some(t);
      WalkOne(lib, s, key);
      assert ([key] + keys)[1..] == keys;
      assert SuffixYields(lib, env, e, i, [key] + keys);
    }
    if keys :| SuffixYields(lib, env, e, i, keys) && Walk(lib, s, keys) == Some(t) {
      var key := keys[0];
      WalkOne(lib, s, key);
      assert KeyYields(lib, env, e, i + 0, key);
      var u := Walk(lib, s, [key]).value;
      StepIs(lib, env, e, i, s, u);
      assert SuffixYields(lib, env, e, i + 1, keys[1..]) by {
        forall k | 0 <= k < |keys[1..]| ensures KeyYields(lib, env, e, i + 1 + k, keys[1..][k]) {
          assert KeyYields(lib, env, e, i + (k + 1), keys[k + 1]);
        }
      }
      PathIs(lib, env, e, i + 1, u, t);
    }
  }

  lemma {:induction false} ArgumentsAre(lib: Library, env: Environment, e: Expr, i: nat)
    requires e.Call? && i <= |e.args|
    ensures forall a :: Arguments(lib, env, e, i) == Ok(a) <==>
              |a| == |e.args| - i && forall k | 0 <= k < |a| :: Yields(lib, env, e.args[i + k], a[k])
    decreases e, 1, |e.args| - i
  {
    hide Evaluate, Yields;
    if i < |e.args| {
      EvaluatesExactly(lib, env, e.args[i]);
      ArgumentsAre(lib, env, e, i + 1);
      forall a ensures Arguments(lib, env, e, i) == Ok(a) <==>
                         |a| == |e.args| - i && forall k | 0 <= k < |a| :: Yields(lib, env, e.args[i + k], a[k]) {
        if |a| == |e.args| - i {
          var rest := a[1..];
          assert a == [a[0]] + rest;
          if forall k | 0 <= k < |a| :: Yields(lib, env, e.args[i + k], a[k]) {
            forall k | 0 <= k < |rest| ensures Yields(lib, env, e.args[i + 1 + k], rest[k]) {
              assert Yields(lib, env, e.args[i + (k + 1)], a[k + 1]);
            }
            assert Yields(lib, env, e.args[i + 0], a[0]);
          }
          if Arguments(lib, env, e, i) == Ok(a) {
            forall k | 0 <= k < |a| ensures Yields(lib, env, e.args[i + k], a[k]) {
              if k > 0 { assert Yields(lib, env, e.args[i + 1 + (k - 1)], rest[k - 1]); }
            }
          }
        }
      }
    }
  }

  lemma {:induction false} EachIs(lib: Library, env: Environment, e: Expr)
    requires e.Call?
    ensures forall a :: Arguments(lib, env, e, 0) == Ok(a) <==> EachYields(lib, env, e, |e.args|, a)
    decreases e, 1, |e.args| + 1
  {
    ArgumentsAre(lib, env, e, 0);
    hide Arguments, Yields;
    assert forall k | 0 <= k < |e.args| :: e.args[0 + k] == e.args[k];
  }

  lemma StatusIs(lib: Library, env: Environment, e: Expr, v: Value)
    requires e.Call? && StatusFunction(e.func)
    ensures Evaluate(lib, env, e) == Ok(v) <==> Yields(lib, env, e, v)
  {
    hide Arguments, EachYields, Gives, ApplyFunction, FormatValues;
  }

  lemma {:induction false} CallIs(lib: Library, env: Environment, e: Expr, v: Value)
    requires e.Call?
    ensures Evaluate(lib, env, e) == Ok(v) <==> Yields(lib, env, e, v)
    decreases e, 1, |e.args| + 2
  {
    if StatusFunction(e.func) {
      StatusIs(lib, env, e, v);
    } else {
      EachIs(lib, env, e);
      hide Arguments, EachYields, Gives, ApplyFunction, FormatValues;
      if Arguments(lib, env, e, 0).Ok? && e.func != HashFiles && e.func != FormatText {
        GivesExactly(lib, e.func, Arguments(lib, env, e, 0).value, v);
      }
    }
  }

  lemma {:induction false} ContextIs(lib: Library, env: Environment, e: Expr, v: Value)
    requires e.Context? && e.parts != []
    ensures Evaluate(lib, env, e) == Ok(v) <==> Yields(lib, env, e, v)
    decreases e, 1, |e.parts| + 1
  {
    EvaluatesExactly(lib, env, e.parts[0]);
    if Evaluate(lib, env, e) == Ok(v) {
      var head := Evaluate(lib, env, e.parts[0]).value;
      var t := Path(lib, env, e, 1, One(head)).value;
      PathIs(lib, env, e, 1, One(head), t);
      var keys :| SuffixYields(lib, env, e, 1, keys) && Walk(lib, One(head), keys) == Some(t);
      FoundIs(lib, head, keys, t);
      assert KeysYield(lib, env, e, keys) by { hide KeyYields; }
      assert Yields(lib, env, e, v);
    }
    if Yields(lib, env, e, v) {
      var head, keys :| Yields(lib, env, e.parts[0], head) && KeysYield(lib, env, e, keys) && Found(lib, head, keys, v);
      FoundWalks(lib, head, keys, v);
      assert SuffixYields(lib, env, e, 1, keys) by { hide KeyYields; }
      PathIs(lib, env, e, 1, One(head), Walk(lib, One(head), keys).value);
    }
  }

  lemma FoundIs(lib: Library, head: Value, keys: seq<Key>, t: Selection)
    requires Walk(lib, One(head), keys) == Some(t)
    ensures Found(lib, head, keys, Finish(t))
  {
    WalkIsWays(lib, One(head), keys);
    WaysOne(lib, head, keys);
    hide Walk, Ways, WaysEach;
  }

  lemma FoundWalks(lib: Library, head: Value, keys: seq<Key>, v: Value)
    requires Found(lib, head, keys, v)
    ensures Walk(lib, One(head), keys).Some? && Finish(Walk(lib, One(head), keys).value) == v
  {
    WalkIsWays(lib, One(head), keys);
    WaysOne(lib, head, keys);
    hide Walk, Ways, WaysEach;
  }

  /** What a binary expression evaluates to, by what its operands do. */
  lemma BinarySteps(lib: Library, env: Environment, e: Expr)
    requires e.Binary?
    ensures var l, r := Evaluate(lib, env, e.lhs), Evaluate(lib, env, e.rhs);
            Evaluate(lib, env, e)
            == if l.Err? then l
               else if e.op == And then (if lib.truthy(l.value) then r else l)
               else if e.op == Or then (if lib.truthy(l.value) then l else r)
               else if r.Err? then r else Ok(Boolean(lib.compare(e.op, l.value, r.value)))
  {
    hide Arguments, Path, StatusValue;
  }

  lemma BinaryYields(lib: Library, env: Environment, e: Expr, v: Value, l: Value)
    requires e.Binary? && forall w :: Yields(lib, env, e.lhs, w) <==> w == l
    ensures Yields(lib, env, e, v) <==>
            if e.op == And then (if lib.truthy(l) then Yields(lib, env, e.rhs, v) else v == l)
            else if e.op == Or then (if lib.truthy(l) then v == l else Yields(lib, env, e.rhs, v))
            else exists r :: Yields(lib, env, e.rhs, r) && v == Boolean(lib.compare(e.op, l, r))
  {
    hide EachYields, KeysYield, Found, Gives;
  }

  lemma BinaryYieldsNothing(lib: Library, env: Environment, e: Expr, v: Value)
    requires e.Binary? && forall w :: !Yields(lib, env, e.lhs, w)
    ensures !Yields(lib, env, e, v)
  {
    hide EachYields, KeysYield, Found, Gives;
  }

  lemma {:induction false} BinaryIs(lib: Library, env: Environment, e: Expr, v: Value)
    requires e.Binary?
    ensures Evaluate(lib, env, e) == Ok(v) <==> Yields(lib, env, e, v)
    decreases e, 1, 0
  {
    EvaluatesExactly(lib, env, e.lhs);
    EvaluatesExactly(lib, env, e.rhs);
    BinarySteps(lib, env, e);
    hide Evaluate;
    if Evaluate(lib, env, e.lhs).Ok? {
      BinaryYields(lib, env, e, v, Evaluate(lib, env, e.lhs).value);
    } else {
      BinaryYieldsNothing(lib, env, e, v);
    }
    hide Yields;
  }

  /** The evaluator returns a value if and only if the expression has it. */
  lemma {:induction false} EvaluatesExactly(lib: Library, env: Environment, e: Expr)
    ensures forall v :: Evaluate(lib, env, e) == Ok(v) <==> Yields(lib, env, e, v)
    decreases e, 2, 0
  {
    match e
    case Index(inner) => EvaluatesExactly(lib, env, inner);
    case Not(operand) => EvaluatesExactly(lib, env, operand);
    case Binary(op, lhs, rhs) =>
      forall v ensures Evaluate(lib, env, e) == Ok(v) <==> Yields(lib, env, e, v) { BinaryIs(lib, env, e, v); }
    case Call(_, _) =>
      forall v ensures Evaluate(lib, env, e) == Ok(v) <==> Yields(lib, env, e, v) { CallIs(lib, env, e, v); }
    case Context(parts) =>
      if parts != [] {
        forall v ensures Evaluate(lib, env, e) == Ok(v) <==> Yields(lib, env, e, v) { ContextIs(lib, env, e, v); }
      }
    case _ =>
  }

  // ---------------------------------------------------------------- laws of the operators

  /** Both operators return one of their operands, and are true when both or either of them is. */
  lemma TruthTables(lib: Library, env: Environment, a: Expr, b: Expr)
    requires Evaluate(lib, env, a).Ok? && Evaluate(lib, env, b).Ok?
    ensures var (l, r) := (Evaluate(lib, env, a).value, Evaluate(lib, env, b).value);
            var (both, either) := (Evaluate(lib, env, Binary(And, a, b)), Evaluate(lib, env, Binary(Or, a, b)));
      && both.Ok? && either.Ok? && both.value in {l, r} && either.value in {l, r}
      && (lib.truthy(both.value) <==> lib.truthy(l) && lib.truthy(r))
      && (lib.truthy(either.value) <==> lib.truthy(l) || lib.truthy(r))
      && Evaluate(lib, env, Not(a)) == Ok(Boolean(!lib.truthy(l)))
  {
    BinarySteps(lib, env, Binary(And, a, b));
    BinarySteps(lib, env, Binary(Or, a, b));
  }

  /** A decided left operand is the result, whatever the right one comes to; a failed one is the failure. */
  lemma ShortCircuits(lib: Library, env: Environment, op: BinOp, a: Expr, b: Expr)
    ensures var l := Evaluate(lib, env, a);
      && (l.Err? ==> Evaluate(lib, env, Binary(op, a, b)) == l)
      && (l.Ok? && op == And && !lib.truthy(l.value) ==> Evaluate(lib, env, Binary(op, a, b)) == l)
      && (l.Ok? && op == Or && lib.truthy(l.value) ==> Evaluate(lib, env, Binary(op, a, b)) == l)
  {
    BinarySteps(lib, env, Binary(op, a, b));
    hide Evaluate;
  }

  /** De Morgan's laws, failures included, when a boolean is as true as it says. */
  lemma DeMorgan(lib: Library, env: Environment, a: Expr, b: Expr)
    requires lib.truthy(Boolean(true)) && !lib.truthy(Boolean(false))
    ensures Evaluate(lib, env, Not(Binary(And, a, b))) == Evaluate(lib, env, Binary(Or, Not(a), Not(b)))
    ensures Evaluate(lib, env, Not(Binary(Or, a, b))) == Evaluate(lib, env, Binary(And, Not(a), Not(b)))
  {
    NotSteps(lib, env, a);
    NotSteps(lib, env, b);
    NotSteps(lib, env, Binary(And, a, b));
    NotSteps(lib, env, Binary(Or, a, b));
    BinarySteps(lib, env, Binary(And, a, b));
    BinarySteps(lib, env, Binary(Or, a, b));
    BinarySteps(lib, env, Binary(Or, Not(a), Not(b)));
    BinarySteps(lib, env, Binary(And, Not(a), Not(b)));
    hide Evaluate;
  }

  lemma NotSteps(lib: Library, env: Environment, a: Expr)
    ensures Evaluate(lib, env, Not(a))
            == match Evaluate(lib, env, a) case Ok(v) => Ok(Boolean(!lib.truthy(v))) case Err(err) => Err(err)
  {
  }

  /** A call fails with the failure of its first argument that fails. */
  lemma {:induction false} FirstFailureWins(lib: Library, env: Environment, e: Expr, i: nat, k: nat)
    requires e.Call? && i <= k < |e.args| && Evaluate(lib, env, e.args[k]).Err?
    requires forall m | i <= m < k :: Evaluate(lib, env, e.args[m]).Ok?
    ensures Arguments(lib, env, e, i) == Err(Evaluate(lib, env, e.args[k]).error)
    ensures i == 0 && !StatusFunction(e.func) ==> Evaluate(lib, env, e) == Err(Evaluate(lib, env, e.args[k]).error)
    decreases k - i
  {
    if i < k { FirstFailureWins(lib, env, e, i + 1, k); }
  }

  // ---------------------------------------------------------------- laws of access

  /** Keys ignore case, and the first entry that fits is found; a missing one is the empty text. */
  lemma {:induction false} EntryFound(entries: seq<(string, Value)>, key: string, i: nat)
    ensures FindEntry(entries, key).None? <==> forall k | 0 <= k < |entries| :: !Alike(entries[k].0, key)
    ensures i < |entries| && Alike(entries[i].0, key) && (forall k | 0 <= k < i :: !Alike(entries[k].0, key))
            ==> FindEntry(entries, key) == Some(entries[i].1)
  {
    if entries != [] {
      LowerAlike(entries[0].0, key);
      assert forall k | 0 < k < |entries| :: entries[1..][k - 1] == entries[k];
      EntryFound(entries[1..], key, if i > 0 then i - 1 else 0);
      hide Lower, Alike;
      if FindEntry(entries, key).None? {
        forall k | 0 <= k < |entries| ensures !Alike(entries[k].0, key) {
          if k > 0 { assert !Alike(entries[1..][k - 1].0, key); }
        }
      }
    }
  }

  predicate Digits(s: string) {
    forall c | c in s :: '0' <= c <= '9'
  }

  lemma {:induction false} DigitsRead(s: string)
    ensures if Digits(s) then DigitsValue(s) == Some(DecimalValue(s)) else DigitsValue(s) == None
  {
    if s != "" {
      var front, last := s[..|s| - 1], s[|s| - 1];
      assert s == front + [last];
      DigitsRead(front);
      if Digits(front) && '0' <= last <= '9' {
        assert Digits(s);
      } else {
        assert last in s && forall c | c in front :: c in s;
      }
    }
  }

  /** A position is written in decimal, possibly behind a plus sign, and fits 64 bits. */
  lemma PositionsRead(s: string, n: nat)
    ensures ParseUsize(s) == Some(n) <==>
            n < 0x1_0000_0000_0000_0000 && exists d :: d != "" && Digits(d) && (s == d || s == "+" + d) && DecimalValue(d) == n
  {
    var d := if s != "" && s[0] == '+' then s[1..] else s;
    DigitsRead(d);
    assert s == d || s == "+" + d;
    forall e | e != "" && Digits(e) && (s == e || s == "+" + e) ensures e == d {
      assert e[0] in e;
    }
    hide DigitsValue, DecimalValue;
  }

  /** What is found under `index` in `v`, and when nothing can be looked up there. */
  ghost predicate Holds(lib: Library, v: Value, index: Value, w: Value) {
    match v
    case Object(entries) =>
      if forall k | 0 <= k < |entries| :: !Alike(entries[k].0, lib.display(index)) then w == Text("")
      else exists i | 0 <= i < |entries| :: FirstAlike(entries, lib.display(index), i) && w == entries[i].1
    case Array(values) =>
      exists p: nat ::
        && (index.Number? ==> lib.whole(index.number) == Some(p))
        && (index.Text? ==> ParseUsize(index.text) == Some(p))
        && (index.Number? || index.Text?)
        && w == if p < |values| then values[p] else Text("")
    case Null => w == Null
    case Text(s) => s == "" && w == v
    case _ => false
  }

  predicate FirstAlike(entries: seq<(string, Value)>, key: string, i: nat) {
    i < |entries| && Alike(entries[i].0, key) && forall k | 0 <= k < i :: !Alike(entries[k].0, key)
  }

  lemma {:induction false} FirstAlikeExists(entries: seq<(string, Value)>, key: string, n: nat)
    requires n <= |entries| && exists k :: 0 <= k < n && Alike(entries[k].0, key)
    ensures exists i | 0 <= i < |entries| :: FirstAlike(entries, key, i)
  {
    hide Alike;
    if exists k :: 0 <= k < n - 1 && Alike(entries[k].0, key) {
      FirstAlikeExists(entries, key, n - 1);
    } else {
      assert FirstAlike(entries, key, n - 1);
    }
  }

  /** Access finds exactly what the value holds there. */
  lemma AccessExactly(lib: Library, v: Value, index: Value, w: Value)
    ensures AccessValue(lib, v, index) == Ok(w) <==> Holds(lib, v, index, w)
  {
    if v.Object? {
      ObjectExactly(lib, v.entries, lib.display(index), w);
    }
    hide FindEntry, Alike, ParseUsize;
  }

  lemma ObjectExactly(lib: Library, entries: seq<(string, Value)>, key: string, w: Value)
    ensures FindEntry(entries, key).GetOr(Text("")) == w <==>
            if forall k | 0 <= k < |entries| :: !Alike(entries[k].0, key) then w == Text("")
            else exists i | 0 <= i < |entries| :: FirstAlike(entries, key, i) && w == entries[i].1
  {
    hide FindEntry, Alike;
    EntryFound(entries, key, 0);
    forall i | 0 <= i < |entries| && FirstAlike(entries, key, i) ensures FindEntry(entries, key) == Some(entries[i].1) {
      EntryFound(entries, key, i);
    }
    if exists k :: 0 <= k < |entries| && Alike(entries[k].0, key) {
      FirstAlikeExists(entries, key, |entries|);
    }
  }

  // ---------------------------------------------------------------- laws of functions

  /** Of the three tests at most one is true, and none only when the job was skipped. */
  lemma StatusTests(lib: Library, env: Environment)
    ensures Evaluate(lib, env, Call(Always, [])) == Ok(Boolean(true))
    ensures Evaluate(lib, env, Call(Success, [])) == Ok(Boolean(env.status == Succeeded))
    ensures Evaluate(lib, env, Call(Failure, [])) == Ok(Boolean(env.status == Failed))
    ensures Evaluate(lib, env, Call(Cancelled, [])) == Ok(Boolean(env.status == WasCancelled))
  {
  }

  /** The texts between separators. */
  function Split(s: string, c: char): (texts: seq<string>)
    ensures texts != []
  {
    if s == "" then [""]
    else
      var front, last := Split(s[..|s| - 1], c), s[|s| - 1];
      if last == c then front + [""] else front[..|front| - 1] + [front[|front| - 1] + [last]]
  }

  lemma {:induction false} SplitText(s: string, t: string, c: char)
    requires c !in t
    ensures var texts := Split(s, c); Split(s + t, c) == texts[..|texts| - 1] + [texts[|texts| - 1] + t]
    decreases |t|
  {
    if t == "" {
      assert s + t == s;
      var texts := Split(s, c);
      assert texts[|texts| - 1] + t == texts[|texts| - 1];
    } else {
      var front := t[..|t| - 1];
      assert (s + t)[..|s + t| - 1] == s + front;
      assert t == front + [t[|t| - 1]];
      SplitText(s, front, c);
      var texts := Split(s, c);
      assert texts[|texts| - 1] + t == (texts[|texts| - 1] + front) + [t[|t| - 1]];
    }
  }

  lemma SplitAfter(s: string, t: string, c: char)
    requires c !in t
    ensures Split(s + [c] + t, c) == Split(s, c) + [t]
  {
    var u := s + [c];
    assert u[..|u| - 1] == s;
    SplitText(u, t, c);
    assert "" + t == t;
  }

  lemma SplitWhole(t: string, c: char)
    requires c !in t
    ensures Split(t, c) == [t]
  {
    SplitText("", t, c);
    assert "" + t == t;
  }

  /** Joining loses nothing: splitting at the separator gives the texts back. */
  lemma {:induction false} JoinSplitsBack(texts: seq<string>, c: char)
    requires texts != [] && forall t | t in texts :: c !in t
    ensures Split(Joined(texts, [c]), c) == texts
  {
    var front, last := texts[..|texts| - 1], texts[|texts| - 1];
    assert texts == front + [last];
    assert last in texts;
    if front == [] {
      SplitWhole(last, c);
    } else {
      JoinSplitsBack(front, c);
      SplitAfter(Joined(front, [c]), last, c);
    }
  }
}
