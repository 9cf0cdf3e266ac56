/** The ids the linker builds: parts joined by `::`, and numbered invocation labels. */
module Names {

  function Join(a: string, b: string): string {
    a + "::" + b
  }

  /** The id contains `::`. */
  predicate Namespaced(s: string) {
    exists i | 0 <= i < |s| - 1 :: s[i] == ':' && s[i + 1] == ':'
  }

  /** The first `::` of anything joined to the id is where it was joined. */
  predicate Sealed(s: string) {
    !Namespaced(s) && (s != "" ==> s[|s| - 1] != ':')
  }

  predicate StartsJoined(s: string) {
    |s| >= 2 && s[0] == ':' && s[1] == ':'
  }

  /** Everything before the first `::`. */
  function Head(s: string): (h: string)
    ensures !Namespaced(h) && |h| <= |s| && h == s[..|h|]
    ensures |h| < |s| ==> StartsJoined(s[|h|..])
  {
    if s == "" || StartsJoined(s) then "" else [s[0]] + Head(s[1..])
  }

  lemma NamespacedTail(s: string)
    requires s != "" && Namespaced(s[1..])
    ensures Namespaced(s)
  {
    var i :| 0 <= i < |s[1..]| - 1 && s[1..][i] == ':' && s[1..][i + 1] == ':';
    assert s[i + 1] == ':' && s[i + 2] == ':';
  }

  lemma {:induction false} HeadIsPrefix(s: string, a: string)
    requires !Namespaced(a) && |a| <= |s| && a == s[..|a|] && (|a| < |s| ==> Sealed(a) && StartsJoined(s[|a|..]))
    ensures Head(s) == a
  {
    if a != "" {
      assert s[0] == a[0];
      if |a| >= 2 { assert s[1] == a[1]; }
      assert s[1..][..|a| - 1] == a[1..];
      if Namespaced(a[1..]) { NamespacedTail(a); }
      HeadIsPrefix(s[1..], a[1..]);
    }
  }

  lemma HeadOfJoin(a: string, b: string)
    requires Sealed(a)
    ensures Head(Join(a, b)) == a && Head(a) == a
  {
    HeadIsPrefix(Join(a, b), a);
    HeadIsPrefix(a, a);
  }

  lemma JoinAssociative(a: string, b: string, c: string)
    ensures Join(Join(a, b), c) == Join(a, Join(b, c))
  {
  }

  /** With a common first part, a joined id can be taken apart in one way. */
  lemma JoinSplits(a: string, b: string, c: string)
    requires Join(a, b) == Join(a, c)
    ensures b == c
  {
    assert b == Join(a, b)[|a| + 2..];
    assert c == Join(a, c)[|a| + 2..];
  }

  lemma JoinInjective(a: string, b: string, c: string, d: string)
    requires Sealed(a) && Sealed(c) && Join(a, b) == Join(c, d)
    ensures a == c && b == d
  {
    HeadOfJoin(a, b);
    HeadOfJoin(c, d);
    JoinSplits(a, b, d);
  }

  lemma JoinIsNamespaced(a: string, b: string)
    ensures Namespaced(Join(a, b))
    ensures Join(a, b) != a
  {
    var s := Join(a, b);
    assert s[|a|] == ':' && s[|a| + 1] == ':';
  }

  lemma SealedIsPublic(s: string)
    requires Sealed(s)
    ensures !Namespaced(s)
  {
  }

  /** Two ids without `::` can be joined to the same id if and only if they differ by one colon at the end. */
  lemma JoinsCollideExactly(a: string, c: string)
    requires a != c && !Namespaced(a) && !Namespaced(c)
    ensures (exists b, d :: Join(a, b) == Join(c, d)) <==> a == c + ":" || c == a + ":"
  {
    if a == c + ":" {
      assert Join(a, "") == Join(c, ":");
    }
    if c == a + ":" {
      assert Join(a, ":") == Join(c, "");
    }
    if b, d :| Join(a, b) == Join(c, d) {
      if |a| <= |c| { ColonBehind(a, b, c, d); } else { ColonBehind(c, d, a, b); }
    }
  }

  lemma ColonBehind(a: string, b: string, c: string, d: string)
    requires |a| <= |c| && a != c && !Namespaced(c) && Join(a, b) == Join(c, d)
    ensures c == a + ":"
  {
    var s := Join(a, b);
    assert s == Join(c, d) && a == s[..|a|] && c == s[..|c|];
    assert s[|a|] == ':' && s[|a| + 1] == ':';
    assert c[|a|] == ':';
  }

  // ---------------------------------------------------------------- numbered invocations

  function Digit(d: nat): (c: char)
    requires d < 10
    ensures '0' <= c <= '9' && c - '0' == d as char
  {
    '0' + d as char
  }

  function Decimal(n: nat): (s: string)
    ensures |s| >= 1 && forall c | c in s :: '0' <= c <= '9'
  {
    if n < 10 then [Digit(n)] else Decimal(n / 10) + [Digit(n % 10)]
  }

  lemma {:induction false} DecimalInjective(m: nat, n: nat)
    requires Decimal(m) == Decimal(n)
    ensures m == n
  {
    var s := Decimal(m);
    assert s[|s| - 1] == Digit(m % 10) && s[|s| - 1] == Digit(n % 10);
    assert m % 10 == n % 10;
    if m < 10 || n < 10 {
      assert |s| == 1;
    } else {
      assert s[..|s| - 1] == Decimal(m / 10) && s[..|s| - 1] == Decimal(n / 10);
      DecimalInjective(m / 10, n / 10);
    }
  }

  /** The number a decimal text stands for. */
  function DecimalValue(s: string): nat
    requires forall c | c in s :: '0' <= c <= '9'
  {
    if s == "" then 0
    else
      var front, last := s[..|s| - 1], s[|s| - 1];
      assert s == front + [last];
      assert last in s && '0' <= last <= '9';
      assert forall c | c in front :: c in s;
      10 * DecimalValue(front) + (last - '0') as nat
  }

  /** The decimal text of a number reads back as that number. */
  lemma {:induction false} DecimalReads(n: nat)
    ensures DecimalValue(Decimal(n)) == n
  {
    if n < 10 {
      assert Decimal(n)[..0] == "";
    } else {
      DecimalReads(n / 10);
      assert Decimal(n)[..|Decimal(n)| - 1] == Decimal(n / 10);
    }
  }

  function Label(n: nat): (s: string)
    ensures Sealed(s)
  {
    var s := "matrix-" + Decimal(n);
    assert forall i | 7 <= i < |s| :: s[i] in Decimal(n);
    s
  }

  lemma LabelInjective(m: nat, n: nat)
    requires Label(m) == Label(n)
    ensures m == n
  {
    assert Label(m)[7..] == Decimal(m) && Label(n)[7..] == Decimal(n);
    DecimalInjective(m, n);
  }

  /** The ids of the invocations of one call: the call's own id, or one numbered id per combination. */
  function Invocation(call: string, n: nat, i: nat): string {
    if n == 1 then call else Join(call, Label(i + 1))
  }

  /** One invocation is the call itself; several are numbered from one behind its name. */
  lemma InvocationText(call: string, n: nat, i: nat)
    ensures n == 1 ==> Invocation(call, n, i) == call
    ensures n != 1 ==> exists digits :: (forall c | c in digits :: '0' <= c <= '9') && DecimalValue(digits) == i + 1
                                        && Invocation(call, n, i) == call + "::matrix-" + digits
  {
    DecimalReads(i + 1);
    var digits := Decimal(i + 1);
    assert call + "::" + ("matrix-" + digits) == call + "::matrix-" + digits;
  }

  /** Invocations of calls are told apart by their names, whatever is appended. */
  lemma InvocationsSeparate(c: string, n: nat, i: nat, x: string, j: nat, y: string)
    requires i < n && j < n && Join(Invocation(c, n, i), x) == Join(Invocation(c, n, j), y)
    ensures i == j && x == y
  {
    if n == 1 {
      JoinSplits(c, x, y);
    } else {
      JoinAssociative(c, Label(i + 1), x);
      JoinAssociative(c, Label(j + 1), y);
      JoinSplits(c, Join(Label(i + 1), x), Join(Label(j + 1), y));
      JoinInjective(Label(i + 1), x, Label(j + 1), y);
      LabelInjective(i + 1, j + 1);
    }
  }

  lemma InvocationsDiffer(c: string, n: nat, i: nat, j: nat)
    requires i < n && j < n && Invocation(c, n, i) == Invocation(c, n, j)
    ensures i == j
  {
    if n != 1 {
      JoinSplits(c, Label(i + 1), Label(j + 1));
      LabelInjective(i + 1, j + 1);
    }
  }

  /** No invocation is named like something inside one. */
  lemma InvocationIsOutside(c: string, n: nat, i: nat, j: nat, x: string)
    requires i < n && j < n
    ensures Invocation(c, n, i) != Join(Invocation(c, n, j), x)
    ensures c != Join(Invocation(c, n, j), x)
    ensures n != 1 ==> c != Invocation(c, n, i)
  {
    if n == 1 {
      JoinIsNamespaced(c, x);
    } else {
      JoinAssociative(c, Label(j + 1), x);
      JoinIsNamespaced(c, Join(Label(j + 1), x));
      JoinIsNamespaced(c, Label(i + 1));
      if Join(c, Label(i + 1)) == Join(c, Join(Label(j + 1), x)) {
        JoinSplits(c, Label(i + 1), Join(Label(j + 1), x));
        JoinIsNamespaced(Label(j + 1), x);
      }
    }
  }

  lemma HeadOfInvocation(c: string, n: nat, i: nat, x: string)
    requires Sealed(c)
    ensures Head(Invocation(c, n, i)) == c && Head(Join(Invocation(c, n, i), x)) == c
  {
    HeadOfJoin(c, Label(i + 1));
    JoinAssociative(c, Label(i + 1), x);
    HeadOfJoin(c, Join(Label(i + 1), x));
    HeadOfJoin(c, x);
  }
}
