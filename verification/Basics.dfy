/** Shared idiom: optional values, optional failures and ASCII text. */
module Basics {

  datatype Option<+T> = None | Some(value: T) {
    function GetOr(default: T): T {
      match this
      case Some(v) => v
      case None => default
    }
  }

  datatype Result<+T, +E> = Ok(value: T) | Err(error: E)

  lemma SubsetSize<T>(a: set<T>, b: set<T>)
    requires a <= b
    ensures |a| <= |b|
  {
    assert b == a + (b - a);
  }

  function LowerChar(c: char): char {
    if 'A' <= c <= 'Z' then c - 'A' + 'a' else c
  }

  /** ASCII lower case, character by character. */
  function Lower(s: string): (r: string)
    ensures |r| == |s|
    ensures forall i | 0 <= i < |s| :: r[i] == LowerChar(s[i])
  {
    seq(|s|, i requires 0 <= i < |s| => LowerChar(s[i]))
  }

  predicate IsBlank(c: char) {
    c == ' ' || c == '\t' || c == '\n' || c == '\r'
  }

  function TrimStart(s: string): (r: string)
    ensures |r| <= |s|
  {
    if s != "" && IsBlank(s[0]) then TrimStart(s[1..]) else s
  }

  function TrimEnd(s: string): (r: string)
    ensures |r| <= |s|
  {
    if s != "" && IsBlank(s[|s| - 1]) then TrimEnd(s[..|s| - 1]) else s
  }

  function Trim(s: string): string {
    TrimEnd(TrimStart(s))
  }

  predicate Blank(s: string) {
    forall i | 0 <= i < |s| :: IsBlank(s[i])
  }

  lemma {:induction false} TrimStartSplits(s: string) returns (before: string)
    ensures Blank(before) && s == before + TrimStart(s) && (TrimStart(s) == "" || !IsBlank(TrimStart(s)[0]))
  {
    before := "";
    if s != "" && IsBlank(s[0]) {
      before := TrimStartSplits(s[1..]);
      before := [s[0]] + before;
    }
  }

  lemma {:induction false} TrimEndSplits(s: string) returns (after: string)
    ensures Blank(after) && s == TrimEnd(s) + after && (TrimEnd(s) == "" || !IsBlank(TrimEnd(s)[|TrimEnd(s)| - 1]))
  {
    after := "";
    if s != "" && IsBlank(s[|s| - 1]) {
      after := TrimEndSplits(s[..|s| - 1]);
      after := after + [s[|s| - 1]];
    }
  }

  /** Trimming removes blank ends, and the text left neither starts nor ends blank. */
  lemma TrimSplits(s: string) returns (before: string, after: string)
    ensures Blank(before) && Blank(after) && s == before + Trim(s) + after
    ensures Trim(s) == "" || (!IsBlank(Trim(s)[0]) && !IsBlank(Trim(s)[|Trim(s)| - 1]))
  {
    before := TrimStartSplits(s);
    after := TrimEndSplits(TrimStart(s));
    var t := TrimStart(s);
    assert t == Trim(s) + after;
    if Trim(s) != "" { assert Trim(s)[0] == t[0]; }
    hide TrimStart, TrimEnd;
  }

  lemma {:induction false} TrimStartSkips(before: string, s: string)
    requires Blank(before)
    ensures TrimStart(before + s) == TrimStart(s)
  {
    if before == "" {
      assert before + s == s;
    } else {
      assert (before + s)[1..] == before[1..] + s;
      TrimStartSkips(before[1..], s);
    }
  }

  lemma {:induction false} TrimEndSkips(s: string, after: string)
    requires Blank(after)
    ensures TrimEnd(s + after) == TrimEnd(s)
  {
    if after == "" {
      assert s + after == s;
    } else {
      assert (s + after)[..|s + after| - 1] == s + after[..|after| - 1];
      TrimEndSkips(s, after[..|after| - 1]);
    }
  }

  /** Trimming text that neither starts nor ends blank out of blanks gives the text. */
  lemma TrimExactly(before: string, s: string, after: string)
    requires Blank(before) && Blank(after) && s != "" && !IsBlank(s[0]) && !IsBlank(s[|s| - 1])
    ensures Trim(before + s + after) == s
  {
    assert before + s + after == before + (s + after);
    TrimStartSkips(before, s + after);
    TrimEndSkips(s, after);
  }
}
