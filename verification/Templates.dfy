/** Templates: the `${{ ... }}` scanner, rendering, and the format function's little language. */
module Templates {
  import opened Basics
  import opened Names
  import opened Expressions

  const OPEN := "${{"
  const CLOSE := "}}"

  // ---------------------------------------------------------------- the scanner

  function Shift(n: nat, at: Option<nat>): Option<nat> {
    match at
    case Some(i) => Some(n + i)
    case None => None
  }

  /** The first closing braces of `t` outside quotes, given whether `t` starts inside a quoted string. */
  function ScanRest(t: string, quoted: bool): (end: Option<nat>)
    ensures end.Some? ==> end.value + 2 <= |t| && t[end.value..end.value + 2] == CLOSE
  {
    if t == "" then None
    else if t[0] == '\'' then
      if quoted && |t| > 1 && t[1] == '\'' then Shift(2, ScanRest(t[2..], quoted)) else Shift(1, ScanRest(t[1..], !quoted))
    else if !quoted && |t| >= 2 && t[..2] == CLOSE then Some(0)
    else Shift(1, ScanRest(t[1..], quoted))
  }

  /** One turn of the scanner, in terms of positions of the whole text. */
  lemma ScanTurn(t: string, i: nat, quoted: bool)
    requires i < |t|
    ensures ScanRest(t[i..], quoted) ==
            if t[i] == '\'' then
              if quoted && i + 1 < |t| && t[i + 1] == '\'' then Shift(2, ScanRest(t[i + 2..], quoted))
              else Shift(1, ScanRest(t[i + 1..], !quoted))
            else if !quoted && i + 2 <= |t| && t[i..i + 2] == CLOSE then Some(0)
            else Shift(1, ScanRest(t[i + 1..], quoted))
  {
    var u := t[i..];
    assert u[0] == t[i] && u[1..] == t[i + 1..];
    if i + 2 <= |t| {
      assert u[1] == t[i + 1] && u[2..] == t[i + 2..] && u[..2] == t[i..i + 2];
    }
  }

  method FindExpressionEnd(t: string, start: nat) returns (end: Option<nat>)
    requires start <= |t|
    ensures end == Shift(start, ScanRest(t[start..], false))
  {
    hide ScanRest;
    var quoted := false;
    var i := start;
    while i < |t|
      invariant start <= i <= |t|
      invariant Shift(i, ScanRest(t[i..], quoted)) == Shift(start, ScanRest(t[start..], false))
    {
      ScanTurn(t, i, quoted);
      var character := t[i];
      if character == '\'' {
        if quoted && i + 1 < |t| && t[i + 1] == '\'' {
          i := i + 1;
        } else {
          quoted := !quoted;
        }
      } else if !quoted && i + 2 <= |t| && t[i..i + 2] == CLOSE {
        return Some(i);
      }
      i := i + 1;
    }
    ScanNothing(quoted);
    return None;
  }

  lemma ScanNothing(quoted: bool)
    ensures ScanRest("", quoted) == None
  {
  }

  /** The first occurrence of `part` in `t`. */
  function FindIn(t: string, part: string): (at: Option<nat>)
    requires part != ""
    ensures at.Some? ==> at.value + |part| <= |t| && t[at.value..at.value + |part|] == part
  {
    if |part| > |t| then None
    else if t[..|part|] == part then Some(0)
    else Shift(1, FindIn(t[1..], part))
  }

  // ---------------------------------------------------------------- evaluation of sources

  function Stripped(s: string): string {
    var trimmed := Trim(s);
    if |trimmed| >= 5 && trimmed[..3] == OPEN && trimmed[|trimmed| - 2..] == CLOSE
    then Trim(trimmed[3..|trimmed| - 2]) else trimmed
  }

  lemma BracesTrimmed(before: string, s: string, after: string)
    requires Blank(before) && Blank(after) && |s| >= 5 && s[..3] == OPEN && s[|s| - 2..] == CLOSE
    ensures Trim(before + s + after) == s
  {
    assert s[0] == s[..3][0] && s[|s| - 1] == s[|s| - 2..][1];
    TrimExactly(before, s, after);
  }

  /** Blanks around a source do not matter, nor do the braces around the whole of it, nor blanks inside those. */
  lemma StrippedExactly(before: string, code: string, after: string)
    requires Blank(before) && Blank(after)
    ensures Stripped(before + (OPEN + code + CLOSE) + after) == Trim(code)
    ensures !(|Trim(code)| >= 5 && Trim(code)[..3] == OPEN && Trim(code)[|Trim(code)| - 2..] == CLOSE)
            ==> Stripped(code) == Trim(code)
  {
    var s := OPEN + code + CLOSE;
    assert s[..3] == OPEN && s[|s| - 2..] == CLOSE && s[3..|s| - 2] == code;
    BracesTrimmed(before, s, after);
  }

  function ParseSource(lib: Library, source: string): Result<Expr, Error> {
    match lib.parse(Stripped(source))
    case Some(e) => Ok(e)
    case None => Err(Parse(Stripped(source)))
  }

  function EvaluateSource(lib: Library, env: Environment, source: string): Result<Value, Error> {
    match ParseSource(lib, source)
    case Ok(e) => Evaluate(lib, env, e)
    case Err(err) => Err(err)
  }

  function AnalyzeSource(lib: Library, source: string): Result<Analysis, Error> {
    match ParseSource(lib, source)
    case Ok(e) => Ok(Analyze(e))
    case Err(err) => Err(err)
  }

  /** The source of the first expression of a template, and what lies around it. */
  datatype Split = Plain | Open | Hole(before: string, source: string, after: string)

  function SplitFirst(t: string): (s: Split)
    ensures s.Hole? ==> |s.after| < |t|
  {
    hide ScanRest, FindIn;
    match FindIn(t, OPEN)
    case None => Plain
    case Some(start) =>
      var rest := t[start + 3..];
      match ScanRest(rest, false)
      case None => Open
      case Some(n) => Hole(t[..start], rest[..n], rest[n + 2..])
  }

  /** Rendering of a template, or of its rest from the cursor on. */
  function RenderRest(lib: Library, env: Environment, t: string): Result<string, Error>
    decreases |t|
  {
    match SplitFirst(t)
    case Plain => Ok(t)
    case Open => Err(UnclosedTemplate)
    case Hole(before, source, after) =>
      match EvaluateSource(lib, env, source)
      case Err(e) => Err(e)
      case Ok(v) => Prefixed(before + lib.display(v), RenderRest(lib, env, after))
  }

  function AnalyzeRest(lib: Library, t: string): Result<Analysis, Error>
    decreases |t|
  {
    match SplitFirst(t)
    case Plain => Ok(NOTHING)
    case Open => Err(UnclosedTemplate)
    case Hole(_, source, after) =>
      match AnalyzeSource(lib, source)
      case Err(e) => Err(e)
      case Ok(a) =>
        match AnalyzeRest(lib, after)
        case Err(e) => Err(e)
        case Ok(rest) => Ok(Merge(a, rest))
  }

  lemma PrefixedTwice(p: string, q: string, r: Result<string, Error>)
    ensures Prefixed(p, Prefixed(q, r)) == Prefixed(p + q, r)
    ensures Prefixed("", r) == r
  {
    if r.Ok? {
      assert p + (q + r.value) == (p + q) + r.value;
      assert "" + r.value == r.value;
    }
  }

  /** One turn of the template loops: the next expression after the cursor. */
  method NextHole(t: string, cursor: nat) returns (start: nat, end: nat, split: Split)
    requires cursor <= |t|
    ensures split == SplitFirst(t[cursor..])
    ensures split.Hole? ==> cursor <= start && start + 3 <= end && end + 2 <= |t| && split.before == t[cursor..start]
                            && split.source == t[start + 3..end] && split.after == t[end + 2..]
  {
    hide ScanRest, FindIn;
    start, end := cursor, cursor;
    var found := FindIn(t[cursor..], OPEN);
    if found.None? { return cursor, cursor, Plain; }
    start := cursor + found.value;
    assert t[cursor..][found.value + 3..] == t[start + 3..] && t[cursor..][..found.value] == t[cursor..start];
    var closing := FindExpressionEnd(t, start + 3);
    if closing.None? { return start, start, Open; }
    end := closing.value;
    var n := end - (start + 3);
    assert t[start + 3..][..n] == t[start + 3..end] && t[start + 3..][n + 2..] == t[end + 2..];
    split := Hole(t[cursor..start], t[start + 3..end], t[end + 2..]);
  }

  method Render(lib: Library, env: Environment, t: string) returns (r: Result<string, Error>)
    ensures r == RenderRest(lib, env, t)
  {
    hide EvaluateSource, SplitFirst, Prefixed;
    var rendered := "";
    var cursor := 0;
    assert t[0..] == t;
    PrefixedTwice("", "", RenderRest(lib, env, t));
    while true
      invariant 0 <= cursor <= |t|
      invariant Prefixed(rendered, RenderRest(lib, env, t[cursor..])) == RenderRest(lib, env, t)
      decreases |t| - cursor
    {
      var start, end, split := NextHole(t, cursor);
      if split.Plain? { break; }
      if split.Open? {
        PrefixedError(rendered, UnclosedTemplate);
        return Err(UnclosedTemplate);
      }
      var value := EvaluateSource(lib, env, t[start + 3..end]);
      if value.Err? {
        PrefixedError(rendered, value.error);
        return Err(value.error);
      }
      var shown := lib.display(value.value);
      PrefixedTwice(rendered, t[cursor..start] + shown, RenderRest(lib, env, t[end + 2..]));
      assert rendered + t[cursor..start] + shown == rendered + (t[cursor..start] + shown);
      rendered := rendered + t[cursor..start] + shown;
      cursor := end + 2;
    }
    PrefixedOk(rendered, t[cursor..]);
    return Ok(rendered + t[cursor..]);
  }

  lemma PrefixedError(p: string, e: Error)
    ensures Prefixed(p, Err(e)) == Err(e)
  {
  }

  lemma PrefixedOk(p: string, s: string)
    ensures Prefixed(p, Ok(s)) == Ok(p + s)
  {
  }

  function Merged(a: Analysis, r: Result<Analysis, Error>): Result<Analysis, Error> {
    match r
    case Ok(rest) => Ok(Merge(a, rest))
    case Err(e) => Err(e)
  }

  lemma MergedTwice(a: Analysis, b: Analysis, r: Result<Analysis, Error>)
    ensures Merged(a, Merged(b, r)) == Merged(Merge(a, b), r)
    ensures Merged(NOTHING, r) == r && Merge(a, NOTHING) == a
  {
    if r.Ok? {
      MergeAssociative(a, b, r.value);
      assert Merge(NOTHING, r.value) == r.value;
    }
  }

  method AnalyzeTemplate(lib: Library, t: string) returns (r: Result<Analysis, Error>)
    ensures r == AnalyzeRest(lib, t)
  {
    hide AnalyzeSource, SplitFirst, Merge;
    var analysis := NOTHING;
    var cursor := 0;
    assert t[0..] == t;
    MergedTwice(NOTHING, NOTHING, AnalyzeRest(lib, t));
    while true
      invariant 0 <= cursor <= |t|
      invariant Merged(analysis, AnalyzeRest(lib, t[cursor..])) == AnalyzeRest(lib, t)
      decreases |t| - cursor
    {
      var start, end, split := NextHole(t, cursor);
      if split.Plain? { break; }
      if split.Open? { return Err(UnclosedTemplate); }
      var one := AnalyzeSource(lib, t[start + 3..end]);
      if one.Err? { return Err(one.error); }
      MergedTwice(analysis, one.value, AnalyzeRest(lib, t[end + 2..]));
      analysis := Merge(analysis, one.value);
      cursor := end + 2;
    }
    MergedTwice(analysis, NOTHING, Ok(NOTHING));
    return Ok(analysis);
  }

  // ---------------------------------------------------------------- soundness for templates

  /** Environments that agree on a template's analysis render it alike, value or error. */
  lemma {:induction false} TemplateSound(lib: Library, t: string, x: Environment, y: Environment)
    requires AnalyzeRest(lib, t).Ok? && Agree(AnalyzeRest(lib, t).value, x, y)
    ensures RenderRest(lib, x, t) == RenderRest(lib, y, t)
    decreases |t|
  {
    hide Evaluate, Analyze, ParseSource, SplitFirst;
    match SplitFirst(t)
    case Hole(before, source, after) =>
      var e := ParseSource(lib, source).value;
      var rest := AnalyzeRest(lib, after).value;
      assert AnalyzeRest(lib, t).value == Merge(Analyze(e), rest);
      AgreeLess(Merge(Analyze(e), rest), Analyze(e), x, y);
      AgreeLess(Merge(Analyze(e), rest), rest, x, y);
      hide Agree, Merge, Covers;
      AnalysisSound(lib, e, x, y);
      TemplateSound(lib, after, x, y);
    case _ =>
  }

  /** A template the analysis rejects is rendered by no environment. */
  lemma {:induction false} RejectedTemplateNeverRenders(lib: Library, t: string, env: Environment)
    requires AnalyzeRest(lib, t).Err?
    ensures RenderRest(lib, env, t).Err?
    decreases |t|
  {
    hide Evaluate, Analyze, ParseSource, SplitFirst;
    match SplitFirst(t)
    case Hole(_, source, after) =>
      if AnalyzeSource(lib, source).Ok? {
        RejectedTemplateNeverRenders(lib, after, env);
      }
    case _ =>
  }

  // ---------------------------------------------------------------- quoting

  function Doubled(s: string, c: char): (d: string)
    ensures |s| <= |d|
  {
    if s == "" then "" else (if s[0] == c then [c, c] else [s[0]]) + Doubled(s[1..], c)
  }

  function Quoted(s: string): string {
    "'" + Doubled(s, '\'') + "'"
  }

  /** Scanning `a` in front of `rest` leads to `rest`, taking the quote state from `before` to `after`. */
  predicate Passes(a: string, rest: string, before: bool, after: bool) {
    ScanRest(a + rest, before) == Shift(|a|, ScanRest(rest, after))
  }

  lemma PassesConcat(a: string, b: string, rest: string, x: bool, y: bool, z: bool)
    requires Passes(a, b + rest, x, y) && Passes(b, rest, y, z)
    ensures Passes(a + b, rest, x, z)
  {
    hide ScanRest;
    assert a + (b + rest) == (a + b) + rest;
  }

  /** The inside of a quoted string is passed whole, closing braces included. */
  lemma {:induction false} PassesDoubled(s: string, rest: string)
    ensures Passes(Doubled(s, '\''), rest, true, true)
  {
    if s != "" {
      PassesDoubled(s[1..], rest);
      var front, tail := if s[0] == '\'' then "''" else [s[0]], Doubled(s[1..], '\'');
      var t := front + (tail + rest);
      assert t[|front|..] == tail + rest && t[0] == s[0];
      assert s[0] == '\'' ==> t[1] == '\'';
      PassesConcat(front, tail, rest, true, true, true);
    } else {
      assert "" + rest == rest;
    }
  }

  lemma PassesQuote(rest: string, quoted: bool)
    requires quoted ==> rest == "" || rest[0] != '\''
    ensures Passes("'", rest, quoted, !quoted)
  {
    var t := "'" + rest;
    assert t[1..] == rest && t[0] == '\'' && (|t| > 1 ==> t[1] == rest[0]);
  }

  /** A quoted string is passed whole when no quote follows it. */
  lemma PassesQuoted(s: string, rest: string)
    requires rest == "" || rest[0] != '\''
    ensures Passes(Quoted(s), rest, false, false)
  {
    var d := Doubled(s, '\'');
    hide Passes, Doubled;
    PassesDoubled(s, "'" + rest);
    PassesQuote(d + ("'" + rest), false);
    PassesConcat("'", d, "'" + rest, false, true, true);
    PassesQuote(rest, true);
    PassesConcat("'" + d, "'", rest, false, true, false);
    assert ("'" + d) + "'" == Quoted(s);
  }

  /** The scanner stops just behind any quoted string, even one that contains closing braces. */
  lemma ScannerSkipsQuoted(s: string, after: string)
    ensures ScanRest(Quoted(s) + CLOSE + after, false) == Some(|Quoted(s)|)
  {
    var q, rest := Quoted(s), CLOSE + after;
    PassesQuoted(s, rest);
    assert rest[..2] == CLOSE;
    assert q + rest == q + CLOSE + after;
  }

  // ---------------------------------------------------------------- printing templates

  /** Expression text: code without quotes or closing braces, and quoted strings. */
  datatype Piece = Code(text: string) | String(content: string)

  predicate PlainCode(s: string) {
    s != "" && forall c | c in s :: c != '\'' && c != '}'
  }

  /** Two quoted strings are kept apart by code. */
  predicate PiecesOk(pieces: seq<Piece>) {
    && (forall i | 0 <= i < |pieces| && pieces[i].Code? :: PlainCode(pieces[i].text))
    && (forall i | 0 < i < |pieces| && pieces[i].String? :: pieces[i - 1].Code?)
  }

  function PrintPiece(p: Piece): string {
    match p
    case Code(text) => text
    case String(content) => Quoted(content)
  }

  function PrintPieces(pieces: seq<Piece>): string {
    if pieces == [] then "" else PrintPiece(pieces[0]) + PrintPieces(pieces[1..])
  }

  lemma PassesChar(c: char, rest: string)
    requires c != '\'' && c != '}'
    ensures Passes([c], rest, false, false)
  {
    var t := [c] + rest;
    assert t[0] == c && t[1..] == rest;
    assert |t| >= 2 ==> t[..2][0] == c;
  }

  lemma {:induction false} PassesCode(s: string, rest: string)
    requires forall c | c in s :: c != '\'' && c != '}'
    ensures Passes(s, rest, false, false)
  {
    if s == "" {
      assert "" + rest == rest;
    } else {
      assert s[0] in s && forall c | c in s[1..] :: c in s;
      PassesCode(s[1..], rest);
      PassesChar(s[0], s[1..] + rest);
      assert s == [s[0]] + s[1..];
      hide Passes;
      PassesConcat([s[0]], s[1..], rest, false, false, false);
    }
  }

  /** The scanner passes a whole printed expression. */
  lemma {:induction false} PassesPieces(pieces: seq<Piece>, rest: string)
    requires PiecesOk(pieces) && (rest == "" || rest[0] != '\'')
    ensures Passes(PrintPieces(pieces), rest, false, false)
  {
    hide Passes, Quoted;
    if pieces == [] {
      PassesCode("", rest);
    } else {
      var front, tail := PrintPiece(pieces[0]), PrintPieces(pieces[1..]);
      PassesPieces(pieces[1..], rest);
      if pieces[0].Code? {
        PassesCode(pieces[0].text, tail + rest);
      } else {
        if |pieces| > 1 {
          assert pieces[1].Code? && PlainCode(pieces[1].text) && pieces[1].text[0] in pieces[1].text;
          assert pieces[1..][0] == pieces[1] && tail[0] == pieces[1].text[0];
        } else {
          assert tail == "" && tail + rest == rest;
        }
        PassesQuoted(pieces[0].content, tail + rest);
      }
      PassesConcat(front, tail, rest, false, false, false);
    }
  }

  /** A template in parts: text without an opening mark, then an expression. */
  datatype Part = Part(text: string, expression: seq<Piece>)

  predicate PartOk(p: Part) {
    FindIn(p.text, OPEN) == None && PiecesOk(p.expression)
  }

  function PrintTemplate(parts: seq<Part>, last: string): string {
    if parts == [] then last
    else parts[0].text + OPEN + PrintPieces(parts[0].expression) + CLOSE + PrintTemplate(parts[1..], last)
  }

  /** What the template stands for: its texts and the values of its expressions, in order. */
  function Meaning(lib: Library, env: Environment, parts: seq<Part>, last: string): Result<string, Error> {
    if parts == [] then Ok(last)
    else match EvaluateSource(lib, env, PrintPieces(parts[0].expression))
      case Err(e) => Err(e)
      case Ok(v) => Prefixed(parts[0].text + lib.display(v), Meaning(lib, env, parts[1..], last))
  }

  /** No mark begins inside text that has none, even if one follows. */
  lemma NoMarkInside(text: string, rest: string)
    requires text != "" && FindIn(text, OPEN) == None
    ensures FindIn(text[1..], OPEN) == None && (text + (OPEN + rest))[..3] != OPEN
  {
    var t := text + (OPEN + rest);
    if |text| >= 3 {
      assert t[..3] == text[..3];
    } else {
      assert t[|text|] == OPEN[0] && t[..3][|text|] != OPEN[|text|];
    }
  }

  /** The first opening mark is the one printed after text that has none. */
  lemma {:induction false} FirstMark(text: string, rest: string)
    requires FindIn(text, OPEN) == None
    ensures FindIn(text + (OPEN + rest), OPEN) == Some(|text|)
  {
    var t := text + (OPEN + rest);
    if text == "" {
      assert t == OPEN + rest && t[..3] == OPEN;
    } else {
      NoMarkInside(text, rest);
      assert t[1..] == text[1..] + (OPEN + rest);
      FirstMark(text[1..], rest);
    }
  }

  lemma SplitIs(t: string, start: nat, n: nat)
    requires FindIn(t, OPEN) == Some(start) && ScanRest(t[start + 3..], false) == Some(n)
    ensures start + 3 <= |t| && start + 3 + n + 2 <= |t|
    ensures SplitFirst(t) == Hole(t[..start], t[start + 3..][..n], t[start + 3..][n + 2..])
  {
    hide ScanRest, FindIn;
  }

  lemma ClosesAtOnce(after: string)
    ensures ScanRest(CLOSE + after, false) == Some(0)
  {
    assert (CLOSE + after)[..2] == CLOSE;
  }

  lemma SplitPrinted(p: Part, after: string)
    requires PartOk(p)
    ensures SplitFirst(p.text + OPEN + PrintPieces(p.expression) + CLOSE + after) == Hole(p.text, PrintPieces(p.expression), after)
  {
    hide PiecesOk, PrintPieces, ScanRest, FindIn, SplitFirst;
    var source := PrintPieces(p.expression);
    var t, rest := p.text + OPEN + source + CLOSE + after, source + (CLOSE + after);
    assert t == p.text + (OPEN + rest);
    FirstMark(p.text, rest);
    assert t[|p.text| + 3..] == rest && t[..|p.text|] == p.text;
    PassesPieces(p.expression, CLOSE + after);
    ClosesAtOnce(after);
    assert rest[..|source|] == source && rest[|source| + 2..] == after;
    SplitIs(t, |p.text|, |source|);
  }

  /** Rendering undoes printing: every template renders to exactly what its parts stand for. */
  lemma {:induction false} RenderPrinted(lib: Library, env: Environment, parts: seq<Part>, last: string)
    requires (forall p | p in parts :: PartOk(p)) && FindIn(last, OPEN) == None
    ensures RenderRest(lib, env, PrintTemplate(parts, last)) == Meaning(lib, env, parts, last)
  {
    hide EvaluateSource, PartOk, PrintPieces;
    if parts != [] {
      SplitPrinted(parts[0], PrintTemplate(parts[1..], last));
      hide SplitFirst, FindIn;
      RenderPrinted(lib, env, parts[1..], last);
    }
  }

  // ---------------------------------------------------------------- printing format strings

  datatype FormatPiece = Words(text: string) | Field(index: nat)

  function DoubledBraces(s: string): string {
    if s == "" then ""
    else (if s[0] == '{' then "{{" else if s[0] == '}' then "}}" else [s[0]]) + DoubledBraces(s[1..])
  }

  function PrintFormat(pieces: seq<FormatPiece>): string {
    if pieces == [] then ""
    else (match pieces[0]
          case Words(text) => DoubledBraces(text)
          case Field(i) => "{" + Decimal(i) + "}") + PrintFormat(pieces[1..])
  }

  function FormatMeaning(pieces: seq<FormatPiece>, a: seq<string>): string
    requires forall p | p in pieces && p.Field? :: p.index < |a|
  {
    if pieces == [] then ""
    else (match pieces[0] case Words(text) => text case Field(i) => a[i]) + FormatMeaning(pieces[1..], a)
  }

  predicate FieldsKnown(pieces: seq<FormatPiece>, n: nat) {
    forall p | p in pieces && p.Field? :: p.index < n
  }

  lemma EscapeFormatted(c: char, tail: string, a: seq<string>)
    requires c == '{' || c == '}'
    ensures FormatRest([c, c] + tail, a) == Prefixed([c], FormatRest(tail, a))
  {
    var t := [c, c] + tail;
    assert t[0] == c && t[1] == c && t[2..] == tail;
  }

  lemma CharFormatted(c: char, tail: string, a: seq<string>)
    requires c != '{' && c != '}'
    ensures FormatRest([c] + tail, a) == Prefixed([c], FormatRest(tail, a))
  {
    var t := [c] + tail;
    assert t[0] == c && t[1..] == tail;
  }

  lemma {:induction false} WordsFormatted(text: string, rest: string, a: seq<string>)
    ensures FormatRest(DoubledBraces(text) + rest, a) == Prefixed(text, FormatRest(rest, a))
  {
    hide FormatRest, Prefixed;
    if text == "" {
      assert "" + rest == rest;
      PrefixedTwice("", "", FormatRest(rest, a));
    } else {
      var c, tail := text[0], DoubledBraces(text[1..]) + rest;
      WordsFormatted(text[1..], rest, a);
      PrefixedTwice([c], text[1..], FormatRest(rest, a));
      assert [c] + text[1..] == text;
      if c == '{' || c == '}' {
        EscapeFormatted(c, tail, a);
        assert DoubledBraces(text) + rest == [c, c] + tail;
      } else {
        CharFormatted(c, tail, a);
        assert DoubledBraces(text) + rest == [c] + tail;
      }
    }
  }

  lemma {:induction false} DecimalValue(n: nat)
    ensures DigitsValue(Decimal(n)) == Some(n)
  {
    if n < 10 {
      assert Decimal(n)[..0] == "";
    } else {
      DecimalValue(n / 10);
      assert Decimal(n)[..|Decimal(n)| - 1] == Decimal(n / 10);
    }
  }

  lemma DecimalParses(n: nat)
    ensures ParseUsize(Decimal(n)) == if n < MAX_USIZE then Some(n) else None
  {
    DecimalValue(n);
    assert Decimal(n)[0] in Decimal(n);
  }

  lemma {:induction false} FindSkips(s: string, c: char, rest: string)
    requires c !in s
    ensures Find(s + ([c] + rest), c) == |s| && Find(s, c) == |s|
  {
    if s == "" {
      assert "" + ([c] + rest) == [c] + rest;
    } else {
      assert (s + ([c] + rest))[1..] == s[1..] + ([c] + rest) && (s + ([c] + rest))[0] == s[0];
      FindSkips(s[1..], c, rest);
    }
  }

  /** A field with plain content: up to its closing brace, and read as a number. */
  lemma HoleFormatted(field: string, rest: string, a: seq<string>)
    requires field != "" && field[0] != '{' && '}' !in field && ':' !in field
    ensures FormatRest("{" + field + "}" + rest, a) ==
            match ParseUsize(field)
            case Some(i) => if i < |a| then Prefixed(a[i], FormatRest(rest, a)) else Err(InvalidFunction("format"))
            case None => Err(InvalidFunction("format"))
  {
    var t := "{" + field + "}" + rest;
    FindSkips(field, '}', rest);
    FindSkips(field, ':', "");
    assert t[1..] == field + (['}'] + rest);
    assert t[0] == '{' && t[1] == field[0];
    assert t[1..1 + |field|] == field && field[..|field|] == field && t[|field| + 2..] == rest;
    hide ParseUsize, Find, Prefixed;
  }

  lemma FieldFormatted(i: nat, rest: string, a: seq<string>)
    requires |a| <= MAX_USIZE
    ensures FormatRest("{" + Decimal(i) + "}" + rest, a) ==
            if i < |a| then Prefixed(a[i], FormatRest(rest, a)) else Err(InvalidFunction("format"))
  {
    hide FormatRest, ParseUsize, Prefixed;
    DecimalParses(i);
    assert Decimal(i)[0] in Decimal(i);
    HoleFormatted(Decimal(i), rest, a);
  }

  /** Formatting undoes printing when every field has an argument, and fails when one has none. */
  lemma {:induction false} FormatPrinted(pieces: seq<FormatPiece>, a: seq<string>)
    requires |a| <= MAX_USIZE
    ensures FieldsKnown(pieces, |a|) ==> FormatRest(PrintFormat(pieces), a) == Ok(FormatMeaning(pieces, a))
    ensures !FieldsKnown(pieces, |a|) ==> FormatRest(PrintFormat(pieces), a) == Err(InvalidFunction("format"))
  {
    if pieces != [] {
      var tail := pieces[1..];
      FormatPrinted(tail, a);
      KnownTail(pieces, |a|);
      match pieces[0]
      case Words(text) => WordsFormatted(text, PrintFormat(tail), a);
      case Field(i) => FieldFormatted(i, PrintFormat(tail), a);
      hide FormatRest, FieldsKnown, Decimal, DoubledBraces;
    }
  }

  lemma KnownTail(pieces: seq<FormatPiece>, n: nat)
    requires pieces != []
    ensures FieldsKnown(pieces, n) <==> (pieces[0].Field? ==> pieces[0].index < n) && FieldsKnown(pieces[1..], n)
  {
    assert pieces == [pieces[0]] + pieces[1..];
  }

  /** The format function on a printed template, through its arguments. */
  lemma FormatValuesPrinted(lib: Library, pieces: seq<FormatPiece>, arguments: seq<Value>)
    requires arguments != [] && lib.display(arguments[0]) == PrintFormat(pieces) && |arguments| <= MAX_USIZE
    ensures var shown := Displays(lib, arguments[1..]);
            FormatValues(lib, arguments) ==
            if FieldsKnown(pieces, |shown|) then Ok(Text(FormatMeaning(pieces, shown))) else Err(InvalidFunction("format"))
  {
    FormatPrinted(pieces, Displays(lib, arguments[1..]));
    hide FormatRest, PrintFormat;
  }
}
