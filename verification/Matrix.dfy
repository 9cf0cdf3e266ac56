/** Matrix expansion: the loops, and the declarative meaning they come to. */
module Matrix {
  import opened Basics

  const MAX_JOBS := 256

  datatype Json = Null | Bool(flag: bool) | Integer(integer: int) | Float(float: real) | Text(text: string) | List(items: seq<Json>) | Record(fields: map<string, Json>)

  type Row = map<string, Json>

  /** One matrix dimension with its values. */
  datatype Dimension = Dimension(key: string, values: seq<Json>)

  datatype MatrixError = EmptyDimension(key: string) | TooManyJobs

  // ---------------------------------------------------------------- the Cartesian product

  function WithEach(row: Row, key: string, values: seq<Json>): (r: seq<Row>)
    ensures |r| == |values| && forall i | 0 <= i < |values| :: r[i] == row[key := values[i]]
  {
    seq(|values|, i requires 0 <= i < |values| => row[key := values[i]])
  }

  /** Every row with every value, rows first. */
  function Cross(rows: seq<Row>, d: Dimension): (r: seq<Row>)
    ensures |r| == |rows| * |d.values|
  {
    if rows == [] then [] else
      Cross(rows[..|rows| - 1], d) + WithEach(rows[|rows| - 1], d.key, d.values)
  }

  /** The product of the dimensions, the first varying slowest. */
  function Product(dims: seq<Dimension>): seq<Row> {
    if dims == [] then [map[]] else Cross(Product(dims[..|dims| - 1]), dims[|dims| - 1])
  }

  function Starting(dims: seq<Dimension>, includes: seq<Row>): seq<Row> {
    if dims == [] && includes != [] then [] else Product(dims)
  }

  // ---------------------------------------------------------------- exclusion and inclusion

  /** The filter's entries are all in the row. */
  predicate Matches(row: Row, filter: Row) {
    forall k | k in filter :: k in row && row[k] == filter[k]
  }

  predicate Excluded(row: Row, excludes: seq<Row>) {
    exists e | e in excludes :: Matches(row, e)
  }

  function Remaining(rows: seq<Row>, excludes: seq<Row>): (r: seq<Row>)
    ensures |r| <= |rows|
  {
    if rows == [] then []
    else Remaining(rows[..|rows| - 1], excludes) + (if Excluded(rows[|rows| - 1], excludes) then [] else [rows[|rows| - 1]])
  }

  /** The include contradicts no original value. */
  predicate CompatibleWith(original: Row, include_: Row) {
    forall k | k in include_ && k in original :: original[k] == include_[k]
  }

  /** An original row after the first `n` includes, each applied if it suits the original. */
  function Extended(original: Row, includes: seq<Row>): Row {
    if includes == [] then original
    else
      var last := includes[|includes| - 1];
      var before := Extended(original, includes[..|includes| - 1]);
      if CompatibleWith(original, last) then before + last else before
  }

  function ExtendEach(original: seq<Row>, includes: seq<Row>): (r: seq<Row>)
    ensures |r| == |original| && forall i | 0 <= i < |original| :: r[i] == Extended(original[i], includes)
  {
    seq(|original|, i requires 0 <= i < |original| => Extended(original[i], includes))
  }

  predicate SuitsNone(original: seq<Row>, include_: Row) {
    forall r | r in original :: !CompatibleWith(r, include_)
  }

  /** The includes that suit no original row, in order. */
  function Extras(original: seq<Row>, includes: seq<Row>): seq<Row> {
    if includes == [] then []
    else Extras(original, includes[..|includes| - 1]) + (if SuitsNone(original, includes[|includes| - 1]) then [includes[|includes| - 1]] else [])
  }

  function Originals(dims: seq<Dimension>, includes: seq<Row>, excludes: seq<Row>): seq<Row> {
    Remaining(Starting(dims, includes), excludes)
  }

  /** What a matrix stands for. */
  function Meaning(dims: seq<Dimension>, includes: seq<Row>, excludes: seq<Row>): seq<Row> {
    var original := Originals(dims, includes, excludes);
    ExtendEach(original, includes) + Extras(original, includes)
  }

  predicate NoEmpty(dims: seq<Dimension>) {
    forall d | d in dims :: d.values != []
  }

  // ---------------------------------------------------------------- the loops

  /** One dimension more, giving up as soon as the product is too long. */
  method CrossUpTo(rows: seq<Row>, d: Dimension) returns (product: seq<Row>, tooMany: bool)
    ensures tooMany <==> |Cross(rows, d)| > MAX_JOBS
    ensures !tooMany ==> product == Cross(rows, d)
  {
    product := [];
    var i := 0;
    while i < |rows|
      invariant 0 <= i <= |rows| && product == Cross(rows[..i], d) && |product| <= MAX_JOBS
    {
      ghost var before := product;
      assert rows[..i + 1][..i] == rows[..i];
      var j := 0;
      while j < |d.values|
        invariant 0 <= j <= |d.values| && |product| <= MAX_JOBS
        invariant product == before + WithEach(rows[i], d.key, d.values)[..j]
      {
        product := product + [rows[i][d.key := d.values[j]]];
        assert WithEach(rows[i], d.key, d.values)[..j + 1] == WithEach(rows[i], d.key, d.values)[..j] + [rows[i][d.key := d.values[j]]];
        if |product| > MAX_JOBS {
          CrossGrows(rows, i + 1, d);
          return product, true;
        }
        j := j + 1;
      }
      i := i + 1;
    }
    assert rows[..i] == rows;
    tooMany := false;
  }

  lemma CrossGrows(rows: seq<Row>, i: nat, d: Dimension)
    requires i <= |rows|
    ensures |Cross(rows[..i], d)| <= |Cross(rows, d)|
  {
    Times(i, |rows|, |d.values|);
  }

  lemma Times(a: nat, b: nat, c: nat)
    requires a <= b
    ensures a * c <= b * c
  {
  }

  /** More dimensions never make the product shorter. */
  lemma {:induction false} ProductGrows(dims: seq<Dimension>, i: nat)
    requires i <= |dims| && NoEmpty(dims)
    ensures |Product(dims[..i])| <= |Product(dims)|
    decreases |dims| - i
  {
    if i == |dims| {
      assert dims[..i] == dims;
    } else {
      ProductGrows(dims, i + 1);
      assert dims[..i + 1][..i] == dims[..i] && dims[i] in dims;
      Times(1, |dims[i].values|, |Product(dims[..i])|);
      assert |Product(dims[..i + 1])| == |Product(dims[..i])| * |dims[i].values|;
    }
  }

  method ExpandDimensions(dims: seq<Dimension>) returns (rows: seq<Row>, tooMany: bool)
    requires NoEmpty(dims)
    ensures tooMany <==> |Product(dims)| > MAX_JOBS
    ensures !tooMany ==> rows == Product(dims)
  {
    rows := [map[]];
    var i := 0;
    while i < |dims|
      invariant 0 <= i <= |dims| && rows == Product(dims[..i]) && |rows| <= MAX_JOBS
    {
      assert dims[..i + 1][..i] == dims[..i];
      var product, over := CrossUpTo(rows, dims[i]);
      if over {
        ProductGrows(dims, i + 1);
        return rows, true;
      }
      rows := product;
      i := i + 1;
    }
    assert dims[..i] == dims;
    tooMany := false;
  }

  method Retain(rows: seq<Row>, excludes: seq<Row>) returns (kept: seq<Row>)
    ensures kept == Remaining(rows, excludes)
  {
    kept := [];
    var i := 0;
    while i < |rows|
      invariant 0 <= i <= |rows| && kept == Remaining(rows[..i], excludes)
    {
      assert rows[..i + 1][..i] == rows[..i];
      if !Excluded(rows[i], excludes) {
        kept := kept + [rows[i]];
      }
      i := i + 1;
    }
    assert rows[..i] == rows;
  }

  /** One include applied to every original row it suits. */
  method ApplyInclude(original: seq<Row>, combinations: seq<Row>, include_: Row) returns (r: seq<Row>, applied: bool)
    requires |original| <= |combinations|
    ensures |r| == |combinations| && r[|original|..] == combinations[|original|..]
    ensures forall i | 0 <= i < |original| ::
      r[i] == if CompatibleWith(original[i], include_) then combinations[i] + include_ else combinations[i]
    ensures applied <==> !SuitsNone(original, include_)
  {
    hide CompatibleWith;
    r := combinations;
    applied := false;
    var index := 0;
    while index < |original|
      invariant 0 <= index <= |original| && |r| == |combinations|
      invariant forall i | index <= i < |r| :: r[i] == combinations[i]
      invariant forall i | 0 <= i < index ::
        r[i] == if CompatibleWith(original[i], include_) then combinations[i] + include_ else combinations[i]
      invariant applied <==> exists i | 0 <= i < index :: CompatibleWith(original[i], include_)
    {
      if CompatibleWith(original[index], include_) {
        r := r[index := r[index] + include_];
        applied := true;
      }
      index := index + 1;
    }
  }

  /** Expands exactly to the meaning, or reports the first empty dimension or more than 256 jobs. */
  method ExpandMatrix(dims: seq<Dimension>, includes: seq<Row>, excludes: seq<Row>) returns (r: Result<seq<Row>, MatrixError>)
    ensures match r
            case Ok(rows) =>
              NoEmpty(dims) && |Starting(dims, includes)| <= MAX_JOBS && |rows| <= MAX_JOBS
              && rows == Meaning(dims, includes, excludes)
            case Err(EmptyDimension(key)) => exists d | d in dims :: d.key == key && d.values == []
            case Err(TooManyJobs) =>
              NoEmpty(dims) && (|Starting(dims, includes)| > MAX_JOBS || |Meaning(dims, includes, excludes)| > MAX_JOBS)
  {
    var k := 0;
    while k < |dims|
      invariant 0 <= k <= |dims| && NoEmpty(dims[..k])
    {
      if dims[k].values == [] { return Err(EmptyDimension(dims[k].key)); }
      assert dims[..k + 1] == dims[..k] + [dims[k]];
      k := k + 1;
    }
    assert dims[..k] == dims;
    var combinations: seq<Row> := [];
    if dims != [] || includes == [] {
      var tooMany;
      combinations, tooMany := ExpandDimensions(dims);
      if tooMany { return Err(TooManyJobs); }
    }
    var original := Retain(combinations, excludes);
    r := ApplyIncludes(original, includes);
  }

  method ApplyIncludes(original: seq<Row>, includes: seq<Row>) returns (r: Result<seq<Row>, MatrixError>)
    requires |original| <= MAX_JOBS
    ensures var all := ExtendEach(original, includes) + Extras(original, includes);
            r == if |all| <= MAX_JOBS then Ok(all) else Err(TooManyJobs)
  {
    hide *;
    NoIncludes(original);
    var combinations := original;
    var i := 0;
    assert includes[..0] == [];
    while i < |includes|
      invariant 0 <= i <= |includes| && |combinations| <= MAX_JOBS
      invariant combinations == ExtendEach(original, includes[..i]) + Extras(original, includes[..i])
    {
      var include_ := includes[i];
      var applied;
      ghost var before := combinations;
      combinations, applied := ApplyInclude(original, combinations, include_);
      if !applied {
        combinations := combinations + [include_];
      }
      IncludeStep(original, includes[..i], include_, before, combinations);
      assert includes[..i] + [include_] == includes[..i + 1];
      if |combinations| > MAX_JOBS {
        ExtrasGrow(original, includes, i + 1);
        return Err(TooManyJobs);
      }
      i := i + 1;
    }
    assert includes[..i] == includes;
    return Ok(combinations);
  }

  lemma NoIncludes(original: seq<Row>)
    ensures ExtendEach(original, []) + Extras(original, []) == original
  {
    assert Extras(original, []) == [];
    assert ExtendEach(original, []) == original;
  }

  lemma IncludeStep(original: seq<Row>, done: seq<Row>, include_: Row, before: seq<Row>, after: seq<Row>)
    requires before == ExtendEach(original, done) + Extras(original, done)
    requires |after| == |before| + (if SuitsNone(original, include_) then 1 else 0)
    requires forall i | 0 <= i < |original| ::
      after[i] == if CompatibleWith(original[i], include_) then before[i] + include_ else before[i]
    requires after[|original|..] == before[|original|..] + (if SuitsNone(original, include_) then [include_] else [])
    ensures after == ExtendEach(original, done + [include_]) + Extras(original, done + [include_])
  {
    hide *;
    var e, x := ExtendEach(original, done), Extras(original, done);
    var more := ExtendEach(original, done + [include_]);
    ExtendStep(original, done, include_);
    ExtrasStep(original, done, include_);
    forall i | 0 <= i < |original| ensures before[i] == e[i] { Left(before, e, x, i); }
    Glued(after, before, e, x, more, if SuitsNone(original, include_) then [include_] else []);
  }

  lemma Left<T>(all: seq<T>, a: seq<T>, b: seq<T>, i: nat)
    requires all == a + b && i < |a|
    ensures i < |all| && all[i] == a[i]
  {
  }

  lemma Glued<T>(after: seq<T>, before: seq<T>, a: seq<T>, b: seq<T>, c: seq<T>, d: seq<T>)
    requires before == a + b && |a| == |c| <= |after|
    requires forall i | 0 <= i < |c| :: after[i] == c[i]
    requires after[|a|..] == before[|a|..] + d
    ensures after == c + (b + d)
  {
    assert before[|a|..] == b;
    assert after == after[..|a|] + after[|a|..] && after[..|a|] == c;
  }

  lemma ExtendStep(original: seq<Row>, done: seq<Row>, include_: Row)
    ensures forall i | 0 <= i < |original| ::
      Extended(original[i], done + [include_]) ==
      if CompatibleWith(original[i], include_) then Extended(original[i], done) + include_ else Extended(original[i], done)
  {
    var more := done + [include_];
    assert more[..|more| - 1] == done && more[|more| - 1] == include_;
    hide CompatibleWith;
  }

  lemma ExtrasStep(original: seq<Row>, done: seq<Row>, include_: Row)
    ensures Extras(original, done + [include_]) == Extras(original, done) + (if SuitsNone(original, include_) then [include_] else [])
  {
    var more := done + [include_];
    assert more[..|more| - 1] == done && more[|more| - 1] == include_;
    hide SuitsNone;
  }

  lemma {:induction false} ExtrasGrow(original: seq<Row>, includes: seq<Row>, i: nat)
    requires i <= |includes|
    ensures |Extras(original, includes[..i])| <= |Extras(original, includes)|
    decreases |includes| - i
  {
    hide SuitsNone;
    if i == |includes| {
      assert includes[..i] == includes;
    } else {
      assert includes[..i + 1][..i] == includes[..i];
      ExtrasGrow(original, includes, i + 1);
    }
  }

  // ---------------------------------------------------------------- what the meaning means

  /** Row `i` with value `j` stands at position `i` times the number of values, plus `j`. */
  lemma {:induction false} CrossAt(rows: seq<Row>, d: Dimension, i: nat, j: nat)
    requires i < |rows| && j < |d.values|
    ensures i * |d.values| + j < |Cross(rows, d)|
    ensures Cross(rows, d)[i * |d.values| + j] == rows[i][d.key := d.values[j]]
  {
    var front := rows[..|rows| - 1];
    Times(i + 1, |rows|, |d.values|);
    hide WithEach;
    if i < |front| {
      Times(i + 1, |front|, |d.values|);
      CrossAt(front, d, i, j);
    }
  }

  /** A row chooses a value for each dimension, the last dimension of a key deciding. */
  predicate Chooses(row: Row, dims: seq<Dimension>) {
    && (forall k | k in row :: exists d | d in dims :: d.key == k)
    && (forall d | d in dims :: d.key in row && row[d.key] in d.values)
  }

  predicate DistinctKeys(dims: seq<Dimension>) {
    forall i, k | 0 <= i < k < |dims| :: dims[i].key != dims[k].key
  }

  lemma InWithEach(r: Row, d: Dimension, row: Row)
    ensures row in WithEach(r, d.key, d.values) <==> exists v | v in d.values :: row == r[d.key := v]
  {
    var all := WithEach(r, d.key, d.values);
    if v :| v in d.values && row == r[d.key := v] {
      var i :| 0 <= i < |d.values| && d.values[i] == v;
      assert all[i] == row;
    }
    if row in all {
      var i :| 0 <= i < |all| && all[i] == row;
      assert d.values[i] in d.values;
    }
  }

  lemma {:induction false} InCross(rows: seq<Row>, d: Dimension, row: Row)
    ensures row in Cross(rows, d) <==> exists r | r in rows :: row in WithEach(r, d.key, d.values)
  {
    hide WithEach;
    if rows != [] {
      InCross(rows[..|rows| - 1], d, row);
      assert rows == rows[..|rows| - 1] + [rows[|rows| - 1]];
    }
  }

  /** The product holds exactly the rows that choose one value of every dimension. */
  lemma {:induction false} ProductHoldsChoices(dims: seq<Dimension>, row: Row)
    requires DistinctKeys(dims)
    ensures row in Product(dims) <==> Chooses(row, dims)
  {
    hide Cross;
    if dims == [] {
      assert Chooses(row, dims) ==> row == map[];
    } else {
      var front, last := dims[..|dims| - 1], dims[|dims| - 1];
      assert dims == front + [last];
      InCross(Product(front), last, row);
      NewKey(dims);
      hide Chooses, Product, WithEach;
      assert Product(dims) == Cross(Product(front), last) by { ProductUnfolds(dims); }
      if Chooses(row, dims) {
        ChoiceShrinks(row, front, last);
        ProductHoldsChoices(front, row - {last.key});
        ChoiceRestored(row, last);
      }
      if row in Product(dims) {
        var r :| r in Product(front) && row in WithEach(r, last.key, last.values);
        ProductHoldsChoices(front, r);
        ChoiceGrows(r, row, front, last);
      }
    }
  }

  lemma ProductUnfolds(dims: seq<Dimension>)
    requires dims != []
    ensures Product(dims) == Cross(Product(dims[..|dims| - 1]), dims[|dims| - 1])
  {
  }

  lemma ChoiceRestored(row: Row, last: Dimension)
    requires last.key in row && row[last.key] in last.values
    ensures row in WithEach(row - {last.key}, last.key, last.values)
  {
    InWithEach(row - {last.key}, last, row);
    assert row == (row - {last.key})[last.key := row[last.key]];
  }

  lemma ChoiceGrows(r: Row, row: Row, front: seq<Dimension>, last: Dimension)
    requires Chooses(r, front) && row in WithEach(r, last.key, last.values) && forall d | d in front :: d.key != last.key
    ensures Chooses(row, front + [last])
  {
    InWithEach(r, last, row);
    var v :| v in last.values && row == r[last.key := v];
    var dims := front + [last];
    assert last in dims && forall d | d in front :: d in dims;
    forall k | k in row ensures exists d | d in dims :: d.key == k {
      if k != last.key {
        var d :| d in front && d.key == k;
        assert d in dims;
      }
    }
  }

  lemma NewKey(dims: seq<Dimension>)
    requires dims != [] && DistinctKeys(dims)
    ensures DistinctKeys(dims[..|dims| - 1])
    ensures forall d | d in dims[..|dims| - 1] :: d.key != dims[|dims| - 1].key
  {
  }

  lemma ChoiceShrinks(row: Row, front: seq<Dimension>, last: Dimension)
    requires Chooses(row, front + [last]) && forall d | d in front :: d.key != last.key
    ensures Chooses(row - {last.key}, front) && last.key in row && row[last.key] in last.values
  {
    assert last in front + [last];
    forall d | d in front ensures d.key in row && row[d.key] in d.values {
      assert d in front + [last];
    }
    forall k | k in row && k != last.key ensures exists d | d in front :: d.key == k {
      var d :| d in front + [last] && d.key == k;
      assert d in front;
    }
  }

  lemma {:induction false} RemainingAre(rows: seq<Row>, excludes: seq<Row>, row: Row)
    ensures row in Remaining(rows, excludes) <==> row in rows && !Excluded(row, excludes)
  {
    hide Excluded;
    if rows != [] {
      RemainingAre(rows[..|rows| - 1], excludes, row);
      assert rows == rows[..|rows| - 1] + [rows[|rows| - 1]];
    }
  }

  /** The include that decides a key of an extended row: the last compatible one that has it. */
  predicate Decides(original: Row, includes: seq<Row>, k: string, i: nat) {
    && i < |includes| && k in includes[i] && CompatibleWith(original, includes[i])
    && forall j | i < j < |includes| && k in includes[j] :: !CompatibleWith(original, includes[j])
  }

  lemma DecidesFront(original: Row, includes: seq<Row>, k: string, i: nat)
    requires includes != [] && i < |includes| - 1
    ensures var front, last := includes[..|includes| - 1], includes[|includes| - 1];
            Decides(original, includes, k, i) <==> Decides(original, front, k, i) && !(k in last && CompatibleWith(original, last))
  {
    hide CompatibleWith;
    var front := includes[..|includes| - 1];
    assert forall j | 0 <= j < |front| :: front[j] == includes[j];
  }

  /** An extended row keeps every original entry. */
  lemma {:induction false} OriginalKept(original: Row, includes: seq<Row>)
    ensures forall k | k in original :: k in Extended(original, includes) && Extended(original, includes)[k] == original[k]
  {
    if includes != [] {
      OriginalKept(original, includes[..|includes| - 1]);
    }
  }

  /** The last compatible include that has a key decides its value. */
  lemma {:induction false} DecidedValue(original: Row, includes: seq<Row>, k: string, i: nat)
    requires Decides(original, includes, k, i)
    ensures k in Extended(original, includes) && Extended(original, includes)[k] == includes[i][k]
  {
    var last := includes[|includes| - 1];
    if i < |includes| - 1 {
      DecidesFront(original, includes, k, i);
      DecidedValue(original, includes[..|includes| - 1], k, i);
    }
  }

  /** A key that is not original was brought in by some include. */
  lemma {:induction false} AddedIsDecided(original: Row, includes: seq<Row>, k: string) returns (i: nat)
    requires k !in original && k in Extended(original, includes)
    ensures Decides(original, includes, k, i)
  {
    var front, last := includes[..|includes| - 1], includes[|includes| - 1];
    if k in last && CompatibleWith(original, last) {
      return |includes| - 1;
    }
    i := AddedIsDecided(original, front, k);
    DecidesFront(original, includes, k, i);
  }

  lemma {:induction false} ExtrasAre(original: seq<Row>, includes: seq<Row>, row: Row)
    ensures row in Extras(original, includes) <==> row in includes && SuitsNone(original, row)
  {
    hide SuitsNone;
    if includes != [] {
      ExtrasAre(original, includes[..|includes| - 1], row);
      assert includes == includes[..|includes| - 1] + [includes[|includes| - 1]];
    }
  }

  // ---------------------------------------------------------------- matrices without any combination

  /** A matrix comes to nothing if and only if every row of its product is excluded and it includes nothing. */
  lemma EmptyExactly(dims: seq<Dimension>, includes: seq<Row>, excludes: seq<Row>)
    ensures Meaning(dims, includes, excludes) == [] <==> Originals(dims, includes, excludes) == [] && includes == []
  {
    ExtrasOfNothing(includes);
  }

  lemma {:induction false} ExtrasOfNothing(includes: seq<Row>)
    ensures Extras([], includes) == includes
  {
    if includes != [] {
      ExtrasOfNothing(includes[..|includes| - 1]);
      assert includes == includes[..|includes| - 1] + [includes[|includes| - 1]];
    }
  }

  /** One dimension with one value, which is excluded: no error, and no combination. */
  lemma EverythingExcluded(key: string, value: Json)
    ensures var dims, excludes := [Dimension(key, [value])], [map[key := value]];
            NoEmpty(dims) && |Starting(dims, [])| == 1 && Meaning(dims, [], excludes) == []
  {
    var row: Row := map[key := value];
    SingleRow(key, value);
    RowExcluded(row);
    EmptyExactly([Dimension(key, [value])], [], [row]);
    hide Product, Remaining, Meaning;
  }

  lemma SingleRow(key: string, value: Json)
    ensures Product([Dimension(key, [value])]) == [map[key := value]]
  {
    var d, none: Row := Dimension(key, [value]), map[];
    assert [d][..0] == [] && [none][..0] == [];
    assert Product([d]) == Cross([none], d);
    assert Cross([none], d) == Cross([], d) + WithEach(none, key, [value]);
    assert WithEach(none, key, [value]) == [none[key := value]];
  }

  lemma RowExcluded(row: Row)
    ensures Remaining([row], [row]) == []
  {
    assert [row][..0] == [];
    assert row in [row] && Matches(row, row);
  }

  // ---------------------------------------------------------------- the two rules of the filters

  /** A row is excluded if and only if one exclude is part of it. */
  lemma ExcludedExactly(row: Row, excludes: seq<Row>)
    ensures Excluded(row, excludes) <==> exists e | e in excludes :: e.Items <= row.Items
  {
    forall e | e in excludes ensures Matches(row, e) <==> e.Items <= row.Items {
      if Matches(row, e) {
        forall i | i in e.Items ensures i in row.Items { assert i.0 in e && row[i.0] == i.1; }
      }
      if e.Items <= row.Items {
        forall k | k in e ensures k in row && row[k] == e[k] { assert (k, e[k]) in e.Items; }
      }
    }
    hide Matches;
  }

  /** An include suits an original row if and only if merging the two does not depend on the order. */
  lemma CompatibleExactly(original: Row, include_: Row)
    ensures CompatibleWith(original, include_) <==> original + include_ == include_ + original
  {
    if CompatibleWith(original, include_) {
      forall k | k in original + include_ ensures (original + include_)[k] == (include_ + original)[k] {
      }
      assert (original + include_).Keys == (include_ + original).Keys;
    }
    if original + include_ == include_ + original {
      forall k | k in include_ && k in original ensures original[k] == include_[k] {
        assert (original + include_)[k] == include_[k] && (include_ + original)[k] == original[k];
      }
    }
  }

  lemma {:induction false} NothingSuits(includes: seq<Row>)
    ensures Extras([], includes) == includes
  {
    if includes != [] {
      NothingSuits(includes[..|includes| - 1]);
      assert includes == includes[..|includes| - 1] + [includes[|includes| - 1]];
    }
  }

  /** Without dimensions the includes are the whole matrix, as they are written. */
  lemma IncludesAlone(includes: seq<Row>, excludes: seq<Row>)
    requires includes != []
    ensures Meaning([], includes, excludes) == includes
  {
    NothingSuits(includes);
    assert Originals([], includes, excludes) == [];
    assert [] + includes == includes;
  }
}
