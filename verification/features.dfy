/** Feature-vector assembly and scaling, as `predict_risk` does them: the
    normalised request becomes a one-row frame reindexed onto the 16 schema
    columns (missing ones filled with 0, extra ones dropped), and the scaler
    replaces the five numeric columns with its output.
 */
module Features {
  import opened Results
  import opened Values
  import opened Schema

  /** One row of the frame the classifier reads, in schema order. */
  type Vector = v: seq<real> | |v| == 16 witness seq(16, _ => 0.0)

  /** The five numeric columns, in `numeric_features` order. */
  type Row5 = v: seq<real> | |v| == 5 witness [0.0, 0.0, 0.0, 0.0, 0.0]

  /** The fitted scaler's `transform` on one row of the numeric columns; its
      internals belong to the training pipeline, so the model takes it as given. */
  type Scaler = Row5 -> Row5

  /** The position of the first occurrence of `x` in `s`. */
  function IndexOf(s: seq<string>, x: string): (i: nat)
    requires x in s
    ensures i < |s| && s[i] == x && x !in s[..i]
  {
    if s[0] == x then 0 else 1 + IndexOf(s[1..], x)
  }

  /** In a list without repeats, the position of the element at `i` is `i`. */
  lemma IndexOfDistinct(s: seq<string>, i: nat)
    requires Distinct(s) && i < |s|
    ensures IndexOf(s, s[i]) == i
  {
  }

  // ---------------------------------------------------------------------------
  // Reindexing

  /** `reindex(columns=cols, fill_value=0)` of the one-row frame built from `m`. */
  function Reindex(m: map<string, Value>, cols: seq<string>): (row: seq<Value>)
    ensures |row| == |cols|
  {
    seq(|cols|, i requires 0 <= i < |cols| => if cols[i] in m then m[cols[i]] else Int(0))
  }

  /** The map a row stands for: column name to cell. */
  function Unindex(cols: seq<string>, row: seq<Value>): (m: map<string, Value>)
    requires Distinct(cols) && |row| == |cols|
    ensures m.Keys == set k | k in cols
  {
    map i | 0 <= i < |cols| :: cols[i] := row[i]
  }

  lemma UnindexAt(cols: seq<string>, row: seq<Value>, i: nat)
    requires Distinct(cols) && |row| == |cols| && i < |cols|
    ensures Unindex(cols, row)[cols[i]] == row[i]
  {
    var m := Unindex(cols, row);
    assert cols[i] in m;
    var j :| 0 <= j < |cols| && cols[j] == cols[i] && m[cols[i]] == row[j];
    assert j == i;
  }

  /** Reading a row back as a map and reindexing it gives the row again. */
  lemma ReindexUnindex(cols: seq<string>, row: seq<Value>)
    requires Distinct(cols) && |row| == |cols|
    ensures Reindex(Unindex(cols, row), cols) == row
  {
    forall i | 0 <= i < |cols|
      ensures Reindex(Unindex(cols, row), cols)[i] == row[i]
    {
      UnindexAt(cols, row, i);
    }
  }

  /** Reindexing keeps exactly the schema columns: each holds the request's
      value if it was sent and 0 if it was not, and every other key is gone. */
  lemma UnindexReindex(m: map<string, Value>, cols: seq<string>)
    requires Distinct(cols)
    ensures var back := Unindex(cols, Reindex(m, cols));
            && back.Keys == set k | k in cols
            && forall k :: k in cols ==> back[k] == (if k in m then m[k] else Int(0))
  {
    var back := Unindex(cols, Reindex(m, cols));
    forall k | k in cols
      ensures back[k] == (if k in m then m[k] else Int(0))
    {
      var i :| 0 <= i < |cols| && cols[i] == k;
      UnindexAt(cols, Reindex(m, cols), i);
    }
  }

  /** Every value sent for a column is a cell of the row. */
  lemma SentValuesReachRow(m: map<string, Value>, cols: seq<string>)
    ensures forall k :: k in cols && k in m ==> m[k] in Reindex(m, cols)
  {
    forall k | k in cols && k in m
      ensures m[k] in Reindex(m, cols)
    {
      var i :| 0 <= i < |cols| && cols[i] == k;
      assert Reindex(m, cols)[i] == m[k];
    }
  }

  /** Keys outside the columns never reach the row. */
  lemma ReindexIgnoresOtherKeys(m: map<string, Value>, m': map<string, Value>, cols: seq<string>)
    requires forall k :: k in cols ==> (k in m <==> k in m')
    requires forall k :: k in cols && k in m ==> m[k] == m'[k]
    ensures Reindex(m, cols) == Reindex(m', cols)
  {
  }

  // ---------------------------------------------------------------------------
  // From values to numbers

  /** The number a cell holds as the artifacts read it; strings and null are
      not numbers. */
  function AsNumber(v: Value): Option<real> {
    match v
    case Int(n) => Some(n as real)
    case Real(x) => Some(x)
    case Bool(b) => Some(if b then 1.0 else 0.0)
    case _ => None
  }

  /** The cells of a row as numbers, or the first column that holds none. */
  function Numbers(row: seq<Value>, cols: seq<string>): (r: Result<seq<real>>)
    requires |row| == |cols|
    ensures r.Ok? <==> forall i :: 0 <= i < |row| ==> AsNumber(row[i]).Some?
    ensures r.Ok? ==> |r.value| == |row| && forall i :: 0 <= i < |row| ==> AsNumber(row[i]) == Some(r.value[i])
    ensures r.Err? ==> exists i :: 0 <= i < |row| && AsNumber(row[i]).None? && r.error == NonNumericColumn(cols[i])
    decreases |row|
  {
    if row == [] then Ok([])
    else
      match AsNumber(row[0])
      case None => Err(NonNumericColumn(cols[0]))
      case Some(x) =>
        var rest := Numbers(row[1..], cols[1..]);
        if rest.Err? then
          assert forall i :: 0 <= i < |row| - 1 ==> row[1..][i] == row[i + 1] && cols[1..][i] == cols[i + 1];
          Err(rest.error)
        else
          assert forall i :: 1 <= i < |row| ==> row[i] == row[1..][i - 1];
          Ok([x] + rest.value)
  }

  /** The frame the classifier reads: the request reindexed onto the schema and
      read as numbers. */
  function Assemble(m: map<string, Value>): (r: Result<Vector>)
    ensures r.Ok? <==> forall k :: k in FinalFeatures && k in m ==> AsNumber(m[k]).Some?
    ensures r.Ok? ==> forall i :: 0 <= i < 16 ==>
              r.value[i] == (if FinalFeatures[i] in m then AsNumber(m[FinalFeatures[i]]).value else 0.0)
    ensures r.Err? ==> exists k :: k in FinalFeatures && k in m && AsNumber(m[k]).None? && r.error == NonNumericColumn(k)
  {
    var row := Reindex(m, FinalFeatures);
    SentValuesReachRow(m, FinalFeatures);
    match Numbers(row, FinalFeatures)
    case Err(e) => Err(e)
    case Ok(xs) => Ok(xs)
  }

  /** Keys outside the schema do not change the assembled frame. */
  lemma AssembleIgnoresOtherKeys(m: map<string, Value>, m': map<string, Value>)
    requires forall k :: k in FinalFeatures ==> (k in m <==> k in m')
    requires forall k :: k in FinalFeatures && k in m ==> m[k] == m'[k]
    ensures Assemble(m) == Assemble(m')
  {
    ReindexIgnoresOtherKeys(m, m', FinalFeatures);
  }

  // ---------------------------------------------------------------------------
  // Scaling

  /** The schema position of a numeric column. */
  function Column(j: nat): (i: nat)
    requires j < 5
    ensures i < 16 && FinalFeatures[i] == NumericFeatures[j]
  {
    SchemaHasNoRepeats();
    IndexOf(FinalFeatures, NumericFeatures[j])
  }

  /** `df[numeric_features]`: the numeric columns of a row, in scaler order. */
  function Gather(v: Vector): (g: Row5)
    ensures forall j :: 0 <= j < 5 ==> g[j] == v[Column(j)]
  {
    seq(5, j requires 0 <= j < 5 => v[Column(j)])
  }

  /** `df[numeric_features] = scaler.transform(df[numeric_features])`. */
  function Scale(v: Vector, scaler: Scaler): (r: Vector)
    ensures forall i :: 0 <= i < 16 && FinalFeatures[i] !in NumericFeatures ==> r[i] == v[i]
    ensures Gather(r) == scaler(Gather(v))
  {
    var scaled := scaler(Gather(v));
    var r: Vector := seq(16, i requires 0 <= i < 16 =>
      if FinalFeatures[i] in NumericFeatures then scaled[IndexOf(NumericFeatures, FinalFeatures[i])] else v[i]);
    ScatterGather(v, scaled, r);
    r
  }

  lemma ScatterGather(v: Vector, scaled: Row5, r: Vector)
    requires forall i :: 0 <= i < 16 ==>
               r[i] == if FinalFeatures[i] in NumericFeatures then scaled[IndexOf(NumericFeatures, FinalFeatures[i])] else v[i]
    ensures Gather(r) == scaled
  {
    SchemaHasNoRepeats();
    forall j | 0 <= j < 5
      ensures Gather(r)[j] == scaled[j]
    {
      IndexOfDistinct(NumericFeatures, j);
    }
  }

  /** The two promises of `Scale` pin its result down: any row that keeps the
      non-numeric columns and holds the scaler's output in the numeric ones is
      the scaled row. */
  lemma ScaleIsDetermined(v: Vector, scaler: Scaler, w: Vector)
    requires forall i :: 0 <= i < 16 && FinalFeatures[i] !in NumericFeatures ==> w[i] == v[i]
    requires Gather(w) == scaler(Gather(v))
    ensures w == Scale(v, scaler)
  {
    var r := Scale(v, scaler);
    SchemaHasNoRepeats();
    forall i | 0 <= i < 16
      ensures w[i] == r[i]
    {
      if FinalFeatures[i] in NumericFeatures {
        var j := IndexOf(NumericFeatures, FinalFeatures[i]);
        IndexOfDistinct(FinalFeatures, i);
        assert Column(j) == i;
        assert w[i] == Gather(w)[j] == Gather(r)[j] == r[i];
      }
    }
  }
}
