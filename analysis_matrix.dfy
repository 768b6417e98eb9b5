/** `ComparativeAnalyzer._calculate_agreement_matrix`: a dict of dicts keyed by model name.
    Model names need not be distinct; as with any Python dict a repeated name keeps the
    position of its first insertion and the value of its last assignment. */
module AgreementMatrix {
  import opened Base
  import opened Records

  type Row = seq<(string, real)>
  type Matrix = seq<(string, Row)>

  /** `[pred['model_name'] for pred in prediction_data]` */
  function Names(data: seq<PredictionData>): (r: seq<string>)
    ensures |r| == |data|
    ensures forall i :: 0 <= i < |data| ==> r[i] == data[i].modelName
  {
    seq(|data|, i requires 0 <= i < |data| => data[i].modelName)
  }

  /** The value written for positions `i` and `j`: one on the diagonal, otherwise one when
      the two records predict the same class and zero when they do not. */
  function Agree(data: seq<PredictionData>, i: nat, j: nat): real
    requires i < |data| && j < |data|
  {
    if i == j then 1.0
    else if data[i].predictedClass == data[j].predictedClass then 1.0
    else 0.0
  }

  /** The entry left under models `a` and `b`: the last record named `a` against the last
      record named `b`, those being the final writes to that cell. */
  function Entry(data: seq<PredictionData>, a: string, b: string): (e: real)
    requires a in Names(data) && b in Names(data)
    ensures e == 0.0 || e == 1.0
    ensures e == 1.0 <==>
      data[LastIndexOf(Names(data), a)].predictedClass == data[LastIndexOf(Names(data), b)].predictedClass
    ensures a == b ==> e == 1.0
  {
    Agree(data, LastIndexOf(Names(data), a), LastIndexOf(Names(data), b))
  }

  /** After the first `j` inner iterations for record `i`: the row holds the distinct names
      of the first `j` records, each with the value of its last record among them. */
  ghost predicate RowUpTo(data: seq<PredictionData>, i: nat, j: nat, row: Row)
    requires i < |data| && j <= |data|
  {
    && Keys(row) == FirstOccurrences(Names(data)[..j])
    && forall u :: 0 <= u < |row| ==>
         row[u].1 == Agree(data, i, LastIndexOf(Names(data)[..j], row[u].0))
  }

  /** After the first `i` outer iterations: one complete row per distinct name so far, the
      one computed for the last record bearing that name. */
  ghost predicate MatrixUpTo(data: seq<PredictionData>, i: nat, m: Matrix)
    requires i <= |data|
  {
    && Keys(m) == FirstOccurrences(Names(data)[..i])
    && forall t :: 0 <= t < |m| ==>
         RowUpTo(data, LastIndexOf(Names(data)[..i], m[t].0), |data|, m[t].1)
  }

  /** `m` is the agreement matrix of `data`: every distinct model name keys a row
      (first-occurrence order), every row is keyed by every distinct model name, and each
      cell holds `Entry`. */
  ghost predicate AgreementMatrixOf(m: Matrix, data: seq<PredictionData>) {
    && Keys(m) == FirstOccurrences(Names(data))
    && (forall t :: 0 <= t < |m| ==> Keys(m[t].1) == FirstOccurrences(Names(data)))
    && (forall t, u :: 0 <= t < |m| && 0 <= u < |m[t].1| ==>
          && m[t].0 in Names(data) && m[t].1[u].0 in Names(data)
          && m[t].1[u].1 == Entry(data, m[t].0, m[t].1[u].0))
  }

  method CalculateAgreementMatrix(data: seq<PredictionData>) returns (m: Matrix)
    ensures AgreementMatrixOf(m, data)
  {
    var names := Names(data);
    m := [];
    for i := 0 to |data|
      invariant MatrixUpTo(data, i, m)
    {
      var row := FillRow(data, names, i);
      MatrixStep(data, i, m, row);
      m := Put(m, names[i], row);
    }
    assert Names(data)[..|data|] == Names(data);
    forall t, u | 0 <= t < |m| && 0 <= u < |m[t].1|
      ensures m[t].0 in Names(data) && m[t].1[u].0 in Names(data)
      ensures m[t].1[u].1 == Entry(data, m[t].0, m[t].1[u].0)
    {
      assert Keys(m)[t] == m[t].0;
      assert RowUpTo(data, LastIndexOf(Names(data)[..|data|], m[t].0), |data|, m[t].1);
      assert Keys(m[t].1)[u] == m[t].1[u].0;
    }
  }

  /** The inner loop: `agreement_matrix[model1][model2] = ...` for every `j`. */
  method FillRow(data: seq<PredictionData>, names: seq<string>, i: nat) returns (row: Row)
    requires names == Names(data) && i < |data|
    ensures RowUpTo(data, i, |data|, row)
  {
    row := [];
    for j := 0 to |names|
      invariant RowUpTo(data, i, j, row)
    {
      var v := if i == j then 1.0
               else if data[i].predictedClass == data[j].predictedClass then 1.0
               else 0.0;
      RowStep(data, i, j, row);
      row := Put(row, names[j], v);
    }
  }

  lemma RowStep(data: seq<PredictionData>, i: nat, j: nat, row: Row)
    requires i < |data| && j < |data|
    requires RowUpTo(data, i, j, row)
    ensures RowUpTo(data, i, j + 1, Put(row, Names(data)[j], Agree(data, i, j)))
  {
    KeysStep(Names(data), j, row, Agree(data, i, j));
    forall u | 0 <= u < |Put(row, Names(data)[j], Agree(data, i, j))|
      ensures Put(row, Names(data)[j], Agree(data, i, j))[u].0 in Names(data)[..j + 1]
      ensures Put(row, Names(data)[j], Agree(data, i, j))[u].1 ==
              Agree(data, i, LastIndexOf(Names(data)[..j + 1], Put(row, Names(data)[j], Agree(data, i, j))[u].0))
    {
      RowStepAt(data, i, j, row, u);
    }
  }

  lemma RowStepAt(data: seq<PredictionData>, i: nat, j: nat, row: Row, u: nat)
    requires i < |data| && j < |data|
    requires RowUpTo(data, i, j, row)
    requires u < |Put(row, Names(data)[j], Agree(data, i, j))|
    ensures Put(row, Names(data)[j], Agree(data, i, j))[u].0 in Names(data)[..j + 1]
    ensures Put(row, Names(data)[j], Agree(data, i, j))[u].1 ==
            Agree(data, i, LastIndexOf(Names(data)[..j + 1], Put(row, Names(data)[j], Agree(data, i, j))[u].0))
  {
    var names := Names(data);
    var k := names[j];
    var v := Agree(data, i, j);
    PutAt(row, k, v);
    if u < |row| && row[u].0 != k {
      var x := row[u].0;
      assert Put(row, k, v)[u] == row[u];
      assert Keys(row)[u] == x;
      assert x in names[..j];
      assert x in names[..j + 1] by {
        var q :| 0 <= q < j && names[..j][q] == x;
        assert names[..j + 1][q] == x;
      }
      LastIndexOfStep(names, j, x);
    } else {
      assert Put(row, k, v)[u] == (k, v);
      assert names[..j + 1][j] == k;
      LastIndexOfStep(names, j, k);
    }
  }

  lemma MatrixStep(data: seq<PredictionData>, i: nat, m: Matrix, row: Row)
    requires i < |data|
    requires MatrixUpTo(data, i, m)
    requires RowUpTo(data, i, |data|, row)
    ensures MatrixUpTo(data, i + 1, Put(m, Names(data)[i], row))
  {
    var names := Names(data);
    var k := names[i];
    var m' := Put(m, k, row);
    KeysStep(names, i, m, row);
    forall t | 0 <= t < |m'|
      ensures m'[t].0 in names[..i + 1]
      ensures RowUpTo(data, LastIndexOf(names[..i + 1], m'[t].0), |data|, m'[t].1)
    {
      MatrixStepAt(data, i, m, row, t);
    }
  }

  lemma MatrixStepAt(data: seq<PredictionData>, i: nat, m: Matrix, row: Row, t: nat)
    requires i < |data|
    requires MatrixUpTo(data, i, m)
    requires RowUpTo(data, i, |data|, row)
    requires t < |Put(m, Names(data)[i], row)|
    ensures Put(m, Names(data)[i], row)[t].0 in Names(data)[..i + 1]
    ensures RowUpTo(data, LastIndexOf(Names(data)[..i + 1], Put(m, Names(data)[i], row)[t].0), |data|,
                    Put(m, Names(data)[i], row)[t].1)
  {
    var names := Names(data);
    var k := names[i];
    PutAt(m, k, row);
    if t < |m| && m[t].0 != k {
      var x := m[t].0;
      assert Put(m, k, row)[t] == m[t];
      assert Keys(m)[t] == x;
      assert x in names[..i];
      assert x in names[..i + 1] by {
        var q :| 0 <= q < i && names[..i][q] == x;
        assert names[..i + 1][q] == x;
      }
      LastIndexOfStep(names, i, x);
      assert RowUpTo(data, LastIndexOf(names[..i], x), |data|, m[t].1);
    } else {
      assert Put(m, k, row)[t] == (k, row);
      assert names[..i + 1][i] == k;
      LastIndexOfStep(names, i, k);
    }
  }

  // ---------------------------------------------------------------------------------------
  // Properties

  /** The matrix is symmetric. */
  lemma MatrixSymmetric(data: seq<PredictionData>, a: string, b: string)
    requires a in Names(data) && b in Names(data)
    ensures Entry(data, a, b) == Entry(data, b, a)
  {
  }

  /** When no two models share a name, each cell compares exactly the two records it names. */
  lemma {:induction false} DistinctNamesEntry(data: seq<PredictionData>, i: nat, j: nat)
    requires Distinct(Names(data))
    requires i < |data| && j < |data|
    ensures Entry(data, data[i].modelName, data[j].modelName) == Agree(data, i, j)
  {
    var names := Names(data);
    DistinctLastIndex(names, i);
    DistinctLastIndex(names, j);
  }
}
