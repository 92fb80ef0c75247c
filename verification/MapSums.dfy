/** Sums of the values of finite maps, as the ledger totals need them. */
module MapSums {

  ghost function Sum<K>(m: map<K, int>): int {
    if m == map[] then 0 else
      var k :| k in m;
      m[k] + Sum(m - {k})
  }

  lemma {:induction false} SumRemove<K>(m: map<K, int>, k: K)
    requires k in m
    ensures Sum(m) == m[k] + Sum(m - {k})
    decreases m.Keys
  {
    var j :| j in m && Sum(m) == m[j] + Sum(m - {j});
    if j != k {
      SumRemove(m - {j}, k);
      SumRemove(m - {k}, j);
      assert m - {j} - {k} == m - {k} - {j};
    }
  }

  /** Changing one entry changes the sum by exactly that change. */
  lemma {:induction false} SumPoint<K>(m: map<K, int>, m': map<K, int>, k: K)
    requires k in m && m'.Keys == m.Keys
    requires forall x :: x in m && x != k ==> m'[x] == m[x]
    ensures Sum(m') == Sum(m) - m[k] + m'[k]
  {
    SumRemove(m, k);
    SumRemove(m', k);
    assert m - {k} == m' - {k};
  }

  lemma {:induction false} SumZero<K>(m: map<K, int>)
    requires forall x :: x in m ==> m[x] == 0
    ensures Sum(m) == 0
    decreases m.Keys
  {
    if m != map[] {
      var k :| k in m;
      SumRemove(m, k);
      SumZero(m - {k});
    }
  }

  /** A map that vanishes off one key sums to its value there. */
  lemma {:induction false} SumSingle<K>(m: map<K, int>, k: K)
    requires k in m
    requires forall x :: x in m && x != k ==> m[x] == 0
    ensures Sum(m) == m[k]
  {
    SumRemove(m, k);
    SumZero(m - {k});
  }

  lemma {:induction false} SumPlus<K>(m1: map<K, int>, m2: map<K, int>, m: map<K, int>)
    requires m1.Keys == m.Keys && m2.Keys == m.Keys
    requires forall x :: x in m ==> m[x] == m1[x] + m2[x]
    ensures Sum(m) == Sum(m1) + Sum(m2)
    decreases m.Keys
  {
    if m != map[] {
      var k :| k in m;
      SumRemove(m, k);
      SumRemove(m1, k);
      SumRemove(m2, k);
      SumPlus(m1 - {k}, m2 - {k}, m - {k});
    }
  }

  lemma {:induction false} SumMonotone<K>(m: map<K, int>, m': map<K, int>)
    requires m.Keys == m'.Keys
    requires forall x :: x in m ==> m[x] <= m'[x]
    ensures Sum(m) <= Sum(m')
    decreases m.Keys
  {
    if m != map[] {
      var k :| k in m;
      SumRemove(m, k);
      SumRemove(m', k);
      SumMonotone(m - {k}, m' - {k});
    }
  }

  lemma {:induction false} SumNonNegative<K>(m: map<K, int>)
    requires forall x :: x in m ==> m[x] >= 0
    ensures Sum(m) >= 0
  {
    var zeros := map x | x in m :: 0;
    SumZero(zeros);
    SumMonotone(zeros, m);
  }

  ghost function At<S, T>(f: map<(S, T), int>, x: S, y: T): int {
    if (x, y) in f then f[(x, y)] else 0
  }

  ghost function Row<S, T>(f: map<(S, T), int>, x: S, t: set<T>): map<T, int> {
    map y | y in t :: At(f, x, y)
  }

  ghost function Column<S, T>(f: map<(S, T), int>, s: set<S>, y: T): map<S, int> {
    map x | x in s :: At(f, x, y)
  }

  ghost function RowSums<S, T>(f: map<(S, T), int>, s: set<S>, t: set<T>): map<S, int> {
    map x | x in s :: Sum(Row(f, x, t))
  }

  ghost function ColumnSums<S, T>(f: map<(S, T), int>, s: set<S>, t: set<T>): map<T, int> {
    map y | y in t :: Sum(Column(f, s, y))
  }

  lemma {:induction false} ColumnStep<S, T>(f: map<(S, T), int>, s: set<S>, y: T, z: S)
    requires z in s
    ensures Sum(Column(f, s, y)) == Sum(Column(f, s - {z}, y)) + At(f, z, y)
  {
    SumRemove(Column(f, s, y), z);
    assert Column(f, s, y) - {z} == Column(f, s - {z}, y);
  }

  lemma {:induction false} ColumnsStep<S, T>(f: map<(S, T), int>, s: set<S>, t: set<T>, z: S)
    requires z in s
    ensures Sum(ColumnSums(f, s, t)) == Sum(ColumnSums(f, s - {z}, t)) + Sum(Row(f, z, t))
  {
    forall y | y in t
      ensures ColumnSums(f, s, t)[y] == ColumnSums(f, s - {z}, t)[y] + Row(f, z, t)[y]
    {
      ColumnStep(f, s, y, z);
    }
    SumPlus(ColumnSums(f, s - {z}, t), Row(f, z, t), ColumnSums(f, s, t));
  }

  lemma {:induction false} RowsStep<S, T>(f: map<(S, T), int>, s: set<S>, t: set<T>, z: S)
    requires z in s
    ensures Sum(RowSums(f, s, t)) == Sum(RowSums(f, s - {z}, t)) + Sum(Row(f, z, t))
  {
    SumRemove(RowSums(f, s, t), z);
    assert RowSums(f, s, t) - {z} == RowSums(f, s - {z}, t);
  }

  /** A table may be added up by rows or by columns. */
  lemma {:induction false} SumSwap<S, T>(f: map<(S, T), int>, s: set<S>, t: set<T>)
    ensures Sum(RowSums(f, s, t)) == Sum(ColumnSums(f, s, t))
    decreases s
  {
    if s == {} {
      forall y | y in t
        ensures ColumnSums(f, s, t)[y] == 0
      {
        SumZero(Column(f, s, y));
      }
      SumZero(ColumnSums(f, s, t));
      SumZero(RowSums(f, s, t));
    } else {
      var z :| z in s;
      RowsStep(f, s, t, z);
      ColumnsStep(f, s, t, z);
      SumSwap(f, s - {z}, t);
    }
  }
}
