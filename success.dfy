/** `calculate_success`: the fraction of rows whose first maximal entry is the
    target class. */
module Success {
  import opened ExtReals

  /** `k` is the first index of a maximal entry of `row`. */
  predicate IsFirstMax(row: seq<real>, k: int) {
    && 0 <= k < |row|
    && (forall j :: 0 <= j < |row| ==> row[j] <= row[k])
    && (forall j :: 0 <= j < k ==> row[j] < row[k])
  }

  /** `torch.argmax` along one row, which returns the first maximal index. */
  function ArgMax(row: seq<real>): (k: nat)
    requires |row| > 0
    ensures IsFirstMax(row, k)
  {
    if |row| == 1 then 0
    else
      var k := ArgMax(row[..|row| - 1]);
      if row[|row| - 1] > row[k] then |row| - 1 else k
  }

  lemma FirstMaxUnique(row: seq<real>, k1: int, k2: int)
    requires IsFirstMax(row, k1) && IsFirstMax(row, k2)
    ensures k1 == k2
  {
    assert row[k1] == row[k2];
  }

  lemma ArgMaxIsTarget(row: seq<real>, target: int)
    requires |row| > 0
    ensures IsFirstMax(row, target) <==> ArgMax(row) == target
  {
    if IsFirstMax(row, target) {
      FirstMaxUnique(row, target, ArgMax(row));
    }
  }

  predicate NonEmptyRows(rows: seq<seq<real>>) {
    forall i :: 0 <= i < |rows| ==> |rows[i]| > 0
  }

  /** The indices of the rows whose first maximal entry is the target. */
  ghost function HitRows(rows: seq<seq<real>>, target: int): set<int> {
    set i | 0 <= i < |rows| && IsFirstMax(rows[i], target)
  }

  /** Counting the hit rows one row at a time. */
  lemma HitRowsSnoc(rows: seq<seq<real>>, target: int)
    requires |rows| > 0
    ensures var last := |rows| - 1;
      |HitRows(rows, target)| == |HitRows(rows[..last], target)| + (if IsFirstMax(rows[last], target) then 1 else 0)
  {
    var last := |rows| - 1;
    var prefix := rows[..last];
    assert forall i :: 0 <= i < |prefix| ==> prefix[i] == rows[i];
    assert last !in HitRows(prefix, target);
    assert HitRows(rows, target) ==
      HitRows(prefix, target) + (if IsFirstMax(rows[last], target) then {last} else {});
  }

  /** Number of rows whose argmax equals the target. */
  function Hits(rows: seq<seq<real>>, target: int): (n: nat)
    requires NonEmptyRows(rows)
    ensures n == |HitRows(rows, target)|
    ensures n <= |rows|
    ensures n == |rows| <==> forall i :: 0 <= i < |rows| ==> IsFirstMax(rows[i], target)
    ensures n == 0 <==> forall i :: 0 <= i < |rows| ==> !IsFirstMax(rows[i], target)
  {
    if |rows| == 0 then 0
    else
      var prefix := rows[..|rows| - 1];
      assert forall i :: 0 <= i < |prefix| ==> prefix[i] == rows[i];
      var last := |rows| - 1;
      ArgMaxIsTarget(rows[last], target);
      HitRowsSnoc(rows, target);
      Hits(prefix, target) + (if ArgMax(rows[last]) == target then 1 else 0)
  }

  lemma Fraction(n: nat, m: nat)
    requires 0 < m && n <= m
    ensures 0.0 <= n as real / m as real <= 1.0
    ensures n as real / m as real == 1.0 <==> n == m
    ensures n as real / m as real == 0.0 <==> n == 0
  {
  }

  /** `(argmax(result, dim=1) == target).float().mean()`: NaN for no rows
      (the mean of an empty tensor), otherwise a fraction in [0, 1]. */
  function CalculateSuccess(rows: seq<seq<real>>, target: int): (r: ExtReal)
    requires NonEmptyRows(rows)
    ensures r.NaN? <==> |rows| == 0
    ensures |rows| > 0 ==> r == Num(|HitRows(rows, target)| as real / |rows| as real)
    ensures !r.PosInf?
    ensures r.Num? ==> 0.0 <= r.v <= 1.0
    ensures r == Num(1.0) <==> |rows| > 0 && forall i :: 0 <= i < |rows| ==> IsFirstMax(rows[i], target)
    ensures r == Num(0.0) <==> |rows| > 0 && forall i :: 0 <= i < |rows| ==> !IsFirstMax(rows[i], target)
  {
    if |rows| == 0 then NaN
    else
      var n := Hits(rows, target);
      Fraction(n, |rows|);
      Num(n as real / |rows| as real)
  }

  /** For the single row the training step passes, the success is 1 exactly
      when the target is the first index of the maximal entry, else 0. */
  lemma SingleRowSuccess(row: seq<real>, target: int)
    requires |row| > 0
    ensures CalculateSuccess([row], target) == Num(if IsFirstMax(row, target) then 1.0 else 0.0)
  {
    assert [row][0] == row;
  }
}
