/**
 The constrained decoder: a Viterbi search over label scores with sentinel values, and the
 proof that what it returns is a best path among those that the label rules allow.
 */
module Decoder {
  import opened Labels

  type Row = seq<real>
  type Path = seq<nat>

  const UNREACHED: real := -1000000000000000000.0
  const REACHED_ABOVE: real := -100000000000000000.0

  predicate IsGrid(rows: seq<Row>, n: nat) {
    forall t | 0 <= t < |rows| :: |rows[t]| == n
  }

  // ----- Which paths are allowed, and what they score -----

  predicate InRange(path: Path, n: nat) {
    forall t | 0 <= t < |path| :: path[t] < n
  }

  /** A nonempty path that obeys the start and transition rules. */
  predicate IsPrefix(path: Path, n: nat, info: LabelInfo) {
    && |path| > 0 && InRange(path, n)
    && StartOk(path[0], info) && IsChained(path, info)
  }

  predicate IsAllowed(path: Path, rows: seq<Row>, n: nat, info: LabelInfo) {
    |path| == |rows| > 0 && InRange(path, n) && IsWellFormed(path, info)
  }

  function Total(path: Path, rows: seq<Row>, n: nat): real
    requires |path| <= |rows| && IsGrid(rows, n) && InRange(path, n)
  {
    if path == [] then 0.0
    else
      var t := |path| - 1;
      Total(path[..t], rows, n) + rows[t][path[t]]
  }

  ghost predicate IsBest(path: Path, rows: seq<Row>, n: nat, info: LabelInfo)
    requires IsGrid(rows, n)
  {
    && IsAllowed(path, rows, n, info)
    && forall other | IsAllowed(other, rows, n, info) :: Total(other, rows, n) <= Total(path, rows, n)
  }

  // ----- Scores that the sentinels can tell apart -----

  /** The least entry of a row. */
  function Least(row: Row): (least: real)
    requires row != []
    ensures least in row && forall j | 0 <= j < |row| :: least <= row[j]
  {
    if |row| == 1 then row[0]
    else
      var rest := Least(row[1..]);
      assert forall j | 0 < j < |row| :: row[j] == row[1..][j - 1];
      if row[0] <= rest then row[0] else rest
  }

  function WorstTotal(rows: seq<Row>): real
    requires forall t | 0 <= t < |rows| :: rows[t] != []
  {
    if rows == [] then 0.0
    else WorstTotal(rows[..|rows| - 1]) + Least(rows[|rows| - 1])
  }

  /** Log-probabilities: no entry is positive, and no sum over a whole path gets near the sentinel. */
  ghost predicate AreLogProbabilities(rows: seq<Row>, n: nat) {
    && n > 0 && IsGrid(rows, n)
    && (forall t, j | 0 <= t < |rows| && 0 <= j < n :: rows[t][j] <= 0.0)
    && WorstTotal(rows) > REACHED_ABOVE
  }

  lemma LeastIsNotPositive(row: Row)
    requires row != [] && forall j | 0 <= j < |row| :: row[j] <= 0.0
    ensures Least(row) <= 0.0
  {
    var j :| 0 <= j < |row| && row[j] == Least(row);
  }

  lemma {:induction false} WorstTotalShrinks(rows: seq<Row>, n: nat, m: nat)
    requires n > 0 && IsGrid(rows, n) && m <= |rows|
    requires forall t, j | 0 <= t < |rows| && 0 <= j < n :: rows[t][j] <= 0.0
    ensures WorstTotal(rows) <= WorstTotal(rows[..m]) <= 0.0
  {
    if m < |rows| {
      var shorter := rows[..|rows| - 1];
      WorstTotalShrinks(shorter, n, m);
      assert shorter[..m] == rows[..m];
      LeastIsNotPositive(rows[|rows| - 1]);
    } else {
      assert rows[..m] == rows;
      if m > 0 {
        WorstTotalShrinks(rows[..m - 1], n, m - 1);
        assert rows[..m - 1][..m - 1] == rows[..m - 1];
        LeastIsNotPositive(rows[m - 1]);
      }
    }
  }

  lemma {:induction false} TotalIsAboveWorst(path: Path, rows: seq<Row>, n: nat)
    requires n > 0 && |path| <= |rows| && IsGrid(rows, n) && InRange(path, n)
    ensures WorstTotal(rows[..|path|]) <= Total(path, rows, n)
  {
    if path != [] {
      var t := |path| - 1;
      TotalIsAboveWorst(path[..t], rows, n);
      assert rows[..|path|][..t] == rows[..t];
      assert Least(rows[t]) <= rows[t][path[t]];
    }
  }

  /** Every score that a path can reach stays well above the sentinel. */
  lemma TotalIsReached(path: Path, rows: seq<Row>, n: nat)
    requires AreLogProbabilities(rows, n) && |path| <= |rows| && InRange(path, n)
    ensures Total(path, rows, n) > REACHED_ABOVE
  {
    TotalIsAboveWorst(path, rows, n);
    WorstTotalShrinks(rows, n, |path|);
  }

  // ----- Back pointers -----

  predicate ArePointers(backs: seq<seq<nat>>, n: nat) {
    forall t | 0 <= t < |backs| :: |backs[t]| == n && forall j | 0 <= j < n :: backs[t][j] < n
  }

  /** The path that the back pointers give for a last label. */
  function Trace(backs: seq<seq<nat>>, n: nat, last: nat): (path: Path)
    requires ArePointers(backs, n) && last < n
    ensures |path| == |backs| + 1 && path[|backs|] == last && InRange(path, n)
  {
    if backs == [] then [last]
    else
      var t := |backs| - 1;
      Trace(backs[..t], n, backs[t][last]) + [last]
  }

  /**
   What the scores and back pointers mean after `m` rows: a score above the sentinel is the
   total of the traced prefix path, and no prefix path scores better than its last label.
   */
  ghost predicate IsReached(rows: seq<Row>, n: nat, info: LabelInfo, scores: Row, backs: seq<seq<nat>>, j: nat)
    requires IsGrid(rows, n) && ArePointers(backs, n) && |backs| < |rows| && |scores| == n && j < n
  {
    && (scores[j] > UNREACHED ==>
          IsPrefix(Trace(backs, n, j), n, info) && Total(Trace(backs, n, j), rows, n) == scores[j])
    && (forall path: Path | |path| == |backs| + 1 && IsPrefix(path, n, info) && path[|backs|] == j ::
          Total(path, rows, n) <= scores[j])
  }

  ghost predicate AreReached(rows: seq<Row>, n: nat, info: LabelInfo, scores: Row, backs: seq<seq<nat>>) {
    && IsGrid(rows, n) && ArePointers(backs, n) && |backs| < |rows| && |scores| == n
    && forall j | 0 <= j < n :: IsReached(rows, n, info, scores, backs, j)
  }

  /** The best way to go on to `next` from one of the first `m` labels, the first one among equals. */
  predicate IsBestStep(scores: Row, info: LabelInfo, next: nat, m: nat, best: real, prev: nat)
    requires m <= |scores|
  {
    && (forall p | 0 <= p < m && ValidTransition(p, next, info) :: scores[p] <= best)
    && (best > UNREACHED ==> prev < m && ValidTransition(prev, next, info) && scores[prev] == best)
    && best >= UNREACHED
    && (prev < m || prev == 0)
  }

  lemma StepReaches(
    rows: seq<Row>, n: nat, info: LabelInfo, scores: Row, backs: seq<seq<nat>>,
    nextScores: Row, nextBacks: seq<nat>, best: real, j: nat)
    requires AreLogProbabilities(rows, n) && AreReached(rows, n, info, scores, backs) && |backs| + 1 < |rows|
    requires |nextScores| == n && |nextBacks| == n && ArePointers(backs + [nextBacks], n) && j < n
    requires IsBestStep(scores, info, j, n, best, nextBacks[j])
    requires nextScores[j] == best + rows[|backs| + 1][j]
    ensures IsReached(rows, n, info, nextScores, backs + [nextBacks], j)
  {
    var longer, m := backs + [nextBacks], |backs| + 1;
    assert longer[..m - 1] == backs;
    if nextScores[j] > UNREACHED {
      var prev := nextBacks[j];
      assert best > UNREACHED && IsReached(rows, n, info, scores, backs, prev);
      ExtendPrefix(Trace(backs, n, prev), rows, n, info, j);
    }
    forall path: Path | |path| == m + 1 && IsPrefix(path, n, info) && path[m] == j
      ensures Total(path, rows, n) <= nextScores[j]
    {
      CutPrefix(path, n, info);
      assert IsReached(rows, n, info, scores, backs, path[m - 1]);
    }
  }

  lemma ExtendPrefix(path: Path, rows: seq<Row>, n: nat, info: LabelInfo, j: nat)
    requires IsGrid(rows, n) && |path| < |rows| && IsPrefix(path, n, info) && j < n
    requires ValidTransition(path[|path| - 1], j, info)
    ensures IsPrefix(path + [j], n, info)
    ensures Total(path + [j], rows, n) == Total(path, rows, n) + rows[|path|][j]
  {
    assert (path + [j])[..|path|] == path;
  }

  lemma CutPrefix(path: Path, n: nat, info: LabelInfo)
    requires |path| > 1 && IsPrefix(path, n, info)
    ensures IsPrefix(path[..|path| - 1], n, info) && ValidTransition(path[|path| - 2], path[|path| - 1], info)
  {
  }

  // ----- The search -----

  predicate IsFirstMax(row: Row, j: nat) {
    && j < |row|
    && (forall k | 0 <= k < |row| :: row[k] <= row[j])
    && (forall k | 0 <= k < j :: row[k] < row[j])
  }

  method FirstMax(row: Row) returns (j: nat)
    requires row != []
    ensures IsFirstMax(row, j)
  {
    j := 0;
    for k := 1 to |row|
      invariant j < k
      invariant forall i | 0 <= i < k :: row[i] <= row[j]
      invariant forall i | 0 <= i < j :: row[i] < row[j]
    {
      if row[k] > row[j] {
        j := k;
      }
    }
  }

  method BestPrevious(scores: Row, info: LabelInfo, next: nat) returns (best: real, prev: nat)
    ensures IsBestStep(scores, info, next, |scores|, best, prev)
  {
    best, prev := UNREACHED, 0;
    for p := 0 to |scores|
      invariant IsBestStep(scores, info, next, p, best, prev)
    {
      if !ValidTransition(p, next, info) {
        continue;
      }
      if scores[p] > best {
        best, prev := scores[p], p;
      }
    }
  }

  /** Scores and back pointers of one more row. */
  predicate IsLayer(scores: Row, info: LabelInfo, row: Row, nextScores: Row, nextBacks: seq<nat>, m: nat)
    requires m <= |scores| == |row| == |nextScores| == |nextBacks|
  {
    forall j | 0 <= j < m ::
      IsBestStep(scores, info, j, |scores|, nextScores[j] - row[j], nextBacks[j])
  }

  method NextLayer(scores: Row, info: LabelInfo, row: Row) returns (nextScores: Row, nextBacks: seq<nat>)
    requires |scores| == |row|
    ensures |nextScores| == |nextBacks| == |row| && IsLayer(scores, info, row, nextScores, nextBacks, |row|)
  {
    var n := |row|;
    nextScores, nextBacks := seq(n, _ => UNREACHED), seq(n, _ => 0);
    for next := 0 to n
      invariant |nextScores| == |nextBacks| == n
      invariant IsLayer(scores, info, row, nextScores, nextBacks, next)
    {
      var best, prev := BestPrevious(scores, info, next);
      nextScores := nextScores[next := best + row[next]];
      nextBacks := nextBacks[next := prev];
    }
  }

  lemma LayerReaches(
    rows: seq<Row>, n: nat, info: LabelInfo, scores: Row, backs: seq<seq<nat>>, nextScores: Row, nextBacks: seq<nat>)
    requires AreLogProbabilities(rows, n) && AreReached(rows, n, info, scores, backs) && |backs| + 1 < |rows|
    requires |nextScores| == |nextBacks| == n
    requires IsLayer(scores, info, rows[|backs| + 1], nextScores, nextBacks, n)
    ensures AreReached(rows, n, info, nextScores, backs + [nextBacks])
  {
    LayerPoints(scores, info, rows[|backs| + 1], nextScores, nextBacks, n);
    forall j | 0 <= j < n ensures IsReached(rows, n, info, nextScores, backs + [nextBacks], j) {
      StepReaches(rows, n, info, scores, backs, nextScores, nextBacks, nextScores[j] - rows[|backs| + 1][j], j);
    }
  }

  lemma LayerPoints(scores: Row, info: LabelInfo, row: Row, nextScores: Row, nextBacks: seq<nat>, n: nat)
    requires n == |scores| == |row| == |nextScores| == |nextBacks|
    requires IsLayer(scores, info, row, nextScores, nextBacks, n)
    ensures forall j | 0 <= j < n :: nextBacks[j] < n
  {
    forall j | 0 <= j < n ensures nextBacks[j] < n {
      assert IsBestStep(scores, info, j, n, nextScores[j] - row[j], nextBacks[j]);
    }
  }

  lemma FirstRowReaches(rows: seq<Row>, n: nat, info: LabelInfo, scores: Row)
    requires rows != [] && AreLogProbabilities(rows, n)
    requires scores == seq(n, j requires 0 <= j < n => if StartOk(j, info) then rows[0][j] else UNREACHED)
    ensures AreReached(rows, n, info, scores, [])
  {
    forall j | 0 <= j < n ensures IsReached(rows, n, info, scores, [], j) {
      assert Total([j], rows, n) == rows[0][j] by {
        assert [j][..0] == [];
      }
      forall path: Path | |path| == 1 && IsPrefix(path, n, info) && path[0] == j
        ensures Total(path, rows, n) <= scores[j]
      {
        assert path == [j];
      }
    }
  }

  /** Follows the back pointers from the last label to the first. */
  method FollowBack(backs: seq<seq<nat>>, n: nat, last: nat) returns (path: Path)
    requires ArePointers(backs, n) && last < n
    ensures path == Trace(backs, n, last)
  {
    ghost var full := Trace(backs, n, last);
    var at: nat := last;
    var steps: seq<nat> := [at];
    var t := |backs|;
    assert backs[..t] == backs;
    while t > 0
      invariant 0 <= t <= |backs| && at < n && |steps| == |backs| - t + 1
      invariant Trace(backs[..t], n, at) == full[..t + 1]
      invariant forall i | 0 <= i < |steps| :: steps[i] == full[|backs| - i]
    {
      t := t - 1;
      assert backs[..t + 1][..t] == backs[..t];
      assert full[..t + 2][..t + 1] == full[..t + 1];
      at := backs[t][at];
      steps := steps + [at];
    }
    path := Reversed(steps);
  }

  function Reversed<T>(s: seq<T>): (r: seq<T>)
    ensures |r| == |s| && forall i | 0 <= i < |s| :: r[i] == s[|s| - 1 - i]
  {
    seq(|s|, i requires 0 <= i < |s| => s[|s| - 1 - i])
  }

  /** Every label is the first maximum of its row. */
  predicate IsGreedy(path: Path, rows: seq<Row>) {
    |path| == |rows| && forall t | 0 <= t < |rows| :: IsFirstMax(rows[t], path[t])
  }

  method Greedy(rows: seq<Row>, n: nat) returns (path: Path)
    requires n > 0 && IsGrid(rows, n)
    ensures IsGreedy(path, rows)
  {
    path := [];
    for t := 0 to |rows|
      invariant |path| == t && forall i | 0 <= i < t :: IsFirstMax(rows[i], path[i])
    {
      var j := FirstMax(rows[t]);
      path := path + [j];
    }
  }

  /**
   On log-probabilities the search returns a best allowed path whenever there is an allowed
   path, and label by label the greatest score only when there is none.
   */
  method Viterbi(rows: seq<Row>, info: LabelInfo) returns (path: Path)
    requires rows != [] ==> rows[0] != [] && IsGrid(rows, |rows[0]|)
    ensures |path| == |rows|
    ensures rows != [] && AreLogProbabilities(rows, |rows[0]|) ==>
              if exists other :: IsAllowed(other, rows, |rows[0]|, info)
              then IsBest(path, rows, |rows[0]|, info) else IsGreedy(path, rows)
  {
    if rows == [] {
      return [];
    }
    var n := |rows[0]|;
    var scores := seq(n, j requires 0 <= j < n => if StartOk(j, info) then rows[0][j] else UNREACHED);
    var backs: seq<seq<nat>> := [];
    if AreLogProbabilities(rows, n) {
      FirstRowReaches(rows, n, info, scores);
    }
    for t := 1 to |rows|
      invariant |backs| == t - 1 && ArePointers(backs, n) && |scores| == n
      invariant AreLogProbabilities(rows, n) ==> AreReached(rows, n, info, scores, backs)
    {
      var nextScores, nextBacks := NextLayer(scores, info, rows[t]);
      LayerPoints(scores, info, rows[t], nextScores, nextBacks, n);
      if AreLogProbabilities(rows, n) {
        LayerReaches(rows, n, info, scores, backs, nextScores, nextBacks);
      }
      scores, backs := nextScores, backs + [nextBacks];
    }
    var ends := seq(n, j requires 0 <= j < n => if EndOk(j, info) then scores[j] else UNREACHED);
    if !exists j | 0 <= j < n :: ends[j] > REACHED_ABOVE {
      path := Greedy(rows, n);
    } else {
      var last := FirstMax(ends);
      path := FollowBack(backs, n, last);
    }
    if AreLogProbabilities(rows, n) {
      EndsDecide(rows, n, info, scores, backs, ends);
    }
  }

  /** The end scores tell whether there is an allowed path, and which last label is best. */
  lemma EndsDecide(rows: seq<Row>, n: nat, info: LabelInfo, scores: Row, backs: seq<seq<nat>>, ends: Row)
    requires AreLogProbabilities(rows, n) && AreReached(rows, n, info, scores, backs) && |rows| == |backs| + 1
    requires ends == seq(n, j requires 0 <= j < n => if EndOk(j, info) then scores[j] else UNREACHED)
    ensures (exists j | 0 <= j < n :: ends[j] > REACHED_ABOVE) <==> exists path :: IsAllowed(path, rows, n, info)
    ensures forall last: nat | IsFirstMax(ends, last) && ends[last] > REACHED_ABOVE ::
              IsBest(Trace(backs, n, last), rows, n, info)
  {
    forall path | IsAllowed(path, rows, n, info)
      ensures REACHED_ABOVE < Total(path, rows, n) <= ends[path[|path| - 1]]
    {
      TotalIsReached(path, rows, n);
      assert IsReached(rows, n, info, scores, backs, path[|path| - 1]);
    }
    forall last: nat | last < n && ends[last] > REACHED_ABOVE
      ensures IsAllowed(Trace(backs, n, last), rows, n, info) && Total(Trace(backs, n, last), rows, n) == ends[last]
    {
      assert IsReached(rows, n, info, scores, backs, last);
    }
  }

  // ----- The background path -----

  /** With a plain background label in range, the path of background labels is allowed. */
  lemma BackgroundPathIsAllowed(rows: seq<Row>, n: nat, info: LabelInfo)
    requires rows != [] && 0 <= info.backgroundToken < n && TagOf(info, info.backgroundToken).None?
    ensures IsAllowed(seq(|rows|, _ => info.backgroundToken), rows, n, info)
  {
  }

  /**
   For a table with distinct ids and an `O` label in range, the search never falls back: some
   path is allowed, so on log-probabilities the result of the search is a best one.
   */
  lemma SearchNeverFallsBack(rows: seq<Row>, n: nat, info: LabelInfo, entries: seq<(int, string)>, i: nat)
    requires rows != [] && IsTable(info, entries) && HasDistinctIds(entries)
    requires i < |entries| && entries[i].1 == "O"
    requires forall j | 0 <= j < |entries| && entries[j].1 == "O" :: 0 <= entries[j].0 < n
    ensures exists path :: IsAllowed(path, rows, n, info)
  {
    BackgroundIsPlain(info, entries, i);
    BackgroundPathIsAllowed(rows, n, info);
  }
}
