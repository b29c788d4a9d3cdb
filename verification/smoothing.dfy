/** `apply_temporal_smoothing` (face.py): the emotion history is a bounded
    FIFO (`deque(maxlen=5)`) of emotion vectors; each call appends one
    vector, averages the window component-wise and picks the first maximal
    component as the smoothed dominant emotion. */
module Smoothing {
  import opened Wrappers
  import opened Scores

  /** The `maxlen` of the emotion history. */
  const Capacity: nat := 5

  /** The emotion history: never more than Capacity vectors, oldest first. */
  type History = h: seq<Vector> | |h| <= Capacity

  /** The history as it is at process start. */
  const EmptyHistory: History := []

  /** The last `n` elements of `s` (all of `s` when it is shorter). */
  function LastN<T>(s: seq<T>, n: nat): (r: seq<T>)
  {
    if |s| <= n then s else s[|s| - n..]
  }

  /** `emotion_history.append(v)`: a full deque first drops its oldest entry. */
  function Push(h: History, v: Vector): (h': History)
    ensures h' == LastN(h + [v], Capacity)
    ensures |h'| == Min(|h| + 1, Capacity)
    ensures h'[|h'| - 1] == v
  {
    if |h| == Capacity then h[1..] + [v] else h + [v]
  }

  /** Appending the vectors of `vs` one after another. */
  function PushAll(h: History, vs: seq<Vector>): (h': History)
    decreases |vs|
  {
    if |vs| == 0 then h else PushAll(Push(h, vs[0]), vs[1..])
  }

  lemma LastNOfLastN<T>(s: seq<T>, t: seq<T>, n: nat)
    ensures LastN(LastN(s, n) + t, n) == LastN(s + t, n)
  {
    if |s| > n {
      var s' := s[|s| - n..];
      assert s + t == s[..|s| - n] + (s' + t);
    }
  }

  /** Windowing `h + first` and then appending `rest` windows `h + first + rest`. */
  lemma WindowStep<T>(h: seq<T>, h1: seq<T>, first: seq<T>, rest: seq<T>, last: seq<T>)
    requires h1 == LastN(h + first, Capacity)
    requires last == LastN(h1 + rest, Capacity)
    ensures last == LastN(h + (first + rest), Capacity)
  {
    LastNOfLastN(h + first, rest, Capacity);
    assert h + first + rest == h + (first + rest);
  }

  /** FIFO: after any sequence of appends the history holds exactly the last
      Capacity vectors of the old history followed by the appended ones. */
  lemma {:induction false} PushAllKeepsLast(h: History, vs: seq<Vector>)
    ensures PushAll(h, vs) == LastN(h + vs, Capacity)
    decreases |vs|
  {
    if |vs| == 0 {
      assert h + vs == h;
    } else {
      PushAllKeepsLast(Push(h, vs[0]), vs[1..]);
      WindowStep(h, Push(h, vs[0]), [vs[0]], vs[1..], PushAll(h, vs));
      assert [vs[0]] + vs[1..] == vs;
    }
  }

  /** The history never outgrows Capacity, and stays full once it is full. */
  lemma PushAllLength(h: History, vs: seq<Vector>)
    ensures |PushAll(h, vs)| == Min(|h| + |vs|, Capacity)
  {
    PushAllKeepsLast(h, vs);
  }

  /** Appending V1..V6 to an empty history leaves [V2, V3, V4, V5, V6]. */
  lemma SixPushesDropFirst(v1: Vector, v2: Vector, v3: Vector, v4: Vector, v5: Vector, v6: Vector)
    ensures PushAll(EmptyHistory, [v1, v2, v3, v4, v5, v6]) == [v2, v3, v4, v5, v6]
  {
    PushAllKeepsLast(EmptyHistory, [v1, v2, v3, v4, v5, v6]);
  }

  /** Sum of component `i` over the window. */
  function ColumnSum(h: seq<Vector>, i: nat): (sum: real)
    requires i < 7
  {
    if |h| == 0 then 0.0 else ColumnSum(h[..|h| - 1], i) + h[|h| - 1][i]
  }

  /** `np.mean(list(emotion_history), axis=0)`: divided by the current
      window length, not always by Capacity. */
  function Mean(h: seq<Vector>): (m: Vector)
    requires |h| > 0
  {
    seq(7, i requires 0 <= i < 7 => ColumnSum(h, i) / |h| as real)
  }

  lemma {:induction false} ColumnSumBounds(h: seq<Vector>, i: nat, lo: real, hi: real)
    requires i < 7
    requires forall k :: 0 <= k < |h| ==> lo <= h[k][i] <= hi
    ensures |h| as real * lo <= ColumnSum(h, i) <= |h| as real * hi
  {
    if |h| > 0 {
      ColumnSumBounds(h[..|h| - 1], i, lo, hi);
      assert (|h| - 1) as real * lo + lo == |h| as real * lo;
      assert (|h| - 1) as real * hi + hi == |h| as real * hi;
    }
  }

  /** Any bounds that hold for component `i` of every vector in the window
      hold for the smoothed component `i`. */
  lemma MeanBounded(h: seq<Vector>, i: nat, lo: real, hi: real)
    requires |h| > 0 && i < 7
    requires forall k :: 0 <= k < |h| ==> lo <= h[k][i] <= hi
    ensures lo <= Mean(h)[i] <= hi
  {
    ColumnSumBounds(h, i, lo, hi);
    var n := |h| as real;
    var m := Mean(h)[i];
    assert m * n == ColumnSum(h, i);
    assert m < lo ==> m * n < lo * n;
    assert m > hi ==> m * n > hi * n;
  }

  /** Smallest and largest value of component `i` across the window. */
  function ColumnMin(h: seq<Vector>, i: nat): (r: real)
    requires |h| > 0 && i < 7
    ensures exists k :: 0 <= k < |h| && h[k][i] == r
    ensures forall k :: 0 <= k < |h| ==> r <= h[k][i]
  {
    if |h| == 1 then h[0][i]
    else
      var r := ColumnMin(h[1..], i);
      if h[0][i] <= r then h[0][i] else r
  }

  function ColumnMax(h: seq<Vector>, i: nat): (r: real)
    requires |h| > 0 && i < 7
    ensures exists k :: 0 <= k < |h| && h[k][i] == r
    ensures forall k :: 0 <= k < |h| ==> h[k][i] <= r
  {
    if |h| == 1 then h[0][i]
    else
      var r := ColumnMax(h[1..], i);
      if h[0][i] >= r then h[0][i] else r
  }

  /** Each smoothed component lies between the smallest and the largest
      value of that component in the window. */
  lemma MeanWithinWindow(h: seq<Vector>, i: nat)
    requires |h| > 0 && i < 7
    ensures ColumnMin(h, i) <= Mean(h)[i] <= ColumnMax(h, i)
  {
    MeanBounded(h, i, ColumnMin(h, i), ColumnMax(h, i));
  }

  /** Non-negative scores give non-negative smoothed scores. */
  lemma MeanNonNegative(h: seq<Vector>)
    requires |h| > 0
    requires forall k, i :: 0 <= k < |h| && 0 <= i < 7 ==> 0.0 <= h[k][i]
    ensures forall i :: 0 <= i < 7 ==> 0.0 <= Mean(h)[i]
  {
    forall i | 0 <= i < 7
      ensures 0.0 <= Mean(h)[i]
    {
      MeanWithinWindow(h, i);
    }
  }

  /** A window of one vector smooths to that vector. */
  lemma MeanOfOne(v: Vector)
    ensures Mean([v]) == v
  {
    forall i | 0 <= i < 7
      ensures Mean([v])[i] == v[i]
    {
      assert [v][..0] == [];
      assert ColumnSum([v], i) == v[i];
    }
  }

  /** The smoothing part of a recognised frame. */
  datatype SmoothedResult = SmoothedResult(dominantEmotion: string, confidence: real, smoothedEmotions: ScoreMap)

  /** `apply_temporal_smoothing(v)` on history `h`: the new history and the result. */
  function ApplyTemporalSmoothing(h: History, v: Vector): (r: (History, SmoothedResult))
    ensures r.0 == LastN(h + [v], Capacity)
    ensures |r.1.smoothedEmotions| == 7
    ensures forall i :: 0 <= i < 7 ==>
              r.1.smoothedEmotions[i] == (EmotionKeys[i], ColumnSum(r.0, i) / |r.0| as real)
    ensures exists i :: 0 <= i < 7 && IsFirstMax(Values(r.1.smoothedEmotions), i)
                        && r.1.dominantEmotion == EmotionKeys[i]
                        && r.1.confidence == r.1.smoothedEmotions[i].1
  {
    var h' := Push(h, v);
    var m := Mean(h');
    var i := ArgMax(m);
    assert Values(Keyed(m)) == m;
    (h', SmoothedResult(EmotionKeys[i], m[i], Keyed(m)))
  }

  /** The smoothed dominant emotion is the first maximal entry of the
      returned smoothed mapping. */
  lemma DominantMatchesSmoothedMap(h: History, v: Vector, i: nat)
    requires i < 7
    requires IsFirstMax(Values(ApplyTemporalSmoothing(h, v).1.smoothedEmotions), i)
    ensures ApplyTemporalSmoothing(h, v).1.dominantEmotion == EmotionKeys[i]
    ensures ApplyTemporalSmoothing(h, v).1.confidence == ApplyTemporalSmoothing(h, v).1.smoothedEmotions[i].1
  {
  }

  /** The first frame after start smooths to itself. */
  lemma FirstFrameSmoothsToItself(v: Vector)
    ensures ApplyTemporalSmoothing(EmptyHistory, v).0 == [v]
    ensures ApplyTemporalSmoothing(EmptyHistory, v).1.smoothedEmotions == Keyed(v)
  {
    MeanOfOne(v);
  }

  const OnlyAngry: Vector := [1.0, 0.0, 0.0, 0.0, 0.0, 0.0, 0.0]
  const OnlyDisgust: Vector := [0.0, 1.0, 0.0, 0.0, 0.0, 0.0, 0.0]

  lemma TwoFrameMean()
    ensures Mean([OnlyAngry, OnlyDisgust]) == [0.5, 0.5, 0.0, 0.0, 0.0, 0.0, 0.0]
  {
    var h := [OnlyAngry, OnlyDisgust];
    assert h[..1] == [OnlyAngry] && h[..1][..0] == [];
    forall i | 0 <= i < 7
      ensures ColumnSum(h, i) == OnlyAngry[i] + OnlyDisgust[i]
    {
      assert ColumnSum(h[..1], i) == OnlyAngry[i];
    }
  }

  /** Windows [[1,0,...], [0,1,...]] average to [0.5, 0.5, 0, ...]; the tie
      between the first two categories goes to "angry", the lower index. */
  lemma TieGoesToLowerIndex()
    ensures var r := ApplyTemporalSmoothing([OnlyAngry], OnlyDisgust);
            && Values(r.1.smoothedEmotions) == [0.5, 0.5, 0.0, 0.0, 0.0, 0.0, 0.0]
            && r.1.dominantEmotion == "angry"
            && r.1.confidence == 0.5
  {
    var r := ApplyTemporalSmoothing([OnlyAngry], OnlyDisgust);
    assert r.0 == [OnlyAngry, OnlyDisgust];
    TwoFrameMean();
    var m := Values(r.1.smoothedEmotions);
    assert m == Mean(r.0);
    assert IsFirstMax(m, 0);
    DominantMatchesSmoothedMap([OnlyAngry], OnlyDisgust, 0);
  }
}
