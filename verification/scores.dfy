/** The fixed emotion categories, emotion vectors, and the category -> score
    mappings that the face analysis produces (face.py). */
module Scores {
  import opened Wrappers

  /** EMOTION_KEYS: the category order that fixes every vector index. */
  const EmotionKeys: seq<string> := ["angry", "disgust", "fear", "happy", "sad", "surprise", "neutral"]

  /** An emotion vector: one score per category, in EmotionKeys order. */
  type Vector = v: seq<real> | |v| == 7 witness [0.0, 0.0, 0.0, 0.0, 0.0, 0.0, 0.0]

  predicate DistinctKeys(s: seq<(string, real)>)
  {
    forall i, j :: 0 <= i < j < |s| ==> s[i].0 != s[j].0
  }

  /** A Python dict from category name to score: its entries in iteration
      order. Keys of a dict are distinct. */
  type ScoreMap = s: seq<(string, real)> | DistinctKeys(s) witness []

  /** Position of key `k` among the entries, if it occurs. */
  function Find(s: seq<(string, real)>, k: string): (r: Option<nat>)
    ensures r.Some? ==> r.value < |s| && s[r.value].0 == k
    ensures r.None? ==> forall j :: 0 <= j < |s| ==> s[j].0 != k
  {
    if |s| == 0 then None
    else if s[0].0 == k then Some(0)
    else match Find(s[1..], k)
      case None => None
      case Some(j) => Some(j + 1)
  }

  /** Dict lookup `m[k]`: the score stored under `k`, or None where Python
      raises KeyError. */
  function Get(m: ScoreMap, k: string): (r: Option<real>)
    ensures r.Some? <==> exists i :: 0 <= i < |m| && m[i].0 == k
    ensures forall i :: 0 <= i < |m| && m[i].0 == k ==> r == Some(m[i].1)
  {
    match Find(m, k)
    case None => None
    case Some(i) => Some(m[i].1)
  }

  /** The scores of a mapping, in its iteration order. */
  function Values(s: seq<(string, real)>): (v: seq<real>)
    ensures |v| == |s|
    ensures forall i :: 0 <= i < |s| ==> v[i] == s[i].1
  {
    seq(|s|, i requires 0 <= i < |s| => s[i].1)
  }

  /** `{EMOTION_KEYS[i]: v[i] for i in range(7)}`. */
  function Keyed(v: Vector): (m: ScoreMap)
    ensures |m| == 7
    ensures forall i :: 0 <= i < 7 ==> m[i] == (EmotionKeys[i], v[i])
  {
    seq(7, i requires 0 <= i < 7 => (EmotionKeys[i], v[i]))
  }

  /** `i` is the first index holding the largest value of `v`. */
  predicate IsFirstMax(v: seq<real>, i: int)
  {
    && 0 <= i < |v|
    && (forall j :: 0 <= j < |v| ==> v[j] <= v[i])
    && (forall j :: 0 <= j < i ==> v[j] < v[i])
  }

  /** The left-to-right maximum scan shared by `numpy.argmax` and Python's
      `max(d, key=d.get)`: the best index so far is replaced only by a
      strictly larger value, so ties go to the earliest index. */
  function ArgMax(v: seq<real>): (i: nat)
    requires |v| > 0
    ensures IsFirstMax(v, i)
  {
    ArgMaxFrom(v, 0, 1)
  }

  /** The scan after its first `k` elements, with `best` the winner so far. */
  function ArgMaxFrom(v: seq<real>, best: nat, k: nat): (i: nat)
    requires best < k <= |v|
    requires IsFirstMax(v[..k], best)
    ensures IsFirstMax(v, i)
    decreases |v| - k
  {
    if k == |v| then
      assert v[..k] == v;
      best
    else if v[k] > v[best] then
      ArgMaxFrom(v, k, k + 1)
    else
      ArgMaxFrom(v, best, k + 1)
  }

  /** The first maximal index is unique: whatever computes it agrees with ArgMax. */
  lemma FirstMaxUnique(v: seq<real>, i: int, j: int)
    requires IsFirstMax(v, i) && IsFirstMax(v, j)
    ensures i == j
  {
    assert v[i] == v[j];
  }
}
