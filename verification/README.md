# Emotion smoothing and mock heart-rate feed — a Dafny model

This project models the two pieces of logic in the caregiver/recipient
emotion-tracking service.

1. **The emotion temporal-smoothing pipeline** (`face.py`).
   - `process_frame` takes the face-analysis output and produces one of two records.
     On success it re-projects the unordered category→score mapping into a
     fixed-order 7-element emotion vector (`EMOTION_KEYS` order), picks the raw
     dominant emotion, and returns it with the bounding box.
     On any failure it returns a failure record whose scores are all zero.
   - `apply_temporal_smoothing` appends the vector to a process-wide
     `deque(maxlen=5)`. It averages the window component by component, dividing
     by the current length. It then picks the first maximal component as the
     smoothed dominant emotion.
   - The `/recognize` route runs smoothing only when analysis succeeded. It merges
     the smoothed dominant emotion and confidence over the raw ones.
2. **The mock heart-rate monitor** (`physiological_stub.py`). This covers clamping
   to [50, 150], trend lists, the stress-level→baseline mapping, and min/avg/max
   statistics.

Modules, one per component:

- `wrappers.dfy` — `Wrappers`: `Option`, `Result` (an error message standing for a raised exception), `Min`/`Max`.
- `scores.dfy` — `Scores`: `EmotionKeys`, the length-7 `Vector`, `ScoreMap` (a Python dict as its entries in iteration order, keys distinct), dict lookup and the first-maximum scan shared by `numpy.argmax` and `max(d, key=d.get)`.
- `frame.dfy` — `Frame`: the analysis output as input (`Detection`), `ProcessFrame`.
- `smoothing.dfy` — `Smoothing`: the bounded history, `Push`, `Mean`, `ApplyTemporalSmoothing`.
- `recognize.dfy` — `Recognize`: the per-frame control rule and streams of frames.
- `physiological.dfy` — `Physiological`: the monitor state and its four operations.

Everything is immutable. The history is a value passed through the functions
rather than a global; the monitor is a two-field record returned updated.
The random variations are parameters.

Tie-breaks are pinned explicitly.
- The smoothed dominant emotion is the lowest index among the maximal components.
- The raw dominant emotion is the first maximal key in the mapping's own
  iteration order. That key may fall outside the seven categories when the
  analysis returns extra keys, because the code searches the whole mapping.

Scores and categories:
- The code never checks that scores are non-negative. The model allows any
  real score, and `Smoothing.MeanNonNegative` takes non-negativity as a hypothesis.
- The code reads the seven categories out of whatever mapping the analysis
  returns. A missing category raises KeyError and so yields the failure record.
  Extra keys take part in the raw dominant-emotion choice.
- The smoothed argmax is proved for every vector, including vectors whose
  entries are all equal: ties go to the lowest index, as `numpy.argmax` does.

## Model

| member | source | states |
|---|---|---|
| Scores.Get | face.py:50 | dict lookup: a value exists exactly when some entry carries the key, and then it is that entry's score |
| Scores.ArgMax | face.py:83 | the scan returns the first maximal index: every element is at most the chosen one, and every earlier element is strictly smaller |
| Scores.FirstMaxUnique | face.py:83 | the first maximal index is unique, so any two selections satisfying the tie-break agree |
| Frame.ProjectKeys | face.py:50 | the list comprehension succeeds iff every key is present; then entry i is the score of key i; otherwise the error is the KeyError text of the first absent key, all earlier keys being present |
| Frame.ProcessFrame | face.py:23-70 | success iff a face entry exists with region, emotion mapping and all seven categories; on success the vector holds each category's score in EMOTION_KEYS order, the bbox and mapping are the analysis's, and dominant/confidence are the first maximal entry of the mapping; on failure all seven categories map to 0 and a raised exception's message is the error |
| Frame.RawDominantIsFirstMaximalKey | face.py:53-54 | the raw confidence is at least every score, and the raw dominant emotion is the first key in mapping order that holds the maximum |
| Smoothing.Push | face.py:77 | appending to the bounded deque keeps exactly the last 5 of old history plus the new vector; the length becomes min(old length + 1, 5); the newest entry is the pushed vector |
| Smoothing.PushAllKeepsLast | face.py:17 | FIFO: after any sequence of appends the history equals the last 5 elements of the old history followed by the appended vectors |
| Smoothing.PushAllLength | face.py:17 | after appending n vectors the history length is min(old length + n, 5), so it never exceeds 5 |
| Smoothing.SixPushesDropFirst | face.py:77 | pushing V1..V6 onto an empty history yields [V2, V3, V4, V5, V6] |
| Smoothing.MeanBounded | face.py:80 | any lower/upper bound that holds for component i of every window vector holds for the smoothed component i |
| Smoothing.MeanWithinWindow | face.py:80 | each smoothed component lies between the minimum and the maximum of that component across the window |
| Smoothing.MeanNonNegative | face.py:80 | non-negative scores in the window give non-negative smoothed scores |
| Smoothing.MeanOfOne | face.py:80 | the mean of a one-vector window is that vector |
| Smoothing.ApplyTemporalSmoothing | face.py:73-91 | the new history is the last 5 of old history plus the vector; smoothed entry i is (EMOTION_KEYS[i], sum of component i over the window divided by the current window length); the dominant emotion is EMOTION_KEYS at the first maximal smoothed index and the confidence is that smoothed value |
| Smoothing.DominantMatchesSmoothedMap | face.py:83-90 | the returned dominant emotion and confidence are those of the first maximal entry of the returned smoothed mapping |
| Smoothing.FirstFrameSmoothsToItself | face.py:77-90 | on an empty history the window becomes [v] and the smoothed mapping pairs each category with v's own component |
| Smoothing.TieGoesToLowerIndex | face.py:83-85 | window [[1,0,0,0,0,0,0],[0,1,0,0,0,0,0]] smooths to [0.5,0.5,0,0,0,0,0]; the tie goes to "angry" with confidence 0.5 |
| Recognize.RecognizeFrame | face.py:133-143 | recognised iff the analysis is accepted; a failed frame leaves the history unchanged and carries process_frame's error and its all-zero mapping of the seven categories; a recognised frame keeps the raw vector, the analysis's own mapping (extra keys and order included) and its bbox, appends the vector to the history, and carries the smoothed dominant emotion and confidence in place of the raw ones |
| Recognize.HistoryIsWindowOfAccepted | face.py:135-138 | after any stream of frames the history is the last 5 of the old history followed by the vectors of the successful frames only |
| Recognize.FailedFrameKeepsHistory | face.py:135-137 | a frame whose analysis fails leaves the history unchanged |
| Physiological.InitialMonitorState | physiological_stub.py:7-9 | a fresh monitor has baseline and current rate 70, reports zero statistics with current 70 for an absent list, and draws its first reading around 70 |
| Physiological.Clamp | physiological_stub.py:18 | the result lies in [50, 150], equals the input when the input is in range, and is the nearer bound otherwise |
| Physiological.GetCurrentHeartRate | physiological_stub.py:11-19 | for any variation the returned rate is in [50, 150], equals base + variation when that is in range, is stored as the current rate, and the baseline is unchanged |
| Physiological.CurrentRateUnclampedInNormalRange | physiological_stub.py:17-18 | with a baseline in [70, 110] and a variation in the drawn range -15..20 no clamping occurs |
| Physiological.GetHeartRateTrend | physiological_stub.py:21-35 | exactly max(minutes, 0) readings; reading i has minute i and heart rate clamp(base + variation i), within [50, 150] |
| Physiological.GetDefaultHeartRateTrend | physiological_stub.py:21 | with the argument omitted the trend has 30 readings, reading i at minute i with rate clamp(base + variation i) |
| Physiological.StressIncrease | physiological_stub.py:42-43 | the increase is level*40/100 truncated toward zero: the floor for non-negative levels, the ceiling for negative ones |
| Physiological.SetStressLevel | physiological_stub.py:37-43 | the baseline becomes 70 + the truncated increase and the current rate is untouched; level 0 gives 70, level 100 gives 110, levels in [0, 100] give a baseline in [70, 110] |
| Physiological.StressMonotone | physiological_stub.py:42-43 | a higher stress level never gives a lower baseline |
| Physiological.SeqMin | physiological_stub.py:58 | the minimum is one of the readings and at most every reading |
| Physiological.SeqMax | physiological_stub.py:59 | the maximum is one of the readings and at least every reading |
| Physiological.RoundHalfEven | physiological_stub.py:57 | round(n / d) is within half of d of n/d, and an exact half rounds to the even neighbour |
| Physiological.RoundWithin | physiological_stub.py:57 | rounding a quotient that lies in [lo, hi] stays in [lo, hi] |
| Physiological.GetHeartRateStats | physiological_stub.py:45-61 | an absent or empty list gives avg = min = max = 0; otherwise min and max are readings bounding every reading and min <= avg <= max; current is always the monitor's current rate |
| Physiological.AverageIsNearestToMean | physiological_stub.py:57 | the average is the integer nearest to the arithmetic mean of the rates, and an exact half goes to the even neighbour |
| Physiological.TrendStatsInRange | physiological_stub.py:26-61 | statistics of readings in [50, 150], which a trend produces, satisfy 50 <= min <= avg <= max <= 150 |

## Left out

- The `/recognize` HTTP route's plumbing is not modelled (face.py:95-151): JSON parsing, the "No image provided" 400 reply, data-URL stripping, base64 and PIL decoding, and the outer 500 handler. It is I/O. `process_frame` catches every exception itself, so that handler cannot be reached from the modelled logic.
- The face-analysis library call (face.py:30) is an opaque third-party model. The model takes its outcome as the input `Detection`: an exception message, a single result, or a list of results.
- A region that is present but lacks one of x/y/w/h is not distinguished from an absent region. Both are failures in the source; only the KeyError text differs.
- Frame.ProcessFrame: the contract pins the error text only for an exception raised by the analysis. The IndexError and KeyError texts for an empty list or a missing field are defined in the body but not stated in the contract.
- The ISO timestamps (face.py:141, physiological_stub.py:31) are wall-clock I/O.
- `random.randint` (physiological_stub.py:17, physiological_stub.py:28) is not modelled. Each variation is a parameter, and the properties hold for every integer variation, not only the drawn ranges.
- Floating point is replaced by exact arithmetic. Scores are `real`, so numpy's float64 rounding, NaN and infinities are not modelled; numpy's argmax picks the first NaN.
- Physiological.StressIncrease: `(level / 100) * 40` is computed exactly before truncation. A float result just below a whole number would truncate one lower in the source.
- Physiological.RoundHalfEven: it rounds the exact rational sum/len, not the float quotient. The two differ only where float division itself rounds across a half.
- The stress level is an integer in the model. `set_stress_level` would also accept a float level; the trend length must already be an integer in the source, since `range(minutes)` rejects a float.
- Concurrent access to the process-global history (face.py:16-17) is not modelled. One sequential history is threaded through the functions.
- app.py is not modelled. It is page rendering and thin CRUD routes over in-memory lists.
