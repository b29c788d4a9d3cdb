/** `process_frame` (face.py): one face-analysis output turned into either a
    per-frame record (fixed-order emotion vector, raw dominant emotion,
    bounding box) or a failure record. The face-analysis library itself is
    not modelled: its output, or the exception it raised, is the input. */
module Frame {
  import opened Wrappers
  import opened Scores

  datatype BBox = BBox(x: int, y: int, w: int, h: int)

  /** One face entry of the analysis output: its "region" and "emotion"
      fields, either of which may be missing (a KeyError when read). */
  datatype Face = Face(region: Option<BBox>, emotion: Option<ScoreMap>)

  /** What the analysis call produced: an exception, a single result
      dictionary, or a list of them (of which the first is used). */
  datatype Detection = Raised(message: string) | Single(face: Face) | Many(faces: seq<Face>)

  datatype FrameResult =
    | FrameOk(emotionVector: Vector, emotions: ScoreMap, dominantEmotion: string, confidence: real, bbox: BBox)
    | FrameFailed(error: string, emotions: ScoreMap)

  /** `str(e)` of a KeyError for key `k`. */
  function KeyErrorMessage(k: string): string
  {
    "'" + k + "'"
  }

  /** `str(e)` of the IndexError raised by `pred[0]` on an empty list. */
  const IndexErrorMessage: string := "list index out of range"

  /** The failure record's score mapping `{k: 0 for k in EMOTION_KEYS}`. */
  const ZeroScores: ScoreMap := Keyed([0.0, 0.0, 0.0, 0.0, 0.0, 0.0, 0.0])

  /** The face entry `process_frame` reads: the dictionary itself, or the
      first element of a list; None where that raises. */
  function FaceOf(d: Detection): Option<Face>
  {
    match d
    case Raised(_) => None
    case Single(f) => Some(f)
    case Many(fs) => if |fs| == 0 then None else Some(fs[0])
  }

  /** The analysis output from which `process_frame` builds a success record. */
  predicate Accepted(d: Detection)
  {
    && FaceOf(d).Some?
    && FaceOf(d).value.region.Some?
    && FaceOf(d).value.emotion.Some?
    && forall i :: 0 <= i < |EmotionKeys| ==> Get(FaceOf(d).value.emotion.value, EmotionKeys[i]).Some?
  }

  /** `[emotions[k] for k in keys]`, evaluated left to right: the first
      absent key raises KeyError. */
  function ProjectKeys(m: ScoreMap, keys: seq<string>): (r: Result<seq<real>>)
    ensures r.Ok? <==> forall i :: 0 <= i < |keys| ==> Get(m, keys[i]).Some?
    ensures r.Ok? ==> |r.value| == |keys|
    ensures r.Ok? ==> forall i :: 0 <= i < |keys| ==> Get(m, keys[i]) == Some(r.value[i])
    ensures r.Err? ==> exists i :: 0 <= i < |keys| && Get(m, keys[i]).None?
                                  && r.error == KeyErrorMessage(keys[i])
                                  && forall j :: 0 <= j < i ==> Get(m, keys[j]).Some?
  {
    if |keys| == 0 then Ok([])
    else match Get(m, keys[0])
      case None => Err(KeyErrorMessage(keys[0]))
      case Some(x) =>
        match ProjectKeys(m, keys[1..])
        case Err(e) =>
          ghost var i :| 0 <= i < |keys[1..]| && Get(m, keys[1..][i]).None?
                         && e == KeyErrorMessage(keys[1..][i])
                         && forall j :: 0 <= j < i ==> Get(m, keys[1..][j]).Some?;
          assert Get(m, keys[i + 1]).None? && e == KeyErrorMessage(keys[i + 1]);
          Err(e)
        case Ok(rest) => Ok([x] + rest)
  }

  /** `process_frame(frame)`, with the analysis of `frame` given as `d`. */
  function ProcessFrame(d: Detection): (r: FrameResult)
    ensures r.FrameOk? <==> Accepted(d)
    ensures r.FrameOk? ==> r.emotions == FaceOf(d).value.emotion.value && r.bbox == FaceOf(d).value.region.value
    ensures r.FrameOk? ==> forall i :: 0 <= i < 7 ==> Get(r.emotions, EmotionKeys[i]) == Some(r.emotionVector[i])
    ensures r.FrameOk? ==> exists j :: IsFirstMax(Values(r.emotions), j)
                                       && r.dominantEmotion == r.emotions[j].0
                                       && r.confidence == r.emotions[j].1
    ensures r.FrameFailed? ==> |r.emotions| == 7 && forall i :: 0 <= i < 7 ==> r.emotions[i] == (EmotionKeys[i], 0.0)
    ensures d.Raised? ==> r.error == d.message
  {
    match FaceOf(d)
    case None => FrameFailed(if d.Raised? then d.message else IndexErrorMessage, ZeroScores)
    case Some(face) =>
      if face.region.None? then FrameFailed(KeyErrorMessage("region"), ZeroScores)
      else if face.emotion.None? then FrameFailed(KeyErrorMessage("emotion"), ZeroScores)
      else
        var m := face.emotion.value;
        match ProjectKeys(m, EmotionKeys)
        case Err(e) => FrameFailed(e, ZeroScores)
        case Ok(v) =>
          assert Get(m, EmotionKeys[0]).Some?;
          var j := ArgMax(Values(m));
          FrameOk(v, m, m[j].0, m[j].1, face.region.value)
  }

  /** The raw confidence is the largest score of the frame, and the raw
      dominant emotion is the first key, in the mapping's order, that holds it. */
  lemma RawDominantIsFirstMaximalKey(d: Detection, k: nat)
    requires Accepted(d)
    requires k < |ProcessFrame(d).emotions|
    ensures ProcessFrame(d).confidence >= ProcessFrame(d).emotions[k].1
    ensures ProcessFrame(d).emotions[k].1 == ProcessFrame(d).confidence
            && (forall j :: 0 <= j < k ==> ProcessFrame(d).emotions[j].1 < ProcessFrame(d).confidence)
            ==> ProcessFrame(d).dominantEmotion == ProcessFrame(d).emotions[k].0
  {
  }
}
