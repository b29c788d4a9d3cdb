/** The per-frame control rule of the `/recognize` route (face.py): analyse
    the frame, and only when that succeeds append its vector to the history
    and merge the smoothed fields over the raw ones. Request decoding, the
    timestamp and the JSON response are not modelled. */
module Recognize {
  import opened Wrappers
  import opened Scores
  import opened Frame
  import opened Smoothing

  /** The merged record. On success the smoothed dominant emotion and
      confidence have replaced the per-frame ones of the same name. */
  datatype Response =
    | Recognized(emotionVector: Vector, emotions: ScoreMap, dominantEmotion: string,
                 confidence: real, bbox: BBox, smoothedEmotions: ScoreMap)
    | NotRecognized(error: string, emotions: ScoreMap)

  /** One frame: the new history and the response. */
  function RecognizeFrame(h: History, d: Detection): (r: (History, Response))
    ensures r.1.Recognized? <==> Accepted(d)
    ensures r.1.NotRecognized? ==> r.0 == h
    ensures r.1.NotRecognized? ==> r.1.error == ProcessFrame(d).error
    ensures r.1.NotRecognized? ==> r.1.emotions == ProcessFrame(d).emotions
    ensures r.1.NotRecognized? ==> |r.1.emotions| == 7 && forall i :: 0 <= i < 7 ==> r.1.emotions[i] == (EmotionKeys[i], 0.0)
    ensures r.1.Recognized? ==> r.1.emotions == ProcessFrame(d).emotions && r.1.bbox == ProcessFrame(d).bbox
    ensures r.1.Recognized? ==> r.1.emotions == FaceOf(d).value.emotion.value && r.1.bbox == FaceOf(d).value.region.value
    ensures r.1.Recognized? ==> r.0 == LastN(h + [r.1.emotionVector], Capacity)
    ensures r.1.Recognized? ==> forall i :: 0 <= i < 7 ==> Get(r.1.emotions, EmotionKeys[i]) == Some(r.1.emotionVector[i])
    ensures r.1.Recognized? ==> r.1.emotionVector == ProcessFrame(d).emotionVector
    ensures r.1.Recognized? ==> |r.1.smoothedEmotions| == 7
    ensures r.1.Recognized? ==> forall i :: 0 <= i < 7 ==>
              r.1.smoothedEmotions[i] == (EmotionKeys[i], ColumnSum(r.0, i) / |r.0| as real)
    ensures r.1.Recognized? ==> exists i :: 0 <= i < 7 && IsFirstMax(Values(r.1.smoothedEmotions), i)
                                           && r.1.dominantEmotion == EmotionKeys[i]
                                           && r.1.confidence == r.1.smoothedEmotions[i].1
  {
    var f := ProcessFrame(d);
    match f
    case FrameFailed(e, zeros) => (h, NotRecognized(e, zeros))
    case FrameOk(v, emotions, _, _, bbox) =>
      var (h', s) := ApplyTemporalSmoothing(h, v);
      (h', Recognized(v, emotions, s.dominantEmotion, s.confidence, bbox, s.smoothedEmotions))
  }

  /** The history after a stream of frames. */
  function RunFrames(h: History, ds: seq<Detection>): History
    decreases |ds|
  {
    if |ds| == 0 then h else RunFrames(RecognizeFrame(h, ds[0]).0, ds[1..])
  }

  /** The vector a frame contributes to the history: none when it failed. */
  function FrameVector(d: Detection): seq<Vector>
  {
    var f := ProcessFrame(d);
    if f.FrameOk? then [f.emotionVector] else []
  }

  /** The emotion vectors of the frames that were analysed successfully. */
  function AcceptedVectors(ds: seq<Detection>): seq<Vector>
    decreases |ds|
  {
    if |ds| == 0 then [] else FrameVector(ds[0]) + AcceptedVectors(ds[1..])
  }

  lemma FrameStep(h: History, d: Detection)
    ensures RecognizeFrame(h, d).0 == LastN(h + FrameVector(d), Capacity)
  {
    if !ProcessFrame(d).FrameOk? {
      assert h + [] == h;
    }
  }

  /** Failed frames never touch the history: after any stream it holds the
      last Capacity vectors of the successful frames, appended to the old
      history. */
  lemma {:induction false} HistoryIsWindowOfAccepted(h: History, ds: seq<Detection>)
    ensures RunFrames(h, ds) == LastN(h + AcceptedVectors(ds), Capacity)
    decreases |ds|
  {
    if |ds| == 0 {
      assert h + [] == h;
    } else {
      var h1 := RecognizeFrame(h, ds[0]).0;
      var first := FrameVector(ds[0]);
      var rest := AcceptedVectors(ds[1..]);
      HistoryIsWindowOfAccepted(h1, ds[1..]);
      FrameStep(h, ds[0]);
      WindowStep(h, h1, first, rest, RunFrames(h, ds));
    }
  }

  /** A failed analysis leaves the history, and so its length, unchanged. */
  lemma FailedFrameKeepsHistory(h: History, d: Detection)
    requires !Accepted(d)
    ensures RunFrames(h, [d]) == h
  {
  }
}
