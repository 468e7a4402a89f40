/**
 * The live detection page (app/dashboard/detect/page.tsx): the sort of the
 * expression results, the bounded detection history kept in local storage,
 * and the model, camera and detection flags its handlers set.
 */
module Detect {
  import opened Wrappers
  import opened Emotions

  /** One entry of the results list: an expression and its probability. */
  datatype Detection = Detection(expression: string, probability: real)

  predicate NonIncreasing(s: seq<Detection>)
  {
    forall i, j :: 0 <= i < j < |s| ==> s[i].probability >= s[j].probability
  }

  /** Places `x` after every entry whose probability is at least its own. */
  function Insert(x: Detection, s: seq<Detection>): (r: seq<Detection>)
    ensures |r| == |s| + 1
    ensures multiset(r) == multiset(s) + multiset{x}
  {
    if s == [] then [x]
    else
      assert s == [s[0]] + s[1..];
      if s[0].probability >= x.probability then [s[0]] + Insert(x, s[1..]) else [x] + s
  }

  predicate AllAtMost(s: seq<Detection>, p: real)
  {
    forall k :: 0 <= k < |s| ==> s[k].probability <= p
  }

  lemma {:induction false} InsertAtMost(x: Detection, s: seq<Detection>, p: real)
    requires AllAtMost(s, p) && x.probability <= p
    ensures AllAtMost(Insert(x, s), p)
  {
    if s != [] && s[0].probability >= x.probability {
      InsertAtMost(x, s[1..], p);
      assert Insert(x, s) == [s[0]] + Insert(x, s[1..]);
    }
  }

  /** Inserting into a non-increasing list keeps it non-increasing. */
  lemma {:induction false} InsertSorted(x: Detection, s: seq<Detection>)
    requires NonIncreasing(s)
    ensures NonIncreasing(Insert(x, s))
  {
    if s != [] && s[0].probability >= x.probability {
      var rest := Insert(x, s[1..]);
      InsertSorted(x, s[1..]);
      InsertAtMost(x, s[1..], s[0].probability);
      var r := Insert(x, s);
      assert r == [s[0]] + rest;
      forall i, j | 0 <= i < j < |r| ensures r[i].probability >= r[j].probability {
        assert r[j] == rest[j - 1];
        if i > 0 {
          assert r[i] == rest[i - 1];
        }
      }
    }
  }

  /**
   * `.sort((a, b) => b.probability - a.probability)`: the entries by
   * non-increasing probability, a stable insertion of each entry in turn.
   */
  function SortDescending(entries: seq<Detection>): (r: seq<Detection>)
    ensures |r| == |entries|
    ensures multiset(r) == multiset(entries)
    ensures NonIncreasing(r)
  {
    if entries == [] then []
    else
      var init := entries[..|entries| - 1];
      assert entries == init + [entries[|entries| - 1]];
      var sorted := SortDescending(init);
      InsertSorted(entries[|entries| - 1], sorted);
      Insert(entries[|entries| - 1], sorted)
  }

  /** The first result, the one stored as the dominant emotion, has the largest probability of all the entries. */
  lemma {:induction false} FirstIsMaximal(entries: seq<Detection>)
    requires entries != []
    ensures forall d :: d in entries ==> d.probability <= SortDescending(entries)[0].probability
    ensures SortDescending(entries)[0] in entries
  {
    var r := SortDescending(entries);
    forall d | d in entries ensures d.probability <= r[0].probability {
      assert d in multiset(entries);
      assert d in multiset(r);
      var k :| 0 <= k < |r| && r[k] == d;
      assert k == 0 || r[0].probability >= r[k].probability;
    }
    assert r[0] in multiset(r);
  }

  /** The cap on the stored history. */
  const HistoryCap := 50

  /** `history.push(record)` followed by one `shift()` when the length exceeds 50. */
  function Appended(h: seq<EmotionRecord>, x: EmotionRecord): (r: seq<EmotionRecord>)
    ensures r != [] && r[|r| - 1] == x
    ensures |h| <= HistoryCap ==> |r| <= HistoryCap
    ensures |h| < HistoryCap ==> |r| == |h| + 1 && r[..|h|] == h
    ensures |h| >= HistoryCap ==> |r| == |h| && r[..|h| - 1] == h[1..]
  {
    var pushed := h + [x];
    if |pushed| > HistoryCap then pushed[1..] else pushed
  }

  /** Appending records one at a time, as successive frames do. */
  function AppendAll(h: seq<EmotionRecord>, xs: seq<EmotionRecord>): seq<EmotionRecord>
    decreases |xs|
  {
    if xs == [] then h else AppendAll(Appended(h, xs[0]), xs[1..])
  }

  /** The last `min(|s|, HistoryCap)` elements of `s`. */
  function Newest(s: seq<EmotionRecord>): (r: seq<EmotionRecord>)
    ensures |r| == if |s| < HistoryCap then |s| else HistoryCap
  {
    if |s| <= HistoryCap then s else s[|s| - HistoryCap..]
  }

  /**
   * Starting from a history of at most 50 records, any run of appends
   * keeps exactly the 50 newest of all the records, in order.
   */
  lemma {:induction false} AppendAllKeepsNewest(h: seq<EmotionRecord>, xs: seq<EmotionRecord>)
    requires |h| <= HistoryCap
    ensures AppendAll(h, xs) == Newest(h + xs)
    decreases |xs|
  {
    if xs != [] {
      var h1 := Appended(h, xs[0]);
      AppendAllKeepsNewest(h1, xs[1..]);
      assert h + xs == (h + [xs[0]]) + xs[1..];
      if |h| < HistoryCap {
        assert h1 == h + [xs[0]];
      } else {
        assert h1 == (h + [xs[0]])[1..];
        assert Newest(h1 + xs[1..]) == Newest(h + xs);
      }
    }
  }

  const LoadingError := "Models are still loading. Please wait."
  const CameraError := "Unable to access camera. Please ensure you've granted camera permissions."
  const DetectionError := "An error occurred during emotion detection."
  const ApiMissingError := "Face API not loaded properly"
  const ModelsError := "Failed to load facial recognition models. Please refresh and try again."
  const ScriptError := "Failed to load face-api.js library"

  /** How many of the four networks loaded before a failure. */
  type LoadedNets = k: nat | k < 4

  /** What loading the networks came to. */
  datatype LoadOutcome = NoFaceApi | NetFailed(loaded: LoadedNets) | AllLoaded

  /** The progress bar after `k` of the four networks have loaded. */
  function ProgressAfter(k: nat): (p: nat)
    requires k <= 4
    ensures p <= 100 && (p == 100 <==> k == 4)
    ensures forall j :: 0 <= j < k ==> ProgressAfter(j) < p
  {
    [10, 40, 60, 80, 100][k]
  }

  /** What one call of the detection step came to. */
  datatype FrameOutcome =
    | DetectFailed                               // the detector threw
    | NoFace                                     // no face in the frame
    | Face(expressions: seq<Detection>)          // the first face's expression entries

  class DetectPage {
    var faceApiLoaded: bool
    var isModelLoaded: bool
    var loadingProgress: nat
    var isCameraOn: bool
    var isDetecting: bool
    var error: Option<string>
    var detectionResults: seq<Detection>
    /** Whether the video element holds a camera stream. */
    var streamAttached: bool
    /** Local storage entry "emotionHistory". */
    var storedHistory: seq<EmotionRecord>
    /** Local storage entry "currentEmotion". */
    var storedCurrentEmotion: Option<string>

    constructor(history: seq<EmotionRecord>, current: Option<string>)
      ensures !faceApiLoaded && !isModelLoaded && loadingProgress == 0
      ensures !isCameraOn && !isDetecting && !streamAttached
      ensures error == None && detectionResults == []
      ensures storedHistory == history && storedCurrentEmotion == current
    {
      faceApiLoaded, isModelLoaded, loadingProgress := false, false, 0;
      isCameraOn, isDetecting, streamAttached := false, false, false;
      error, detectionResults := None, [];
      storedHistory, storedCurrentEmotion := history, current;
    }

    /** The face-api script failed to load. */
    method ScriptFailed()
      modifies this
      ensures error == Some(ScriptError)
      ensures faceApiLoaded == old(faceApiLoaded) && isModelLoaded == old(isModelLoaded)
      ensures loadingProgress == old(loadingProgress) && isCameraOn == old(isCameraOn)
      ensures isDetecting == old(isDetecting) && detectionResults == old(detectionResults)
      ensures streamAttached == old(streamAttached) && storedHistory == old(storedHistory)
      ensures storedCurrentEmotion == old(storedCurrentEmotion)
    {
      error := Some(ScriptError);
    }

    /** The script loaded; the effect on `faceApiLoaded` then runs `loadModels`, which came to `outcome`. */
    method ScriptLoaded(outcome: LoadOutcome)
      modifies this
      ensures faceApiLoaded
      ensures outcome.NoFaceApi? ==> error == Some(ApiMissingError) && loadingProgress == old(loadingProgress)
      ensures outcome.NetFailed? ==> error == Some(ModelsError) && loadingProgress == ProgressAfter(outcome.loaded)
      ensures outcome.AllLoaded? ==> error == old(error) && loadingProgress == 100
      ensures isModelLoaded == (old(isModelLoaded) || outcome.AllLoaded?)
      ensures isCameraOn == old(isCameraOn) && isDetecting == old(isDetecting)
      ensures detectionResults == old(detectionResults) && streamAttached == old(streamAttached)
      ensures storedHistory == old(storedHistory) && storedCurrentEmotion == old(storedCurrentEmotion)
    {
      faceApiLoaded := true;
      LoadModels(outcome);
    }

    /** `loadModels`: four networks in turn, the progress bar advancing after each. */
    method LoadModels(outcome: LoadOutcome)
      modifies this
      ensures outcome.NoFaceApi? ==> error == Some(ApiMissingError) && loadingProgress == old(loadingProgress)
      ensures outcome.NetFailed? ==> error == Some(ModelsError) && loadingProgress == ProgressAfter(outcome.loaded)
      ensures outcome.AllLoaded? ==> error == old(error) && loadingProgress == 100
      ensures isModelLoaded == (old(isModelLoaded) || outcome.AllLoaded?)
      ensures faceApiLoaded == old(faceApiLoaded)
      ensures isCameraOn == old(isCameraOn) && isDetecting == old(isDetecting)
      ensures detectionResults == old(detectionResults) && streamAttached == old(streamAttached)
      ensures storedHistory == old(storedHistory) && storedCurrentEmotion == old(storedCurrentEmotion)
    {
      match outcome
      case NoFaceApi =>
        error := Some(ApiMissingError);
      case NetFailed(k) =>
        loadingProgress := ProgressAfter(k);
        error := Some(ModelsError);
      case AllLoaded =>
        loadingProgress := ProgressAfter(4);
        isModelLoaded := true;
    }

    /**
     * The synchronous part of `startVideo`: clear the error, refuse while
     * the models are loading, otherwise ask for the camera (the answer
     * arrives through `VideoSettled`).
     */
    method StartVideo() returns (requested: bool)
      modifies this
      ensures requested == isModelLoaded
      ensures !isModelLoaded ==> error == Some(LoadingError)
      ensures isModelLoaded ==> error == None
      ensures faceApiLoaded == old(faceApiLoaded) && isModelLoaded == old(isModelLoaded)
      ensures loadingProgress == old(loadingProgress) && isCameraOn == old(isCameraOn)
      ensures isDetecting == old(isDetecting) && detectionResults == old(detectionResults)
      ensures streamAttached == old(streamAttached) && storedHistory == old(storedHistory)
      ensures storedCurrentEmotion == old(storedCurrentEmotion)
    {
      error := None;
      if !isModelLoaded {
        error := Some(LoadingError);
        return false;
      }
      requested := true;
    }

    /** The camera request settled: a granted stream is attached; a refusal leaves the camera off with an error. */
    method VideoSettled(granted: bool)
      modifies this
      ensures granted ==> streamAttached && isCameraOn && error == old(error)
      ensures !granted ==> streamAttached == old(streamAttached) && !isCameraOn && error == Some(CameraError)
      ensures faceApiLoaded == old(faceApiLoaded) && isModelLoaded == old(isModelLoaded)
      ensures loadingProgress == old(loadingProgress) && isDetecting == old(isDetecting)
      ensures detectionResults == old(detectionResults)
      ensures storedHistory == old(storedHistory) && storedCurrentEmotion == old(storedCurrentEmotion)
    {
      if granted {
        streamAttached := true;
        isCameraOn := true;
      } else {
        error := Some(CameraError);
        isCameraOn := false;
      }
    }

    /** `stopVideo`: the stream is released and both the camera and detection are off. */
    method StopVideo()
      modifies this
      ensures !streamAttached && !isCameraOn && !isDetecting
      ensures error == old(error) && faceApiLoaded == old(faceApiLoaded)
      ensures isModelLoaded == old(isModelLoaded) && loadingProgress == old(loadingProgress)
      ensures detectionResults == old(detectionResults)
      ensures storedHistory == old(storedHistory) && storedCurrentEmotion == old(storedCurrentEmotion)
    {
      streamAttached := false;
      isCameraOn := false;
      isDetecting := false;
    }

    /** The "Pause Detection" button. */
    method PauseDetection()
      modifies this
      ensures !isDetecting
      ensures error == old(error) && faceApiLoaded == old(faceApiLoaded)
      ensures isModelLoaded == old(isModelLoaded) && loadingProgress == old(loadingProgress)
      ensures isCameraOn == old(isCameraOn) && streamAttached == old(streamAttached)
      ensures detectionResults == old(detectionResults)
      ensures storedHistory == old(storedHistory) && storedCurrentEmotion == old(storedCurrentEmotion)
    {
      isDetecting := false;
    }

    /**
     * The successful end of a detection step: the sorted results are
     * shown, the first of them is pushed onto the stored history (the
     * oldest record shifted out past 50), and the effect on the results
     * stores it as the current emotion.
     */
    method RecordResults(now: string, results: seq<Detection>)
      requires results != []
      modifies this
      ensures detectionResults == results
      ensures storedHistory == Appended(old(storedHistory), EmotionRecord(now, results[0].expression, results[0].probability))
      ensures storedCurrentEmotion == Some(results[0].expression)
      ensures error == old(error) && isDetecting == old(isDetecting)
      ensures faceApiLoaded == old(faceApiLoaded) && isModelLoaded == old(isModelLoaded)
      ensures loadingProgress == old(loadingProgress) && isCameraOn == old(isCameraOn)
      ensures streamAttached == old(streamAttached)
    {
      detectionResults := results;
      var record := EmotionRecord(now, results[0].expression, results[0].probability);
      var history := storedHistory + [record];
      if |history| > HistoryCap {
        history := history[1..];
      }
      storedHistory := history;
      storedCurrentEmotion := Some(results[0].expression);
    }

    /**
     * One call of `detectEmotions` made from a render in which
     * `isDetecting` was `seen`: the function reads that captured value, not
     * the field, both on entry and when it schedules the next frame, which
     * it does exactly when it returns `rescheduled`. The entries of the
     * first face are sorted, stored as the results, and the first of them
     * is appended to the stored history and, by the effect on the results,
     * stored as the current emotion.
     */
    method DetectFrame(seen: bool, now: string, outcome: FrameOutcome) returns (rescheduled: bool)
      modifies this
      ensures rescheduled <==> seen && (outcome.NoFace? || (outcome.Face? && outcome.expressions != []))
      ensures !seen || outcome.NoFace? ==>
        error == old(error) && isDetecting == old(isDetecting) && detectionResults == old(detectionResults)
        && storedHistory == old(storedHistory) && storedCurrentEmotion == old(storedCurrentEmotion)
      ensures seen && outcome.DetectFailed? ==>
        error == Some(DetectionError) && !isDetecting && detectionResults == old(detectionResults)
        && storedHistory == old(storedHistory) && storedCurrentEmotion == old(storedCurrentEmotion)
      ensures seen && outcome.Face? && outcome.expressions == [] ==>
        error == Some(DetectionError) && !isDetecting && detectionResults == []
        && storedHistory == old(storedHistory) && storedCurrentEmotion == old(storedCurrentEmotion)
      ensures seen && outcome.Face? && outcome.expressions != [] ==>
        error == old(error) && isDetecting == old(isDetecting)
        && detectionResults == SortDescending(outcome.expressions)
        && storedHistory == Appended(old(storedHistory),
             EmotionRecord(now, detectionResults[0].expression, detectionResults[0].probability))
        && storedCurrentEmotion == Some(detectionResults[0].expression)
      ensures faceApiLoaded == old(faceApiLoaded) && isModelLoaded == old(isModelLoaded)
      ensures loadingProgress == old(loadingProgress) && isCameraOn == old(isCameraOn)
      ensures streamAttached == old(streamAttached)
    {
      if !seen {
        return false;
      }
      match outcome
      case DetectFailed =>
        error := Some(DetectionError);
        isDetecting := false;
        rescheduled := false;
      case NoFace =>
        rescheduled := seen;
      case Face(expressions) =>
        var results := SortDescending(expressions);
        if results == [] {
          // the empty results are shown, then reading results[0] throws and the catch clause runs
          detectionResults := results;
          error := Some(DetectionError);
          isDetecting := false;
          return false;
        }
        RecordResults(now, results);
        rescheduled := seen;
    }

    /**
     * The video's `onPlay` handler, from the latest render: it runs a
     * detection step when that render's `isDetecting` is on, so after
     * `startDetection` has asked for the camera, the stream starting to
     * play is what processes the first frame.
     */
    method VideoPlayed(now: string, outcome: FrameOutcome) returns (rescheduled: bool)
      modifies this
      ensures rescheduled <==> old(isDetecting) && (outcome.NoFace? || (outcome.Face? && outcome.expressions != []))
      ensures !old(isDetecting) ==>
        error == old(error) && !isDetecting && detectionResults == old(detectionResults)
        && storedHistory == old(storedHistory) && storedCurrentEmotion == old(storedCurrentEmotion)
      ensures old(isDetecting) && (outcome.DetectFailed? || (outcome.Face? && outcome.expressions == [])) ==>
        error == Some(DetectionError) && !isDetecting
        && storedHistory == old(storedHistory) && storedCurrentEmotion == old(storedCurrentEmotion)
      ensures old(isDetecting) && outcome.Face? && outcome.expressions != [] ==>
        error == old(error) && isDetecting
        && detectionResults == SortDescending(outcome.expressions)
        && storedHistory == Appended(old(storedHistory),
             EmotionRecord(now, detectionResults[0].expression, detectionResults[0].probability))
        && storedCurrentEmotion == Some(detectionResults[0].expression)
      ensures faceApiLoaded == old(faceApiLoaded) && isModelLoaded == old(isModelLoaded)
      ensures loadingProgress == old(loadingProgress) && isCameraOn == old(isCameraOn)
      ensures streamAttached == old(streamAttached)
    {
      rescheduled := DetectFrame(isDetecting, now, outcome);
    }

    /**
     * `startDetection` as written: refused while the models load;
     * otherwise it asks for the camera when no stream is attached, turns
     * detection on, and calls `detectEmotions` from the same render, whose
     * captured `isDetecting` is the value from before the click. From the
     * paused state, the only one in which the Start button is shown, that
     * call returns at once: no frame is processed and none is scheduled.
     */
    method StartDetection(now: string, outcome: FrameOutcome) returns (requestedCamera: bool, rescheduled: bool)
      modifies this
      ensures !old(isModelLoaded) ==>
        error == Some(LoadingError) && isDetecting == old(isDetecting) && !requestedCamera && !rescheduled
        && detectionResults == old(detectionResults) && isCameraOn == old(isCameraOn)
        && streamAttached == old(streamAttached) && storedHistory == old(storedHistory)
        && storedCurrentEmotion == old(storedCurrentEmotion)
      ensures old(isModelLoaded) ==> requestedCamera == !old(streamAttached)
      ensures old(isModelLoaded) && !old(isDetecting) ==>
        isDetecting && !rescheduled && detectionResults == old(detectionResults)
        && storedHistory == old(storedHistory) && storedCurrentEmotion == old(storedCurrentEmotion)
        && (requestedCamera ==> error == None) && (!requestedCamera ==> error == old(error))
      ensures faceApiLoaded == old(faceApiLoaded) && isModelLoaded == old(isModelLoaded)
      ensures loadingProgress == old(loadingProgress) && isCameraOn == old(isCameraOn)
      ensures streamAttached == old(streamAttached)
    {
      var seen := isDetecting;
      requestedCamera, rescheduled := false, false;
      if !isModelLoaded {
        error := Some(LoadingError);
        return;
      }
      if !streamAttached {
        requestedCamera := StartVideo();
      }
      isDetecting := true;
      rescheduled := DetectFrame(seen, now, outcome);
    }

    /**
     * `startDetection` as evidently intended: the first detection step
     * sees detection switched on, so a frame showing a face is processed
     * and recorded and the next frame is scheduled.
     */
    method StartDetectionIntended(now: string, outcome: FrameOutcome) returns (requestedCamera: bool, rescheduled: bool)
      modifies this
      ensures !old(isModelLoaded) ==>
        error == Some(LoadingError) && isDetecting == old(isDetecting) && !requestedCamera && !rescheduled
        && detectionResults == old(detectionResults) && isCameraOn == old(isCameraOn)
        && streamAttached == old(streamAttached) && storedHistory == old(storedHistory)
        && storedCurrentEmotion == old(storedCurrentEmotion)
      ensures old(isModelLoaded) ==> requestedCamera == !old(streamAttached)
      ensures old(isModelLoaded) && outcome.Face? && outcome.expressions != [] ==>
        isDetecting && rescheduled
        && detectionResults == SortDescending(outcome.expressions)
        && storedHistory == Appended(old(storedHistory),
             EmotionRecord(now, detectionResults[0].expression, detectionResults[0].probability))
        && storedCurrentEmotion == Some(detectionResults[0].expression)
      ensures faceApiLoaded == old(faceApiLoaded) && isModelLoaded == old(isModelLoaded)
      ensures loadingProgress == old(loadingProgress) && isCameraOn == old(isCameraOn)
      ensures streamAttached == old(streamAttached)
    {
      requestedCamera, rescheduled := false, false;
      if !isModelLoaded {
        error := Some(LoadingError);
        return;
      }
      if !streamAttached {
        requestedCamera := StartVideo();
      }
      isDetecting := true;
      rescheduled := DetectFrame(isDetecting, now, outcome);
    }
  }

  /**
   * Starting detection with the camera off: `startDetection` itself
   * processes no frame, but it asks for the camera, and once the granted
   * stream plays, the `onPlay` handler sees detection on and processes,
   * records and reschedules a frame showing a face.
   */
  method StartWithCameraOff(page: DetectPage, now: string, expressions: seq<Detection>) returns (rescheduled: bool)
    requires page.isModelLoaded && !page.streamAttached && !page.isDetecting && expressions != []
    modifies page
    ensures rescheduled && page.isDetecting && page.isCameraOn && page.error == None
    ensures page.detectionResults == SortDescending(expressions)
    ensures page.storedHistory == Appended(old(page.storedHistory),
      EmotionRecord(now, page.detectionResults[0].expression, page.detectionResults[0].probability))
    ensures page.storedCurrentEmotion == Some(page.detectionResults[0].expression)
  {
    var requested, first := page.StartDetection(now, NoFace);
    assert requested && !first;
    page.VideoSettled(true);
    rescheduled := page.VideoPlayed(now, Face(expressions));
  }
}
