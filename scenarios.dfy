/** Client runs of the tracking component, written against the contracts of
    FaceTracker alone: what a user of the page sees for the typical sequences of
    commands and detection cycles. */
module Scenarios {
  import opened SampleExtractor
  import opened HistoryBuffer
  import opened Tracker

  /** A page whose webcam, canvas, video and 2D context are all ready. */
  const READY_HOST: Host := Host(true, true, true, HAVE_ENOUGH_DATA, true)

  /** Before the detector has loaded, the start button does nothing: no flag, no cycle. */
  method StartBeforeModelLoads() returns (scheduled: bool, tracking: bool)
    ensures !scheduled && !tracking
  {
    var t := new FaceTracker();
    scheduled := t.StartTracking();
    tracking := t.isTracking;
  }

  /** Start, stop, start with the detector loaded: both starts are enabled transitions
      and the component ends with tracking on. */
  method StartStopStart() returns (first: bool, second: bool, tracking: bool)
    ensures first && second && tracking
  {
    var t := new FaceTracker();
    t.ModelReady();
    first := t.StartTracking();
    t.StopTracking();
    second := t.StartTracking();
    tracking := t.isTracking;
  }

  /** A second start while tracking is a no-op: it requests no further cycle. */
  method StartTwice() returns (first: bool, second: bool)
    ensures first && !second
  {
    var t := new FaceTracker();
    t.ModelReady();
    first := t.StartTracking();
    second := t.StartTracking();
  }

  /** A face detected with the nose at (100, 120), the left eye at (80, 110) and the
      right eye at (120, 110) becomes exactly that sample, the first in the window. */
  method FirstDetection(now: int) returns (end: CycleEnd, buffer: seq<FaceData>)
    ensures end == Rescheduled
    ensures buffer == [FaceData(now, 100.0, 120.0, 80.0, 110.0, 120.0, 110.0)]
  {
    var keypoints: seq<Keypoint> := seq(RIGHT_EYE_INDEX + 1, i =>
      if i == NOSE_INDEX then [100.0, 120.0]
      else if i == LEFT_EYE_INDEX then [80.0, 110.0]
      else if i == RIGHT_EYE_INDEX then [120.0, 110.0]
      else [0.0, 0.0]);
    var t := new FaceTracker();
    t.ModelReady();
    var _ := t.StartTracking();
    var chains;
    end, chains := t.Detect(READY_HOST, [Face(keypoints)], now, []);
    buffer := t.faceData;
  }

  /** Feeding one detection per sample to a started component leaves, in the chart's
      window, exactly the last CAPACITY samples in order, every one of them sent to the
      store; with sixty samples the window starts at the eleventh. */
  method RunDetections(base: seq<Keypoint>, samples: seq<FaceData>) returns (buffer: seq<FaceData>)
    requires RIGHT_EYE_INDEX < |base|
    ensures buffer == LastN(samples, CAPACITY)
    ensures |samples| == 60 ==> |buffer| == CAPACITY && buffer[0] == samples[10]
  {
    var t := new FaceTracker();
    t.ModelReady();
    var _ := t.StartTracking();
    var k := 0;
    while k < |samples|
      invariant 0 <= k <= |samples|
      invariant t.Valid() && t.isTracking
      invariant t.inserted == samples[..k]
      modifies t
    {
      var d := samples[k];
      var faces := [Face(Plant(base, d))];
      ExtractPlanted(base, d, []);
      assert faces + [] == faces;
      var _, _ := t.Detect(READY_HOST, faces, d.timestamp, []);
      assert samples[..k + 1] == samples[..k] + [d];
      k := k + 1;
    }
    assert samples[..k] == samples;
    buffer := t.faceData;
  }

  /** A stop pressed while a cycle waits on the detector: the cycle still records its
      sample, then ends the chain; a cycle that runs afterwards does nothing. */
  method StopDuringDetection(base: seq<Keypoint>, d: FaceData)
    returns (end: CycleEnd, later: CycleEnd, buffer: seq<FaceData>)
    requires RIGHT_EYE_INDEX < |base|
    ensures end == Halted && later == Halted
    ensures buffer == [d]
  {
    var t := new FaceTracker();
    t.ModelReady();
    var _ := t.StartTracking();
    ExtractPlanted(base, d, []);
    var chains;
    end, chains := t.Detect(READY_HOST, [Face(Plant(base, d))], d.timestamp, [Stop]);
    later, chains := t.Detect(READY_HOST, [Face(Plant(base, d))], d.timestamp, []);
    buffer := t.faceData;
  }

  /** A stop and then a start pressed while a cycle waits on the detector: the start is
      enabled again, sets the flag and requests a frame of its own, and the suspended
      cycle, finding the flag set at its final check, requests one too. Two rescheduling
      chains now run. */
  method RestartDuringDetection(base: seq<Keypoint>, d: FaceData)
    returns (end: CycleEnd, chains: nat, tracking: bool, buffer: seq<FaceData>)
    requires RIGHT_EYE_INDEX < |base|
    ensures end == Rescheduled && chains == 1 && tracking
    ensures buffer == [d]
  {
    var t := new FaceTracker();
    t.ModelReady();
    var _ := t.StartTracking();
    ExtractPlanted(base, d, []);
    end, chains := t.Detect(READY_HOST, [Face(Plant(base, d))], d.timestamp, [Stop, Start]);
    tracking := t.isTracking;
    buffer := t.faceData;
  }

  /** A face list too short for the right-eye landmark makes the cycle throw: nothing is
      recorded and no further frame is requested, although the flag stays set. */
  method TopologyMismatch(now: int) returns (end: CycleEnd, tracking: bool, buffer: seq<FaceData>)
    ensures end == Threw(RIGHT_EYE_INDEX) && tracking && buffer == []
  {
    var short: seq<Keypoint> := seq(RIGHT_EYE_INDEX, i => [0.0, 0.0]);
    var t := new FaceTracker();
    t.ModelReady();
    var _ := t.StartTracking();
    var chains;
    end, chains := t.Detect(READY_HOST, [Face(short)], now, []);
    tracking := t.isTracking;
    buffer := t.faceData;
  }
}
