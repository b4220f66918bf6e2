/** The tracking component (src/components/FaceTracker.tsx:38-115, 156, 163): the tracking
    flag with its start and stop commands, and one cycle of the self-rescheduling
    detection loop. The detector's answer, the clock reading and the readiness of the
    webcam, canvas and 2D context are parameters of a cycle; rescheduling is a result. */
module Tracker {
  import opened SampleExtractor
  import opened HistoryBuffer

  /** `HTMLMediaElement.HAVE_ENOUGH_DATA`, the ready state a cycle waits for. */
  const HAVE_ENOUGH_DATA: int := 4

  /** What a cycle finds of the page when it runs. */
  datatype Host = Host(
    webcamMounted: bool,     // webcamRef.current is set
    canvasMounted: bool,     // canvasRef.current is set
    videoPresent: bool,      // the webcam exposes a video element
    readyState: int,         // that element's readyState
    contextAvailable: bool)  // canvas.getContext('2d') returned a context

  /** The guards of lines 66 and 71: the detector is invoked only when all hold. In
      particular it never runs before it has loaded, nor on a frame that is not ready. */
  function CanDetect(h: Host, modelLoaded: bool): (ok: bool)
    ensures !modelLoaded ==> !ok
    ensures h.readyState != HAVE_ENOUGH_DATA ==> !ok
    ensures !(h.webcamMounted && h.canvasMounted && h.videoPresent && h.contextAvailable) ==> !ok
  {
    h.webcamMounted && h.canvasMounted && modelLoaded &&
    h.videoPresent && h.readyState == HAVE_ENOUGH_DATA && h.contextAvailable
  }

  /** How a cycle ends: the next frame is requested, the chain stops, or the sample's
      record literal threw on a missing landmark (which rejects the cycle before the
      rescheduling check, so the chain stops too). */
  datatype CycleEnd = Rescheduled | Halted | Threw(missingIndex: nat)

  /** A button press the page handles while a cycle is suspended at an `await`. */
  datatype Command = Start | Stop

  /** The tracking flag after one command: start sets it when its button is enabled
      (line 156), stop clears it (its button is enabled only when the flag is set). */
  function Step(flag: bool, modelLoaded: bool, c: Command): (r: bool)
    ensures c == Stop ==> !r
    ensures c == Start ==> (r <==> flag || modelLoaded)
  {
    match c
    case Start => if modelLoaded && !flag then true else flag
    case Stop => false
  }

  /** Whether the command is a start whose button is enabled (line 156), so that it
      requests a frame: exactly a start that turns a clear flag into a set one. */
  function StartGranted(flag: bool, modelLoaded: bool, c: Command): (g: bool)
    ensures g <==> c == Start && !flag && Step(flag, modelLoaded, c)
  {
    c == Start && modelLoaded && !flag
  }

  /** The flag after a run of commands, applied in order. A final stop leaves it clear;
      before the detector has loaded, no start can set it, so it stays set exactly when it
      was set and no stop came. */
  function FlagAfter(flag: bool, modelLoaded: bool, cmds: seq<Command>): (r: bool)
    ensures cmds != [] && cmds[|cmds| - 1] == Stop ==> !r
    ensures !modelLoaded ==> (r <==> flag && Stops(cmds) == 0)
    decreases |cmds|
  {
    if cmds == [] then flag
    else Step(FlagAfter(flag, modelLoaded, cmds[..|cmds| - 1]), modelLoaded, cmds[|cmds| - 1])
  }

  /** How many of the commands are enabled starts, each requesting a new frame and so
      beginning a rescheduling chain of its own. None is granted before the detector loads,
      and every granted start needs a clear flag, which only the initial state or a stop
      provides: counting a set flag as one running chain, the chains begun never outnumber
      the stops plus the one chain the final flag allows. */
  function StartsGranted(flag: bool, modelLoaded: bool, cmds: seq<Command>): (n: nat)
    ensures !modelLoaded ==> n == 0
    ensures n + (if flag then 1 else 0) <=
      Stops(cmds) + (if FlagAfter(flag, modelLoaded, cmds) then 1 else 0)
    decreases |cmds|
  {
    if cmds == [] then 0
    else
      var front := cmds[..|cmds| - 1];
      StartsGranted(flag, modelLoaded, front)
        + (if StartGranted(FlagAfter(flag, modelLoaded, front), modelLoaded, cmds[|cmds| - 1]) then 1 else 0)
  }

  /** With the detector loaded, the flag after a run of commands is set exactly when the
      run is empty and it was set before, or the last command is a start. */
  lemma FlagAfterLastCommand(flag: bool, cmds: seq<Command>)
    ensures FlagAfter(flag, true, cmds) <==>
      (if cmds == [] then flag else cmds[|cmds| - 1] == Start)
  {
  }

  /** The number of stop commands in a run. */
  function Stops(cmds: seq<Command>): (n: nat)
    decreases |cmds|
  {
    if cmds == [] then 0
    else Stops(cmds[..|cmds| - 1]) + (if cmds[|cmds| - 1] == Stop then 1 else 0)
  }

  class FaceTracker {
    /** The detector handle is set (`model` is non-null). */
    var modelLoaded: bool
    var isTracking: bool
    /** The chart's history window. */
    var faceData: seq<FaceData>
    /** Every row this component has sent to the `face_tracking_data` table, in order. */
    ghost var inserted: seq<FaceData>

    /** The window is always the last CAPACITY rows sent to the store, and tracking is
        only ever on once the detector is loaded. */
    ghost predicate Valid()
      reads this
    {
      faceData == LastN(inserted, CAPACITY) && (isTracking ==> modelLoaded)
    }

    /** A freshly mounted component: no detector yet, idle, empty history (lines 41-43). */
    constructor ()
      ensures Valid()
      ensures !modelLoaded && !isTracking && faceData == [] && inserted == []
    {
      modelLoaded := false;
      isTracking := false;
      faceData := [];
      inserted := [];
    }

    /** The asynchronous load finished and stored the detector (line 49). */
    method ModelReady()
      requires Valid()
      modifies this
      ensures Valid()
      ensures modelLoaded
      ensures isTracking == old(isTracking) && faceData == old(faceData) && inserted == old(inserted)
    {
      modelLoaded := true;
    }

    /** The start button is enabled (line 156): never together with stop, and when
        neither button is enabled the detector has not loaded yet. */
    function StartEnabled(): (b: bool)
      reads this
      ensures b ==> !StopEnabled()
      ensures !b && !StopEnabled() ==> !modelLoaded
    {
      StartGranted(isTracking, modelLoaded, Start)
    }

    /** The stop button is enabled (line 163); in a valid state only once the detector
        has loaded. */
    function StopEnabled(): (b: bool)
      reads this
      ensures Valid() && b ==> modelLoaded
    {
      isTracking
    }

    /** The start button: when enabled, sets the flag and requests the first cycle
        (lines 54-57); when disabled, nothing happens. */
    method StartTracking() returns (scheduled: bool)
      requires Valid()
      modifies this
      ensures Valid()
      ensures scheduled == old(StartEnabled())
      ensures isTracking == (old(isTracking) || scheduled)
      ensures modelLoaded == old(modelLoaded) && faceData == old(faceData) && inserted == old(inserted)
    {
      scheduled := StartEnabled();
      if scheduled {
        isTracking := true;
      }
    }

    /** The stop button: when enabled, clears the flag (lines 59-61); when disabled,
        the flag is already clear. No cycle is cancelled; the one in flight sees the
        cleared flag at its final check. */
    method StopTracking()
      requires Valid()
      modifies this
      ensures Valid()
      ensures !isTracking
      ensures modelLoaded == old(modelLoaded) && faceData == old(faceData) && inserted == old(inserted)
    {
      if StopEnabled() {
        isTracking := false;
      }
    }

    /** One run of `detect` (lines 63-115). `faces` is what the detector returns for the
        current frame, `now` the clock reading taken for the sample, and
        `suspendedCommands` the start and stop presses the page handles, in order, while
        the cycle waits on the detector or on the insert (lines 72, 94); they change only
        the flag, which the cycle reads again at line 112. `chains` counts the frames
        those presses request: each is a further rescheduling chain besides this one.
        Cycles of such a further chain are not interleaved with this one: each call is
        one cycle run to its end. A produced sample is sent to the store once and
        appended to the window. */
    method Detect(host: Host, faces: seq<Face>, now: int, suspendedCommands: seq<Command>)
      returns (end: CycleEnd, chains: nat)
      requires Valid()
      modifies this
      ensures Valid()
      ensures modelLoaded == old(modelLoaded)
      ensures !old(isTracking) ==>
        end == Halted && chains == 0 && !isTracking && faceData == old(faceData) && inserted == old(inserted)
      ensures old(isTracking) && !CanDetect(host, old(modelLoaded)) ==>
        end == Rescheduled && chains == 0 && isTracking && faceData == old(faceData) && inserted == old(inserted)
      ensures old(isTracking) && CanDetect(host, old(modelLoaded)) ==>
        var ex := Extract(faces, now);
        isTracking == FlagAfter(true, modelLoaded, suspendedCommands) &&
        chains == StartsGranted(true, modelLoaded, suspendedCommands) &&
        faceData == (if ex.Sampled? then AppendBounded(old(faceData), ex.sample) else old(faceData)) &&
        inserted == (if ex.Sampled? then old(inserted) + [ex.sample] else old(inserted)) &&
        end == (if ex.MissingLandmark? then Threw(ex.index)
                else if isTracking then Rescheduled else Halted)
    {
      chains := 0;
      if !isTracking {
        return Halted, 0;
      }
      if CanDetect(host, modelLoaded) {
        var k := 0;
        while k < |suspendedCommands|
          invariant 0 <= k <= |suspendedCommands|
          invariant Valid() && modelLoaded == old(modelLoaded)
          invariant faceData == old(faceData) && inserted == old(inserted)
          invariant isTracking == FlagAfter(true, modelLoaded, suspendedCommands[..k])
          invariant chains == StartsGranted(true, modelLoaded, suspendedCommands[..k])
        {
          assert suspendedCommands[..k + 1][..k] == suspendedCommands[..k];
          if suspendedCommands[k] == Start {
            var scheduled := StartTracking();
            if scheduled {
              chains := chains + 1;
            }
          } else {
            StopTracking();
          }
          k := k + 1;
        }
        assert suspendedCommands[..k] == suspendedCommands;
        match Extract(faces, now)
        case NoFace =>
        case MissingLandmark(index) =>
          return Threw(index), chains;
        case Sampled(sample) =>
          AppendBoundedWindow(inserted, sample);
          inserted := inserted + [sample];
          faceData := AppendBounded(faceData, sample);
      }
      if isTracking {
        end := Rescheduled;
      } else {
        end := Halted;
      }
    }
  }
}
