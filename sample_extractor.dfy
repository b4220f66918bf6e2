/** Sample extraction: how one detection result becomes one FaceData record
    (src/components/FaceTracker.tsx, FaceData at lines 28-36, extraction at 74-91). */
module SampleExtractor {

  /** One landmark as the component reads it: an ordered tuple of coordinates,
      of which the first two are x and y. The detector always reports at least two. */
  type Keypoint = p: seq<real> | |p| >= 2 witness [0.0, 0.0]

  /** One detected face: its landmark list, in the detector's topology. */
  datatype Face = Face(keypoints: seq<Keypoint>)

  /** One sample: the capture time in milliseconds and three landmark positions. */
  datatype FaceData = FaceData(
    timestamp: int,
    noseX: real, noseY: real,
    leftEyeX: real, leftEyeY: real,
    rightEyeX: real, rightEyeY: real)

  /** Landmark indices of the face-mesh topology that the sample reads. */
  const NOSE_INDEX: nat := 1
  const LEFT_EYE_INDEX: nat := 159
  const RIGHT_EYE_INDEX: nat := 386

  /** The three indices in the order the record literal dereferences them. */
  const LANDMARK_INDICES: seq<nat> := [NOSE_INDEX, LEFT_EYE_INDEX, RIGHT_EYE_INDEX]

  /** What extraction yields for one frame: no face, a sample, or the landmark whose
      absence makes the record literal throw. */
  datatype Extraction =
    | NoFace
    | Sampled(sample: FaceData)
    | MissingLandmark(index: nat)

  /** A face carries every landmark the sample reads. */
  predicate HasSampleLandmarks(f: Face) {
    NOSE_INDEX < |f.keypoints| && LEFT_EYE_INDEX < |f.keypoints| && RIGHT_EYE_INDEX < |f.keypoints|
  }

  /** Extraction of one frame's sample, taken at time `now`. Only the first face is used;
      components [0] and [1] of landmarks 1, 159 and 386 become the six coordinates; the
      first of those landmarks (in reading order) that is not in the list is reported. */
  function Extract(faces: seq<Face>, now: int): (r: Extraction)
    ensures r.NoFace? <==> faces == []
    ensures r.Sampled? <==> faces != [] && HasSampleLandmarks(faces[0])
    ensures r.Sampled? ==>
      var kp := faces[0].keypoints;
      r.sample.timestamp == now &&
      r.sample.noseX == kp[NOSE_INDEX][0] && r.sample.noseY == kp[NOSE_INDEX][1] &&
      r.sample.leftEyeX == kp[LEFT_EYE_INDEX][0] && r.sample.leftEyeY == kp[LEFT_EYE_INDEX][1] &&
      r.sample.rightEyeX == kp[RIGHT_EYE_INDEX][0] && r.sample.rightEyeY == kp[RIGHT_EYE_INDEX][1]
    ensures r.MissingLandmark? ==>
      faces != [] && r.index in LANDMARK_INDICES && |faces[0].keypoints| <= r.index &&
      forall j :: j in LANDMARK_INDICES && j < r.index ==> j < |faces[0].keypoints|
  {
    if |faces| == 0 then NoFace
    else
      var landmarks := faces[0].keypoints;
      if |landmarks| <= NOSE_INDEX then MissingLandmark(NOSE_INDEX)
      else if |landmarks| <= LEFT_EYE_INDEX then MissingLandmark(LEFT_EYE_INDEX)
      else if |landmarks| <= RIGHT_EYE_INDEX then MissingLandmark(RIGHT_EYE_INDEX)
      else
        var nose := landmarks[NOSE_INDEX];
        var leftEye := landmarks[LEFT_EYE_INDEX];
        var rightEye := landmarks[RIGHT_EYE_INDEX];
        Sampled(FaceData(now, nose[0], nose[1], leftEye[0], leftEye[1], rightEye[0], rightEye[1]))
  }

  /** Only the first face matters: any further faces in the result are ignored. */
  lemma ExtractUsesFirstFaceOnly(face: Face, others: seq<Face>, now: int)
    ensures Extract([face] + others, now) == Extract([face], now)
  {
  }

  /** Two faces whose lists are long enough and agree on the x and y of the three selected
      landmarks give the same sample: no other landmark and no other component is read. */
  lemma ExtractReadsOnlySelectedLandmarks(f: Face, g: Face, now: int)
    requires HasSampleLandmarks(f) && HasSampleLandmarks(g)
    requires forall j :: j in LANDMARK_INDICES ==>
      f.keypoints[j][0] == g.keypoints[j][0] && f.keypoints[j][1] == g.keypoints[j][1]
    ensures Extract([f], now) == Extract([g], now)
  {
  }

  /** A landmark list with the sample's three positions written at the three selected
      indices (and every other landmark taken from `base`). */
  function Plant(base: seq<Keypoint>, d: FaceData): (kp: seq<Keypoint>)
    requires RIGHT_EYE_INDEX < |base|
    ensures |kp| == |base|
    ensures forall j :: 0 <= j < |kp| && j !in LANDMARK_INDICES ==> kp[j] == base[j]
  {
    base[NOSE_INDEX := [d.noseX, d.noseY]]
        [LEFT_EYE_INDEX := [d.leftEyeX, d.leftEyeY]]
        [RIGHT_EYE_INDEX := [d.rightEyeX, d.rightEyeY]]
  }

  /** Extraction inverts planting: a face carrying a sample's positions at the selected
      landmarks, detected at the sample's time, yields exactly that sample. */
  lemma ExtractPlanted(base: seq<Keypoint>, d: FaceData, others: seq<Face>)
    requires RIGHT_EYE_INDEX < |base|
    ensures Extract([Face(Plant(base, d))] + others, d.timestamp) == Sampled(d)
  {
    ExtractUsesFirstFaceOnly(Face(Plant(base, d)), others, d.timestamp);
  }
}
