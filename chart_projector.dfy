/** The chart projection (src/components/FaceTracker.tsx:117-133): the history buffer
    becomes index labels "0".."n-1" and two series, nose x and nose y. */
module ChartProjector {
  import opened SampleExtractor
  import opened HistoryBuffer

  predicate IsDigit(c: char) {
    '0' <= c <= '9'
  }

  predicate AllDigits(s: string) {
    forall k :: 0 <= k < |s| ==> IsDigit(s[k])
  }

  function DigitChar(d: nat): (c: char)
    requires d < 10
    ensures IsDigit(c) && c as int - '0' as int == d
  {
    ('0' as int + d) as char
  }

  /** Decimal rendering of a non-negative integer, as `Number.prototype.toString()` gives
      it: at least one digit, and a leading zero only for zero itself. */
  function NatToString(n: nat): (r: string)
    ensures |r| >= 1 && AllDigits(r)
    ensures r[0] == '0' <==> n == 0
    ensures |r| == 1 <==> n < 10
    decreases n
  {
    if n < 10 then [DigitChar(n)] else NatToString(n / 10) + [DigitChar(n % 10)]
  }

  /** Reading a string of decimal digits back as a number. */
  function DigitsValue(s: string): (n: nat)
    requires AllDigits(s)
    decreases |s|
  {
    if s == [] then 0
    else DigitsValue(s[..|s| - 1]) * 10 + (s[|s| - 1] as int - '0' as int)
  }

  /** Reading a label back gives the index it was made from. */
  lemma {:induction false} NatToStringRoundTrip(n: nat)
    ensures DigitsValue(NatToString(n)) == n
    decreases n
  {
    var r := NatToString(n);
    if n < 10 {
      assert r[..0] == [];
    } else {
      NatToStringRoundTrip(n / 10);
      assert r[..|r| - 1] == NatToString(n / 10);
    }
  }

  /** Different indices get different labels. */
  lemma NatToStringInjective(i: nat, j: nat)
    requires i != j
    ensures NatToString(i) != NatToString(j)
  {
    NatToStringRoundTrip(i);
    NatToStringRoundTrip(j);
  }

  /** `faceData.map((_, i) => i.toString())`. */
  function Labels(buffer: seq<FaceData>): (r: seq<string>)
    ensures |r| == |buffer|
    ensures forall i :: 0 <= i < |r| ==> r[i] == NatToString(i)
  {
    seq(|buffer|, i requires 0 <= i => NatToString(i))
  }

  /** The labels are pairwise distinct, and each reads back as its position. */
  lemma LabelsDistinct(buffer: seq<FaceData>, i: nat, j: nat)
    requires i < j < |buffer|
    ensures Labels(buffer)[i] != Labels(buffer)[j]
    ensures DigitsValue(Labels(buffer)[i]) == i
  {
    NatToStringInjective(i, j);
    NatToStringRoundTrip(i);
  }

  /** Labels are positions in the window, not sample identities: they depend only on how
      many samples the buffer holds, so a full buffer keeps its labels while it slides. */
  lemma LabelsFollowLength(a: seq<FaceData>, b: seq<FaceData>)
    requires |a| == |b|
    ensures Labels(a) == Labels(b)
  {
  }

  lemma FullBufferKeepsLabels(buffer: seq<FaceData>, s: FaceData)
    requires |buffer| == CAPACITY
    ensures Labels(AppendBounded(buffer, s)) == Labels(buffer)
  {
    LabelsFollowLength(AppendBounded(buffer, s), buffer);
  }

  /** `faceData.map(d => d.nose_x)`. */
  function NoseXSeries(buffer: seq<FaceData>): (r: seq<real>)
    ensures |r| == |buffer|
    ensures forall i :: 0 <= i < |r| ==> r[i] == buffer[i].noseX
  {
    seq(|buffer|, i requires 0 <= i < |buffer| => buffer[i].noseX)
  }

  /** `faceData.map(d => d.nose_y)`. */
  function NoseYSeries(buffer: seq<FaceData>): (r: seq<real>)
    ensures |r| == |buffer|
    ensures forall i :: 0 <= i < |r| ==> r[i] == buffer[i].noseY
  {
    seq(|buffer|, i requires 0 <= i < |buffer| => buffer[i].noseY)
  }

  /** Each charted series slides with the buffer: projecting after an append is the
      bounded append of the new coordinate to the projected series. */
  lemma SeriesFollowAppend(buffer: seq<FaceData>, s: FaceData)
    ensures NoseXSeries(AppendBounded(buffer, s)) == AppendBounded(NoseXSeries(buffer), s.noseX)
    ensures NoseYSeries(AppendBounded(buffer, s)) == AppendBounded(NoseYSeries(buffer), s.noseY)
  {
    var b := AppendBounded(buffer, s);
    var d := |buffer| + 1 - |b|;
    assert b == buffer[d..] + [s];
    var xs, ys := NoseXSeries(buffer), NoseYSeries(buffer);
    assert AppendBounded(xs, s.noseX) == xs[d..] + [s.noseX];
    assert AppendBounded(ys, s.noseY) == ys[d..] + [s.noseY];
    forall i | 0 <= i < |b|
      ensures NoseXSeries(b)[i] == (xs[d..] + [s.noseX])[i]
      ensures NoseYSeries(b)[i] == (ys[d..] + [s.noseY])[i]
    {
      if i < |b| - 1 {
        assert b[i] == buffer[d + i];
      }
    }
  }

  /** After any run of detections from the empty buffer, the nose-x series on the chart is
      the last CAPACITY nose-x values detected. */
  lemma ChartedSeriesIsLastWindow(samples: seq<FaceData>)
    ensures NoseXSeries(Replay(samples)) == LastN(NoseXSeries(samples), CAPACITY)
    ensures NoseYSeries(Replay(samples)) == LastN(NoseYSeries(samples), CAPACITY)
  {
    ReplayIsLastWindow(samples);
    var w := LastN(samples, CAPACITY);
    var xs := LastN(NoseXSeries(samples), CAPACITY);
    var ys := LastN(NoseYSeries(samples), CAPACITY);
    forall i | 0 <= i < |w|
      ensures NoseXSeries(w)[i] == xs[i] && NoseYSeries(w)[i] == ys[i]
    {
      assert w[i] == samples[|samples| - |w| + i];
    }
  }

  datatype Dataset = Dataset(name: string, data: seq<real>)

  datatype ChartData = ChartData(labels: seq<string>, datasets: seq<Dataset>)

  const NOSE_X_LABEL: string := "Nose X Position"
  const NOSE_Y_LABEL: string := "Nose Y Position"

  /** The whole chart input: one label per buffered sample and the two nose series, each as
      long as the buffer. Computed from the buffer alone. */
  function ChartDataOf(buffer: seq<FaceData>): (r: ChartData)
    ensures |r.labels| == |buffer| && |r.datasets| == 2
    ensures forall i :: 0 <= i < |buffer| ==> r.labels[i] == NatToString(i)
    ensures r.datasets[0].name == NOSE_X_LABEL && r.datasets[1].name == NOSE_Y_LABEL
    ensures |r.datasets[0].data| == |buffer| && |r.datasets[1].data| == |buffer|
    ensures forall i :: 0 <= i < |buffer| ==>
      r.datasets[0].data[i] == buffer[i].noseX && r.datasets[1].data[i] == buffer[i].noseY
  {
    ChartData(Labels(buffer), [Dataset(NOSE_X_LABEL, NoseXSeries(buffer)), Dataset(NOSE_Y_LABEL, NoseYSeries(buffer))])
  }
}
