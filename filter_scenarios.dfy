/**
 * The filter's test sequences (the temporal sequence and the neighbour
 * sequence of the test data generator), replayed on the model. Every camera
 * resolves to confidence 0.7, classes {1, 2}, timeout 1000 ms and radius 0.3.
 */
module FilterScenarios {
  import opened Models
  import opened Fingerprints
  import opened InferenceFilter

  const BaseTime: int := 1706679450000

  function TestRules(cameraSerial: string): CameraRule
  {
    CameraRule(0.7, {1, 2}, 1000, false, 0.3)
  }

  const Box: seq<real> := [0.1, 0.2, 0.3, 0.4]

  /** The temporal sequence: two cameras, two classes, two confidence ranges, one timeout. */
  const TemporalSightings: seq<Sighting> := [
    Sighting(Box, BaseTime + 0, "Q2UV-N5GT-HURS", 2, 0.9),
    Sighting(Box, BaseTime + 5, "Q2UV-5LPF-HURS", 2, 0.9),
    Sighting(Box, BaseTime + 10, "Q2UV-N5GT-HURS", 2, 0.9),
    Sighting(Box, BaseTime + 20, "Q2UV-N5GT-HURS", 1, 0.9),
    Sighting(Box, BaseTime + 30, "Q2UV-N5GT-HURS", 2, 0.8),
    Sighting(Box, BaseTime + 40, "Q2UV-N5GT-HURS", 2, 0.6),
    Sighting(Box, BaseTime + 1030, "Q2UV-N5GT-HURS", 2, 0.9)
  ]

  const KeyN2High: Fingerprint := Fingerprint(Box, "Q2UV-N5GT-HURS", 2, High)
  const Key5L2High: Fingerprint := Fingerprint(Box, "Q2UV-5LPF-HURS", 2, High)
  const KeyN1High: Fingerprint := Fingerprint(Box, "Q2UV-N5GT-HURS", 1, High)
  const KeyN2Low: Fingerprint := Fingerprint(Box, "Q2UV-N5GT-HURS", 2, Low)
  const Cache1: TimestampCache := map[KeyN2High := BaseTime]
  const Cache2: TimestampCache := map[KeyN2High := BaseTime, Key5L2High := BaseTime + 5]
  const Cache4: TimestampCache := map[KeyN2High := BaseTime, Key5L2High := BaseTime + 5, KeyN1High := BaseTime + 20]
  const Cache6: TimestampCache := map[KeyN2High := BaseTime, Key5L2High := BaseTime + 5, KeyN1High := BaseTime + 20, KeyN2Low := BaseTime + 40]
  const Cache7: TimestampCache := map[KeyN2High := BaseTime + 1030, Key5L2High := BaseTime + 5, KeyN1High := BaseTime + 20, KeyN2Low := BaseTime + 40]

  /** One admission of the temporal sequence, at position `i`. */
  predicate TemporalStep(before: TimestampCache, i: nat, isNew: bool, after: TimestampCache)
    requires i < |TemporalSightings|
  {
    var s := TemporalSightings[i];
    Admit(before, SightingKey(s, TestRules), s.timeStamp, TestRules(s.cameraSerial)) == Admission(isNew, after)
  }

  lemma TemporalStep0()
    ensures TemporalStep(map[], 0, true, Cache1)
  {
    assert SightingKey(TemporalSightings[0], TestRules) == KeyN2High;
    assert map[][KeyN2High := TemporalSightings[0].timeStamp] == Cache1;
  }

  lemma TemporalStep1()
    ensures TemporalStep(Cache1, 1, true, Cache2)
  {
    assert SightingKey(TemporalSightings[1], TestRules) == Key5L2High;
    assert Cache1[Key5L2High := TemporalSightings[1].timeStamp] == Cache2;
  }

  lemma TemporalStep2()
    ensures TemporalStep(Cache2, 2, false, Cache2)
  {
    assert SightingKey(TemporalSightings[2], TestRules) == KeyN2High;
  }

  lemma TemporalStep3()
    ensures TemporalStep(Cache2, 3, true, Cache4)
  {
    assert SightingKey(TemporalSightings[3], TestRules) == KeyN1High;
    assert Cache2[KeyN1High := TemporalSightings[3].timeStamp] == Cache4;
  }

  lemma TemporalStep4()
    ensures TemporalStep(Cache4, 4, false, Cache4)
  {
    assert SightingKey(TemporalSightings[4], TestRules) == KeyN2High;
  }

  lemma TemporalStep5()
    ensures TemporalStep(Cache4, 5, true, Cache6)
  {
    assert SightingKey(TemporalSightings[5], TestRules) == KeyN2Low;
    assert Cache4[KeyN2Low := TemporalSightings[5].timeStamp] == Cache6;
  }

  lemma TemporalStep6()
    ensures TemporalStep(Cache6, 6, true, Cache7)
  {
    assert SightingKey(TemporalSightings[6], TestRules) == KeyN2High;
    assert Cache6[KeyN2High := TemporalSightings[6].timeStamp] == Cache7;
  }

  lemma AdmitAllUnfold(processed: TimestampCache, i: nat, a: Admission, rest: seq<bool>)
    requires i < |TemporalSightings|
    requires TemporalStep(processed, i, a.isNew, a.processed)
    requires AdmitAll(a.processed, TemporalSightings[i + 1..], TestRules) == rest
    ensures AdmitAll(processed, TemporalSightings[i..], TestRules) == [a.isNew] + rest
  {
    assert TemporalSightings[i..][0] == TemporalSightings[i];
    assert TemporalSightings[i..][1..] == TemporalSightings[i + 1..];
  }

  lemma TemporalTail6()
    ensures AdmitAll(Cache6, TemporalSightings[6..], TestRules) == [true]
  {
    TemporalStep6();
    AdmitAllUnfold(Cache6, 6, Admission(true, Cache7), []);
  }

  lemma TemporalTail5()
    ensures AdmitAll(Cache4, TemporalSightings[5..], TestRules) == [true, true]
  {
    TemporalStep5();
    TemporalTail6();
    AdmitAllUnfold(Cache4, 5, Admission(true, Cache6), [true]);
  }

  lemma TemporalTail4()
    ensures AdmitAll(Cache4, TemporalSightings[4..], TestRules) == [false, true, true]
  {
    TemporalStep4();
    TemporalTail5();
    AdmitAllUnfold(Cache4, 4, Admission(false, Cache4), [true, true]);
  }

  lemma TemporalTail3()
    ensures AdmitAll(Cache2, TemporalSightings[3..], TestRules) == [true, false, true, true]
  {
    TemporalStep3();
    TemporalTail4();
    AdmitAllUnfold(Cache2, 3, Admission(true, Cache4), [false, true, true]);
  }

  lemma TemporalTail2()
    ensures AdmitAll(Cache2, TemporalSightings[2..], TestRules) == [false, true, false, true, true]
  {
    TemporalStep2();
    TemporalTail3();
    AdmitAllUnfold(Cache2, 2, Admission(false, Cache2), [true, false, true, true]);
  }

  lemma TemporalTail1()
    ensures AdmitAll(Cache1, TemporalSightings[1..], TestRules) == [true, false, true, false, true, true]
  {
    TemporalStep1();
    TemporalTail2();
    AdmitAllUnfold(Cache1, 1, Admission(true, Cache2), [false, true, false, true, true]);
  }

  lemma TemporalTail0()
    ensures AdmitAll(map[], TemporalSightings[0..], TestRules) == [true, true, false, true, false, true, true]
  {
    TemporalStep0();
    TemporalTail1();
    AdmitAllUnfold(map[], 0, Admission(true, Cache1), [true, false, true, false, true, true]);
  }

  lemma TemporalSequence()
    ensures AdmitAll(map[], TemporalSightings, TestRules) == [true, true, false, true, false, true, true]
  {
    TemporalTail0();
    assert TemporalSightings[0..] == TemporalSightings;
  }

  /** One call of `IfCoordinatesNotNeighbours`, with its arguments. */
  datatype NeighbourCall = NeighbourCall(cameraSerial: string, output: Output, timestamp: int)

  predicate WellFormedCalls(calls: seq<NeighbourCall>)
  {
    forall i :: 0 <= i < |calls| ==> |calls[i].output.location| >= 4
  }

  /** The answers of a run of `IfCoordinatesNotNeighbours` calls on one index, in order. */
  function NeighbourAll(trees: SpatialIndex, calls: seq<NeighbourCall>, rules: string -> CameraRule): (answers: seq<bool>)
    requires WellFormedCalls(calls)
    ensures |answers| == |calls|
    decreases |calls|
  {
    if calls == [] then []
    else
      var c := calls[0];
      var r := NeighbourStep(trees, c.output, c.cameraSerial, c.timestamp, rules(c.cameraSerial));
      [r.accepted] + NeighbourAll(r.trees, calls[1..], rules)
  }

  const CamA: string := "Q2UV-5LPF-HURS"
  const CamB: string := "Q2UV-9LPF-KURS"

  function Out(id: int, location: seq<real>): Output
  {
    Output(1, id, location, 0.75)
  }

  const Box1: seq<real> := [0.24, 0.12, 0.46, 0.31]
  const Box4: seq<real> := [0.41, 0.28, 0.62, 0.47]
  const Box5: seq<real> := [0.31, 0.18, 0.52, 0.37]
  const Box3: seq<real> := [0.36, 0.27, 0.58, 0.46]
  const Box6: seq<real> := [0.46, 0.23, 0.68, 0.51]

  const NeighbourCalls: seq<NeighbourCall> := [
    NeighbourCall(CamA, Out(1, Box1), BaseTime + 30),
    NeighbourCall(CamA, Out(1, Box1), BaseTime + 40),
    NeighbourCall(CamA, Out(1, Box1), BaseTime + 1040),
    NeighbourCall(CamA, Out(4, Box4), BaseTime + 1050),
    NeighbourCall(CamA, Out(5, Box5), BaseTime + 1060),
    NeighbourCall(CamB, Out(3, Box3), BaseTime + 2030),
    NeighbourCall(CamB, Out(6, Box6), BaseTime + 3040)
  ]

  lemma MidPoints()
    ensures MidPoint(Box1) == Point(0.215, 0.35)
    ensures MidPoint(Box4) == Point(0.375, 0.515)
    ensures MidPoint(Box5) == Point(0.275, 0.415)
    ensures MidPoint(Box3) == Point(0.365, 0.47)
    ensures MidPoint(Box6) == Point(0.37, 0.57)
  {
    Rounding.Round3Exact(215);
    Rounding.Round3Exact(350);
    Rounding.Round3Exact(375);
    Rounding.Round3Exact(515);
    Rounding.Round3Exact(275);
    Rounding.Round3Exact(415);
    Rounding.Round3Exact(365);
    Rounding.Round3Exact(470);
    Rounding.Round3Exact(370);
    Rounding.Round3Exact(570);
  }

  const KeyA: PartitionKey := PartitionKey(CamA, 1)
  const KeyB: PartitionKey := PartitionKey(CamB, 1)
  const Entry1: TreeEntry := TreeEntry(Point(0.215, 0.35), Detection(Out(1, Box1), BaseTime + 30))
  const Entry4: TreeEntry := TreeEntry(Point(0.375, 0.515), Detection(Out(4, Box4), BaseTime + 1050))
  const Entry3: TreeEntry := TreeEntry(Point(0.365, 0.47), Detection(Out(3, Box3), BaseTime + 2030))
  const Entry6: TreeEntry := TreeEntry(Point(0.37, 0.57), Detection(Out(6, Box6), BaseTime + 3040))
  const After1: SpatialIndex := map[KeyA := [Entry1]]
  const After4: SpatialIndex := map[KeyA := [Entry1, Entry4]]
  const After6: SpatialIndex := map[KeyA := [Entry1, Entry4], KeyB := [Entry3]]
  const After7: SpatialIndex := map[KeyA := [Entry1, Entry4], KeyB := [Entry3, Entry6]]

  lemma NeighbourStep1(calls: seq<NeighbourCall>)
    requires calls == NeighbourCalls
    ensures NeighbourStep(map[], calls[0].output, calls[0].cameraSerial, calls[0].timestamp, TestRules(calls[0].cameraSerial)) == NeighbourCheck(true, After1)
  {
    MidPoints();
    assert NeighbourCalls[0].output == Entry1.value.output;
    assert !HoldsPoint([], Entry1.point);
    assert TreeAdd([], Entry1.point, Entry1.value) == [Entry1];
    assert map[KeyA := []][KeyA := [Entry1]] == After1;
  }

  lemma NeighbourStep2(calls: seq<NeighbourCall>)
    requires calls == NeighbourCalls
    ensures NeighbourStep(After1, calls[1].output, calls[1].cameraSerial, calls[1].timestamp, TestRules(calls[1].cameraSerial)) == NeighbourCheck(false, After1)
  {
    MidPoints();
    assert WithinRadius(Entry1.point, Point(0.215, 0.35), 0.3);
  }

  lemma NeighbourStep3(calls: seq<NeighbourCall>)
    requires calls == NeighbourCalls
    ensures NeighbourStep(After1, calls[2].output, calls[2].cameraSerial, calls[2].timestamp, TestRules(calls[2].cameraSerial)) == NeighbourCheck(true, After1)
  {
    MidPoints();
    assert HoldsPoint([Entry1], Point(0.215, 0.35));
    assert After1[KeyA := [Entry1]] == After1;
  }

  lemma NeighbourStep4(calls: seq<NeighbourCall>)
    requires calls == NeighbourCalls
    ensures NeighbourStep(After1, calls[3].output, calls[3].cameraSerial, calls[3].timestamp, TestRules(calls[3].cameraSerial)) == NeighbourCheck(true, After4)
  {
    MidPoints();
    assert NeighbourCalls[3].output == Entry4.value.output;
    assert !HoldsPoint([Entry1], Point(0.375, 0.515));
    assert TreeAdd([Entry1], Entry4.point, Entry4.value) == [Entry1, Entry4];
    assert After1[KeyA := [Entry1, Entry4]] == After4;
  }

  lemma NeighbourStep5(calls: seq<NeighbourCall>)
    requires calls == NeighbourCalls
    ensures NeighbourStep(After4, calls[4].output, calls[4].cameraSerial, calls[4].timestamp, TestRules(calls[4].cameraSerial)) == NeighbourCheck(false, After4)
  {
    MidPoints();
    assert WithinRadius(Entry4.point, Point(0.275, 0.415), 0.3);
  }

  lemma NeighbourStep6(calls: seq<NeighbourCall>)
    requires calls == NeighbourCalls
    ensures NeighbourStep(After4, calls[5].output, calls[5].cameraSerial, calls[5].timestamp, TestRules(calls[5].cameraSerial)) == NeighbourCheck(true, After6)
  {
    MidPoints();
    assert KeyB !in After4;
    assert NeighbourCalls[5].output == Entry3.value.output;
    assert !HoldsPoint([], Entry3.point);
    assert TreeAdd([], Entry3.point, Entry3.value) == [Entry3];
    assert After4[KeyB := []][KeyB := [Entry3]] == After6;
  }

  lemma NeighbourStep7(calls: seq<NeighbourCall>)
    requires calls == NeighbourCalls
    ensures NeighbourStep(After6, calls[6].output, calls[6].cameraSerial, calls[6].timestamp, TestRules(calls[6].cameraSerial)) == NeighbourCheck(true, After7)
  {
    MidPoints();
    assert NeighbourCalls[6].output == Entry6.value.output;
    assert !HoldsPoint([Entry3], Point(0.37, 0.57));
    assert TreeAdd([Entry3], Entry6.point, Entry6.value) == [Entry3, Entry6];
    assert After6[KeyB := [Entry3, Entry6]] == After7;
  }

  /** The answers the test expects of the neighbour run. */
  const NeighbourAnswers: seq<bool> := [true, false, true, true, false, true, true]

  lemma NeighbourAllUnfold(trees: SpatialIndex, calls: seq<NeighbourCall>, answers: seq<bool>, i: nat, r: NeighbourCheck)
    requires WellFormedCalls(calls) && i < |calls| && i < |answers|
    requires NeighbourStep(trees, calls[i].output, calls[i].cameraSerial, calls[i].timestamp, TestRules(calls[i].cameraSerial)) == r
    requires r.accepted == answers[i]
    requires NeighbourAll(r.trees, calls[i + 1..], TestRules) == answers[i + 1..]
    ensures NeighbourAll(trees, calls[i..], TestRules) == answers[i..]
  {
    assert calls[i..][0] == calls[i];
    assert calls[i..][1..] == calls[i + 1..];
    assert answers[i..] == [answers[i]] + answers[i + 1..];
  }

  /** The answers of the run from call `k` on, given the index after the first `k` calls. */
  lemma NeighbourTail6(calls: seq<NeighbourCall>)
    requires calls == NeighbourCalls
    ensures WellFormedCalls(calls)
    ensures NeighbourAll(After6, calls[6..], TestRules) == NeighbourAnswers[6..]
  {
    assert WellFormedCalls(calls);
    NeighbourStep7(calls);
    assert calls[7..] == [] && NeighbourAnswers[7..] == [];
    NeighbourAllUnfold(After6, calls, NeighbourAnswers, 6, NeighbourCheck(true, After7));
  }

  lemma NeighbourTail5(calls: seq<NeighbourCall>)
    requires calls == NeighbourCalls
    ensures WellFormedCalls(calls)
    ensures NeighbourAll(After4, calls[5..], TestRules) == NeighbourAnswers[5..]
  {
    assert WellFormedCalls(calls);
    NeighbourStep6(calls);
    NeighbourTail6(calls);
    NeighbourAllUnfold(After4, calls, NeighbourAnswers, 5, NeighbourCheck(true, After6));
  }

  lemma NeighbourTail4(calls: seq<NeighbourCall>)
    requires calls == NeighbourCalls
    ensures WellFormedCalls(calls)
    ensures NeighbourAll(After4, calls[4..], TestRules) == NeighbourAnswers[4..]
  {
    assert WellFormedCalls(calls);
    NeighbourStep5(calls);
    NeighbourTail5(calls);
    NeighbourAllUnfold(After4, calls, NeighbourAnswers, 4, NeighbourCheck(false, After4));
  }

  lemma NeighbourTail3(calls: seq<NeighbourCall>)
    requires calls == NeighbourCalls
    ensures WellFormedCalls(calls)
    ensures NeighbourAll(After1, calls[3..], TestRules) == NeighbourAnswers[3..]
  {
    assert WellFormedCalls(calls);
    NeighbourStep4(calls);
    NeighbourTail4(calls);
    NeighbourAllUnfold(After1, calls, NeighbourAnswers, 3, NeighbourCheck(true, After4));
  }

  lemma NeighbourTail2(calls: seq<NeighbourCall>)
    requires calls == NeighbourCalls
    ensures WellFormedCalls(calls)
    ensures NeighbourAll(After1, calls[2..], TestRules) == NeighbourAnswers[2..]
  {
    assert WellFormedCalls(calls);
    NeighbourStep3(calls);
    NeighbourTail3(calls);
    NeighbourAllUnfold(After1, calls, NeighbourAnswers, 2, NeighbourCheck(true, After1));
  }

  lemma NeighbourTail1(calls: seq<NeighbourCall>)
    requires calls == NeighbourCalls
    ensures WellFormedCalls(calls)
    ensures NeighbourAll(After1, calls[1..], TestRules) == NeighbourAnswers[1..]
  {
    assert WellFormedCalls(calls);
    NeighbourStep2(calls);
    NeighbourTail2(calls);
    NeighbourAllUnfold(After1, calls, NeighbourAnswers, 1, NeighbourCheck(false, After1));
  }

  lemma NeighbourTail0(calls: seq<NeighbourCall>)
    requires calls == NeighbourCalls
    ensures WellFormedCalls(calls)
    ensures NeighbourAll(map[], calls[0..], TestRules) == NeighbourAnswers[0..]
  {
    assert WellFormedCalls(calls);
    NeighbourStep1(calls);
    NeighbourTail1(calls);
    NeighbourAllUnfold(map[], calls, NeighbourAnswers, 0, NeighbourCheck(true, After1));
  }

  lemma NeighbourSequence()
    ensures WellFormedCalls(NeighbourCalls)
    ensures NeighbourAll(map[], NeighbourCalls, TestRules) == [true, false, true, true, false, true, true]
  {
    NeighbourTail0(NeighbourCalls);
    assert NeighbourCalls[0..] == NeighbourCalls;
    assert NeighbourAnswers[0..] == NeighbourAnswers;
  }

  /**
   * The sequence depends on the index skipping a point it already holds:
   * had the third call stored a second copy of the first box's midpoint,
   * the fourth box would have a neighbour only 10 ms old and be rejected.
   */
  lemma NeighbourSequenceNeedsSkip()
    ensures var copy := TreeEntry(Point(0.215, 0.35), Detection(Out(1, Box1), BaseTime + 1040));
            var first := TreeEntry(Point(0.215, 0.35), Detection(Out(1, Box1), BaseTime + 30));
            HasRecentNeighbour([first, copy], MidPoint(Box4), BaseTime + 1050, TestRules(CamA))
  {
    MidPoints();
    var copy := TreeEntry(Point(0.215, 0.35), Detection(Out(1, Box1), BaseTime + 1040));
    assert WithinRadius(copy.point, Point(0.375, 0.515), 0.3);
  }
}
