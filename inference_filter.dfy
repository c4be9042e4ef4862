/**
 * The filter stage: a bounds check on a detection's box, a temporal dedup
 * cache keyed by fingerprint (coordinates, camera, class, confidence range),
 * and a spatial neighbour index with one point set per camera and class.
 *
 * Each stateful check is given twice: as a pure transition on the state it
 * touches (`Admit`, `NeighbourStep`), about which the lemmas speak, and as a
 * method of the `InferenceFilter` class that updates the fields in place and
 * is proved to perform exactly that transition.
 */
module InferenceFilter {
  import opened Models
  import opened Fingerprints
  import Rounding

  const CoordinateLowerBound: real := 0.0
  const CoordinateUpperBound: real := 1.0

  /** `IfCoordinatesNotOutOfBounds`: every coordinate lies in [0, 1]. */
  function IfCoordinatesNotOutOfBounds(coordinates: seq<real>): (bounds: bool)
    ensures bounds <==> forall i :: 0 <= i < |coordinates| ==>
                          CoordinateLowerBound <= coordinates[i] <= CoordinateUpperBound
  {
    if coordinates == [] then true
    else CoordinateLowerBound <= coordinates[0] <= CoordinateUpperBound
         && IfCoordinatesNotOutOfBounds(coordinates[1..])
  }

  // ---------------------------------------------------------------------
  // Temporal dedup cache
  // ---------------------------------------------------------------------

  /** The answer of the temporal check and the cache it leaves behind. */
  datatype Admission = Admission(isNew: bool, processed: TimestampCache)

  /**
   * `IfCoordinatesNotProcessed` as a transition: a fresh fingerprint is
   * recorded and is new unless the camera defers first sightings; a known
   * one is new again, with its timestamp refreshed, only once more than the
   * timeout has passed since it was last accepted.
   */
  function Admit(processed: TimestampCache, key: Fingerprint, timeStamp: int, rule: CameraRule): (r: Admission)
    ensures r.processed.Keys == processed.Keys + {key}
    ensures forall k :: k in processed && k != key ==> r.processed[k] == processed[k]
    ensures key !in processed ==> r.processed[key] == timeStamp && r.isNew == !rule.deferred
    ensures key in processed ==> (r.isNew <==> timeStamp - processed[key] > rule.timeout)
    ensures key in processed && !r.isNew ==> r.processed == processed
    ensures r.isNew ==> r.processed[key] == timeStamp
  {
    if key in processed then
      if timeStamp - processed[key] > rule.timeout then Admission(true, processed[key := timeStamp])
      else Admission(false, processed)
    else
      Admission(!rule.deferred, processed[key := timeStamp])
  }

  /** One call of `IfCoordinatesNotProcessed`, with its arguments. */
  datatype Sighting = Sighting(coordinates: seq<real>, timeStamp: int, cameraSerial: string, classId: int, confidence: real)

  /** The key `GenerateKey` builds for a sighting under the given rules. */
  function SightingKey(s: Sighting, rules: string -> CameraRule): Fingerprint
  {
    MakeKey(s.coordinates, s.cameraSerial, s.classId, s.confidence, rules(s.cameraSerial).confidence)
  }

  /** The answers of a run of `IfCoordinatesNotProcessed` calls on one cache, in order. */
  function AdmitAll(processed: TimestampCache, sightings: seq<Sighting>, rules: string -> CameraRule): (answers: seq<bool>)
    ensures |answers| == |sightings|
    decreases |sightings|
  {
    if sightings == [] then []
    else
      var s := sightings[0];
      var a := Admit(processed, SightingKey(s, rules), s.timeStamp, rules(s.cameraSerial));
      [a.isNew] + AdmitAll(a.processed, sightings[1..], rules)
  }

  /** The cache a run of `IfCoordinatesNotProcessed` calls leaves behind. */
  function AdmitAllCache(processed: TimestampCache, sightings: seq<Sighting>, rules: string -> CameraRule): TimestampCache
    decreases |sightings|
  {
    if sightings == [] then processed
    else
      var s := sightings[0];
      var a := Admit(processed, SightingKey(s, rules), s.timeStamp, rules(s.cameraSerial));
      AdmitAllCache(a.processed, sightings[1..], rules)
  }

  /**
   * Temporal idempotence: once a fingerprint was accepted (or first seen) at
   * `accepted`, every later sighting of it no more than the timeout after
   * that is rejected and leaves the cache as it was.
   */
  lemma {:induction false} SuppressedWithinTimeout(processed: TimestampCache, key: Fingerprint, accepted: int,
                                                   sightings: seq<Sighting>, rules: string -> CameraRule)
    requires key in processed && processed[key] == accepted
    requires forall i :: 0 <= i < |sightings| ==>
               SightingKey(sightings[i], rules) == key
               && sightings[i].timeStamp - accepted <= rules(sightings[i].cameraSerial).timeout
    ensures forall i :: 0 <= i < |sightings| ==> !AdmitAll(processed, sightings, rules)[i]
    ensures AdmitAllCache(processed, sightings, rules) == processed
  {
    if sightings != [] {
      SuppressedWithinTimeout(processed, key, accepted, sightings[1..], rules);
      var answers := AdmitAll(processed, sightings, rules);
      assert answers == [false] + AdmitAll(processed, sightings[1..], rules);
      forall i | 0 <= i < |sightings| ensures !answers[i] {
        if i > 0 {
          assert answers[i] == AdmitAll(processed, sightings[1..], rules)[i - 1];
        }
      }
    }
  }

  /**
   * A fingerprint accepted at `t` is rejected up to and including `t + timeout`
   * and accepted again, with its timestamp refreshed, right after that.
   */
  lemma AcceptedAgainAfterTimeout(processed: TimestampCache, key: Fingerprint, t: int, later: int, rule: CameraRule)
    requires Admit(processed, key, t, rule).isNew
    ensures var after := Admit(processed, key, t, rule).processed;
            (later - t <= rule.timeout ==> !Admit(after, key, later, rule).isNew)
            && (later - t > rule.timeout ==> Admit(after, key, later, rule) == Admission(true, after[key := later]))
  {
  }

  /**
   * A deferred camera swallows the first sighting of a fingerprint and every
   * sighting within the timeout of it; the first sighting after the timeout
   * is the first to be reported.
   */
  lemma DeferredSuppression(processed: TimestampCache, key: Fingerprint, first: int, second: int, third: int, rule: CameraRule)
    requires rule.deferred && key !in processed
    requires second - first <= rule.timeout < third - first
    ensures var a1 := Admit(processed, key, first, rule);
            var a2 := Admit(a1.processed, key, second, rule);
            var a3 := Admit(a2.processed, key, third, rule);
            !a1.isNew && !a2.isNew && a3.isNew
  {
  }

  // ---------------------------------------------------------------------
  // Spatial neighbour index
  // ---------------------------------------------------------------------

  datatype Point = Point(x: real, y: real)

  /**
   * `MidPoint`: the centre of a [ymin, xmin, ymax, xmax] box, each axis
   * rounded to three decimals; x comes from indices 1 and 3, y from 0 and 2.
   */
  function MidPoint(coordinates: seq<real>): (p: Point)
    requires |coordinates| >= 4
    ensures -0.0005 <= p.x - (coordinates[1] + coordinates[3]) / 2.0 <= 0.0005
    ensures -0.0005 <= p.y - (coordinates[0] + coordinates[2]) / 2.0 <= 0.0005
  {
    var x := Rounding.Round3((coordinates[1] + coordinates[3]) / 2.0);
    var y := Rounding.Round3((coordinates[0] + coordinates[2]) / 2.0);
    Rounding.Round3Error((coordinates[1] + coordinates[3]) / 2.0);
    Rounding.Round3Error((coordinates[0] + coordinates[2]) / 2.0);
    Point(x, y)
  }

  /** The midpoint of an in-bounds box lies in the unit square. */
  lemma MidPointInUnitSquare(coordinates: seq<real>)
    requires |coordinates| >= 4 && IfCoordinatesNotOutOfBounds(coordinates)
    ensures 0.0 <= MidPoint(coordinates).x <= 1.0 && 0.0 <= MidPoint(coordinates).y <= 1.0
  {
    Rounding.Round3UnitInterval((coordinates[1] + coordinates[3]) / 2.0);
    Rounding.Round3UnitInterval((coordinates[0] + coordinates[2]) / 2.0);
  }

  function DistanceSquared(a: Point, b: Point): real
  {
    (a.x - b.x) * (a.x - b.x) + (a.y - b.y) * (a.y - b.y)
  }

  /** The radius test of the index's radial search (Euclidean distance, bound included). */
  predicate WithinRadius(a: Point, b: Point, radius: real)
  {
    DistanceSquared(a, b) <= radius * radius
  }

  /** A stored point with the detection it stands for. */
  datatype TreeEntry = TreeEntry(point: Point, value: Detection)

  /** One partition of the spatial index: its points in insertion order. */
  type KdTree = seq<TreeEntry>

  /** `RadialSearch`: the stored entries within `radius` of `center`, in storage order. */
  function RadialSearch(tree: KdTree, center: Point, radius: real): (neighbours: KdTree)
    ensures forall e :: e in neighbours <==> e in tree && WithinRadius(e.point, center, radius)
    ensures |neighbours| <= |tree|
  {
    if tree == [] then []
    else if WithinRadius(tree[0].point, center, radius) then [tree[0]] + RadialSearch(tree[1..], center, radius)
    else RadialSearch(tree[1..], center, radius)
  }

  predicate HoldsPoint(tree: KdTree, point: Point)
  {
    exists e :: e in tree && e.point == point
  }

  /** No two entries of the tree share a point. */
  predicate DistinctPoints(tree: KdTree)
  {
    forall i, j :: 0 <= i < j < |tree| ==> tree[i].point != tree[j].point
  }

  /** `Add`: a point already in the tree is skipped, any other is stored last. */
  function TreeAdd(tree: KdTree, point: Point, value: Detection): KdTree
  {
    if HoldsPoint(tree, point) then tree else tree + [TreeEntry(point, value)]
  }

  /**
   * After `Add` the tree holds the point and keeps every entry it had in its
   * place; it changes iff the point was new, the only entry it can gain is
   * the new one, and so it never holds one point twice.
   */
  lemma TreeAddSkipsDuplicates(tree: KdTree, point: Point, value: Detection)
    ensures var r := TreeAdd(tree, point, value);
            HoldsPoint(r, point)
            && |tree| <= |r| && r[..|tree|] == tree
            && (HoldsPoint(tree, point) <==> r == tree)
            && (forall e :: e in r ==> e in tree || e == TreeEntry(point, value))
            && (DistinctPoints(tree) ==> DistinctPoints(r))
  {
    var r := TreeAdd(tree, point, value);
    if !HoldsPoint(tree, point) {
      assert r[|tree|] == TreeEntry(point, value);
      assert r != tree by {
        assert |r| == |tree| + 1;
      }
    }
  }

  /** The partitions of the spatial index: one per camera and class. */
  datatype PartitionKey = PartitionKey(cameraSerial: string, classId: int)

  type SpatialIndex = map<PartitionKey, KdTree>

  /** The partition key as the source builds it: the camera serial followed by the class id's decimal text. */
  function PartitionKeyAsWritten(cameraSerial: string, classId: int): (key: string)
    ensures |key| > |cameraSerial| && key[..|cameraSerial|] == cameraSerial
  {
    cameraSerial + Rounding.DecimalString(classId)
  }

  /**
   * The joined key is not injective: class 23 of camera "CAM1" and class 3
   * of camera "CAM12" share one partition, so their detections suppress
   * each other. The tuple key keeps them apart.
   */
  lemma PartitionKeyAsWrittenCollides()
    ensures PartitionKeyAsWritten("CAM1", 23) == PartitionKeyAsWritten("CAM12", 3)
    ensures PartitionKey("CAM1", 23) != PartitionKey("CAM12", 3)
  {
    assert Rounding.Digits(23) == Rounding.Digits(2) + [Rounding.DigitChar(3)];
    assert Rounding.DecimalString(23) == "23";
    assert Rounding.DecimalString(3) == "3";
    assert "CAM1" + "23" == "CAM12" + "3";
  }

  /** The tuple key separates every pair of cameras and classes. */
  lemma PartitionKeyInjective(c1: string, k1: int, c2: string, k2: int)
    ensures PartitionKey(c1, k1) == PartitionKey(c2, k2) <==> c1 == c2 && k1 == k2
  {
  }

  /** The points already stored for a partition (none when it was never created). */
  function Partition(trees: SpatialIndex, key: PartitionKey): KdTree
  {
    if key in trees then trees[key] else []
  }

  /** True when some point of the tree is within the radius and younger than the timeout. */
  predicate HasRecentNeighbour(tree: KdTree, center: Point, timestamp: int, rule: CameraRule)
  {
    exists e :: e in tree && WithinRadius(e.point, center, rule.radiusLimit)
                && timestamp - e.value.timestamp < rule.timeout
  }

  /** The answer of the spatial check and the index it leaves behind. */
  datatype NeighbourCheck = NeighbourCheck(accepted: bool, trees: SpatialIndex)

  /**
   * `IfCoordinatesNotNeighbours` as a transition. The partition is created
   * when absent; the detection is rejected, and nothing stored, when a
   * point of its partition lies within the radius of its midpoint and was
   * stored less than the timeout ago; otherwise its midpoint is added.
   */
  function NeighbourStep(trees: SpatialIndex, output: Output, cameraSerial: string, timestamp: int, rule: CameraRule): (r: NeighbourCheck)
    requires |output.location| >= 4
    ensures var key := PartitionKey(cameraSerial, output.classId);
            var mid := MidPoint(output.location);
            && (r.accepted <==> !HasRecentNeighbour(Partition(trees, key), mid, timestamp, rule))
            && (!r.accepted ==> r.trees == trees)
            && (r.accepted ==> r.trees == trees[key := TreeAdd(Partition(trees, key), mid, Detection(output, timestamp))])
  {
    var key := PartitionKey(cameraSerial, output.classId);
    var tree := Partition(trees, key);
    var created := trees[key := tree];
    var midPoint := MidPoint(output.location);
    var neighbours := RadialSearch(tree, midPoint, rule.radiusLimit);
    if |neighbours| > 0 && exists n :: n in neighbours && timestamp - n.value.timestamp < rule.timeout then
      assert key in trees;
      NeighbourCheck(false, created)
    else
      NeighbourCheck(true, created[key := TreeAdd(tree, midPoint, Detection(output, timestamp))])
  }

  /**
   * Partitions are independent: a check for one camera and class never
   * changes what is stored for another, so identical detections of two
   * cameras never interfere.
   */
  lemma PartitionsIndependent(trees: SpatialIndex, output: Output, cameraSerial: string, timestamp: int, rule: CameraRule,
                              other: PartitionKey)
    requires |output.location| >= 4
    requires other != PartitionKey(cameraSerial, output.classId)
    ensures Partition(NeighbourStep(trees, output, cameraSerial, timestamp, rule).trees, other) == Partition(trees, other)
  {
  }

  /**
   * An accepted detection is stored exactly once: its partition grows by
   * its midpoint, or stays as it is when that point is already there.
   */
  lemma AcceptedStoredOnce(trees: SpatialIndex, output: Output, cameraSerial: string, timestamp: int, rule: CameraRule)
    requires |output.location| >= 4
    requires NeighbourStep(trees, output, cameraSerial, timestamp, rule).accepted
    ensures var key := PartitionKey(cameraSerial, output.classId);
            var mid := MidPoint(output.location);
            var after := NeighbourStep(trees, output, cameraSerial, timestamp, rule).trees;
            key in after
            && (HoldsPoint(Partition(trees, key), mid) ==> after[key] == Partition(trees, key))
            && (!HoldsPoint(Partition(trees, key), mid) ==>
                  after[key] == Partition(trees, key) + [TreeEntry(mid, Detection(output, timestamp))])
  {
  }

  /**
   * The two checks treat the timeout boundary differently: a repeat of the
   * same detection exactly `timeout` later is a duplicate for the temporal
   * cache (it needs more than the timeout) but not a neighbour for the
   * spatial index (it needs less than the timeout).
   */
  lemma TimeoutBoundary(output: Output, cameraSerial: string, t: int, rule: CameraRule, key: Fingerprint)
    requires |output.location| >= 4
    requires Admit(map[], key, t, rule).isNew
    ensures var first := NeighbourStep(map[], output, cameraSerial, t, rule);
            first.accepted && NeighbourStep(first.trees, output, cameraSerial, t + rule.timeout, rule).accepted
    ensures !Admit(Admit(map[], key, t, rule).processed, key, t + rule.timeout, rule).isNew
  {
    var first := NeighbourStep(map[], output, cameraSerial, t, rule);
    var pkey := PartitionKey(cameraSerial, output.classId);
    var mid := MidPoint(output.location);
    assert Partition(first.trees, pkey) == [TreeEntry(mid, Detection(output, t))];
  }

  // ---------------------------------------------------------------------
  // The filter object
  // ---------------------------------------------------------------------

  class InferenceFilter {
    /** The rule each camera serial resolves to (the model configuration). */
    const rules: string -> CameraRule
    var processedCoordinates: TimestampCache
    var kdTree: SpatialIndex

    constructor (rules: string -> CameraRule)
      ensures this.rules == rules
      ensures processedCoordinates == map[] && kdTree == map[]
    {
      this.rules := rules;
      processedCoordinates := map[];
      kdTree := map[];
    }

    /** `GenerateKey`, with the confidence range measured against the camera's model confidence. */
    function GenerateKey(coordinates: seq<real>, camSerial: string, classId: int, confidence: real): (key: Fingerprint)
      ensures key.range == Low <==> confidence < rules(camSerial).confidence
      ensures key.coordinates == coordinates && key.cameraSerial == camSerial && key.classId == classId
    {
      MakeKey(coordinates, camSerial, classId, confidence, rules(camSerial).confidence)
    }

    /** `IfCoordinatesNotProcessed`: true when the detection is new for the temporal cache. */
    method IfCoordinatesNotProcessed(coordinates: seq<real>, timeStamp: int, camSerial: string, classId: int, confidence: real)
      returns (isNew: bool)
      modifies this
      ensures Admission(isNew, processedCoordinates)
              == Admit(old(processedCoordinates), GenerateKey(coordinates, camSerial, classId, confidence), timeStamp, rules(camSerial))
      ensures kdTree == old(kdTree)
    {
      var modelInference := rules(camSerial);
      var key := GenerateKey(coordinates, camSerial, classId, confidence);
      if key in processedCoordinates {
        var cachedTimestamp := processedCoordinates[key];
        if timeStamp - cachedTimestamp > modelInference.timeout {
          processedCoordinates := processedCoordinates[key := timeStamp];
          return true;
        }
        return false;
      } else {
        processedCoordinates := processedCoordinates[key := timeStamp];
        if modelInference.deferred {
          return false;
        } else {
          return true;
        }
      }
    }

    /** `IfCoordinatesNotNeighbours`: true when no recent detection of the same camera and class is near. */
    method IfCoordinatesNotNeighbours(output: Output, cameraSerial: string, timestamp: int) returns (accepted: bool)
      requires |output.location| >= 4
      modifies this
      ensures NeighbourCheck(accepted, kdTree)
              == NeighbourStep(old(kdTree), output, cameraSerial, timestamp, rules(cameraSerial))
      ensures processedCoordinates == old(processedCoordinates)
    {
      var modelInference := rules(cameraSerial);
      var key := PartitionKey(cameraSerial, output.classId);
      var tree: KdTree;
      if key in kdTree {
        tree := kdTree[key];
      } else {
        tree := [];
        kdTree := kdTree[key := tree];
      }
      var midPoint := MidPoint(output.location);
      var neighbors := RadialSearch(tree, midPoint, modelInference.radiusLimit);
      if |neighbors| > 0 && exists n :: n in neighbors && timestamp - n.value.timestamp < modelInference.timeout {
        return false;
      }
      kdTree := kdTree[key := TreeAdd(tree, midPoint, Detection(output, timestamp))];
      return true;
    }
  }
}
