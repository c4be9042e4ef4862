/**
 * The rules stage: of a frame's detections, those whose box lies in the unit
 * square, that the dedup cache has not seen within its timeout, whose class
 * the camera watches and whose score beats the camera's confidence are
 * violations. The four tests run in that order and stop at the first that
 * fails, so the cache, which records every detection it is asked about, sees
 * exactly the in-bounds detections, whatever their class or score.
 */
module InferenceRules {
  import opened Wrappers
  import opened Models
  import opened Fingerprints
  import InferenceFilter
  import InferenceCache

  /** `CheckCoordinateBounds`: every coordinate lies in [0, 1]. */
  predicate CheckCoordinateBounds(coordinates: seq<real>)
  {
    forall i :: 0 <= i < |coordinates| ==> 0.0 <= coordinates[i] <= 1.0
  }

  /** A box passes the bounds test iff each of its coordinates lies in [0, 1]. */
  lemma BoundsOfEveryCoordinate(coordinates: seq<real>)
    ensures CheckCoordinateBounds(coordinates) <==> forall c :: c in coordinates ==> 0.0 <= c <= 1.0
  {
    forall i | 0 <= i < |coordinates|
      ensures coordinates[i] in coordinates
    {
    }
  }

  /** The rules stage and the filter stage apply the same bounds test. */
  lemma BoundsAgree(coordinates: seq<real>)
    ensures CheckCoordinateBounds(coordinates) == InferenceFilter.IfCoordinatesNotOutOfBounds(coordinates)
  {
  }

  /** The violations found in a batch and the cache left behind. */
  datatype Screening = Screening(violations: seq<Output>, cache: TimestampCache)

  /** The cache key of a detection of the batch. */
  function OutputKey(o: Output, cameraSerial: string, modelConfidence: real): Fingerprint
  {
    MakeKey(o.location, cameraSerial, o.classId, o.score, modelConfidence)
  }

  /**
   * The `Where` of `TryDetectViolation`, evaluated left to right: every
   * in-bounds detection is checked against the cache (which records it), and
   * it is a violation when the cache had not seen it within the timeout, its
   * class is watched and its score is above the confidence.
   */
  function Detect(cache: TimestampCache, outputs: seq<Output>, timestamp: int, cameraSerial: string,
                  rule: CameraRule, timeout: int, modelConfidence: real): (r: Screening)
    ensures |r.violations| <= |outputs|
    ensures forall v :: v in r.violations ==>
              v in outputs && CheckCoordinateBounds(v.location) && v.classId in rule.classes && v.score > rule.confidence
    ensures cache.Keys <= r.cache.Keys
    decreases |outputs|
  {
    if outputs == [] then Screening([], cache)
    else
      var o := outputs[0];
      if !CheckCoordinateBounds(o.location) then
        Detect(cache, outputs[1..], timestamp, cameraSerial, rule, timeout, modelConfidence)
      else
        var l := InferenceCache.CheckProcessed(cache, OutputKey(o, cameraSerial, modelConfidence), timestamp, timeout);
        var rest := Detect(l.cache, outputs[1..], timestamp, cameraSerial, rule, timeout, modelConfidence);
        if !l.processed && o.classId in rule.classes && o.score > rule.confidence then
          Screening([o] + rest.violations, rest.cache)
        else
          rest
  }

  /** `a` is `b` with some elements left out, the rest in their order. */
  predicate IsSubsequence<T(==)>(a: seq<T>, b: seq<T>)
    decreases |b|
  {
    if a == [] then true
    else if b == [] then false
    else (a[0] == b[0] && IsSubsequence(a[1..], b[1..])) || IsSubsequence(a, b[1..])
  }

  /** The violations are detections of the batch, in the batch's order. */
  lemma {:induction false} ViolationsInOrder(cache: TimestampCache, outputs: seq<Output>, timestamp: int, cameraSerial: string,
                                             rule: CameraRule, timeout: int, modelConfidence: real)
    ensures IsSubsequence(Detect(cache, outputs, timestamp, cameraSerial, rule, timeout, modelConfidence).violations, outputs)
    decreases |outputs|
  {
    if outputs != [] {
      var o := outputs[0];
      if !CheckCoordinateBounds(o.location) {
        ViolationsInOrder(cache, outputs[1..], timestamp, cameraSerial, rule, timeout, modelConfidence);
      } else {
        var l := InferenceCache.CheckProcessed(cache, OutputKey(o, cameraSerial, modelConfidence), timestamp, timeout);
        ViolationsInOrder(l.cache, outputs[1..], timestamp, cameraSerial, rule, timeout, modelConfidence);
        var rest := Detect(l.cache, outputs[1..], timestamp, cameraSerial, rule, timeout, modelConfidence);
        if !l.processed && o.classId in rule.classes && o.score > rule.confidence {
          assert ([o] + rest.violations)[1..] == rest.violations;
        } else if rest.violations != [] {
          assert IsSubsequence(rest.violations, outputs[1..]);
        }
      }
    }
  }

  /** The detections of the batch that pass the bounds test, in order. */
  function InBounds(outputs: seq<Output>): (r: seq<Output>)
    ensures forall o :: o in r <==> o in outputs && CheckCoordinateBounds(o.location)
    decreases |outputs|
  {
    if outputs == [] then []
    else if CheckCoordinateBounds(outputs[0].location) then [outputs[0]] + InBounds(outputs[1..])
    else InBounds(outputs[1..])
  }

  /** The cache after checking each of the detections in turn, violation or not. */
  function RecordAll(cache: TimestampCache, outputs: seq<Output>, timestamp: int, cameraSerial: string,
                     timeout: int, modelConfidence: real): TimestampCache
    decreases |outputs|
  {
    if outputs == [] then cache
    else
      var l := InferenceCache.CheckProcessed(cache, OutputKey(outputs[0], cameraSerial, modelConfidence), timestamp, timeout);
      RecordAll(l.cache, outputs[1..], timestamp, cameraSerial, timeout, modelConfidence)
  }

  /**
   * The cache a batch leaves behind is the cache that checking exactly its
   * in-bounds detections leaves behind: an out-of-bounds detection never
   * reaches the cache, and an in-bounds one reaches it whatever its class and
   * score (neither the rule's classes nor its confidence play a part).
   */
  lemma {:induction false} CacheSeesInBoundsOnly(cache: TimestampCache, outputs: seq<Output>, timestamp: int, cameraSerial: string,
                                                 rule: CameraRule, timeout: int, modelConfidence: real)
    ensures Detect(cache, outputs, timestamp, cameraSerial, rule, timeout, modelConfidence).cache
            == RecordAll(cache, InBounds(outputs), timestamp, cameraSerial, timeout, modelConfidence)
    decreases |outputs|
  {
    if outputs != [] {
      var o := outputs[0];
      if !CheckCoordinateBounds(o.location) {
        CacheSeesInBoundsOnly(cache, outputs[1..], timestamp, cameraSerial, rule, timeout, modelConfidence);
      } else {
        var l := InferenceCache.CheckProcessed(cache, OutputKey(o, cameraSerial, modelConfidence), timestamp, timeout);
        CacheSeesInBoundsOnly(l.cache, outputs[1..], timestamp, cameraSerial, rule, timeout, modelConfidence);
        assert InBounds(outputs)[0] == o && InBounds(outputs)[1..] == InBounds(outputs[1..]);
      }
    }
  }

  /**
   * An in-bounds detection that cannot be a violation (its class is not
   * watched, or its score is too low) is still recorded by the cache.
   */
  lemma RecordedEvenIfNotViolation(cache: TimestampCache, o: Output, timestamp: int, cameraSerial: string,
                                   rule: CameraRule, timeout: int, modelConfidence: real)
    requires CheckCoordinateBounds(o.location)
    requires o.classId !in rule.classes || o.score <= rule.confidence
    ensures var r := Detect(cache, [o], timestamp, cameraSerial, rule, timeout, modelConfidence);
            r.violations == []
            && r.cache == InferenceCache.CheckProcessed(cache, OutputKey(o, cameraSerial, modelConfidence), timestamp, timeout).cache
            && OutputKey(o, cameraSerial, modelConfidence) in r.cache
  {
    assert [o][1..] == [];
  }

  /** The key was seen no more than the timeout before this frame. */
  predicate SeenRecently(cache: TimestampCache, key: Fingerprint, timestamp: int, timeout: int)
  {
    key in cache && timestamp - cache[key] <= timeout
  }

  /**
   * Once a key was seen recently, no detection of the batch with that key
   * is a violation and the key stays recently seen.
   */
  lemma {:induction false} RecentKeySuppressed(cache: TimestampCache, key: Fingerprint, outputs: seq<Output>, timestamp: int,
                                               cameraSerial: string, rule: CameraRule, timeout: int, modelConfidence: real)
    requires SeenRecently(cache, key, timestamp, timeout)
    ensures var r := Detect(cache, outputs, timestamp, cameraSerial, rule, timeout, modelConfidence);
            SeenRecently(r.cache, key, timestamp, timeout)
            && forall v :: v in r.violations ==> OutputKey(v, cameraSerial, modelConfidence) != key
    decreases |outputs|
  {
    if outputs != [] {
      var o := outputs[0];
      if !CheckCoordinateBounds(o.location) {
        RecentKeySuppressed(cache, key, outputs[1..], timestamp, cameraSerial, rule, timeout, modelConfidence);
      } else {
        var l := InferenceCache.CheckProcessed(cache, OutputKey(o, cameraSerial, modelConfidence), timestamp, timeout);
        assert SeenRecently(l.cache, key, timestamp, timeout);
        RecentKeySuppressed(l.cache, key, outputs[1..], timestamp, cameraSerial, rule, timeout, modelConfidence);
      }
    }
  }

  /**
   * All detections of a batch share the frame's timestamp, so with a
   * non-negative timeout a detection repeated in the batch is reported at
   * most once: its first check records it and every later one finds it.
   */
  lemma {:induction false} ReportedAtMostOnce(cache: TimestampCache, outputs: seq<Output>, timestamp: int, cameraSerial: string,
                                              rule: CameraRule, timeout: int, modelConfidence: real, o: Output)
    requires timeout >= 0
    ensures multiset(Detect(cache, outputs, timestamp, cameraSerial, rule, timeout, modelConfidence).violations)[o] <= 1
    decreases |outputs|
  {
    if outputs != [] {
      var h := outputs[0];
      if !CheckCoordinateBounds(h.location) {
        ReportedAtMostOnce(cache, outputs[1..], timestamp, cameraSerial, rule, timeout, modelConfidence, o);
      } else {
        var key := OutputKey(h, cameraSerial, modelConfidence);
        var l := InferenceCache.CheckProcessed(cache, key, timestamp, timeout);
        var rest := Detect(l.cache, outputs[1..], timestamp, cameraSerial, rule, timeout, modelConfidence);
        ReportedAtMostOnce(l.cache, outputs[1..], timestamp, cameraSerial, rule, timeout, modelConfidence, o);
        if !l.processed && h.classId in rule.classes && h.score > rule.confidence {
          RecentKeySuppressed(l.cache, key, outputs[1..], timestamp, cameraSerial, rule, timeout, modelConfidence);
          assert h !in rest.violations;
          assert multiset([h] + rest.violations) == multiset{h} + multiset(rest.violations);
          assert Detect(cache, outputs, timestamp, cameraSerial, rule, timeout, modelConfidence).violations == [h] + rest.violations;
        } else {
          assert Detect(cache, outputs, timestamp, cameraSerial, rule, timeout, modelConfidence) == rest;
        }
      }
    }
  }

  /** No in-bounds detection before position `i` of the batch has the key of the one at `i`. */
  predicate FirstOfKey(outputs: seq<Output>, i: int, cameraSerial: string, modelConfidence: real)
    requires 0 <= i < |outputs|
  {
    forall j :: 0 <= j < i && CheckCoordinateBounds(outputs[j].location) ==>
      OutputKey(outputs[j], cameraSerial, modelConfidence) != OutputKey(outputs[i], cameraSerial, modelConfidence)
  }

  /**
   * The detection at `i` passes every test of the rule, judged against the
   * cache the batch starts with: it is in bounds, its class is watched, its
   * score beats the confidence, the cache has not seen its key within the
   * timeout, and no earlier in-bounds detection of the batch has its key.
   */
  predicate Passes(cache: TimestampCache, outputs: seq<Output>, i: int, timestamp: int, cameraSerial: string,
                   rule: CameraRule, timeout: int, modelConfidence: real)
    requires 0 <= i < |outputs|
  {
    var o := outputs[i];
    CheckCoordinateBounds(o.location) && o.classId in rule.classes && o.score > rule.confidence
    && !SeenRecently(cache, OutputKey(o, cameraSerial, modelConfidence), timestamp, timeout)
    && FirstOfKey(outputs, i, cameraSerial, modelConfidence)
  }

  /** A detection that passes every test is reported. */
  lemma {:induction false} ReportedIfPasses(cache: TimestampCache, outputs: seq<Output>, i: int, timestamp: int,
                                            cameraSerial: string, rule: CameraRule, timeout: int, modelConfidence: real)
    requires 0 <= i < |outputs|
    requires Passes(cache, outputs, i, timestamp, cameraSerial, rule, timeout, modelConfidence)
    ensures outputs[i] in Detect(cache, outputs, timestamp, cameraSerial, rule, timeout, modelConfidence).violations
    decreases i
  {
    var o := outputs[0];
    var key := OutputKey(outputs[i], cameraSerial, modelConfidence);
    if i > 0 {
      var next := if CheckCoordinateBounds(o.location)
                  then InferenceCache.CheckProcessed(cache, OutputKey(o, cameraSerial, modelConfidence), timestamp, timeout).cache
                  else cache;
      assert outputs[1..][i - 1] == outputs[i];
      assert SeenRecently(next, key, timestamp, timeout) == SeenRecently(cache, key, timestamp, timeout);
      assert FirstOfKey(outputs[1..], i - 1, cameraSerial, modelConfidence) by {
        forall j | 0 <= j < i - 1 && CheckCoordinateBounds(outputs[1..][j].location)
          ensures OutputKey(outputs[1..][j], cameraSerial, modelConfidence) != key
        {
          assert outputs[1..][j] == outputs[j + 1];
        }
      }
      ReportedIfPasses(next, outputs[1..], i - 1, timestamp, cameraSerial, rule, timeout, modelConfidence);
    }
  }

  /**
   * With a non-negative timeout, every violation is a detection of the batch
   * that passes every test.
   */
  lemma {:induction false} ViolationPasses(cache: TimestampCache, outputs: seq<Output>, timestamp: int, cameraSerial: string,
                                           rule: CameraRule, timeout: int, modelConfidence: real, v: Output)
    requires timeout >= 0
    requires v in Detect(cache, outputs, timestamp, cameraSerial, rule, timeout, modelConfidence).violations
    ensures exists i :: 0 <= i < |outputs| && outputs[i] == v
                        && Passes(cache, outputs, i, timestamp, cameraSerial, rule, timeout, modelConfidence)
    decreases |outputs|
  {
    var o := outputs[0];
    var key0 := OutputKey(o, cameraSerial, modelConfidence);
    var next := if CheckCoordinateBounds(o.location)
                then InferenceCache.CheckProcessed(cache, key0, timestamp, timeout).cache
                else cache;
    var rest := Detect(next, outputs[1..], timestamp, cameraSerial, rule, timeout, modelConfidence);
    if v in rest.violations {
      ViolationPasses(next, outputs[1..], timestamp, cameraSerial, rule, timeout, modelConfidence, v);
      var i' :| 0 <= i' < |outputs[1..]| && outputs[1..][i'] == v
                && Passes(next, outputs[1..], i', timestamp, cameraSerial, rule, timeout, modelConfidence);
      var key := OutputKey(v, cameraSerial, modelConfidence);
      if CheckCoordinateBounds(o.location) {
        assert SeenRecently(next, key0, timestamp, timeout);
      }
      assert SeenRecently(next, key, timestamp, timeout) == SeenRecently(cache, key, timestamp, timeout);
      assert outputs[i' + 1] == v;
      assert FirstOfKey(outputs, i' + 1, cameraSerial, modelConfidence) by {
        forall j | 0 <= j < i' + 1 && CheckCoordinateBounds(outputs[j].location)
          ensures OutputKey(outputs[j], cameraSerial, modelConfidence) != key
        {
          if j > 0 {
            assert outputs[j] == outputs[1..][j - 1];
          }
        }
      }
      assert Passes(cache, outputs, i' + 1, timestamp, cameraSerial, rule, timeout, modelConfidence);
    } else {
      assert Passes(cache, outputs, 0, timestamp, cameraSerial, rule, timeout, modelConfidence);
    }
  }

  /**
   * With a non-negative timeout the violations are exactly the detections
   * that pass every test, and `TryDetectViolation` finds one iff some
   * detection of the batch passes.
   */
  lemma ViolationsExactly(cache: TimestampCache, outputs: seq<Output>, timestamp: int, cameraSerial: string,
                          rule: CameraRule, timeout: int, modelConfidence: real)
    requires timeout >= 0
    ensures var r := Detect(cache, outputs, timestamp, cameraSerial, rule, timeout, modelConfidence);
            (forall v :: v in r.violations <==>
               exists i :: 0 <= i < |outputs| && outputs[i] == v
                           && Passes(cache, outputs, i, timestamp, cameraSerial, rule, timeout, modelConfidence))
            && (|r.violations| > 0 <==>
                  exists i :: 0 <= i < |outputs| && Passes(cache, outputs, i, timestamp, cameraSerial, rule, timeout, modelConfidence))
  {
    var r := Detect(cache, outputs, timestamp, cameraSerial, rule, timeout, modelConfidence);
    forall i | 0 <= i < |outputs| && Passes(cache, outputs, i, timestamp, cameraSerial, rule, timeout, modelConfidence)
      ensures outputs[i] in r.violations
    {
      ReportedIfPasses(cache, outputs, i, timestamp, cameraSerial, rule, timeout, modelConfidence);
    }
    forall v | v in r.violations
      ensures exists i :: 0 <= i < |outputs| && outputs[i] == v
                          && Passes(cache, outputs, i, timestamp, cameraSerial, rule, timeout, modelConfidence)
    {
      ViolationPasses(cache, outputs, timestamp, cameraSerial, rule, timeout, modelConfidence, v);
    }
    if |r.violations| > 0 {
      assert r.violations[0] in r.violations;
    }
  }

  /**
   * A concrete batch on an empty cache: a watched detection, the same box
   * with a low score, the first detection repeated and a box outside the
   * frame. Only the first is reported; the cache records the two in-bounds
   * keys and nothing for the box outside.
   */
  lemma BatchScenario()
    ensures var a := Output(1, 10, [0.1, 0.1, 0.2, 0.2], 0.9);
            var b := Output(1, 11, [0.1, 0.1, 0.2, 0.2], 0.5);
            var d := Output(1, 12, [0.1, 0.1, 1.5, 0.2], 0.9);
            var rule := CameraRule(0.7, {1}, 1000, false, 0.3);
            var r := Detect(map[], [a, b, a, d], 5000, "CAM1", rule, 1000, 0.7);
            r.violations == [a]
            && r.cache.Keys == {OutputKey(a, "CAM1", 0.7), OutputKey(b, "CAM1", 0.7)}
  {
    var a := Output(1, 10, [0.1, 0.1, 0.2, 0.2], 0.9);
    var b := Output(1, 11, [0.1, 0.1, 0.2, 0.2], 0.5);
    var d := Output(1, 12, [0.1, 0.1, 1.5, 0.2], 0.9);
    var rule := CameraRule(0.7, {1}, 1000, false, 0.3);
    var ka, kb := OutputKey(a, "CAM1", 0.7), OutputKey(b, "CAM1", 0.7);
    assert ka.range == High && kb.range == Low;
    assert !CheckCoordinateBounds(d.location) by {
      assert d.location[2] == 1.5;
    }
    assert CheckCoordinateBounds(a.location) && CheckCoordinateBounds(b.location);
    var c1 := map[ka := 5000];
    var c2 := map[ka := 5000, kb := 5000];
    assert [d][1..] == [];
    assert Detect(c2, [d], 5000, "CAM1", rule, 1000, 0.7) == Screening([], c2);
    assert [a, d][1..] == [d];
    assert Detect(c2, [a, d], 5000, "CAM1", rule, 1000, 0.7) == Screening([], c2);
    assert [b, a, d][1..] == [a, d];
    assert Detect(c1, [b, a, d], 5000, "CAM1", rule, 1000, 0.7) == Screening([], c2);
    assert [a, b, a, d][1..] == [b, a, d];
    assert Detect(map[], [a, b, a, d], 5000, "CAM1", rule, 1000, 0.7) == Screening([a], c2);
  }

  /** `Detect` on the batch from position `i` on, unfolded by one detection. */
  lemma DetectStep(cache: TimestampCache, outputs: seq<Output>, i: int, timestamp: int, cameraSerial: string,
                   rule: CameraRule, timeout: int, modelConfidence: real)
    requires 0 <= i < |outputs|
    ensures var o := outputs[i];
            var l := InferenceCache.CheckProcessed(cache, OutputKey(o, cameraSerial, modelConfidence), timestamp, timeout);
            var rest := Detect(if CheckCoordinateBounds(o.location) then l.cache else cache, outputs[i + 1..],
                               timestamp, cameraSerial, rule, timeout, modelConfidence);
            Detect(cache, outputs[i..], timestamp, cameraSerial, rule, timeout, modelConfidence)
            == if CheckCoordinateBounds(o.location) && !l.processed && o.classId in rule.classes && o.score > rule.confidence
               then Screening([o] + rest.violations, rest.cache)
               else rest
  {
    assert outputs[i..][0] == outputs[i] && outputs[i..][1..] == outputs[i + 1..];
  }

  class InferenceRules {
    /** The rule each camera serial resolves to (the model configuration). */
    const rules: string -> CameraRule
    const cache: InferenceCache.InferenceCache

    constructor (rules: string -> CameraRule, cache: InferenceCache.InferenceCache)
      ensures this.rules == rules && this.cache == cache
    {
      this.rules := rules;
      this.cache := cache;
    }

    /**
     * `TryDetectViolation`: the violations of the frame, and whether there
     * is any. A frame without an inference or without outputs has none and
     * leaves the cache alone.
     */
    method TryDetectViolation(data: Data) returns (found: bool, violations: seq<Output>)
      modifies cache
      ensures found <==> |violations| > 0
      ensures data.inference.None? || data.inference.value.outputs.None? ==>
                violations == [] && cache.cache == old(cache.cache)
      ensures data.inference.Some? && data.inference.value.outputs.Some? ==>
                Screening(violations, cache.cache)
                == Detect(old(cache.cache), data.inference.value.outputs.value, data.inference.value.timestamp,
                          data.cameraSerial, rules(data.cameraSerial), cache.timeout, cache.modelConfidence(data.cameraSerial))
    {
      var modelInference := rules(data.cameraSerial);
      violations := [];
      if data.inference.Some? && data.inference.value.outputs.Some? {
        var outputs := data.inference.value.outputs.value;
        var timestamp := data.inference.value.timestamp;
        ghost var mc := cache.modelConfidence(data.cameraSerial);
        for i := 0 to |outputs|
          invariant Detect(old(cache.cache), outputs, timestamp, data.cameraSerial, modelInference, cache.timeout, mc)
                    == var rest := Detect(cache.cache, outputs[i..], timestamp, data.cameraSerial, modelInference, cache.timeout, mc);
                       Screening(violations + rest.violations, rest.cache)
        {
          var o := outputs[i];
          DetectStep(cache.cache, outputs, i, timestamp, data.cameraSerial, modelInference, cache.timeout, mc);
          if CheckCoordinateBounds(o.location) {
            var processed := cache.TryCheckIfCoordinatesAreProcessed(o.location, timestamp, data.cameraSerial, o.classId, o.score);
            if !processed && o.classId in modelInference.classes && o.score > modelInference.confidence {
              ghost var rest := Detect(cache.cache, outputs[i + 1..], timestamp, data.cameraSerial, modelInference, cache.timeout, mc);
              assert (violations + [o]) + rest.violations == violations + ([o] + rest.violations);
              violations := violations + [o];
            }
          }
        }
        assert outputs[|outputs|..] == [];
      }
      found := |violations| > 0;
    }
  }
}
