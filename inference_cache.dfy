/**
 * The older revision of the temporal dedup cache. It keeps the same
 * fingerprint-to-timestamp map as the filter stage but answers the opposite
 * question, "was this detection already processed?", reads one timeout for
 * every camera and has no deferred first sightings.
 */
module InferenceCache {
  import opened Models
  import opened Fingerprints
  import InferenceFilter

  /** The answer of the check and the cache it leaves behind. */
  datatype Lookup = Lookup(processed: bool, cache: TimestampCache)

  /**
   * `TryCheckIfCoordinatesAreProcessed` as a transition: a fresh fingerprint
   * is recorded and reported as not processed; a known one is processed while
   * no more than the timeout has passed since its stored timestamp, and is
   * otherwise refreshed and reported as not processed.
   */
  function CheckProcessed(cache: TimestampCache, key: Fingerprint, timeStamp: int, timeout: int): (r: Lookup)
    ensures r.cache.Keys == cache.Keys + {key}
    ensures forall k :: k in cache && k != key ==> r.cache[k] == cache[k]
    ensures key !in cache ==> !r.processed && r.cache[key] == timeStamp
    ensures key in cache ==> (r.processed <==> timeStamp - cache[key] <= timeout)
    ensures r.processed ==> r.cache == cache
    ensures !r.processed ==> r.cache[key] == timeStamp
  {
    if key in cache then
      if timeStamp - cache[key] > timeout then Lookup(false, cache[key := timeStamp])
      else Lookup(true, cache)
    else
      Lookup(false, cache[key := timeStamp])
  }

  /** The key of one call, given the model confidence each camera resolves to. */
  function QueryKey(s: InferenceFilter.Sighting, modelConfidence: string -> real): Fingerprint
  {
    MakeKey(s.coordinates, s.cameraSerial, s.classId, s.confidence, modelConfidence(s.cameraSerial))
  }

  /** The answers of a run of calls on one cache, in order. */
  function CheckAll(cache: TimestampCache, queries: seq<InferenceFilter.Sighting>, timeout: int,
                    modelConfidence: string -> real): (answers: seq<bool>)
    ensures |answers| == |queries|
    decreases |queries|
  {
    if queries == [] then []
    else
      var q := queries[0];
      var r := CheckProcessed(cache, QueryKey(q, modelConfidence), q.timeStamp, timeout);
      [r.processed] + CheckAll(r.cache, queries[1..], timeout, modelConfidence)
  }

  /** The cache a run of calls leaves behind. */
  function CheckAllCache(cache: TimestampCache, queries: seq<InferenceFilter.Sighting>, timeout: int,
                         modelConfidence: string -> real): TimestampCache
    decreases |queries|
  {
    if queries == [] then cache
    else
      var q := queries[0];
      var r := CheckProcessed(cache, QueryKey(q, modelConfidence), q.timeStamp, timeout);
      CheckAllCache(r.cache, queries[1..], timeout, modelConfidence)
  }

  /**
   * The cache never loses a key: after a run it holds every key it held
   * before and the key of every call of the run, and nothing else.
   */
  lemma {:induction false} KeysNeverLost(cache: TimestampCache, queries: seq<InferenceFilter.Sighting>, timeout: int,
                                         modelConfidence: string -> real)
    ensures CheckAllCache(cache, queries, timeout, modelConfidence).Keys
            == cache.Keys + (set i | 0 <= i < |queries| :: QueryKey(queries[i], modelConfidence))
    decreases |queries|
  {
    if queries != [] {
      var q := queries[0];
      var r := CheckProcessed(cache, QueryKey(q, modelConfidence), q.timeStamp, timeout);
      KeysNeverLost(r.cache, queries[1..], timeout, modelConfidence);
      var rest := set i | 0 <= i < |queries[1..]| :: QueryKey(queries[1..][i], modelConfidence);
      var all := set i | 0 <= i < |queries| :: QueryKey(queries[i], modelConfidence);
      assert all == {QueryKey(q, modelConfidence)} + rest by {
        forall k | k in all ensures k in {QueryKey(q, modelConfidence)} + rest {
          var i :| 0 <= i < |queries| && k == QueryKey(queries[i], modelConfidence);
          if i > 0 {
            assert k == QueryKey(queries[1..][i - 1], modelConfidence);
          }
        }
        forall k | k in rest ensures k in all {
          var i :| 0 <= i < |queries[1..]| && k == QueryKey(queries[1..][i], modelConfidence);
          assert k == QueryKey(queries[i + 1], modelConfidence);
        }
      }
    }
  }

  /**
   * On the same cache and key, this cache answers the negation of the filter
   * stage's temporal check for a camera that does not defer, with the same
   * timeout, and leaves the same cache behind.
   */
  lemma OppositeOfFilter(cache: TimestampCache, key: Fingerprint, timeStamp: int, rule: CameraRule)
    requires !rule.deferred
    ensures var a := InferenceFilter.Admit(cache, key, timeStamp, rule);
            CheckProcessed(cache, key, timeStamp, rule.timeout) == Lookup(!a.isNew, a.processed)
  {
  }

  /** A sequence with every answer flipped. */
  function Negated(answers: seq<bool>): (r: seq<bool>)
    ensures |r| == |answers|
    ensures forall i :: 0 <= i < |answers| ==> r[i] == !answers[i]
    decreases |answers|
  {
    if answers == [] then [] else [!answers[0]] + Negated(answers[1..])
  }

  /**
   * Over a whole run, the cache answers the negation of the filter stage's
   * temporal check when every camera resolves to a rule that does not defer,
   * has this cache's timeout and this cache's model confidence.
   */
  lemma {:induction false} RunOppositeOfFilter(cache: TimestampCache, queries: seq<InferenceFilter.Sighting>, timeout: int,
                                               modelConfidence: string -> real, rules: string -> CameraRule)
    requires forall i :: 0 <= i < |queries| ==> var rule := rules(queries[i].cameraSerial);
               !rule.deferred && rule.timeout == timeout && rule.confidence == modelConfidence(queries[i].cameraSerial)
    ensures CheckAll(cache, queries, timeout, modelConfidence) == Negated(InferenceFilter.AdmitAll(cache, queries, rules))
    ensures CheckAllCache(cache, queries, timeout, modelConfidence) == InferenceFilter.AdmitAllCache(cache, queries, rules)
    decreases |queries|
  {
    if queries != [] {
      var q := queries[0];
      var rule := rules(q.cameraSerial);
      assert QueryKey(q, modelConfidence) == InferenceFilter.SightingKey(q, rules);
      OppositeOfFilter(cache, QueryKey(q, modelConfidence), q.timeStamp, rule);
      var r := CheckProcessed(cache, QueryKey(q, modelConfidence), q.timeStamp, timeout);
      var a := InferenceFilter.Admit(cache, InferenceFilter.SightingKey(q, rules), q.timeStamp, rule);
      RunOppositeOfFilter(r.cache, queries[1..], timeout, modelConfidence, rules);
      var answers := InferenceFilter.AdmitAll(cache, queries, rules);
      assert answers == [a.isNew] + InferenceFilter.AdmitAll(a.processed, queries[1..], rules);
      assert answers[0] == a.isNew && answers[1..] == InferenceFilter.AdmitAll(a.processed, queries[1..], rules);
    }
  }

  class InferenceCache {
    /** The `InferenceCache:Timeout` setting, in milliseconds. */
    const timeout: int
    /** The model confidence each camera serial resolves to. */
    const modelConfidence: string -> real
    var cache: TimestampCache

    constructor (timeout: int, modelConfidence: string -> real)
      ensures this.timeout == timeout && this.modelConfidence == modelConfidence
      ensures cache == map[]
    {
      this.timeout := timeout;
      this.modelConfidence := modelConfidence;
      cache := map[];
    }

    /** `GenerateKey`, with the confidence range measured against the camera's model confidence. */
    function GenerateKey(coordinates: seq<real>, camSerial: string, classId: int, confidence: real): (key: Fingerprint)
      ensures key.range == Low <==> confidence < modelConfidence(camSerial)
      ensures key.coordinates == coordinates && key.cameraSerial == camSerial && key.classId == classId
    {
      MakeKey(coordinates, camSerial, classId, confidence, modelConfidence(camSerial))
    }

    /** `TryCheckIfCoordinatesAreProcessed`: true when the detection was already processed within the timeout. */
    method TryCheckIfCoordinatesAreProcessed(coordinates: seq<real>, timeStamp: int, camSerial: string, classId: int,
                                             confidence: real) returns (processed: bool)
      modifies this
      ensures Lookup(processed, cache)
              == CheckProcessed(old(cache), GenerateKey(coordinates, camSerial, classId, confidence), timeStamp, timeout)
    {
      var key := GenerateKey(coordinates, camSerial, classId, confidence);
      if key in cache {
        var cachedTimestamp := cache[key];
        if timeStamp - cachedTimestamp > timeout {
          cache := cache[key := timeStamp];
          return false;
        }
        return true;
      } else {
        cache := cache[key := timeStamp];
        return false;
      }
    }
  }
}
