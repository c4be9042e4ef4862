/**
 * The key both revisions of the temporal dedup cache use: the detection's
 * coordinates, its camera, its class and a two-valued confidence range. The
 * source joins these into one comma-separated string; here the key is a
 * tuple, so that it is injective by construction.
 */
module Fingerprints {

  /** The confidence of a detection measured against the model's confidence. */
  datatype ConfidenceRange = Low | High

  /** "low" when the detection is less confident than the model, "high" otherwise. */
  function RangeOf(confidence: real, modelConfidence: real): (r: ConfidenceRange)
    ensures r == Low <==> confidence < modelConfidence
  {
    if confidence < modelConfidence then Low else High
  }

  datatype Fingerprint = Fingerprint(coordinates: seq<real>, cameraSerial: string, classId: int, range: ConfidenceRange)

  /** The last accepted timestamp of every fingerprint seen so far. */
  type TimestampCache = map<Fingerprint, int>

  /** `GenerateKey`, given the model confidence the camera resolves to. */
  function MakeKey(coordinates: seq<real>, cameraSerial: string, classId: int, confidence: real, modelConfidence: real): Fingerprint
  {
    Fingerprint(coordinates, cameraSerial, classId, RangeOf(confidence, modelConfidence))
  }

  /**
   * Two detections share a key exactly when they agree on coordinates,
   * camera and class and fall in the same confidence range.
   */
  lemma KeySeparation(c1: seq<real>, s1: string, k1: int, p1: real, m1: real,
                      c2: seq<real>, s2: string, k2: int, p2: real, m2: real)
    ensures MakeKey(c1, s1, k1, p1, m1) == MakeKey(c2, s2, k2, p2, m2) <==>
              c1 == c2 && s1 == s2 && k1 == k2 && (p1 < m1 <==> p2 < m2)
  {
  }
}
