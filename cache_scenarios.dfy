/**
 * The cache's test sequence replayed on the model: timeout 1000 ms and one
 * shared model confidence of 0.7 for every camera. It reuses the boxes,
 * fingerprints and intermediate caches of the filter's temporal sequence,
 * which calls with the same arguments up to the last timestamp.
 */
module CacheScenarios {
  import opened Fingerprints
  import opened InferenceFilter
  import opened InferenceCache
  import opened FilterScenarios

  const Timeout: int := 1000

  function SharedConfidence(cameraSerial: string): real
  {
    0.7
  }

  /** Same box throughout; camera, class, confidence and time vary one at a time. */
  const CacheQueries: seq<Sighting> := [
    Sighting(Box, BaseTime + 0, "Q2UV-N5GT-HURS", 2, 0.9),
    Sighting(Box, BaseTime + 5, "Q2UV-5LPF-HURS", 2, 0.9),
    Sighting(Box, BaseTime + 10, "Q2UV-N5GT-HURS", 2, 0.9),
    Sighting(Box, BaseTime + 20, "Q2UV-N5GT-HURS", 1, 0.9),
    Sighting(Box, BaseTime + 30, "Q2UV-N5GT-HURS", 2, 0.8),
    Sighting(Box, BaseTime + 40, "Q2UV-N5GT-HURS", 2, 0.6),
    Sighting(Box, BaseTime + 1020, "Q2UV-N5GT-HURS", 2, 0.9)
  ]

  const CacheFinal: TimestampCache := map[KeyN2High := BaseTime + 1020, Key5L2High := BaseTime + 5, KeyN1High := BaseTime + 20, KeyN2Low := BaseTime + 40]

  /** One check of the cache's sequence, at position `i`. */
  predicate CacheStep(before: TimestampCache, i: nat, processed: bool, after: TimestampCache)
    requires i < |CacheQueries|
  {
    var q := CacheQueries[i];
    CheckProcessed(before, QueryKey(q, SharedConfidence), q.timeStamp, Timeout) == Lookup(processed, after)
  }

  lemma CacheStep0()
    ensures CacheStep(map[], 0, false, Cache1)
  {
    assert QueryKey(CacheQueries[0], SharedConfidence) == KeyN2High;
    assert map[][KeyN2High := CacheQueries[0].timeStamp] == Cache1;
  }

  lemma CacheStep1()
    ensures CacheStep(Cache1, 1, false, Cache2)
  {
    assert QueryKey(CacheQueries[1], SharedConfidence) == Key5L2High;
    assert Cache1[Key5L2High := CacheQueries[1].timeStamp] == Cache2;
  }

  lemma CacheStep2()
    ensures CacheStep(Cache2, 2, true, Cache2)
  {
    assert QueryKey(CacheQueries[2], SharedConfidence) == KeyN2High;
  }

  lemma CacheStep3()
    ensures CacheStep(Cache2, 3, false, Cache4)
  {
    assert QueryKey(CacheQueries[3], SharedConfidence) == KeyN1High;
    assert Cache2[KeyN1High := CacheQueries[3].timeStamp] == Cache4;
  }

  lemma CacheStep4()
    ensures CacheStep(Cache4, 4, true, Cache4)
  {
    assert QueryKey(CacheQueries[4], SharedConfidence) == KeyN2High;
  }

  lemma CacheStep5()
    ensures CacheStep(Cache4, 5, false, Cache6)
  {
    assert QueryKey(CacheQueries[5], SharedConfidence) == KeyN2Low;
    assert Cache4[KeyN2Low := CacheQueries[5].timeStamp] == Cache6;
  }

  lemma CacheStep6()
    ensures CacheStep(Cache6, 6, false, CacheFinal)
  {
    assert QueryKey(CacheQueries[6], SharedConfidence) == KeyN2High;
    assert Cache6[KeyN2High := CacheQueries[6].timeStamp] == CacheFinal;
  }

  lemma CheckAllUnfold(cache: TimestampCache, i: nat, r: Lookup, rest: seq<bool>)
    requires i < |CacheQueries|
    requires CacheStep(cache, i, r.processed, r.cache)
    requires CheckAll(r.cache, CacheQueries[i + 1..], Timeout, SharedConfidence) == rest
    ensures CheckAll(cache, CacheQueries[i..], Timeout, SharedConfidence) == [r.processed] + rest
  {
    assert CacheQueries[i..][0] == CacheQueries[i];
    assert CacheQueries[i..][1..] == CacheQueries[i + 1..];
  }

  lemma CacheTail6()
    ensures CheckAll(Cache6, CacheQueries[6..], Timeout, SharedConfidence) == [false]
  {
    CacheStep6();
    CheckAllUnfold(Cache6, 6, Lookup(false, CacheFinal), []);
  }

  lemma CacheTail5()
    ensures CheckAll(Cache4, CacheQueries[5..], Timeout, SharedConfidence) == [false, false]
  {
    CacheStep5();
    CacheTail6();
    CheckAllUnfold(Cache4, 5, Lookup(false, Cache6), [false]);
  }

  lemma CacheTail4()
    ensures CheckAll(Cache4, CacheQueries[4..], Timeout, SharedConfidence) == [true, false, false]
  {
    CacheStep4();
    CacheTail5();
    CheckAllUnfold(Cache4, 4, Lookup(true, Cache4), [false, false]);
  }

  lemma CacheTail3()
    ensures CheckAll(Cache2, CacheQueries[3..], Timeout, SharedConfidence) == [false, true, false, false]
  {
    CacheStep3();
    CacheTail4();
    CheckAllUnfold(Cache2, 3, Lookup(false, Cache4), [true, false, false]);
  }

  lemma CacheTail2()
    ensures CheckAll(Cache2, CacheQueries[2..], Timeout, SharedConfidence) == [true, false, true, false, false]
  {
    CacheStep2();
    CacheTail3();
    CheckAllUnfold(Cache2, 2, Lookup(true, Cache2), [false, true, false, false]);
  }

  lemma CacheTail1()
    ensures CheckAll(Cache1, CacheQueries[1..], Timeout, SharedConfidence) == [false, true, false, true, false, false]
  {
    CacheStep1();
    CacheTail2();
    CheckAllUnfold(Cache1, 1, Lookup(false, Cache2), [true, false, true, false, false]);
  }

  lemma CacheTail0()
    ensures CheckAll(map[], CacheQueries[0..], Timeout, SharedConfidence) == [false, false, true, false, true, false, false]
  {
    CacheStep0();
    CacheTail1();
    CheckAllUnfold(map[], 0, Lookup(false, Cache1), [false, true, false, true, false, false]);
  }

  /** The seven answers the cache's test expects. */
  lemma CacheSequence()
    ensures CheckAll(map[], CacheQueries, Timeout, SharedConfidence) == [false, false, true, false, true, false, false]
  {
    CacheTail0();
    assert CacheQueries[0..] == CacheQueries;
  }
}
