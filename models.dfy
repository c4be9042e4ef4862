/**
 * The records of the pipeline (a camera's frame of detections and the
 * configuration it is judged against) and the two configuration objects:
 * the detection model configuration with its look-ups, and the pipeline
 * topology with the set of components it names.
 */
module Models {
  import opened Wrappers
  import Rounding

  /**
   * One detection of the object-detection model. `location` holds the
   * normalised bounding box in the order [ymin, xmin, ymax, xmax].
   */
  datatype Output = Output(classId: int, id: int, location: seq<real>, score: real)

  /** The detections of one camera frame; `timestamp` is in milliseconds. */
  datatype Inference = Inference(outputs: Option<seq<Output>>, timestamp: int)

  /** The unit of work that travels through the pipeline. */
  datatype Data = Data(inference: Option<Inference>, violationDetected: bool, cameraSerial: string)

  /** A detection the spatial index has accepted, with the time it was accepted. */
  datatype Detection = Detection(output: Output, timestamp: int)

  /** The per-class entry of the model configuration. */
  datatype ModelInference = ModelInference(classId: int, confidence: real, timeout: int, deferred: bool, radiusLimit: real)

  /**
   * The rule a camera resolves to: the confidence a detection must exceed,
   * the classes that count as violations, the dedup timeout in milliseconds,
   * whether the first sighting of a fingerprint is swallowed, and the radius
   * within which two detections are the same violation.
   */
  datatype CameraRule = CameraRule(confidence: real, classes: set<int>, timeout: int, deferred: bool, radiusLimit: real)

  /**
   * The model configuration: per-class defaults keyed by the class id's
   * decimal text, and for each camera serial the array of its classes.
   */
  datatype ModelConfig = ModelConfig(classDefaults: map<string, ModelInference>, cameras: map<string, seq<int>>)
  {
    /** The class indexer: the class's entry, or null when it has none. */
    function ClassDefault(classId: int): (r: Option<ModelInference>)
      ensures r.Some? <==> Rounding.DecimalString(classId) in classDefaults
      ensures r.Some? ==> r.value == classDefaults[Rounding.DecimalString(classId)]
    {
      var key := Rounding.DecimalString(classId);
      if key in classDefaults then Some(classDefaults[key]) else None
    }

    /** The camera indexer: the camera's class array, or null when it has none. */
    function CameraClasses(cameraSerial: string): (r: Option<seq<int>>)
      ensures r.Some? <==> cameraSerial in cameras
      ensures r.Some? ==> r.value == cameras[cameraSerial]
    {
      if cameraSerial in cameras then Some(cameras[cameraSerial]) else None
    }

    /** The confidence configured for the class, or 0 when it has no entry. */
    function ModelConfidence(classId: int): (c: real)
      ensures ClassDefault(classId).Some? ==> c == ClassDefault(classId).value.confidence
      ensures ClassDefault(classId).None? ==> c == 0.0
    {
      var key := Rounding.DecimalString(classId);
      if key in classDefaults then classDefaults[key].confidence else 0.0
    }
  }

  /** One entry of the pipeline topology: a stage and the stages it feeds. */
  datatype PipelineEntry = PipelineEntry(stage: string, downstreams: seq<string>)

  /** The pipeline topology, in the dictionary's iteration order. */
  type PipelineConfig = seq<PipelineEntry>

  /** A dictionary never holds a key twice. */
  predicate DistinctStages(config: PipelineConfig)
  {
    forall i, j :: 0 <= i < j < |config| ==> config[i].stage != config[j].stage
  }

  /** The keys of the topology. */
  function StageNames(config: PipelineConfig): set<string>
  {
    set e | e in config :: e.stage
  }

  /** Every stage some stage feeds. */
  function DownstreamNames(config: PipelineConfig): set<string>
  {
    set e, d | e in config && d in e.downstreams :: d
  }

  /** The stages the topology names, as keys or as downstreams. */
  function ComponentSet(config: PipelineConfig): set<string>
  {
    StageNames(config) + DownstreamNames(config)
  }

  /** `PipelineComponentsConfig.Components`: every stage the topology names. */
  method Components(config: PipelineConfig) returns (pipelineTypes: set<string>)
    ensures pipelineTypes == ComponentSet(config)
    ensures forall name :: name in pipelineTypes <==>
              exists i :: 0 <= i < |config| && (config[i].stage == name || name in config[i].downstreams)
  {
    pipelineTypes := {};
    for i := 0 to |config|
      invariant pipelineTypes == StageNames(config[..i]) + DownstreamNames(config[..i])
    {
      var pair := config[i];
      if pair.stage !in pipelineTypes {
        pipelineTypes := pipelineTypes + {pair.stage};
      }
      for j := 0 to |pair.downstreams|
        invariant pipelineTypes == StageNames(config[..i]) + DownstreamNames(config[..i])
                                   + {pair.stage} + (set d | d in pair.downstreams[..j])
      {
        pipelineTypes := pipelineTypes + {pair.downstreams[j]};
        assert pair.downstreams[..j + 1] == pair.downstreams[..j] + [pair.downstreams[j]];
      }
      assert pair.downstreams[..|pair.downstreams|] == pair.downstreams;
      PrefixExtend(config, i);
    }
    assert config[..|config|] == config;
    forall name | name in pipelineTypes
      ensures exists i :: 0 <= i < |config| && (config[i].stage == name || name in config[i].downstreams)
    {
      if name in StageNames(config) {
        var e :| e in config && e.stage == name;
        var i :| 0 <= i < |config| && config[i] == e;
      } else {
        var e, d :| e in config && d in e.downstreams && d == name;
        var i :| 0 <= i < |config| && config[i] == e;
      }
    }
  }

  lemma PrefixExtend(config: PipelineConfig, i: nat)
    requires i < |config|
    ensures StageNames(config[..i + 1]) == StageNames(config[..i]) + {config[i].stage}
    ensures DownstreamNames(config[..i + 1]) == DownstreamNames(config[..i]) + (set d | d in config[i].downstreams)
  {
    assert config[..i + 1] == config[..i] + [config[i]];
  }

  /** The set of components does not depend on the order of the entries. */
  lemma ComponentsIgnoreOrder(c1: PipelineConfig, c2: PipelineConfig)
    requires multiset(c1) == multiset(c2)
    ensures ComponentSet(c1) == ComponentSet(c2)
  {
    forall e | e in c1 ensures e in c2 {
      assert e in multiset(c1);
    }
    forall e | e in c2 ensures e in c1 {
      assert e in multiset(c2);
    }
  }

  /** Repeating or reordering the downstream names of an entry does not change the components. */
  lemma ComponentsIgnoreDuplicates(config: PipelineConfig, i: nat, downstreams: seq<string>)
    requires i < |config|
    requires forall d :: d in downstreams <==> d in config[i].downstreams
    ensures ComponentSet(config[i := PipelineEntry(config[i].stage, downstreams)]) == ComponentSet(config)
  {
    var changed := config[i := PipelineEntry(config[i].stage, downstreams)];
    assert StageNames(changed) == StageNames(config) by {
      forall e | e in changed ensures e.stage in StageNames(config) {
        var k :| 0 <= k < |changed| && changed[k] == e;
        assert e.stage == config[k].stage;
      }
      forall e | e in config ensures e.stage in StageNames(changed) {
        var k :| 0 <= k < |config| && config[k] == e;
        assert e.stage == changed[k].stage;
      }
    }
    assert DownstreamNames(changed) == DownstreamNames(config) by {
      forall d | d in DownstreamNames(changed) ensures d in DownstreamNames(config) {
        var e :| e in changed && d in e.downstreams;
        var k :| 0 <= k < |changed| && changed[k] == e;
        assert d in config[k].downstreams;
      }
      forall d | d in DownstreamNames(config) ensures d in DownstreamNames(changed) {
        var e :| e in config && d in e.downstreams;
        var k :| 0 <= k < |config| && config[k] == e;
        assert d in changed[k].downstreams;
      }
    }
  }
}
