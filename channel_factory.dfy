/**
 * The channel wiring of the pipeline. For every stage of the topology the
 * factory creates one fresh channel per downstream stage, in order: the
 * stage writes to all of its channels, and each downstream stage reads from
 * the first channel created toward it. A channel is modelled by its number
 * in order of creation, together with the name of the stage it feeds.
 */
module ChannelFactory {
  import opened Wrappers
  import opened Models

  /** The lookup failure of `Writers` and `Reader`. */
  datatype LookupError = KeyNotFound(key: string)

  /**
   * The state of the factory: each stage's writer channels, each stage's
   * reader channel, and the channels created so far (channel `c` feeds
   * `created[c]`).
   */
  datatype Wiring = Wiring(writers: map<string, seq<nat>>, readers: map<string, nat>, created: seq<string>)

  /** The channels `start`, `start + 1`, ..., `start + n - 1`. */
  function Ids(start: nat, n: nat): (r: seq<nat>)
    ensures |r| == n && forall j :: 0 <= j < n ==> r[j] == start + j
  {
    seq(n, j requires 0 <= j < n => start + j)
  }

  /**
   * Every channel is below the number created, the readers are exactly the
   * stages some channel feeds, and each reads from the first channel
   * created toward it.
   */
  ghost predicate FirstReaders(w: Wiring)
  {
    (forall k, j :: k in w.writers && 0 <= j < |w.writers[k]| ==> w.writers[k][j] < |w.created|)
    && (forall d :: d in w.readers <==> d in w.created)
    && (forall d :: d in w.readers ==>
          w.readers[d] < |w.created| && w.created[w.readers[d]] == d
          && forall j :: 0 <= j < w.readers[d] ==> w.created[j] != d)
  }

  /** One `ChannelManager.Create` toward `item`, added to `stage`'s writers; the reader is registered only once. */
  function AddChannel(w: Wiring, stage: string, item: string): (r: Wiring)
    requires stage in w.writers
    ensures r.created == w.created + [item]
    ensures r.writers.Keys == w.writers.Keys
    ensures r.writers[stage] == w.writers[stage] + [|w.created|]
    ensures forall k :: k in w.writers && k != stage ==> r.writers[k] == w.writers[k]
    ensures r.readers.Keys == w.readers.Keys + {item}
    ensures forall d :: d in w.readers ==> r.readers[d] == w.readers[d]
    ensures item !in w.readers ==> r.readers[item] == |w.created|
  {
    var channel := |w.created|;
    Wiring(w.writers[stage := w.writers[stage] + [channel]],
           if item in w.readers then w.readers else w.readers[item := channel],
           w.created + [item])
  }

  /** The inner loop of the constructor: one channel per downstream name, in order. */
  function AddChannels(w: Wiring, stage: string, items: seq<string>): (r: Wiring)
    requires stage in w.writers
    ensures r.created == w.created + items
    ensures r.writers.Keys == w.writers.Keys
    ensures r.writers[stage] == w.writers[stage] + Ids(|w.created|, |items|)
    ensures forall k :: k in w.writers && k != stage ==> r.writers[k] == w.writers[k]
    ensures r.readers.Keys == w.readers.Keys + (set d | d in items)
    ensures forall d :: d in w.readers ==> r.readers[d] == w.readers[d]
    decreases |items|
  {
    if items == [] then w
    else
      var n := |items| - 1;
      var before := AddChannels(w, stage, items[..n]);
      assert items == items[..n] + [items[n]];
      assert Ids(|w.created|, |items|) == Ids(|w.created|, n) + [|w.created| + n];
      AddChannel(before, stage, items[n])
  }

  /** One turn of the constructor's inner loop, in terms of its state before the turn. */
  lemma ChannelStep(w: Wiring, stage: string, items: seq<string>, j: nat)
    requires stage in w.writers && j < |items|
    ensures var b := AddChannels(w, stage, items[..j]);
            var c := |b.created|;
            stage in b.writers
            && AddChannels(w, stage, items[..j + 1])
               == Wiring(b.writers[stage := b.writers[stage] + [c]],
                         if items[j] in b.readers then b.readers else b.readers[items[j] := c],
                         b.created + [items[j]])
  {
    assert items[..j + 1][..j] == items[..j];
  }

  /** One entry of the outer loop: `TryAdd` an empty writer list, then the channels. */
  function AddEntry(w: Wiring, e: PipelineEntry): (r: Wiring)
    ensures r.created == w.created + e.downstreams
    ensures r.writers.Keys == w.writers.Keys + {e.stage}
    ensures r.readers.Keys == w.readers.Keys + (set d | d in e.downstreams)
    ensures forall k :: k in w.writers && k != e.stage ==> r.writers[k] == w.writers[k]
    ensures e.stage !in w.writers ==> r.writers[e.stage] == Ids(|w.created|, |e.downstreams|)
    ensures forall d :: d in w.readers ==> r.readers[d] == w.readers[d]
  {
    var added := if e.stage in w.writers then w else w.(writers := w.writers[e.stage := []]);
    AddChannels(added, e.stage, e.downstreams)
  }

  lemma AddChannelFirstReaders(w: Wiring, stage: string, item: string)
    requires stage in w.writers && FirstReaders(w)
    ensures FirstReaders(AddChannel(w, stage, item))
  {
    var r := AddChannel(w, stage, item);
    forall d | d in r.readers
      ensures r.readers[d] < |r.created| && r.created[r.readers[d]] == d
              && forall j :: 0 <= j < r.readers[d] ==> r.created[j] != d
    {
      if d in w.readers {
        assert r.readers[d] == w.readers[d];
      } else {
        assert d == item && d !in w.created;
      }
    }
  }

  lemma {:induction false} AddChannelsFirstReaders(w: Wiring, stage: string, items: seq<string>)
    requires stage in w.writers && FirstReaders(w)
    ensures FirstReaders(AddChannels(w, stage, items))
    decreases |items|
  {
    if items != [] {
      var n := |items| - 1;
      AddChannelsFirstReaders(w, stage, items[..n]);
      AddChannelFirstReaders(AddChannels(w, stage, items[..n]), stage, items[n]);
    }
  }

  /** Wiring an entry keeps every writer below the channel count and every reader on its first channel. */
  lemma AddEntryFirstReaders(w: Wiring, e: PipelineEntry)
    requires FirstReaders(w)
    ensures FirstReaders(AddEntry(w, e))
  {
    var added := if e.stage in w.writers then w else w.(writers := w.writers[e.stage := []]);
    assert FirstReaders(added);
    AddChannelsFirstReaders(added, e.stage, e.downstreams);
  }

  /** In the factory the constructor builds, each reader is the first channel created toward its stage. */
  lemma {:induction false} WireFirstReaders(config: PipelineConfig)
    ensures FirstReaders(Wire(config))
    decreases |config|
  {
    if config != [] {
      WireFirstReaders(config[..|config| - 1]);
      AddEntryFirstReaders(Wire(config[..|config| - 1]), config[|config| - 1]);
    }
  }

  /** Every downstream name of the topology, entry by entry, in order. */
  function Targets(config: PipelineConfig): (r: seq<string>)
    decreases |config|
  {
    if config == [] then []
    else Targets(config[..|config| - 1]) + config[|config| - 1].downstreams
  }

  /** The number of channels created before entry `i`. */
  function Offset(config: PipelineConfig, i: nat): nat
    requires i <= |config|
  {
    |Targets(config[..i])|
  }

  /** The factory the constructor builds: the entries in iteration order. */
  function Wire(config: PipelineConfig): Wiring
    decreases |config|
  {
    if config == [] then Wiring(map[], map[], [])
    else AddEntry(Wire(config[..|config| - 1]), config[|config| - 1])
  }

  /**
   * The channels created are the downstream names of the topology in
   * order; the writer keys are the stages of the topology and the reader
   * keys the stages some stage feeds.
   */
  lemma {:induction false} WireShape(config: PipelineConfig)
    ensures Wire(config).created == Targets(config)
    ensures Wire(config).writers.Keys == StageNames(config)
    ensures Wire(config).readers.Keys == DownstreamNames(config)
    decreases |config|
  {
    if config != [] {
      var n := |config| - 1;
      WireShape(config[..n]);
      PrefixExtend(config, n);
      assert config[..n + 1] == config;
    }
  }

  /** The downstream names before entry `k` come first among all of them. */
  lemma {:induction false} TargetsPrefix(config: PipelineConfig, k: nat)
    requires k <= |config|
    ensures Offset(config, k) <= |Targets(config)|
    ensures Targets(config)[..Offset(config, k)] == Targets(config[..k])
    decreases |config|
  {
    assert config[..|config|] == config;
    if k < |config| {
      var n := |config| - 1;
      TargetsPrefix(config[..n], k);
      assert config[..n][..k] == config[..k];
    }
  }

  /**
   * With distinct stage names, the writers of entry `i` are the channels
   * created while that entry was processed, one per downstream name: the
   * run of consecutive fresh channels that starts where the earlier entries
   * stopped.
   */
  lemma {:induction false} WritersOfEntry(config: PipelineConfig, i: nat)
    requires DistinctStages(config) && i < |config|
    ensures config[i].stage in Wire(config).writers
    ensures Wire(config).writers[config[i].stage] == Ids(Offset(config, i), |config[i].downstreams|)
    decreases |config|
  {
    var n := |config| - 1;
    var prefix := config[..n];
    assert DistinctStages(prefix);
    WireShape(prefix);
    if i == n {
      assert config[i].stage !in StageNames(prefix);
      assert |Wire(prefix).created| == Offset(config, i);
    } else {
      WritersOfEntry(prefix, i);
      assert prefix[..i] == config[..i];
      assert config[n].stage != config[i].stage;
    }
  }

  /**
   * With distinct stage names, stage `i` writes to exactly one channel per
   * downstream name, in order: its `j`-th writer feeds its `j`-th downstream
   * name, and its writers are distinct and ascending.
   */
  lemma WritersFeedDownstreams(config: PipelineConfig, i: nat)
    requires DistinctStages(config) && i < |config|
    ensures config[i].stage in Wire(config).writers
    ensures var w := Wire(config);
            var ws := w.writers[config[i].stage];
            |ws| == |config[i].downstreams|
            && (forall j :: 0 <= j < |ws| ==> ws[j] < |w.created| && w.created[ws[j]] == config[i].downstreams[j])
            && (forall j, k :: 0 <= j < k < |ws| ==> ws[j] < ws[k])
  {
    WritersOfEntry(config, i);
    WireShape(config);
    TargetsPrefix(config, i + 1);
    var upTo := config[..i + 1];
    assert upTo[..i] == config[..i];
    assert Targets(upTo) == Targets(config[..i]) + config[i].downstreams;
    IdsName(Targets(config), Targets(config[..i]), config[i].downstreams);
  }

  /** A run of ids that starts after `before` names the elements of `ds` in `all`. */
  lemma IdsName(all: seq<string>, before: seq<string>, ds: seq<string>)
    requires |before| + |ds| <= |all| && all[..|before| + |ds|] == before + ds
    ensures var ws := Ids(|before|, |ds|);
            (forall j :: 0 <= j < |ws| ==> ws[j] < |all| && all[ws[j]] == ds[j])
            && (forall j, k :: 0 <= j < k < |ws| ==> ws[j] < ws[k])
  {
    var ws := Ids(|before|, |ds|);
    forall j | 0 <= j < |ws|
      ensures ws[j] < |all| && all[ws[j]] == ds[j]
    {
      assert all[|before| + j] == all[..|before| + |ds|][|before| + j];
    }
  }

  /** Each stage some stage feeds reads from the first channel created toward it. */
  lemma ReaderIsFirstChannel(config: PipelineConfig, d: string)
    requires d in DownstreamNames(config)
    ensures var w := Wire(config);
            d in w.readers && w.readers[d] < |Targets(config)| && Targets(config)[w.readers[d]] == d
            && forall c :: 0 <= c < w.readers[d] ==> Targets(config)[c] != d
  {
    WireShape(config);
    WireFirstReaders(config);
  }

  /** The components of the topology are exactly the stages with writers or a reader. */
  lemma ComponentsAreWired(config: PipelineConfig)
    ensures ComponentSet(config) == Wire(config).writers.Keys + Wire(config).readers.Keys
  {
    WireShape(config);
  }

  /** A stage no other stage feeds, such as the source of the pipeline, has no reader. */
  lemma SourceHasNoReader(config: PipelineConfig, stage: string)
    requires stage in StageNames(config) && stage !in DownstreamNames(config)
    ensures stage in Wire(config).writers && stage !in Wire(config).readers
  {
    WireShape(config);
  }

  class ChannelFactory {
    var writers: map<string, seq<nat>>
    var readers: map<string, nat>
    /** The channels created so far, each by the stage it feeds. */
    var created: seq<string>

    /** The constructor: wire the topology's entries in iteration order. */
    constructor (config: PipelineConfig)
      ensures Wiring(writers, readers, created) == Wire(config)
    {
      writers, readers, created := map[], map[], [];
      new;
      for i := 0 to |config|
        invariant Wiring(writers, readers, created) == Wire(config[..i])
      {
        var kvp := config[i];
        assert config[..i + 1][..i] == config[..i];
        if kvp.stage !in writers {
          writers := writers[kvp.stage := []];
        }
        AddWriters(kvp.stage, kvp.downstreams);
      }
      assert config[..|config|] == config;
    }

    /** The inner loop of the constructor: one new channel per downstream name of `stage`. */
    method AddWriters(stage: string, items: seq<string>)
      requires stage in writers
      modifies this
      ensures Wiring(writers, readers, created) == AddChannels(old(Wiring(writers, readers, created)), stage, items)
    {
      ghost var added := Wiring(writers, readers, created);
      var ws: map<string, seq<nat>>, rs: map<string, nat>, cs: seq<string> := writers, readers, created;
      for j := 0 to |items|
        invariant stage in ws
        invariant Wiring(ws, rs, cs) == AddChannels(added, stage, items[..j])
      {
        var item := items[j];
        ChannelStep(added, stage, items, j);
        var writer := |cs|;
        cs := cs + [item];
        ws := ws[stage := ws[stage] + [writer]];
        if item !in rs {
          rs := rs[item := writer];
        }
      }
      assert items[..|items|] == items;
      writers, readers, created := ws, rs, cs;
    }

    /** `Writers`: the stage's writer channels, or `KeyNotFound`. */
    method Writers(key: string) returns (r: Result<seq<nat>, LookupError>)
      ensures r.Success? <==> key in writers
      ensures r.Success? ==> r.value == writers[key]
      ensures r.Failure? ==> r.error == KeyNotFound(key)
    {
      if key in writers {
        return Success(writers[key]);
      }
      return Failure(KeyNotFound(key));
    }

    /** `Reader`: the stage's reader channel, or `KeyNotFound`. */
    method Reader(key: string) returns (r: Result<nat, LookupError>)
      ensures r.Success? <==> key in readers
      ensures r.Success? ==> r.value == readers[key]
      ensures r.Failure? ==> r.error == KeyNotFound(key)
    {
      if key in readers {
        return Success(readers[key]);
      }
      return Failure(KeyNotFound(key));
    }
  }
}
