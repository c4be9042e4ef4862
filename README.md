# VideoAnalyticsPipeline deduplication core, modelled in Dafny

VideoAnalyticsPipeline takes object-detection results from security cameras and decides which ones are violations worth reporting. Each result is a batch of outputs: a class id, a score and a normalised bounding box `[ymin, xmin, ymax, xmax]`. Stages of the pipeline are joined by channels that are declared in configuration.

This project models the deterministic core of the pipeline:

- **Temporal deduplication cache**, in two revisions with opposite senses:
  - `InferenceFilter.IfCoordinatesNotProcessed` returns true when a detection is new. It can swallow the first sighting of a *deferred* class.
  - `InferenceCache.TryCheckIfCoordinatesAreProcessed` returns true when a detection has already been processed.
  - Both map a fingerprint (coordinates, camera, class, low/high confidence bucket) to the time it was last accepted.
- **Spatial neighbour filter** (`InferenceFilter.IfCoordinatesNotNeighbours`). It keeps one point set per camera and class. It rejects a detection whose box midpoint lies within the radius of a stored point that is younger than the timeout.
- **Rule composition** (`InferenceRules.TryDetectViolation`). This is a short-circuiting filter over a batch: bounds, then the cache (which it changes), then class membership, then the score threshold.
- **Pipeline wiring** (`ChannelFactory` and `PipelineComponentsConfig.Components`). These turn an adjacency list of stage names into writer lists and readers.
- **Float-array JSON converters**, in two revisions: `RoundFloatArrayConverter.Read` with a fixed four-slot buffer, and with a growing list.
- **HTTP client timeout** (`CalculateTimeout` in `ResiliencyPolicy` and `HttpClientExtn`). This is the sum of a linear back-off plus a buffer.

## How the model is built

Each source class with mutable state is a Dafny `class` with fields named after the source's:

- `processedCoordinates` and `kdTree`;
- `cache`, the source's `_cache`;
- `writers` and `readers`.

Each of its methods is proved equal to a pure transition function on those fields. The pure functions used are:

| function | models |
|---|---|
| `Admit` | the filter's temporal step |
| `NeighbourStep` | the filter's spatial step |
| `CheckProcessed` | the cache's step |
| `Detect` | rule composition |
| `Wire` | channel wiring |
| `Scan` / `Converted` | the converters |

The properties the source promises are proved as lemmas about those functions. Three seven-step runs from the repository's test data are proved as concrete scenarios:

- `TestDataGenerator`'s temporal run and neighbour run;
- `InferenceCacheTests`' cache run.

Modelling choices:

- **Configuration.** The shown configuration API differs between revisions. It is given to the model as a function from camera serial to a `CameraRule`, with confidence, allowed classes, timeout, deferred flag and radius limit. The cache's timeout and confidence lookup are constructor arguments.
- **Numbers.** Coordinates and scores are `real`. `Math.Round` is modelled exactly on reals, rounding half to even, which is the C# default.
- **Fingerprints.** A fingerprint is a tuple, so it is injective by construction.
- **Spatial index.** The KdTree is a sequence of `(point, detection)` entries. Radial search keeps the points whose squared distance is at most the squared radius. Adding a point that is already stored is skipped, which is the library's default duplicate behaviour.
- **Channels.** A channel is a fresh number, namely its position in creation order.

One might expect a downstream stage to read from every channel made toward it. In the code, `readers.TryAdd` keeps only the first channel made toward a name. Channels made later toward the same name have writers but no reader, and `ReaderIsFirstChannel` states this.

## Model

| member | source | states |
|---|---|---|
| Models.ModelConfig.ClassDefault | VAP/VideoAnalyticsPipeline/ObjectModeling/Models.cs:37-44 | There is an entry iff the class id's decimal string is a key of `ClassDefaults`. If so, it is the stored entry; a missing key gives None (null). |
| Models.ModelConfig.CameraClasses | VAP/VideoAnalyticsPipeline/ObjectModeling/Models.cs:46-53 | There is a result iff the camera is a key of `Cameras`. If so, it is that camera's class array; otherwise None. |
| Models.ModelConfig.ModelConfidence | VAP/VideoAnalyticsPipeline/ObjectModeling/Models.cs:54-60 | The configured confidence of the class when it has an entry, and 0 when it has none. |
| Models.Components | VAP/VideoAnalyticsPipeline/ObjectModeling/Models.cs:67-86 | The nested loops build exactly the set of config keys together with every downstream name. A name is in it iff it is some entry's stage or one of its downstreams. |
| Models.ComponentsIgnoreOrder | VAP/VideoAnalyticsPipeline/ObjectModeling/Models.cs:71-84 | Two configs holding the same entries in any order give the same component set. |
| Models.ComponentsIgnoreDuplicates | VAP/VideoAnalyticsPipeline/ObjectModeling/Models.cs:79-82 | Replacing an entry's downstream list by any list with the same names, for example with duplicates, leaves the component set unchanged. |
| Rounding.RoundToEven | VAP/VideoAnalyticsPipeline/Utils/MessageFormatter.cs:36 | `Math.Round` gives an integer within one half of its argument, leaves integers unchanged, and sends a value exactly halfway between two integers to the even one. |
| Rounding.Round2 | VAP/VideoAnalyticsPipeline/Utils/ObjectFormatter.cs:32 | `Math.Round(value, 2)` has at most two decimals. |
| Rounding.Round2Error | VAP/VideoAnalyticsPipeline/Utils/MessageFormatter.cs:36 | Rounding to two places moves a value by at most 0.005. |
| Rounding.Round2Exact | VAP/VideoAnalyticsPipeline/Utils/ObjectFormatter.cs:32 | A value with at most two decimals is left unchanged. |
| Rounding.Round3Exact | VAP/VideoAnalyticsPipeline/Components/InferenceFilter.cs:107-108 | A value with at most three decimals is left unchanged. |
| Rounding.Round3Error | VAP/VideoAnalyticsPipeline/Components/InferenceFilter.cs:107-108 | Rounding to three places moves a value by at most 0.0005. |
| Rounding.Round3UnitInterval | VAP/VideoAnalyticsPipeline/Components/InferenceFilter.cs:107-108 | Rounding to three places keeps a value of [0, 1] inside [0, 1]. |
| Rounding.DecimalString | VAP/VideoAnalyticsPipeline/ObjectModeling/Models.cs:41 | `int.ToString()` is non-empty, and it starts with '-' iff the number is negative. |
| Fingerprints.RangeOf | VAP/VideoAnalyticsPipeline/Components/InferenceFilter.cs:99 | The bucket is Low iff the score is below the model confidence, and High otherwise. |
| Fingerprints.KeySeparation | VAP/VideoAnalyticsPipeline/Components/InferenceFilter.cs:97-102 | Two fingerprints are equal iff the coordinates, camera, class and confidence bucket all are. Inputs that differ in camera, class or bucket never share a key. |
| InferenceFilter.IfCoordinatesNotOutOfBounds | VAP/VideoAnalyticsPipeline/Components/InferenceFilter.cs:17-25 | True iff every coordinate c satisfies 0 <= c <= 1. |
| InferenceFilter.Admit | VAP/VideoAnalyticsPipeline/Components/InferenceFilter.cs:36-59 | The cache gains the key and other keys keep their values. A fresh key stores the timestamp and answers `!deferred`. A known key answers true iff more than the timeout has elapsed. A rejection leaves the cache unchanged, and an acceptance stores the new timestamp. |
| InferenceFilter.SuppressedWithinTimeout | VAP/VideoAnalyticsPipeline/Components/InferenceFilter.cs:41-50 | After an acceptance at t, every later sighting of that fingerprint no more than the timeout after t is rejected, and the cache stays unchanged. |
| InferenceFilter.AcceptedAgainAfterTimeout | VAP/VideoAnalyticsPipeline/Components/InferenceFilter.cs:41-47 | After an acceptance at t, a sighting more than the timeout later is accepted again and becomes the stored time. |
| InferenceFilter.DeferredSuppression | VAP/VideoAnalyticsPipeline/Components/InferenceFilter.cs:52-58 | For a deferred class: the first sighting is swallowed, a re-sighting within the timeout is rejected, and one after the timeout is accepted. |
| InferenceFilter.MidPoint | VAP/VideoAnalyticsPipeline/Components/InferenceFilter.cs:104-111 | x is the mean of indices 1 and 3, and y the mean of indices 0 and 2. Each is rounded to three places, so it is within 0.0005 of the exact mean. |
| InferenceFilter.MidPointInUnitSquare | VAP/VideoAnalyticsPipeline/Components/InferenceFilter.cs:104-111 | The midpoint of an in-bounds box lies in the unit square. |
| InferenceFilter.TreeAddSkipsDuplicates | VAP/VideoAnalyticsPipeline/Components/InferenceFilter.cs:93 | After `tree.Add` the partition holds the point and keeps its entries in place. It changes iff the point was new, it gains at most the new entry, and a partition without repeated points stays without them. |
| InferenceFilter.RadialSearch | VAP/VideoAnalyticsPipeline/Components/InferenceFilter.cs:77 | The neighbours are exactly the stored entries within the radius of the centre. |
| InferenceFilter.PartitionKeyAsWritten | VAP/VideoAnalyticsPipeline/Components/InferenceFilter.cs:64 | The source's partition key, camera serial followed by the class id's digits, starts with the serial and is longer than it. |
| InferenceFilter.PartitionKeyAsWrittenCollides | VAP/VideoAnalyticsPipeline/Components/InferenceFilter.cs:64-70 | Camera "CAM1" with class 23 and camera "CAM12" with class 3 get the same concatenated key, but different tuple keys. |
| InferenceFilter.PartitionKeyInjective | VAP/VideoAnalyticsPipeline/Components/InferenceFilter.cs:64 | The tuple partition key is equal iff both camera and class are. |
| InferenceFilter.NeighbourStep | VAP/VideoAnalyticsPipeline/Components/InferenceFilter.cs:60-95 | With partitions keyed by the (camera, class) pair rather than line 64's concatenated string: a detection is rejected iff its partition holds an entry within the radius that is less than the timeout old. On rejection every partition is unchanged. On acceptance the partition, created if absent, gains the midpoint with the detection, and no other partition changes. |
| InferenceFilter.PartitionsIndependent | VAP/VideoAnalyticsPipeline/Components/InferenceFilter.cs:64-71 | With the pair key, a step never changes the partition of another camera or class. With the string key of line 64 this fails for colliding pairs (first row of Findings). |
| InferenceFilter.AcceptedStoredOnce | VAP/VideoAnalyticsPipeline/Components/InferenceFilter.cs:87-94 | After an acceptance the partition holds the detection's midpoint. |
| InferenceFilter.TimeoutBoundary | VAP/VideoAnalyticsPipeline/Components/InferenceFilter.cs:43-80 | When the same detection comes exactly one timeout later, the spatial check (strict `<`) accepts it but the temporal check (strict `>`) rejects it. |
| InferenceFilter.InferenceFilter.constructor | VAP/VideoAnalyticsPipeline/Components/InferenceFilter.cs:7-15 | It starts with an empty cache and an empty spatial index. |
| InferenceFilter.InferenceFilter.GenerateKey | VAP/VideoAnalyticsPipeline/Components/InferenceFilter.cs:97-102 | The key carries the coordinates, camera and class. Its bucket is Low iff the score is below the camera's confidence. |
| InferenceFilter.InferenceFilter.IfCoordinatesNotProcessed | VAP/VideoAnalyticsPipeline/Components/InferenceFilter.cs:36-59 | The answer and the new cache are those of `Admit` on the old cache. The spatial index is unchanged. |
| InferenceFilter.InferenceFilter.IfCoordinatesNotNeighbours | VAP/VideoAnalyticsPipeline/Components/InferenceFilter.cs:60-95 | The answer and the new spatial index, keyed by (camera, class) pairs, are those of `NeighbourStep` on the old index. The cache is unchanged. |
| FilterScenarios.TemporalSequence | VAP/VideoAnalyticsPipeline.Tests/TestDataGenerator.cs:12-30 | With timeout 1000, the seven temporal sightings are admitted as true, true, false, true, false, true, true. |
| FilterScenarios.MidPoints | VAP/VideoAnalyticsPipeline.Tests/TestDataGenerator.cs:64-80 | The midpoints of the test boxes have the rounded coordinates the neighbour run relies on. |
| FilterScenarios.NeighbourSequence | VAP/VideoAnalyticsPipeline.Tests/TestDataGenerator.cs:64-80 | With radius 0.3 and timeout 1000, the seven neighbour checks answer true, false, true, true, false, true, true. |
| FilterScenarios.NeighbourSequenceNeedsSkip | VAP/VideoAnalyticsPipeline.Tests/TestDataGenerator.cs:70-71 | If a duplicate point were stored twice instead of skipped, the fourth check of that run would be false. The expected true depends on skipping. |
| InferenceCache.CheckProcessed | VAP/VideoAnalyticsPipeline/Components/InferenceCache.cs:19-39 | The cache gains the key and other keys keep their values. A fresh key stores the timestamp and answers "not processed". A known key is "processed" iff no more than the timeout has elapsed. "Processed" leaves the cache unchanged; otherwise the key maps to the new timestamp. |
| InferenceCache.KeysNeverLost | VAP/VideoAnalyticsPipeline/Components/InferenceCache.cs:19-39 | After any run of queries, the cache's keys are the old keys together with every queried key. |
| InferenceCache.OppositeOfFilter | VAP/VideoAnalyticsPipeline/Components/InferenceCache.cs:19-39 | For a non-deferred class with the same timeout, the cache answers the negation of the filter's answer and leaves the same state. |
| InferenceCache.RunOppositeOfFilter | VAP/VideoAnalyticsPipeline/Components/InferenceCache.cs:19-39 | Over a whole run of non-deferred sightings, the cache's answers are the element-wise negation of the filter's, and the final caches are equal. |
| InferenceCache.InferenceCache.constructor | VAP/VideoAnalyticsPipeline/Components/InferenceCache.cs:6-8 | It starts with an empty cache and the given timeout and confidence lookup. |
| InferenceCache.InferenceCache.GenerateKey | VAP/VideoAnalyticsPipeline/Components/InferenceCache.cs:41-46 | The key carries the coordinates, camera and class. Its bucket is Low iff the score is below the camera's confidence. |
| InferenceCache.InferenceCache.TryCheckIfCoordinatesAreProcessed | VAP/VideoAnalyticsPipeline/Components/InferenceCache.cs:19-39 | The answer and the new cache are those of `CheckProcessed` on the old cache for the generated key. |
| CacheScenarios.CacheSequence | VAP/VideoAnalyticsPipeline.Tests/InferenceCacheTests.cs:44-76 | With timeout 1000 and shared confidence 0.7, the seven queries answer false, false, true, false, true, false, false. |
| InferenceRules.BoundsOfEveryCoordinate | VAP/VideoAnalyticsPipeline/Components/InferenceRules.cs:21-29 | `CheckCoordinateBounds` holds iff every coordinate c of the box satisfies 0 <= c <= 1. |
| InferenceRules.BoundsAgree | VAP/VideoAnalyticsPipeline/Components/InferenceRules.cs:21-29 | The rules' bounds check is the filter's: every coordinate lies in [0, 1]. |
| InferenceRules.Detect | VAP/VideoAnalyticsPipeline/Components/InferenceRules.cs:11-16 | There are no more violations than outputs. Each violation is an output that is in bounds, of an allowed class, and scores above the confidence. The cache only gains keys. The converse is `ReportedIfPasses` and `ViolationsExactly`. |
| InferenceRules.ViolationsInOrder | VAP/VideoAnalyticsPipeline/Components/InferenceRules.cs:11-16 | The violations are a subsequence of the outputs, in their original order. |
| InferenceRules.CacheSeesInBoundsOnly | VAP/VideoAnalyticsPipeline/Components/InferenceRules.cs:12-13 | The cache after a batch is the cache after recording only its in-bounds outputs. Out-of-bounds outputs never touch it. |
| InferenceRules.RecordedEvenIfNotViolation | VAP/VideoAnalyticsPipeline/Components/InferenceRules.cs:13-15 | An in-bounds output of a disallowed class, or with a low score, is no violation but still records its fingerprint. |
| InferenceRules.RecentKeySuppressed | VAP/VideoAnalyticsPipeline/Components/InferenceRules.cs:11-13 | No output whose fingerprint was seen within the timeout is reported. |
| InferenceRules.ReportedAtMostOnce | VAP/VideoAnalyticsPipeline/Components/InferenceRules.cs:11-13 | Within one batch, which has one timestamp, an output is reported at most once, however often it occurs. |
| InferenceRules.ReportedIfPasses | VAP/VideoAnalyticsPipeline/Components/InferenceRules.cs:11-15 | An output is reported when it passes every test: in bounds, of an allowed class, scoring above the confidence, its fingerprint not seen within the timeout by the cache the batch starts with, and not shared with an earlier in-bounds output of the batch. |
| InferenceRules.ViolationPasses | VAP/VideoAnalyticsPipeline/Components/InferenceRules.cs:11-15 | With a non-negative timeout, every reported output sits at a position of the batch where it passes every test. |
| InferenceRules.ViolationsExactly | VAP/VideoAnalyticsPipeline/Components/InferenceRules.cs:11-18 | With a non-negative timeout, an output is reported iff it passes every test at some position, and there is a violation iff some output of the batch passes. |
| InferenceRules.BatchScenario | VAP/VideoAnalyticsPipeline/Components/InferenceRules.cs:11-18 | On an empty cache, the batch (allowed output, same box with a low score, the first output again, a box outside the frame) reports only the first output. The cache then holds the two in-bounds fingerprints. |
| InferenceRules.InferenceRules.constructor | VAP/VideoAnalyticsPipeline/Components/InferenceRules.cs:5 | It keeps the given rules and the shared cache. |
| InferenceRules.InferenceRules.TryDetectViolation | VAP/VideoAnalyticsPipeline/Components/InferenceRules.cs:7-19 | The result is true iff there are violations. A missing inference or missing outputs give no violations and leave the cache alone. Otherwise the violations and the new cache are those of `Detect` over the batch, threading the cache from left to right. |
| ChannelFactory.AddChannel | VAP/VideoAnalyticsPipeline/Messaging/ChannelFactory.cs:19-21 | One new channel is created. It is appended to the stage's writers, and it becomes the downstream's reader only when that name had none. |
| ChannelFactory.AddChannels | VAP/VideoAnalyticsPipeline/Messaging/ChannelFactory.cs:17-22 | The stage's writers gain one fresh channel per downstream, in order. Other stages are unchanged, and existing readers are kept. |
| ChannelFactory.AddEntry | VAP/VideoAnalyticsPipeline/Messaging/ChannelFactory.cs:13-23 | A new stage gets exactly one fresh channel per downstream. Readers are added only for names that had none. |
| ChannelFactory.WireFirstReaders | VAP/VideoAnalyticsPipeline/Messaging/ChannelFactory.cs:21 | Every registered reader is a channel that was created toward that name. |
| ChannelFactory.WireShape | VAP/VideoAnalyticsPipeline/Messaging/ChannelFactory.cs:11-24 | One channel is created per (stage, downstream) pair, in config order. The stages with a writer list are exactly the config keys, and the names with a reader are exactly the downstream names. |
| ChannelFactory.WritersOfEntry | VAP/VideoAnalyticsPipeline/Messaging/ChannelFactory.cs:15-20 | A stage's writer list is exactly the consecutive fresh channels made for its downstreams, in order. |
| ChannelFactory.WritersFeedDownstreams | VAP/VideoAnalyticsPipeline/Messaging/ChannelFactory.cs:17-20 | The j-th writer of a stage is a channel toward its j-th downstream. |
| ChannelFactory.ReaderIsFirstChannel | VAP/VideoAnalyticsPipeline/Messaging/ChannelFactory.cs:21 | The reader of a name is the first channel created toward it. No earlier channel goes to that name. |
| ChannelFactory.ComponentsAreWired | VAP/VideoAnalyticsPipeline/Messaging/ChannelFactory.cs:13-22 | The pipeline's components are exactly the names with a writer list or a reader. |
| ChannelFactory.SourceHasNoReader | VAP/VideoAnalyticsPipeline/Messaging/ChannelFactory.cs:35-43 | A stage that is never a downstream has a writer list but no reader. |
| ChannelFactory.ChannelFactory.constructor | VAP/VideoAnalyticsPipeline/Messaging/ChannelFactory.cs:11-24 | After the nested loops, the writers, readers and created channels are `Wire(config)`. |
| ChannelFactory.ChannelFactory.AddWriters | VAP/VideoAnalyticsPipeline/Messaging/ChannelFactory.cs:17-22 | The inner loop leaves the factory as `AddChannels` of its state before it. |
| ChannelFactory.ChannelFactory.Writers | VAP/VideoAnalyticsPipeline/Messaging/ChannelFactory.cs:25-33 | It succeeds iff the key has a writer list, and returns that list. Otherwise it fails with KeyNotFound for that key. |
| ChannelFactory.ChannelFactory.Reader | VAP/VideoAnalyticsPipeline/Messaging/ChannelFactory.cs:35-43 | It succeeds iff the key has a reader, and returns it. Otherwise it fails with KeyNotFound for that key. |
| ObjectFormatter.ScanReadsNumbers | VAP/VideoAnalyticsPipeline/Utils/ObjectFormatter.cs:28-39 | The loop collects the run of numbers after the current position. It then returns them rounded when `EndArray` follows, and fails otherwise. |
| ObjectFormatter.Outcome | VAP/VideoAnalyticsPipeline/Utils/ObjectFormatter.cs:19-40 | A missing or non-`StartArray` first token raises JsonException. Otherwise the result is the numbers up to `EndArray`, each rounded to two places, in order. Running out of tokens raises JsonException, and any other token gives InvalidOperation. |
| ObjectFormatter.EmptyArray | VAP/VideoAnalyticsPipeline/Utils/ObjectFormatter.cs:30-33 | `[]` reads as an empty array. |
| ObjectFormatter.Read | VAP/VideoAnalyticsPipeline/Utils/ObjectFormatter.cs:19-40 | The loop returns exactly `Converted(tokens)`. |
| MessageFormatter.ScanReadsNumbers | VAP/VideoAnalyticsPipeline/Utils/MessageFormatter.cs:28-39 | From any position with the remaining slots still zero, the loop's outcome is determined by the run of numbers that follows. |
| MessageFormatter.Outcome | VAP/VideoAnalyticsPipeline/Utils/MessageFormatter.cs:22-40 | A missing or non-`StartArray` first token raises JsonException. At most four numbers then `EndArray` give exactly four slots: the rounded numbers in order, the rest 0. A fifth number is IndexOutOfRange, and running out of tokens is JsonException. |
| MessageFormatter.AgreesWithVariableLength | VAP/VideoAnalyticsPipeline/Utils/MessageFormatter.cs:27-36 | When the list version succeeds with at most four values, the fixed version yields those values padded with zeros to four slots. |
| MessageFormatter.Read | VAP/VideoAnalyticsPipeline/Utils/MessageFormatter.cs:22-40 | The loop over the four-slot array returns exactly `Converted(tokens)`. |
| ResiliencyPolicy.Wrap32 | VAP/VideoAnalyticsPipeline/Utils/ResiliencyPolicy.cs:50-51 | 32-bit wrap-around gives a value in the int range, congruent to its argument modulo 2^32, and leaves in-range values unchanged. |
| ResiliencyPolicy.CalculateTimeoutAsWritten | VAP/VideoAnalyticsPipeline/Utils/ResiliencyPolicy.cs:50-51 | The expression as C# evaluates it, every operation wrapped to 32 bits and the division truncating, is an int. |
| ResiliencyPolicy.CalculateTimeout | VAP/VideoAnalyticsPipeline/Utils/ResiliencyPolicy.cs:50-51 | The expression in exact arithmetic is the buffer plus `retryInterval * n * (n + 1) / 2`, and the halving loses no remainder. |
| ResiliencyPolicy.TotalDelayClosedForm | VAP/VideoAnalyticsPipeline/Utils/ResiliencyPolicy.cs:21 | The back-off delays `retry * retryInterval` for retry = 1..n sum to r·n·(n+1)/2. |
| ResiliencyPolicy.TimeoutCoversBackOff | VAP/VideoAnalyticsPipeline/Utils/ResiliencyPolicy.cs:50-51 | The exact timeout is the total of the retry delays plus the buffer, so the division is exact. No retries give the buffer, and the default buffer of 0 gives just the delays. |
| ResiliencyPolicy.TotalDelayMonotone | VAP/VideoAnalyticsPipeline/Utils/ResiliencyPolicy.cs:21 | For a non-negative interval, the total delay is non-negative and does not decrease with the retry count. |
| ResiliencyPolicy.TimeoutMonotone | VAP/VideoAnalyticsPipeline/Utils/ResiliencyPolicy.cs:50-51 | For a non-negative interval, the timeout is at least the buffer and does not decrease with the retry count. |
| ResiliencyPolicy.AsWrittenExactForSmallSettings | VAP/VideoAnalyticsPipeline/Utils/ResiliencyPolicy.cs:12-16 | With up to 1000 retries, an interval up to 1000 and an Int16 buffer, the 32-bit expression equals the exact timeout. |
| ResiliencyPolicy.AsWrittenOverflows | VAP/VideoAnalyticsPipeline/Utils/ResiliencyPolicy.cs:50-51 | 1000 retries at interval 10000, both valid Int16 settings, give 710032704 as written, but the delays total 5005000000. |
| HttpClientExtn.CalculateTimeoutAsWritten | VAP/VideoAnalyticsPipeline/Utils/HttpClientExtn.cs:30-31 | The same 32-bit expression, without a default buffer, is an int. |
| HttpClientExtn.CalculateTimeout | VAP/VideoAnalyticsPipeline/Utils/HttpClientExtn.cs:30-31 | The exact expression there is also the buffer plus `retryInterval * n * (n + 1) / 2`, with no remainder lost. |
| HttpClientExtn.AgreesWithResiliencyPolicy | VAP/VideoAnalyticsPipeline/Utils/HttpClientExtn.cs:30-31 | Both the exact and the 32-bit versions agree with ResiliencyPolicy's on all arguments. For n >= 0 the timeout is the total of the retry delays plus the buffer. |

## Left out

- Logging (`LogWarning`, `LogError`), configuration binding, dependency injection and hosting: these only do I/O.
- Concurrency: the `ConcurrentDictionary` maps are ordinary maps, and every call runs to completion in sequence.
  - So the `TryAdd` failure that throws `InvalidOperationException` (InferenceFilter.cs:57, InferenceCache.cs:37) cannot happen and is not a modelled outcome.
  - `ChannelFactory`'s `TryAdd` of a writer list (ChannelFactory.cs:15) behaves the same way.
- `System.Threading.Channels`: channels are numbered ids. What is written to them, reading, unbounded buffering and the stage loops are not modelled.
- `ChannelFactory.ChannelFactory.Writers`: the source returns the shared mutable `List`, so a caller could change it. The model returns a value, so that aliasing is not captured.
- Floating point: `float` values are exact reals. The `(float)` casts after rounding and single-precision error are not modelled.
- `Utf8JsonReader` and `GetSingle`: the converters read a stream of already-lexed tokens.
  - A non-number token where a number is expected gives `InvalidOperation`, standing for `GetSingle`'s exception.
  - Numeric parse errors and overflow are not modelled.
- `ObjectFormatter.Read` and `MessageFormatter.Read`: both return the array's contents as a sequence. The `Write` methods, which only call the library serializer, are not modelled.
- Fingerprint string: `string.Join` with float formatting is replaced by a tuple. So a collision of the joined string, such as a camera serial containing commas with coordinates of different lengths, is not represented.
- `InferenceFilter.NeighbourStep`, `InferenceFilter.PartitionsIndependent` and `InferenceFilter.InferenceFilter.IfCoordinatesNotNeighbours` key the spatial index by the (camera, class) pair, the corrected key of the first Findings row. The source's string key `cameraSerial + output.Class` (InferenceFilter.cs:64, 70) lets two colliding pairs share one tree, and that sharing is not modelled by these members. `InferenceFilter.PartitionKeyAsWrittenCollides` exhibits it.
- `InferenceRules.ViolationPasses` and `InferenceRules.ViolationsExactly` assume a non-negative timeout. With a negative one the cache never finds an output it stored at the batch's timestamp, so a repeated output is reported again. `InferenceRules.ReportedIfPasses` needs no such assumption.
- KdTree internals: the tree is a sequence of entries with skip-on-duplicate insertion. Balancing, the search order of neighbours and the float distance metric are not modelled.
- `InferenceFilter.MidPoint`, `InferenceFilter.NeighbourStep` and `InferenceFilter.InferenceFilter.IfCoordinatesNotNeighbours` require a box of at least four coordinates. The source throws `IndexOutOfRangeException` on a shorter array, and the model does not represent that exception.
- Null references are not modelled: a null `Location`, `CameraSerial` or rule entry would throw in the source. `Location` is a sequence and the rule lookup is total.
- `InferenceRules.InferenceRules.TryDetectViolation` uses one rule per camera (classes and confidence) and the cache's timeout and confidence. The rule-resolution API at InferenceRules.cs:9 (`ModelInference`) is not part of this model.
- Timestamps are C# `long` and elapsed times are computed without overflow checks. The model uses unbounded integers, so wrap-around for timestamps near the 64-bit limits is not captured.
- Deferred test data (TestDataGenerator.cs:33-59): it needs per-class deferred resolution that the shown code does not have, so that run is not modelled.
- Occupancy counting and per-camera rule sets with fall-back defaults are not part of this model, because the shown code has neither.
- `InferenceRulesTests` exercise constructors and methods (`checkViolation`, `filterNeighbors`) that are not part of this model.
- Polly: the retry policy's timing, its retry count and `TimeSpan` conversion are library behaviour. Only the delay formula `retry * retryInterval` is modelled.

## Findings

| source | as written | input that shows it | evidently intended | confidence | as-written member | corrected member |
|---|---|---|---|---|---|---|
| VAP/VideoAnalyticsPipeline/Components/InferenceFilter.cs:64 | The spatial partition key is `cameraSerial + output.Class`, a plain concatenation. | Camera "CAM1" with class 23 and camera "CAM12" with class 3 both give "CAM123" and share one spatial index. | One index per (camera, class) pair, as the comment at line 13 says. | not executed; latent only, because serials of a fixed length cannot collide | InferenceFilter.PartitionKeyAsWrittenCollides | InferenceFilter.PartitionKeyInjective |
| VAP/VideoAnalyticsPipeline/Utils/ResiliencyPolicy.cs:50-51 | `CalculateTimeout` evaluates the product in 32-bit `int`, which wraps. HttpClientExtn.cs:30-31 has the same expression (`HttpClientExtn.AgreesWithResiliencyPolicy`). | 1000 retries at interval 10000 (both valid Int16 settings) give 710032704 seconds instead of 5005000000. | The total of the back-off delays plus the buffer, for example computed in 64 bits. | not executed; needs unusually large settings | ResiliencyPolicy.AsWrittenOverflows | ResiliencyPolicy.TimeoutCoversBackOff |
