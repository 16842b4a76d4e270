# Geospatial measurement pipeline — Dafny model

This project models the decision and arithmetic rules of a landscape-measurement
pipeline. AI-generated masks of lawns, mulch beds and patios are filtered by confidence.
Their polygons are simplified and measured on the WGS84 ellipsoid. Noise-sized results
are discarded. Failing measurement tasks are retried with exponential backoff. Stored
features are priced per square foot.

All geometry is delegated to two foreign libraries: shapely (polygon construction and
topology-preserving `simplify`) and pyproj (signed geodesic area). They appear in the model as the
function-valued fields of `Geometry.GeoLibrary`, so every property proved here holds
whatever those libraries compute. Areas, rates and costs are Dafny `real`s.

Modules, one per source file:

- `Geometry` (`geometry.dfy`, `core/geometry.py`): vertices and rings, the foreign
  library, `simplify_polygon` with its default tolerance 0.05, and
  `calculate_precision_area` (absolute value of the signed area times 10.7639).
- `WorkerGeometry` (`worker_geometry.dfy`, `src/core/geometry.py`):
  `simplify_and_calculate`, which builds the polygon from the vertex list, simplifies it,
  measures the simplified polygon and returns it with its area.
- `WorkerTasks` (`worker_tasks.dfy`, `src/worker/tasks.py`): the noise gate at
  1.0 ft², and Celery's retry of `process_map_inference` as a state machine on the retry
  count. The countdown is `2 ** retries` and `max_retries` is 3. Once retries are
  exhausted, Celery re-raises the original exception.
- `AiWorker` (`ai_worker.dfy`, `src/services/ai_worker.py`): the confidence filter
  `score > 0.85` and the choice between manual review and geospatial processing.
- `ReportService` (`report_service.dfy`, `services/report_service.py`): the rate table,
  per-feature cost estimates, and the refusal to report on a task without features.

Behaviour of the code worth knowing:

- The confidence test is strict: a score of exactly 0.85 is dropped.
- An unknown feature type silently gets rate 0 and carries no "unknown type" flag.
- Simplification is one library call. There is no retry with a smaller tolerance and no
  fallback to the original ring.
- The backoff is `2 ** retries` seconds with no configurable base. A permanently failing
  task surfaces the last exception only, not an attempt history.
- `segment_map_task` declares `max_retries=3` but never calls `self.retry`, so it
  schedules no retry at all.

`process_map_inference` calls `refine_and_measure`, which neither `core/geometry.py`
nor `src/core/geometry.py` defines. The model therefore takes the outcome of each execution as a parameter
(`execute(n)`, where n is the retry count during that execution). That parameter
covers the case where every call raises.

## Model

| member | source | states |
|---|---|---|
| Geometry.SimplifyPolygon | core/geometry.py:10-17 | the simplifier is called with 0.05 when no tolerance is given, or with the given tolerance, and its output is returned unmodified |
| Geometry.DefaultToleranceIsFiveHundredths | core/geometry.py:10 | omitting the tolerance gives the same result as passing 0.05 |
| Geometry.CalculatePrecisionArea | core/geometry.py:19-25 | the area is never negative; it equals the signed ellipsoidal area times 10.7639 up to sign (the factor is applied exactly once); converting it back to m² gives the magnitude of the signed area |
| Geometry.WindingInvariance | core/geometry.py:23-25 | if reversing the ring negates the signed area, the measured area of the reversed ring equals that of the ring |
| Geometry.ZeroAreaIffZeroSignedArea | core/geometry.py:25 | the measured area is 0 exactly when the signed area is 0 |
| Geometry.MonotoneInMagnitude | core/geometry.py:25 | one ring measures no more than another exactly when the magnitude of its signed area is no larger |
| WorkerGeometry.SimplifyAndCalculate | src/core/geometry.py:13-20 | the second component is the simplifier's output, at the effective tolerance, for the polygon built from the vertex list; the first is non-negative and is 10.7639 times that simplified ring's signed area, up to sign |
| WorkerGeometry.AgreesWithCoreProcessor | src/core/geometry.py:14-20 | the combined operation equals polygon construction, then `simplify_polygon` and `calculate_precision_area` of the other processor |
| WorkerGeometry.MeasuresSimplifiedNotRaw | src/core/geometry.py:14-20 | when simplification changes the magnitude of the signed area, the reported area differs from the area of the unsimplified polygon |
| WorkerGeometry.DefaultToleranceApplied | src/core/geometry.py:13 | omitting the tolerance gives the same pair as passing 0.05 |
| WorkerTasks.NoiseGate | src/worker/tasks.py:15-18 | the result is `ignored` with reason `noise` exactly when the area is below 1.0; otherwise it is `success` and carries the measurement results unchanged |
| WorkerTasks.Attempt | src/worker/tasks.py:9-21 | a returned measurement always finishes through the noise gate; an exception never yields `ignored` or `success`; it schedules a retry after `2 ** retries` seconds exactly when fewer than 3 retries were made, and otherwise re-raises the same error |
| WorkerTasks.Run | src/worker/tasks.py:7-21 | a run from retry count 0 reaches retry count at most 3; the k-th countdown is 2^k; every execution before the last raised; the task completes exactly when the last execution returned, with the noise gate's result; a permanent failure happens only at retry count 3 or more and carries that execution's error |
| WorkerTasks.AtMostFourExecutions | src/worker/tasks.py:7 | at most 3 retries and 4 executions in all |
| WorkerTasks.BackoffStrictlyIncreasing | src/worker/tasks.py:21 | each scheduled countdown is strictly larger than every earlier one |
| WorkerTasks.AlwaysRaisingExhaustsRetries | src/worker/tasks.py:7-21 | a task whose measurement always raises is retried after 1, 2 and 4 seconds and then fails permanently with its fourth execution's error |
| WorkerTasks.FirstSuccessEndsTask | src/worker/tasks.py:12-18 | a first execution that returns ends the task with no retry |
| AiWorker.ValidatedFeatures | src/services/ai_worker.py:5 | every kept mask scores above 0.85; every input mask scoring above 0.85 is kept; every kept mask comes from the input; the kept list is an order-preserving subsequence of the input |
| AiWorker.GatePartitionsMasks | src/services/ai_worker.py:5 | the kept masks and the dropped masks (all scoring at most 0.85) together are exactly the input, as a multiset |
| AiWorker.ThresholdIsStrict | src/services/ai_worker.py:5 | a mask scoring exactly 0.85 is dropped |
| AiWorker.NothingKeptIffNoneConfident | src/services/ai_worker.py:5-7 | the filtered list is empty exactly when no mask scores above 0.85 |
| AiWorker.SegmentMapTask | src/services/ai_worker.py:4-11 | manual review, with the original image, happens exactly when no predicted mask scores above 0.85; otherwise processing receives exactly the non-empty filtered list |
| ReportService.RateOf | services/report_service.py:33-35 | mulch 3.50, lawn 1.25 and patio 15.00 per ft², and 0 for every other type |
| ReportService.MaterialEstimates | services/report_service.py:28-37 | one estimate per feature, in the same order; each has the feature's type, and its cost is the area times the type's rate |
| ReportService.EstimatesDistribute | services/report_service.py:34-37 | estimating a concatenation is the concatenation of the estimates, so each estimate depends only on its own feature |
| ReportService.NonNegativeCosts | services/report_service.py:33-35 | non-negative areas give non-negative costs |
| ReportService.MulchExample | services/report_service.py:33-35 | 100 ft² of mulch cost 350 |
| ReportService.UnknownTypeCostsNothing | services/report_service.py:35 | a feature whose type is not in the rate table costs 0 |
| ReportService.GenerateFinalReport | services/report_service.py:9-26 | the task is rejected exactly when the repository returns no features; otherwise the document request carries the task id, the fetched features and exactly their estimates |

## Left out

- shapely `Polygon(coords)` and `simplify`, and pyproj `geometry_area_perimeter`: foreign library numerics. They are the function-valued fields `polygon`, `simplify` and `signedAreaSqM` of `Geometry.GeoLibrary`. Polygon construction is total in the model: the errors shapely raises for too few coordinates are not modelled. The perimeter is discarded, as in the code.
- The area deviation check of tests/test_geometry_integrity.py:27-33: it depends entirely on library numerics.
- IEEE-754 rounding, NaN and infinities: all quantities are exact reals.
- Celery app and broker setup, and the decorators' runtime behaviour beyond `self.retry`. The broker's queueing and the real passage of the countdown are not modelled; a retry is recorded by its countdown.
- `refine_and_measure`, `sam_model.predict`, `trigger_manual_review` and `process_geospatial_results`: foreign calls. They are parameters or recorded outcomes.
- Exceptions raised inside `segment_map_task` (for example by prediction): they propagate unhandled, and since the body never calls `self.retry`, `max_retries=3` is never exercised there.
- The SQLAlchemy repository and ORM model: persistence plumbing. The repository query is a function parameter of `GenerateFinalReport`.
- The FastAPI route and the PDF generator: HTTP and rendering plumbing. A successful report is the request handed to the generator; the returned file path is not modelled.
