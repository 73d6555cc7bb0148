# Eye-tracking capture and blob estimation, modelled in Dafny

This project models the two sequential cores of the eye-tracking backend:

* **The per-eye capture unit** (`Camera` in `TrackingBackend/app/processes/camera.py`).
  Each pass of its `while True` loop is a transition of a state machine over
  the camera state (DISCONNECTED, CONNECTING, CONNECTED, DISABLED), the
  remembered capture source, the open/closed device handle and the FIFO
  image queue. `camera.dfy` has two parts:
  * the class `CaptureProcess.Camera`, whose methods follow the Python methods one by one;
  * the pure transition `CaptureProcess.Next` that every `Step` is proved equal to.

  The device is an input. Each pass receives a `Device` value: whether an
  open would succeed, and what a read yields. A read yields a frame (with
  where, if anywhere, its push raises), no frame, or an exception.
* **The blob estimator** (`Blob.run` in `TrackingBackend/app/algorithms/blob.py`),
  in `blob.dfy`. It covers binarisation at `threshold + 12`, the
  confidence-0 failure path, the stable largest-area-first ordering, the
  first-fit size filter and the truncating centre arithmetic. Contour
  extraction is an input function. It maps the binarised frame either to the
  candidates, each with an area and a bounding box, or to a failure.
  `normalize` is an input function too, applied to the chosen box centre
  and the frame's shape.

`types.dfy` holds the eye identifier. `frames.dfy` holds frames as integer
grids and the two `cv2.flip` codes the capture unit uses: 0 reverses the row
order and 1 reverses every row.

What is proved, beyond each operation's own contract:

* Every pass keeps the loop invariant `Settled`. The unit never rests in
  CONNECTING, CONNECTED implies the handle is open, and DISABLED implies it
  is closed.
* With no source or with capture disabled, every pass after the first changes
  nothing and never warns (`IdleRunIsIdempotent`).
* The queue is append-only (`RunOnlyAppends`). While streaming and the device
  keeps delivering frames, the queue grows by exactly the oriented frames whose
  push did not raise, in delivery order (`StreamingIsFifo`). When every push
  succeeds, pass `k` warns exactly when `|queue| + k > 10`
  (`StreamingWarnings`).
* From any settled state, with a source configured and capture enabled, two
  passes in which the device opens and delivers frames leave the unit
  CONNECTED to the configured source (`RecoversToConnected`).
* Every state write is recorded in a ghost history. Each pass appends exactly
  the states it writes (`Writes`): one on an idle pass, CONNECTING and then the
  outcome on a connect, DISCONNECTED on a failed read, and nothing on a
  delivered read. The history always ends in the current state, CONNECTING is
  always followed by another state (`ConnectingIsTransient`), and streaming
  writes nothing (`StreamingWritesNothing`).
* The sort is stable (`SortIsStable`). Stable descending orders are unique
  (`StableDescendingIsUnique`), so insertion sort stands for Python's
  `sorted(..., reverse=True)`.
* The first fit in area order is exactly the accepted candidate of largest
  area, the earliest among equal areas (`FirstFitOfSortedIsBest`). `Run`
  states its result both ways.

Two behaviours of the code are worth knowing:

* The unit never drops frames under backpressure. It warns when more than
  ten frames are queued and enqueues the frame anyway
  (`TrackingBackend/app/processes/camera.py:103-107`).
* The read branch is taken whenever the state is not DISCONNECTED and the
  source is unchanged, DISABLED included. A re-enabled unit therefore spends
  one pass reading a closed handle, disconnects, and reconnects on the next
  pass (`ReenabledUnitReconnects`).

## Model

| member | source | states |
|---|---|---|
| `CaptureProcess.Camera.constructor` | TrackingBackend/app/processes/camera.py:19-28 | the unit starts DISCONNECTED with the handle closed, remembers the configured source as current, and keeps the given queue, config and eye; the history is `[DISCONNECTED]` and ends in the current state |
| `Types.EyeId.Value` | TrackingBackend/app/processes/camera.py:31 | the integer value of the eye: 0 exactly for LEFT and 1 exactly for RIGHT |
| `CaptureProcess.ConfigFor` | TrackingBackend/app/processes/camera.py:31 | an eye whose value is 0 selects the left-eye config; any other value selects the right-eye config |
| `CaptureProcess.Camera.OnConfigUpdate` | TrackingBackend/app/processes/camera.py:30-31 | only `config` changes, to the selected eye's config; state, current source, handle and queue are left alone |
| `CaptureProcess.Camera.GetState` | TrackingBackend/app/processes/camera.py:33-34 | returns the unit's current camera state |
| `CaptureProcess.Camera.SetState` | TrackingBackend/app/processes/camera.py:36-38 | the state becomes the given one, the write is appended to the state history, and nothing else changes |
| `CaptureProcess.Active` | TrackingBackend/app/processes/camera.py:47 | a pass is idle whenever no source is configured or capture is disabled |
| `CaptureProcess.NeedsConnect` | TrackingBackend/app/processes/camera.py:49 | an active pass connects whenever the state is DISCONNECTED or the configured source differs from the current one; a settled unit that does not connect is CONNECTED or DISABLED |
| `CaptureProcess.Next` | TrackingBackend/app/processes/camera.py:47-61 | idle config: DISABLED if not enabled, else DISCONNECTED, handle closed, rest unchanged; active and (DISCONNECTED or source changed): connect; otherwise: read; keeps `Settled` |
| `CaptureProcess.Camera.Step` | TrackingBackend/app/processes/camera.py:44-61 | one loop pass changes the unit's state exactly as `Next` does, leaves the config alone, reports whether it warned, and keeps `Settled`; the history gains exactly the pass's `Writes` (CONNECTING and then the final state on a connecting pass) and still ends in the current state |
| `CaptureProcess.Writes` | TrackingBackend/app/processes/camera.py:47-93 | the states one pass writes: at most two; none iff the pass reads a delivered frame on an open handle; CONNECTING iff the pass connects, and then exactly CONNECTING followed by a different state |
| `CaptureProcess.WritesEndInState` | TrackingBackend/app/processes/camera.py:36-38 | the last state a pass writes is the state it ends in; a pass that writes nothing keeps the state |
| `CaptureProcess.Warns` | TrackingBackend/app/processes/camera.py:103-105 | a pass warns only when the device delivers a frame and more than 10 frames are queued |
| `CaptureProcess.Connect` | TrackingBackend/app/processes/camera.py:63-78 | current source becomes the configured one; the state ends CONNECTED iff the open succeeds and DISCONNECTED otherwise, never CONNECTING; the queue is unchanged |
| `CaptureProcess.Camera.ConnectCamera` | TrackingBackend/app/processes/camera.py:63-78 | writes CONNECTING and then the final state to the state history, and ends in the state `Connect` gives |
| `CaptureProcess.ReadFrame` | TrackingBackend/app/processes/camera.py:80-93 | a delivered frame leaves the state alone and pushes the frame; no frame, an exception, or a closed handle sets DISCONNECTED and enqueues nothing |
| `CaptureProcess.Camera.GetCameraImage` | TrackingBackend/app/processes/camera.py:80-93 | performs `ReadFrame` on the unit and warns only when a delivered frame's push warns; the history gains DISCONNECTED on a failed or closed read and nothing on a delivered one |
| `CaptureProcess.Oriented` | TrackingBackend/app/processes/camera.py:97-101 | the frame after the configured flips (x axis first, then y axis) has as many rows as the original |
| `CaptureProcess.OrientedPixels` | TrackingBackend/app/processes/camera.py:97-101 | pixel (i, j) of the result is taken from row `n-1-i` if `flip_x_axis` (else row i) and from column `m-1-j` of that row if `flip_y_axis` (else column j) |
| `CaptureProcess.Push` | TrackingBackend/app/processes/camera.py:103-109 | a push without fault appends exactly the oriented frame at the end and keeps earlier entries; a push that raises leaves the queue as it was |
| `CaptureProcess.PushWarns` | TrackingBackend/app/processes/camera.py:103-104 | the push warns iff it reached the size check (the flips did not raise) and more than 10 frames were queued |
| `CaptureProcess.Camera.PushImageToQueue` | TrackingBackend/app/processes/camera.py:95-109 | the queue becomes `Push(...)` of the old queue; it warns iff the size check was reached and more than 10 frames were queued before the put |
| `CaptureProcess.Run` | TrackingBackend/app/processes/camera.py:44-61 | the state after a sequence of loop passes; no passes change nothing, and every run keeps `Settled` |
| `CaptureProcess.RunWarnings` | TrackingBackend/app/processes/camera.py:44-61 | one warning flag per pass of the run |
| `CaptureProcess.RunWrites` | TrackingBackend/app/processes/camera.py:44-61 | the states written over a run, at most two per pass |
| `CaptureProcess.Camera.RunN` | TrackingBackend/app/processes/camera.py:44-61 | a bounded run of loop passes ends in `Run` of the initial state, returns one warning flag per pass, appends exactly `RunWrites` to the history, and keeps the history ending in the current state |
| `CaptureProcess.IdleRunIsIdempotent` | TrackingBackend/app/processes/camera.py:53-61 | with no source or disabled, a run equals its first pass: DISABLED or DISCONNECTED, handle closed, no warnings |
| `CaptureProcess.ReenabledUnitReconnects` | TrackingBackend/app/processes/camera.py:47-52 | a re-enabled DISABLED unit with an unchanged source reads, disconnects, and connects on the next pass |
| `CaptureProcess.RunOnlyAppends` | TrackingBackend/app/processes/camera.py:107 | over any run the old queue stays a prefix and at most one frame is added per pass |
| `CaptureProcess.StreamingIsFifo` | TrackingBackend/app/processes/camera.py:80-109 | while streaming and frames are delivered, the state stays CONNECTED and the queue becomes old queue + the oriented frames whose push succeeded, in order |
| `CaptureProcess.StreamingWarnings` | TrackingBackend/app/processes/camera.py:103-106 | while streaming with successful pushes, pass k warns iff the queue held more than 10 frames before it (`|queue| + k > 10`) |
| `CaptureProcess.RecoversToConnected` | TrackingBackend/app/processes/camera.py:47-77 | from any settled state with an active config, two or more passes where the device opens and delivers end CONNECTED to the configured source |
| `CaptureProcess.RunWritesEndInState` | TrackingBackend/app/processes/camera.py:36-61 | the last state a run writes is the state the run ends in; a run that writes nothing keeps the state |
| `CaptureProcess.ConnectingIsTransient` | TrackingBackend/app/processes/camera.py:63-77 | every CONNECTING written during a run is immediately followed by a different state |
| `CaptureProcess.StreamingWritesNothing` | TrackingBackend/app/processes/camera.py:80-93 | while streaming with frames delivered, a run writes no state |
| `Frames.FlipAroundXAxis` | TrackingBackend/app/processes/camera.py:97-98 | flip code 0: row i of the result is row `n-1-i` of the frame |
| `Frames.FlipAroundYAxis` | TrackingBackend/app/processes/camera.py:100-101 | flip code 1: every row keeps its length and pixel j of it is pixel `m-1-j` of the original row |
| `Frames.FlipsCommute` | TrackingBackend/app/processes/camera.py:97-101 | applying both flips gives the same frame in either order |
| `BlobAlgorithm.Binarize` | TrackingBackend/app/algorithms/blob.py:15 | same shape; a pixel is 255 iff it exceeds the threshold and 0 iff it does not |
| `BlobAlgorithm.Extracted` | TrackingBackend/app/algorithms/blob.py:15-19 | the candidates are those extraction finds in the frame binarised at `threshold + 12` |
| `BlobAlgorithm.Height` | TrackingBackend/app/algorithms/blob.py:47 | `shape[0]`: the number of rows of the frame |
| `BlobAlgorithm.Width` | TrackingBackend/app/algorithms/blob.py:47 | `shape[1]`: for a rectangular non-empty frame, the length of every row |
| `BlobAlgorithm.TruncHalf` | TrackingBackend/app/algorithms/blob.py:40-41 | `int(w / 2)`: the half of w truncated toward zero (remainder in [0, 1] for w >= 0, in [-1, 0] for w < 0) |
| `BlobAlgorithm.CentreOf` | TrackingBackend/app/algorithms/blob.py:40-41 | the centre is `(x + int(w / 2), y + int(h / 2))`; for a box of non-negative size it lies inside the box, in its left/top half |
| `BlobAlgorithm.NormalizedCentre` | TrackingBackend/app/algorithms/blob.py:47 | the box centre passed to `normalize` together with the frame's `shape[0]` (rows) and `shape[1]` (row length) |
| `BlobAlgorithm.Accepts` | TrackingBackend/app/algorithms/blob.py:34-38 | a candidate fits iff its width and its height both lie in `[minsize, maxsize]`, bounds inclusive; when `minsize > maxsize`, nothing fits |
| `BlobAlgorithm.SortByAreaDesc` | TrackingBackend/app/algorithms/blob.py:20 | the result is a permutation of the candidates (same multiset) in non-increasing area order |
| `BlobAlgorithm.SortIsStable` | TrackingBackend/app/algorithms/blob.py:20 | for every area, the candidates of that area appear in the sorted list in their discovery order |
| `BlobAlgorithm.StableDescendingIsUnique` | TrackingBackend/app/algorithms/blob.py:20 | two area-descending lists that agree on every area's candidate order are equal, so any stable sort gives `SortByAreaDesc` |
| `BlobAlgorithm.FirstFit` | TrackingBackend/app/algorithms/blob.py:29-38 | the index of an accepted candidate (both sides in [minsize, maxsize], inclusive) with every earlier one rejected, or none when none is accepted |
| `BlobAlgorithm.BestAccepted` | TrackingBackend/app/algorithms/blob.py:29-50 | the index of an accepted candidate of largest area among the accepted ones, earliest among equal areas; none iff nothing is accepted |
| `BlobAlgorithm.FirstFitOfSortedIsBest` | TrackingBackend/app/algorithms/blob.py:20-50 | the first fit in the stably area-sorted list is the same candidate as `BestAccepted` on the unsorted list |
| `BlobAlgorithm.FirstFitCentre` | TrackingBackend/app/algorithms/blob.py:29-48 | the scan returns the truncated box centre of the first fitting candidate, or nothing |
| `BlobAlgorithm.Run` | TrackingBackend/app/algorithms/blob.py:14-50 | binarises at threshold + 12; confidence 0 with (0, 0) iff extraction fails or finds nothing; else confidence 1 with `normalize` of the first fit's centre, which is the largest accepted candidate's centre, or (0, 0) if none fits; the eye id passes through |

## Left out

- OpenCV is not modelled. That covers `VideoCapture` open/read/set/get, the open and read timeouts (`OPENCV_PARAMS`), `findContours`, `contourArea` and `boundingRect`. Their results are the inputs described above. A read on a closed handle either returns no frame or raises, since `connect_camera` switches on exception mode (camera.py:68). Both end DISCONNECTED, and the model treats both as "no frame".
- Contour areas are integers here; `contourArea` returns a float.
- `normalize` lives in `app.utils`, which is not part of this model, and works in floating point. It is a parameter of `BlobAlgorithm.Run`, applied to the box centre and the frame's `shape[0]` (row count, `Height`) and `shape[1]` (row length, `Width`). Nothing is assumed about what it returns, so a detection may coincide with the `(0, 0)` of the nothing-fits result, as in the source.
- Drawing and display (`cv2.drawContours`, `cv2.rectangle`, `cv2.imshow`) are left out. They are UI side effects on the frame.
- Logging and the `print` in `Blob.run` are left out. The backpressure warning is the only log event modelled, as a returned flag.
- Concurrency is left out. That covers the `multiprocessing.Value` holding the state, the worker process start/stop, and the queue shared with the estimator process. The queue is a plain sequence that only this unit appends to, so a consumer draining it is not modelled. The state is kept as the enumeration itself, not as its integer value in shared memory. The integer values of `EyeID` come from `app.types`, which is not part of this model; LEFT = 0 and RIGHT = 1 are assumed.
- CaptureProcess.Camera.PushImageToQueue: a fault inside either flip is one event, `FlipRaises`, raised before the size check.
- BlobAlgorithm.TruncHalf: uses exact integer arithmetic. Python divides in floating point before truncating, and the two differ only for widths beyond 2^53.
- BlobAlgorithm.Run: does not model a fault in `cv2.threshold` itself, which sits outside the `try` in the source.
- `TrackingBackend/app/tracker.py` (process wiring, start/stop/restart) and `TrackingBackend/main.py` (web server) are not part of this model. The tracker's left/right selection is the same as `ConfigFor`.
