/**
 * The per-eye capture unit: one pass of the capture loop as a transition of a
 * small state machine over the camera state, the remembered capture source,
 * the open/closed device handle and the FIFO frame queue.
 *
 * The device (OpenCV's VideoCapture) is not modelled; each pass receives a
 * `Device` value saying how the device answers the one call that pass makes.
 */
module CaptureProcess {
  import opened Types
  import opened Frames

  datatype CameraState = Disconnected | Connecting | Connected | Disabled

  /** Per-eye capture configuration (only the fields the loop reads). */
  datatype CameraConfig = CameraConfig(
    captureSource: string,
    enabled: bool,
    flipXAxis: bool,
    flipYAxis: bool)

  /** The whole tracking configuration, holding one camera configuration per eye. */
  datatype EyeTrackConfig = EyeTrackConfig(leftEye: CameraConfig, rightEye: CameraConfig)

  /** Where an exception inside the push of a frame is raised, if anywhere. */
  datatype PushFault = PushOk | FlipRaises | PutRaises

  /** How a frame read answers: a frame (and how its push goes), no frame, or an exception. */
  datatype ReadResult = Delivered(frame: Frame, fault: PushFault) | NoFrame | ReadRaises

  /** The device's answer to whichever call a pass makes: open or read. */
  datatype Device = Device(opens: bool, read: ReadResult)

  /** The state a pass of the loop reads and writes. */
  datatype Capture = Capture(
    state: CameraState,
    currentCaptureSource: string,
    isOpen: bool,
    queue: seq<Frame>)

  /** The number of queued frames above which a push warns about backpressure. */
  const BackpressureLimit: int := 10

  /**
   * What the capture loop keeps true between passes: it never rests in
   * CONNECTING, CONNECTED means the handle is open and DISABLED means it is closed.
   */
  predicate Settled(s: Capture) {
    s.state != Connecting
    && (s.state == Connected ==> s.isOpen)
    && (s.state == Disabled ==> !s.isOpen)
  }

  /** The camera configuration an eye selects out of the whole configuration. */
  function ConfigFor(c: EyeTrackConfig, eye: EyeId): (r: CameraConfig)
    ensures eye.Value() == 0 ==> r == c.leftEye
    ensures eye.Value() != 0 ==> r == c.rightEye
  {
    if eye.Value() != 0 then c.rightEye else c.leftEye
  }

  /** The frame after the configured flips: first around the x axis, then around the y axis. */
  function Oriented(cfg: CameraConfig, f: Frame): (r: Frame)
    ensures |r| == |f|
  {
    var g := if cfg.flipXAxis then FlipAroundXAxis(f) else f;
    if cfg.flipYAxis then FlipAroundYAxis(g) else g
  }

  /**
   * Pixel `(i, j)` of the oriented frame comes from row `n - 1 - i` when
   * `flip_x_axis` is set (row `i` otherwise), and within that row from
   * column `m - 1 - j` when `flip_y_axis` is set (column `j` otherwise).
   */
  lemma OrientedPixels(cfg: CameraConfig, f: Frame)
    ensures forall i :: 0 <= i < |f| ==>
      |Oriented(cfg, f)[i]| == |f[if cfg.flipXAxis then |f| - 1 - i else i]|
    ensures forall i, j :: 0 <= i < |f| && 0 <= j < |Oriented(cfg, f)[i]| ==>
      var src := f[if cfg.flipXAxis then |f| - 1 - i else i];
      Oriented(cfg, f)[i][j] == src[if cfg.flipYAxis then |src| - 1 - j else j]
  {
  }

  /** The queue after pushing `f`: the oriented frame at the end, unless the push raised. */
  function Push(cfg: CameraConfig, q: seq<Frame>, f: Frame, fault: PushFault): (r: seq<Frame>)
    ensures fault == PushOk ==> |r| == |q| + 1 && r[..|q|] == q && r[|q|] == Oriented(cfg, f)
    ensures fault != PushOk ==> r == q
  {
    if fault == PushOk then q + [Oriented(cfg, f)] else q
  }

  /** Whether the push warns about backpressure: it reached the size check and more than ten frames were queued. */
  predicate PushWarns(q: seq<Frame>, fault: PushFault) {
    fault != FlipRaises && |q| > BackpressureLimit
  }

  /** `connect_camera`: remember the configured source and try to open it. */
  function Connect(cfg: CameraConfig, s: Capture, opens: bool): (r: Capture)
    ensures r.currentCaptureSource == cfg.captureSource && r.queue == s.queue
    ensures r.state == Connected <==> opens
    ensures r.state != Connected ==> r.state == Disconnected
    ensures r.isOpen == opens
  {
    Capture(if opens then Connected else Disconnected, cfg.captureSource, opens, s.queue)
  }

  /** `get_camera_image`: read a frame and push it; a missing frame or an exception disconnects. */
  function ReadFrame(cfg: CameraConfig, s: Capture, rr: ReadResult): (r: Capture)
    ensures r.currentCaptureSource == s.currentCaptureSource && r.isOpen == s.isOpen
    ensures s.isOpen && rr.Delivered? ==>
      r.state == s.state && r.queue == Push(cfg, s.queue, rr.frame, rr.fault)
    ensures !(s.isOpen && rr.Delivered?) ==> r.state == Disconnected && r.queue == s.queue
  {
    if !s.isOpen then s.(state := Disconnected)
    else match rr
      case Delivered(f, fault) => s.(queue := Push(cfg, s.queue, f, fault))
      case NoFrame => s.(state := Disconnected)
      case ReadRaises => s.(state := Disconnected)
  }

  /** Whether a source is configured and capture is enabled. */
  predicate Active(cfg: CameraConfig)
    ensures cfg.captureSource == "" ==> !Active(cfg)
    ensures !cfg.enabled ==> !Active(cfg)
  {
    cfg.captureSource != "" && cfg.enabled
  }

  /** Whether an active pass connects (rather than reads). */
  predicate NeedsConnect(cfg: CameraConfig, s: Capture)
    ensures s.state == Disconnected ==> NeedsConnect(cfg, s)
    ensures s.currentCaptureSource != cfg.captureSource ==> NeedsConnect(cfg, s)
    ensures Settled(s) && !NeedsConnect(cfg, s) ==> s.state == Connected || s.state == Disabled
  {
    s.state == Disconnected || s.currentCaptureSource != cfg.captureSource
  }

  /** One pass of the capture loop. */
  function Next(cfg: CameraConfig, s: Capture, d: Device): (r: Capture)
    ensures Settled(s) ==> Settled(r)
    ensures !Active(cfg) ==>
      r == s.(state := if cfg.enabled then Disconnected else Disabled, isOpen := false)
    ensures Active(cfg) && NeedsConnect(cfg, s) ==> r == Connect(cfg, s, d.opens)
    ensures Active(cfg) && !NeedsConnect(cfg, s) ==> r == ReadFrame(cfg, s, d.read)
  {
    if Active(cfg) then
      if NeedsConnect(cfg, s) then Connect(cfg, s, d.opens) else ReadFrame(cfg, s, d.read)
    else
      s.(state := if !cfg.enabled then Disabled else Disconnected, isOpen := false)
  }

  /**
   * The states one pass writes, in order: DISABLED or DISCONNECTED on an idle
   * pass, CONNECTING then the outcome on a connect, DISCONNECTED on a read that
   * fails or finds the handle closed, and nothing on a delivered read.
   */
  function Writes(cfg: CameraConfig, s: Capture, d: Device): (w: seq<CameraState>)
    ensures |w| <= 2
    ensures w == [] <==> Active(cfg) && !NeedsConnect(cfg, s) && s.isOpen && d.read.Delivered?
    ensures Connecting in w <==> Active(cfg) && NeedsConnect(cfg, s)
    ensures Connecting in w ==> |w| == 2 && w[0] == Connecting && w[1] != Connecting
  {
    if !Active(cfg) then [if cfg.enabled then Disconnected else Disabled]
    else if NeedsConnect(cfg, s) then [Connecting, Connect(cfg, s, d.opens).state]
    else if s.isOpen && d.read.Delivered? then []
    else [Disconnected]
  }

  /** The last state a pass writes is the state it ends in; a pass that writes nothing keeps the state. */
  lemma WritesEndInState(cfg: CameraConfig, s: Capture, d: Device)
    ensures Writes(cfg, s, d) != [] ==> Writes(cfg, s, d)[|Writes(cfg, s, d)| - 1] == Next(cfg, s, d).state
    ensures Writes(cfg, s, d) == [] ==> Next(cfg, s, d).state == s.state
  {
  }

  /** Whether a pass emits the backpressure warning. */
  predicate Warns(cfg: CameraConfig, s: Capture, d: Device)
    ensures Warns(cfg, s, d) ==> |s.queue| > BackpressureLimit && d.read.Delivered?
  {
    Active(cfg) && !NeedsConnect(cfg, s) && s.isOpen && d.read.Delivered?
    && PushWarns(s.queue, d.read.fault)
  }

  /** The state after one pass per device answer, in order. */
  function Run(cfg: CameraConfig, s: Capture, ds: seq<Device>): (r: Capture)
    ensures ds == [] ==> r == s
    ensures Settled(s) ==> Settled(r)
    decreases |ds|
  {
    if ds == [] then s else Run(cfg, Next(cfg, s, ds[0]), ds[1..])
  }

  /** The warnings emitted by the passes of `Run(cfg, s, ds)`, one per pass. */
  function RunWarnings(cfg: CameraConfig, s: Capture, ds: seq<Device>): (w: seq<bool>)
    ensures |w| == |ds|
    decreases |ds|
  {
    if ds == [] then [] else [Warns(cfg, s, ds[0])] + RunWarnings(cfg, Next(cfg, s, ds[0]), ds[1..])
  }

  /** The states written by the passes of `Run(cfg, s, ds)`, in order. */
  function RunWrites(cfg: CameraConfig, s: Capture, ds: seq<Device>): (w: seq<CameraState>)
    ensures |w| <= 2 * |ds|
    decreases |ds|
  {
    if ds == [] then [] else Writes(cfg, s, ds[0]) + RunWrites(cfg, Next(cfg, s, ds[0]), ds[1..])
  }

  /** The oriented frames of a run of deliveries whose push did not raise, in delivery order. */
  function Pushed(cfg: CameraConfig, ds: seq<Device>): seq<Frame>
    requires forall i :: 0 <= i < |ds| ==> ds[i].read.Delivered?
    decreases |ds|
  {
    if ds == [] then []
    else
      var head := if ds[0].read.fault == PushOk then [Oriented(cfg, ds[0].read.frame)] else [];
      head + Pushed(cfg, ds[1..])
  }

  /** Streaming state: connected to the configured source with the handle open. */
  predicate Streaming(cfg: CameraConfig, s: Capture) {
    Active(cfg) && s.state == Connected && s.currentCaptureSource == cfg.captureSource && s.isOpen
  }

  /**
   * While no source is configured or capture is disabled, every pass after
   * the first changes nothing and no pass warns.
   */
  lemma {:induction false} IdleRunIsIdempotent(cfg: CameraConfig, s: Capture, ds: seq<Device>)
    requires !Active(cfg) && |ds| > 0
    ensures Run(cfg, s, ds) == Next(cfg, s, ds[0])
    ensures !Run(cfg, s, ds).isOpen
    ensures Run(cfg, s, ds).state == (if cfg.enabled then Disconnected else Disabled)
    ensures forall k :: 0 <= k < |ds| ==> !RunWarnings(cfg, s, ds)[k]
    decreases |ds|
  {
    var s1 := Next(cfg, s, ds[0]);
    if |ds| > 1 {
      IdleRunIsIdempotent(cfg, s1, ds[1..]);
      assert Next(cfg, s1, ds[1]) == s1;
    }
  }

  /** Every run only appends to the queue: the old queue is a prefix, and each pass adds at most one frame. */
  lemma {:induction false} RunOnlyAppends(cfg: CameraConfig, s: Capture, ds: seq<Device>)
    ensures |s.queue| <= |Run(cfg, s, ds).queue| <= |s.queue| + |ds|
    ensures Run(cfg, s, ds).queue[..|s.queue|] == s.queue
    decreases |ds|
  {
    if ds != [] {
      var s1 := Next(cfg, s, ds[0]);
      RunOnlyAppends(cfg, s1, ds[1..]);
      assert s1.queue[..|s.queue|] == s.queue;
    }
  }

  /**
   * While streaming and the device keeps delivering frames, the state stays
   * CONNECTED and the queue grows by exactly the oriented frames whose push
   * did not raise, in delivery order (FIFO).
   */
  lemma {:induction false} StreamingIsFifo(cfg: CameraConfig, s: Capture, ds: seq<Device>)
    requires Streaming(cfg, s)
    requires forall i :: 0 <= i < |ds| ==> ds[i].read.Delivered?
    ensures Run(cfg, s, ds) == s.(queue := s.queue + Pushed(cfg, ds))
    decreases |ds|
  {
    if ds == [] {
      assert s.queue + [] == s.queue;
    } else {
      var head := if ds[0].read.fault == PushOk then [Oriented(cfg, ds[0].read.frame)] else [];
      var s1 := s.(queue := s.queue + head);
      assert Run(cfg, s, ds) == Run(cfg, s1, ds[1..]) by {
        StreamingStep(cfg, s, ds[0]);
      }
      assert Run(cfg, s1, ds[1..]) == s1.(queue := s1.queue + Pushed(cfg, ds[1..])) by {
        StreamingIsFifo(cfg, s1, ds[1..]);
      }
      assert s1.queue + Pushed(cfg, ds[1..]) == s.queue + Pushed(cfg, ds) by {
        assert Pushed(cfg, ds) == head + Pushed(cfg, ds[1..]);
      }
    }
  }

  /** One streaming pass that reads a frame keeps the state and appends the pushed frame, if any. */
  lemma StreamingStep(cfg: CameraConfig, s: Capture, d: Device)
    requires Streaming(cfg, s) && d.read.Delivered?
    ensures Next(cfg, s, d)
      == s.(queue := s.queue + if d.read.fault == PushOk then [Oriented(cfg, d.read.frame)] else [])
  {
  }

  /**
   * While streaming and every push succeeds, pass `k` warns exactly when the
   * queue held more than ten frames before it, which is `|s.queue| + k`.
   */
  lemma {:induction false} StreamingWarnings(cfg: CameraConfig, s: Capture, ds: seq<Device>)
    requires Streaming(cfg, s)
    requires forall i :: 0 <= i < |ds| ==> ds[i].read.Delivered? && ds[i].read.fault == PushOk
    ensures forall k :: 0 <= k < |ds| ==>
      RunWarnings(cfg, s, ds)[k] == (|s.queue| + k > BackpressureLimit)
    decreases |ds|
  {
    if ds != [] {
      var s1 := Next(cfg, s, ds[0]);
      assert |s1.queue| == |s.queue| + 1 && Streaming(cfg, s1);
      StreamingWarnings(cfg, s1, ds[1..]);
      var w := RunWarnings(cfg, s, ds);
      forall k | 0 <= k < |ds| ensures w[k] == (|s.queue| + k > BackpressureLimit) {
        if k > 0 {
          assert w[k] == RunWarnings(cfg, s1, ds[1..])[k - 1];
        }
      }
    }
  }

  /**
   * Re-enabling a DISABLED unit without changing its source takes the read
   * branch; the read finds the handle closed and disconnects, and the next
   * pass reconnects.
   */
  lemma ReenabledUnitReconnects(cfg: CameraConfig, s: Capture, d1: Device, d2: Device)
    requires Active(cfg) && Settled(s)
    requires s.state == Disabled && s.currentCaptureSource == cfg.captureSource
    ensures Next(cfg, s, d1) == s.(state := Disconnected)
    ensures Next(cfg, Next(cfg, s, d1), d2) == Connect(cfg, s, d2.opens)
  {
  }

  /**
   * Recovery without intervention: from any settled state, once a source is
   * configured and enabled, two passes in which the device opens and delivers
   * frames leave the unit CONNECTED to the configured source.
   */
  lemma RecoversToConnected(cfg: CameraConfig, s: Capture, ds: seq<Device>)
    requires Active(cfg) && Settled(s) && |ds| >= 2
    requires forall i :: 0 <= i < |ds| ==> ds[i].opens && ds[i].read.Delivered?
    ensures Run(cfg, s, ds).state == Connected
    ensures Run(cfg, s, ds).currentCaptureSource == cfg.captureSource
  {
    var s1 := Next(cfg, s, ds[0]);
    if Streaming(cfg, s1) {
      StreamingIsFifo(cfg, s1, ds[1..]);
    } else {
      var s2 := Next(cfg, s1, ds[1]);
      assert s1.state == Disconnected;
      assert Streaming(cfg, s2);
      assert ds[1..][1..] == ds[2..];
      StreamingIsFifo(cfg, s2, ds[2..]);
    }
  }

  /**
   * The last state a run writes is the state it ends in; a run that writes
   * nothing leaves the state as it was.
   */
  lemma {:induction false} RunWritesEndInState(cfg: CameraConfig, s: Capture, ds: seq<Device>)
    ensures RunWrites(cfg, s, ds) == [] ==> Run(cfg, s, ds).state == s.state
    ensures RunWrites(cfg, s, ds) != [] ==>
      RunWrites(cfg, s, ds)[|RunWrites(cfg, s, ds)| - 1] == Run(cfg, s, ds).state
    decreases |ds|
  {
    if ds != [] {
      WritesEndInState(cfg, s, ds[0]);
      RunWritesEndInState(cfg, Next(cfg, s, ds[0]), ds[1..]);
    }
  }

  /** CONNECTING is transient: every CONNECTING a run writes is followed by a different state. */
  lemma {:induction false} ConnectingIsTransient(cfg: CameraConfig, s: Capture, ds: seq<Device>)
    ensures forall k :: 0 <= k < |RunWrites(cfg, s, ds)| && RunWrites(cfg, s, ds)[k] == Connecting ==>
      k + 1 < |RunWrites(cfg, s, ds)| && RunWrites(cfg, s, ds)[k + 1] != Connecting
    decreases |ds|
  {
    if ds != [] {
      var w := Writes(cfg, s, ds[0]);
      var rest := RunWrites(cfg, Next(cfg, s, ds[0]), ds[1..]);
      ConnectingIsTransient(cfg, Next(cfg, s, ds[0]), ds[1..]);
      var all := RunWrites(cfg, s, ds);
      assert all == w + rest;
      forall k | 0 <= k < |all| && all[k] == Connecting
        ensures k + 1 < |all| && all[k + 1] != Connecting
      {
        if k < |w| {
          assert w[k] == Connecting;
        } else {
          assert rest[k - |w|] == Connecting;
        }
      }
    }
  }

  /** While streaming and the device keeps delivering frames, no state is written. */
  lemma {:induction false} StreamingWritesNothing(cfg: CameraConfig, s: Capture, ds: seq<Device>)
    requires Streaming(cfg, s)
    requires forall i :: 0 <= i < |ds| ==> ds[i].read.Delivered?
    ensures RunWrites(cfg, s, ds) == []
    decreases |ds|
  {
    if ds != [] {
      StreamingWritesNothing(cfg, Next(cfg, s, ds[0]), ds[1..]);
    }
  }

  /** A bounded run that has reached pass `i` still ends where the whole run ends after one more pass. */
  lemma RunLoopState(cfg: CameraConfig, s0: Capture, ds: seq<Device>, i: nat, s: Capture)
    requires i < |ds| && Run(cfg, s0, ds) == Run(cfg, s, ds[i..])
    ensures Run(cfg, s0, ds) == Run(cfg, Next(cfg, s, ds[i]), ds[i + 1..])
  {
  }

  /** The warnings of a bounded run that has reached pass `i`, after one more pass. */
  lemma RunLoopWarnings(cfg: CameraConfig, s0: Capture, ds: seq<Device>, i: nat, s: Capture, warnings: seq<bool>)
    requires i < |ds| && RunWarnings(cfg, s0, ds) == warnings + RunWarnings(cfg, s, ds[i..])
    ensures RunWarnings(cfg, s0, ds)
      == (warnings + [Warns(cfg, s, ds[i])]) + RunWarnings(cfg, Next(cfg, s, ds[i]), ds[i + 1..])
  {
  }

  /** The history of a bounded run that has reached pass `i`, after one more pass. */
  lemma RunLoopWrites(cfg: CameraConfig, h0: seq<CameraState>, s0: Capture, ds: seq<Device>, i: nat,
                      s: Capture, h: seq<CameraState>)
    requires i < |ds| && h0 + RunWrites(cfg, s0, ds) == h + RunWrites(cfg, s, ds[i..])
    ensures h0 + RunWrites(cfg, s0, ds)
      == (h + Writes(cfg, s, ds[i])) + RunWrites(cfg, Next(cfg, s, ds[i]), ds[i + 1..])
  {
  }

  /** The camera capture process of one eye. */
  class Camera {
    const eyeId: EyeId
    var config: CameraConfig
    var state: CameraState
    var currentCaptureSource: string
    var isOpen: bool
    var imageQueue: seq<Frame>
    /** Every state written so far, in order, so that transient states are visible. */
    ghost var stateHistory: seq<CameraState>

    /** The abstract state a pass of the loop reads and writes. */
    function Snapshot(): Capture
      reads this
    {
      Capture(state, currentCaptureSource, isOpen, imageQueue)
    }

    /** The history ends in the current state. */
    ghost predicate HistoryCurrent()
      reads this
    {
      stateHistory != [] && stateHistory[|stateHistory| - 1] == state
    }

    constructor (config: CameraConfig, eyeId: EyeId, imageQueue: seq<Frame>)
      ensures this.config == config && this.eyeId == eyeId && this.imageQueue == imageQueue
      ensures state == Disconnected && currentCaptureSource == config.captureSource && !isOpen
      ensures Settled(Snapshot()) && stateHistory == [Disconnected] && HistoryCurrent()
    {
      this.eyeId := eyeId;
      this.config := config;
      this.imageQueue := imageQueue;
      state := Disconnected;
      currentCaptureSource := config.captureSource;
      isOpen := false;
      stateHistory := [Disconnected];
    }

    method OnConfigUpdate(c: EyeTrackConfig)
      modifies this`config
      ensures config == ConfigFor(c, eyeId)
      ensures eyeId.Value() == 0 ==> config == c.leftEye
      ensures eyeId.Value() != 0 ==> config == c.rightEye
    {
      config := if eyeId.Value() != 0 then c.rightEye else c.leftEye;
    }

    function GetState(): (s: CameraState)
      reads this
      ensures s == Snapshot().state
    {
      state
    }

    method SetState(s: CameraState)
      modifies this`state, this`stateHistory
      ensures state == s && stateHistory == old(stateHistory) + [s]
    {
      state := s;
      stateHistory := stateHistory + [s];
    }

    /** One pass of the `while True` loop of `run`. */
    method Step(d: Device) returns (warned: bool)
      modifies this
      ensures config == old(config)
      ensures Snapshot() == Next(config, old(Snapshot()), d)
      ensures warned == Warns(config, old(Snapshot()), d)
      ensures Settled(old(Snapshot())) ==> Settled(Snapshot())
      // A connecting pass appends CONNECTING and then its final state (see `Writes`).
      ensures stateHistory == old(stateHistory) + Writes(config, old(Snapshot()), d)
      ensures old(HistoryCurrent()) ==> HistoryCurrent()
    {
      warned := false;
      if config.captureSource != "" && config.enabled {
        if GetState() == Disconnected || currentCaptureSource != config.captureSource {
          ConnectCamera(d.opens);
        } else {
          warned := GetCameraImage(d.read);
        }
      } else {
        if !config.enabled {
          SetState(Disabled);
        } else {
          SetState(Disconnected);
        }
        if isOpen {
          isOpen := false;
        }
      }
      WritesEndInState(config, old(Snapshot()), d);
    }

    method ConnectCamera(opens: bool)
      modifies this
      ensures config == old(config)
      ensures Snapshot() == Connect(config, old(Snapshot()), opens)
      ensures stateHistory == old(stateHistory) + [Connecting, state]
    {
      SetState(Connecting);
      currentCaptureSource := config.captureSource;
      isOpen := opens;
      if isOpen {
        SetState(Connected);
      } else {
        SetState(Disconnected);
      }
    }

    method GetCameraImage(rr: ReadResult) returns (warned: bool)
      modifies this
      ensures config == old(config)
      ensures Snapshot() == ReadFrame(config, old(Snapshot()), rr)
      ensures warned == (old(isOpen) && rr.Delivered? && PushWarns(old(imageQueue), rr.fault))
      ensures stateHistory == old(stateHistory) + (if old(isOpen) && rr.Delivered? then [] else [Disconnected])
    {
      warned := false;
      if !isOpen || !rr.Delivered? {
        SetState(Disconnected);
        return;
      }
      warned := PushImageToQueue(rr.frame, rr.fault);
    }

    method PushImageToQueue(frame: Frame, fault: PushFault) returns (warned: bool)
      modifies this`imageQueue
      ensures imageQueue == Push(config, old(imageQueue), frame, fault)
      ensures warned == PushWarns(old(imageQueue), fault)
    {
      warned := false;
      if fault == FlipRaises {
        return;
      }
      var f := frame;
      if config.flipXAxis {
        f := FlipAroundXAxis(f);
      }
      if config.flipYAxis {
        f := FlipAroundYAxis(f);
      }
      var qsize := |imageQueue|;
      if qsize > BackpressureLimit {
        warned := true;
      }
      if fault == PutRaises {
        return;
      }
      imageQueue := imageQueue + [f];
    }

    /** A bounded prefix of the capture loop: one pass per device answer. */
    method RunN(ds: seq<Device>) returns (warnings: seq<bool>)
      modifies this
      ensures config == old(config)
      ensures Snapshot() == Run(config, old(Snapshot()), ds)
      ensures warnings == RunWarnings(config, old(Snapshot()), ds)
      ensures stateHistory == old(stateHistory) + RunWrites(config, old(Snapshot()), ds)
      ensures old(HistoryCurrent()) ==> HistoryCurrent()
    {
      warnings := [];
      var i := 0;
      while i < |ds|
        invariant 0 <= i <= |ds| && config == old(config)
        invariant Run(config, old(Snapshot()), ds) == Run(config, Snapshot(), ds[i..])
        invariant RunWarnings(config, old(Snapshot()), ds)
          == warnings + RunWarnings(config, Snapshot(), ds[i..])
        invariant old(stateHistory) + RunWrites(config, old(Snapshot()), ds)
          == stateHistory + RunWrites(config, Snapshot(), ds[i..])
      {
        ghost var before := Snapshot();
        ghost var h := stateHistory;
        var w := Step(ds[i]);
        RunLoopState(config, old(Snapshot()), ds, i, before);
        RunLoopWarnings(config, old(Snapshot()), ds, i, before, warnings);
        RunLoopWrites(config, old(stateHistory), old(Snapshot()), ds, i, before, h);
        warnings := warnings + [w];
        i := i + 1;
      }
      assert stateHistory + [] == stateHistory;
      RunWritesEndInState(config, old(Snapshot()), ds);
    }
  }
}
