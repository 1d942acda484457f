/** The frame-capture step runner: a frame grabber (camera or video file)
    started lazily on the first exec, and torn down by close. The grabber
    is a device whose start, grab, stop and close can fail; each outcome is
    a parameter of the method that meets it. */
module FrameCapture {
  import opened Results
  import opened Values

  /** The two step configurations the runner is built from. */
  datatype CaptureStep =
    | CameraFrameCaptureStep(camera: int, width: int, height: int, cameraOutputKey: string)
    | VideoFrameCaptureStep(filePath: string, videoOutputKey: string)
  {
    function OutputKey(): string {
      if CameraFrameCaptureStep? then cameraOutputKey else videoOutputKey
    }
  }

  /** Where a grabber reads frames from. */
  datatype Source = OpenCVCamera(camera: int) | FFmpegFile(path: string)

  datatype GrabberState = Created | Started | Stopped | Closed

  datatype Grabber = Grabber(source: Source, state: GrabberState)

  /** The grabber an init action creates for a step. */
  function SourceOf(step: CaptureStep): Source {
    match step
    case CameraFrameCaptureStep(camera, _, _, _) => OpenCVCamera(camera)
    case VideoFrameCaptureStep(path, _) => FFmpegFile(path)
  }

  const StartFailure := "Failed to start video frame grabber"
  const GrabFailure := "Error getting frame"
  const CloseWarning := "Error stopping/closing FrameGrabber"

  class FrameCaptureStepRunner {
    const step: CaptureStep
    const outputKey: string
    var initialized: bool
    /** null until the first init; replaced by every init. */
    var grabber: Option<Grabber>
    /** Warnings written to the log. */
    var warnings: seq<string>

    /** A started grabber for this step exists whenever the runner is
        initialized. */
    predicate Valid()
      reads this
    {
      initialized ==> grabber == Some(Grabber(SourceOf(step), Started))
    }

    /** new FrameCaptureStepRunner(CameraFrameCaptureStep): records the step
        and its output key; nothing is started. */
    constructor FromCamera(step: CaptureStep)
      requires step.CameraFrameCaptureStep?
      ensures Valid()
      ensures this.step == step && outputKey == step.OutputKey()
      ensures !initialized && grabber.None? && warnings == []
    {
      this.step := step;
      this.outputKey := step.OutputKey();
      initialized := false;
      grabber := None;
      warnings := [];
    }

    /** new FrameCaptureStepRunner(VideoFrameCaptureStep). */
    constructor FromVideo(step: CaptureStep)
      requires step.VideoFrameCaptureStep?
      ensures Valid()
      ensures this.step == step && outputKey == step.OutputKey()
      ensures !initialized && grabber.None? && warnings == []
    {
      this.step := step;
      this.outputKey := step.OutputKey();
      initialized := false;
      grabber := None;
      warnings := [];
    }

    /** getPipelineStep(). */
    function GetPipelineStep(): (s: CaptureStep)
      ensures s == step
    {
      step
    }

    /** initOpenCVFrameGrabber: a new camera grabber replaces the old one;
        the runner is initialized only if it starts. */
    method InitOpenCVFrameGrabber(startOk: bool) returns (r: Result<()>)
      requires step.CameraFrameCaptureStep? && !initialized
      modifies this
      ensures initialized == startOk
      ensures grabber == Some(Grabber(OpenCVCamera(step.camera), if startOk then Started else Created))
      ensures r.Ok? <==> startOk
      ensures !startOk ==> r == Err(Exception(Runtime, StartFailure))
      ensures warnings == old(warnings)
      ensures Valid()
    {
      grabber := Some(Grabber(OpenCVCamera(step.camera), Created));
      if !startOk {
        return Err(Exception(Runtime, StartFailure));
      }
      grabber := Some(grabber.value.(state := Started));
      initialized := true;
      return Ok(());
    }

    /** initFFmpegFrameGrabber: the same for a video file. */
    method InitFFmpegFrameGrabber(startOk: bool) returns (r: Result<()>)
      requires step.VideoFrameCaptureStep? && !initialized
      modifies this
      ensures initialized == startOk
      ensures grabber == Some(Grabber(FFmpegFile(step.filePath), if startOk then Started else Created))
      ensures r.Ok? <==> startOk
      ensures !startOk ==> r == Err(Exception(Runtime, StartFailure))
      ensures warnings == old(warnings)
      ensures Valid()
    {
      grabber := Some(Grabber(FFmpegFile(step.filePath), Created));
      if !startOk {
        return Err(Exception(Runtime, StartFailure));
      }
      grabber := Some(grabber.value.(state := Started));
      initialized := true;
      return Ok(());
    }

    /** exec(ctx, data): init when not initialized (a failed start throws
        before any grab), then grab one frame into a singleton Data under
        outputKey; a failed grab becomes "Error getting frame". */
    method Exec(startOk: bool, grabbed: Option<Image>) returns (r: Result<Data>)
      requires Valid()
      modifies this
      ensures Valid()
      ensures warnings == old(warnings)
      ensures old(initialized) ==> initialized && grabber == old(grabber)
      ensures !old(initialized) ==>
        (initialized == startOk && grabber == Some(Grabber(SourceOf(step), if startOk then Started else Created)))
      ensures !old(initialized) && !startOk ==> r == Err(Exception(Runtime, StartFailure))
      ensures initialized && grabbed.Some? ==> r == Ok(Singleton(outputKey, VImage(grabbed.value)))
      ensures initialized && grabbed.None? ==> r == Err(Exception(Runtime, GrabFailure))
      ensures r.Ok? ==> r.value.keys == [outputKey] && r.value.Valid()
    {
      if !initialized {
        var init: Result<()>;
        if step.CameraFrameCaptureStep? {
          init := InitOpenCVFrameGrabber(startOk);
        } else {
          init := InitFFmpegFrameGrabber(startOk);
        }
        if init.Err? {
          return Err(init.error);
        }
      }
      if grabbed.None? {
        return Err(Exception(Runtime, GrabFailure));
      }
      return Ok(Singleton(outputKey, VImage(grabbed.value)));
    }

    /** close(): only an initialized runner touches its grabber; the flag is
        cleared first, and a failing stop or close is logged, never thrown.
        A failing stop skips the close. */
    method Close(stopOk: bool, closeOk: bool)
      requires Valid()
      modifies this
      ensures Valid()
      ensures !initialized
      ensures !old(initialized) ==> grabber == old(grabber) && warnings == old(warnings)
      ensures old(initialized) ==> grabber == Some(Grabber(SourceOf(step),
        if !stopOk then Started else if !closeOk then Stopped else Closed))
      ensures old(initialized) ==> warnings == old(warnings) + (if stopOk && closeOk then [] else [CloseWarning])
    {
      if initialized {
        initialized := false;
        var g := grabber.value;
        if !stopOk {
          warnings := warnings + [CloseWarning];
          return;
        }
        g := g.(state := Stopped);
        grabber := Some(g);
        if !closeOk {
          warnings := warnings + [CloseWarning];
          return;
        }
        grabber := Some(g.(state := Closed));
      }
    }
  }

  /** The lifecycle end to end: exec, close, close again, exec. The second
      close is a no-op and the exec after close starts a new grabber instead
      of failing. */
  method CloseThenExec(step: CaptureStep, frame1: Image, frame2: Image) returns (r1: Result<Data>, r2: Result<Data>)
    ensures r1 == Ok(Singleton(step.OutputKey(), VImage(frame1)))
    ensures r2 == Ok(Singleton(step.OutputKey(), VImage(frame2)))
  {
    var runner: FrameCaptureStepRunner;
    if step.CameraFrameCaptureStep? {
      runner := new FrameCaptureStepRunner.FromCamera(step);
    } else {
      runner := new FrameCaptureStepRunner.FromVideo(step);
    }
    r1 := runner.Exec(true, Some(frame1));
    runner.Close(true, true);
    var warned := runner.warnings;
    runner.Close(false, false);
    assert runner.warnings == warned;
    assert !runner.initialized;
    r2 := runner.Exec(true, Some(frame2));
  }

  /** A start failure leaves the runner uninitialized, so the next exec
      tries to start a grabber again. */
  method RetryAfterFailedStart(step: CaptureStep, frame: Image) returns (r1: Result<Data>, r2: Result<Data>)
    ensures r1 == Err(Exception(Runtime, StartFailure))
    ensures r2 == Ok(Singleton(step.OutputKey(), VImage(frame)))
  {
    var runner: FrameCaptureStepRunner;
    if step.CameraFrameCaptureStep? {
      runner := new FrameCaptureStepRunner.FromCamera(step);
    } else {
      runner := new FrameCaptureStepRunner.FromVideo(step);
    }
    r1 := runner.Exec(false, Some(frame));
    r2 := runner.Exec(true, Some(frame));
  }
}
