/**
 * The preview pane: the frame-grabbing worker (`FrameGrab`) and the stride
 * arithmetic the preview widget uses to wrap a decoded frame as an image.
 *
 * Time is an exact `real` (seconds). The clip itself is external: only its
 * duration and frame rate enter the model, and a grabbed frame is represented
 * by the timestamp it was requested at.
 */
module Preview {

  /** What the worker reads from the opened clip. */
  datatype VideoClip = VideoClip(duration: real, fps: real)

  /** The shape `(height, width, channels)` of a decoded frame array. */
  datatype FrameShape = FrameShape(height: nat, width: nat, channels: nat)

  /** One iteration of the worker's loop, as seen from outside. */
  datatype StepOutcome =
    | Exited          // the loop guard `timer < duration` failed
    | Idle            // paused: the iteration does nothing
    | Emitted(at: real)  // the frame at `at` was grabbed and sent

  /** Bytes in one row of an interleaved frame. */
  function BytesPerLine(shape: FrameShape): nat {
    shape.channels * shape.width
  }

  /** Where channel `c` of pixel `(y, x)` sits in the row-major frame buffer. */
  function PixelOffset(shape: FrameShape, y: nat, x: nat, c: nat): nat {
    y * BytesPerLine(shape) + x * shape.channels + c
  }

  /**
   * With rows `BytesPerLine` bytes apart, every sample of row `y` lies inside
   * that row's slice of the buffer, and the buffer of `height` rows holds
   * exactly the frame's `height * width * channels` samples.
   */
  lemma PixelInRow(shape: FrameShape, y: nat, x: nat, c: nat)
    requires y < shape.height && x < shape.width && c < shape.channels
    ensures y * BytesPerLine(shape) <= PixelOffset(shape, y, x, c) < (y + 1) * BytesPerLine(shape)
    ensures PixelOffset(shape, y, x, c) < shape.height * BytesPerLine(shape)
    ensures shape.height * BytesPerLine(shape) == shape.height * shape.width * shape.channels
  {
    var w, ch, bpl := shape.width, shape.channels, BytesPerLine(shape);
    assert x * ch + c < (x + 1) * ch;
    assert (x + 1) * ch <= w * ch by {
      assert x + 1 <= w;
    }
    assert (y + 1) * bpl == y * bpl + bpl;
    assert (y + 1) * bpl <= shape.height * bpl by {
      assert y + 1 <= shape.height;
    }
  }

  /** The pause between frames, `1 / fps`, taken as an exact real. */
  function FrameInterval(fps: real): (dt: real)
    requires fps > 0.0
    ensures dt > 0.0 && dt * fps == 1.0
  {
    1.0 / fps
  }

  function Ceil(x: real): int {
    -((-x).Floor)
  }

  /** How many more iterations emit a frame before `timer` reaches `duration`. */
  function FrameCount(timer: real, duration: real, dt: real): nat
    requires dt > 0.0
  {
    if timer >= duration then 0
    else
      var x := (duration - timer) / dt;
      assert x > 0.0;
      Ceil(x)
  }

  /**
   * `FrameCount` counts exactly the grid points `timer + k * dt` that lie
   * below `duration`: the loop emits no frame when `timer >= duration`,
   * and ceil((duration - timer) / dt) frames otherwise.
   */
  lemma FrameCountExact(timer: real, duration: real, dt: real, k: nat)
    requires dt > 0.0
    ensures k < FrameCount(timer, duration, dt) <==> timer + k as real * dt < duration
  {
    if timer < duration {
      var x := (duration - timer) / dt;
      var n := Ceil(x);
      assert x * dt == duration - timer;
      assert (n - 1) as real < x <= n as real;
      if k < n {
        assert k as real <= (n - 1) as real;
        assert k as real * dt < x * dt;
      } else {
        assert k as real >= x;
        assert k as real * dt >= x * dt;
      }
    } else {
      assert k as real * dt >= 0.0;
    }
  }

  /** One running iteration uses up exactly one of the remaining frames. */
  lemma StepCount(timer: real, duration: real, dt: real)
    requires dt > 0.0 && timer < duration
    ensures FrameCount(timer + dt, duration, dt) == FrameCount(timer, duration, dt) - 1
  {
    var a, b := FrameCount(timer + dt, duration, dt), FrameCount(timer, duration, dt);
    FrameCountExact(timer, duration, dt, 0);
    FrameCountExact(timer + dt, duration, dt, a);
    FrameCountExact(timer, duration, dt, a + 1);
    assert timer + dt + a as real * dt == timer + (a + 1) as real * dt;
    FrameCountExact(timer + dt, duration, dt, b - 1);
    FrameCountExact(timer, duration, dt, b);
    assert timer + dt + (b - 1) as real * dt == timer + b as real * dt;
  }

  /** The timestamps a running worker grabs, starting at `timer`. */
  function Ticks(timer: real, duration: real, dt: real): (ts: seq<real>)
    requires dt > 0.0
    ensures |ts| == FrameCount(timer, duration, dt)
    decreases FrameCount(timer, duration, dt)
  {
    if timer >= duration then []
    else
      StepCount(timer, duration, dt);
      [timer] + Ticks(timer + dt, duration, dt)
  }

  /** The `k`-th grabbed timestamp is `timer + k * dt`. */
  lemma {:induction false} TickAt(timer: real, duration: real, dt: real, k: nat)
    requires dt > 0.0 && k < FrameCount(timer, duration, dt)
    ensures Ticks(timer, duration, dt)[k] == timer + k as real * dt
    decreases k
  {
    if k > 0 {
      StepCount(timer, duration, dt);
      TickAt(timer + dt, duration, dt, k - 1);
    }
  }

  /** The grabbed timestamps strictly increase, start at `timer` and stay below `duration`. */
  lemma TicksOrdered(timer: real, duration: real, dt: real)
    requires dt > 0.0
    ensures forall i, j :: 0 <= i < j < |Ticks(timer, duration, dt)| ==>
      Ticks(timer, duration, dt)[i] < Ticks(timer, duration, dt)[j]
    ensures forall i :: 0 <= i < |Ticks(timer, duration, dt)| ==>
      timer <= Ticks(timer, duration, dt)[i] < duration
  {
    var ts := Ticks(timer, duration, dt);
    forall i, j | 0 <= i < j < |ts| ensures ts[i] < ts[j] {
      TickAt(timer, duration, dt, i);
      TickAt(timer, duration, dt, j);
      var gap := (j - i) as real * dt;
      assert j as real * dt == i as real * dt + gap;
      assert gap > 0.0;
      calc {
        ts[i];
        timer + i as real * dt;
      <
        timer + i as real * dt + gap;
        timer + j as real * dt;
        ts[j];
      }
    }
    forall i | 0 <= i < |ts| ensures timer <= ts[i] < duration {
      TickAt(timer, duration, dt, i);
      FrameCountExact(timer, duration, dt, i);
      assert i as real * dt >= 0.0;
    }
  }

  /**
   * A freshly constructed worker that is left running grabs the frames at
   * 0, dt, 2 dt, ... and stops after ceil(duration / dt) of them.
   */
  lemma FromStart(duration: real, dt: real, k: nat)
    requires dt > 0.0
    ensures |Ticks(0.0, duration, dt)| == if duration > 0.0 then Ceil(duration / dt) else 0
    ensures k < |Ticks(0.0, duration, dt)| ==> Ticks(0.0, duration, dt)[k] == k as real * dt
  {
    if k < |Ticks(0.0, duration, dt)| {
      TickAt(0.0, duration, dt, k);
    }
  }

  /** The frame-grabbing worker (a thread in the application). */
  class FrameGrab {
    const clip: VideoClip
    var running: bool
    var timer: real
    var duration: real

    constructor (clip: VideoClip)
      ensures this.clip == clip
      ensures running && timer == 0.0 && duration == clip.duration
    {
      this.clip := clip;
      running := true;
      timer := 0.0;
      duration := clip.duration;
    }

    /** Seeking to a new start stops the worker, then moves it to `time`. */
    method UpdateStart(time: real)
      modifies this`running, this`timer
      ensures !running && timer == time
      ensures duration == old(duration)
    {
      Stop();
      timer := time;
    }

    method UpdateEnd(time: real)
      modifies this`duration
      ensures duration == time
      ensures running == old(running) && timer == old(timer)
    {
      duration := time;
    }

    method Play()
      modifies this`running
      ensures running
      ensures timer == old(timer) && duration == old(duration)
    {
      running := true;
    }

    method Pause()
      modifies this`running
      ensures !running
      ensures timer == old(timer) && duration == old(duration)
    {
      running := false;
    }

    method Stop()
      modifies this`running, this`timer
      ensures !running && timer == 0.0
      ensures duration == old(duration)
    {
      running := false;
      timer := 0.0;
    }

    /**
     * One evaluation of the loop guard of `run` and, if it holds, one pass of
     * its body. Once it returns `Exited`, `run` has returned and the thread
     * is finished: a later `UpdateEnd` or `Play` does not restart it, so a
     * `Step` after `Exited` stands for nothing in the application.
     */
    method Step() returns (outcome: StepOutcome)
      requires clip.fps > 0.0
      modifies this`timer
      ensures old(timer) >= duration ==> outcome == Exited && timer == old(timer)
      ensures old(timer) < duration && running ==>
        outcome == Emitted(old(timer)) && timer == old(timer) + FrameInterval(clip.fps)
      ensures old(timer) < duration && !running ==> outcome == Idle && timer == old(timer)
    {
      var frameInterval := FrameInterval(clip.fps);
      if timer >= duration {
        return Exited;
      }
      if running {
        outcome := Emitted(timer);
        timer := timer + frameInterval;
      } else {
        outcome := Idle;
      }
    }

    /**
     * The loop of `run`, with no other command arriving while it runs: it
     * grabs the frames at `Ticks(timer, duration, 1 / fps)` and ends with
     * `timer` at or past `duration`.
     */
    method Run() returns (emitted: seq<real>)
      requires clip.fps > 0.0
      requires running || timer >= duration
      modifies this`timer
      ensures emitted == Ticks(old(timer), duration, FrameInterval(clip.fps))
      ensures timer >= duration
      ensures timer == old(timer) + |emitted| as real * FrameInterval(clip.fps)
    {
      var frameInterval := FrameInterval(clip.fps);
      emitted := [];
      while timer < duration
        invariant running || timer >= duration
        invariant emitted + Ticks(timer, duration, frameInterval) == Ticks(old(timer), duration, frameInterval)
        invariant timer == old(timer) + |emitted| as real * frameInterval
        decreases FrameCount(timer, duration, frameInterval)
      {
        ghost var before := timer;
        StepCount(before, duration, frameInterval);
        assert Ticks(before, duration, frameInterval) == [before] + Ticks(before + frameInterval, duration, frameInterval);
        var outcome := Step();
        assert outcome.at == before && timer == before + frameInterval;
        emitted := emitted + [outcome.at];
        assert |emitted| as real * frameInterval == (|emitted| - 1) as real * frameInterval + frameInterval;
      }
    }
  }
}
