/**
 * The JPG flipbook player: it preloads an ordered list of frames, then draws
 * them onto a canvas at a fixed frame interval, with play, pause, toggle and
 * seek controls, loop-or-stop-at-end, and a reduced-motion veto.
 *
 * Time is whole milliseconds and the frame interval (`1000 / fps`) is a
 * positive whole number of milliseconds. Browser events (image load and
 * error, animation-frame callbacks, changes of the reduced-motion flag) are
 * the methods of `Player`; the callbacks the player fires are what those
 * methods return.
 */
module SequencePlayer {
  import opened Common
  import Arith

  // ---------------------------------------------------------------------------
  // Pure parts: seek clamp, load progress, and the tick arithmetic
  // ---------------------------------------------------------------------------

  /** `max(0, min(frameIndex, frameCount - 1))`: the nearest index of an existing frame. */
  function Clamp(frameIndex: int, frameCount: nat): (c: nat)
    ensures frameCount > 0 ==> c < frameCount
    ensures frameCount == 0 ==> c == 0
    ensures 0 <= frameIndex < frameCount ==> c == frameIndex
    ensures frameIndex < 0 ==> c == 0
    ensures frameCount > 0 && frameIndex >= frameCount ==> c == frameCount - 1
  {
    var upper := if frameIndex < frameCount - 1 then frameIndex else frameCount - 1;
    if upper < 0 then 0 else upper
  }

  /** `Math.round(settled / total * 100)`: the percentage settled, rounded half up. */
  function Progress(settled: nat, total: nat): (p: nat)
    requires 0 < total && settled <= total
    ensures 2 * total * p <= 200 * settled + total < 2 * total * (p + 1)
  {
    Arith.DivMod(200 * settled + total, 2 * total);
    (200 * settled + total) / (2 * total)
  }

  /**
   * The percentage is `100 * settled / total` rounded half up: it lies within
   * half a point of the exact ratio, it is 0 before anything settles and 100
   * once everything has, and it never exceeds 100.
   */
  lemma ProgressRounds(settled: nat, total: nat)
    requires 0 < total && settled <= total
    ensures var p := Progress(settled, total);
      && 2 * total * p <= 200 * settled + total < 2 * total * (p + 1)
      && p <= 100
      && (settled == 0 ==> p == 0)
      && (settled == total ==> p == 100)
  {
    var p := Progress(settled, total);
    Arith.DivMod(200 * settled + total, 2 * total);
    if p > 100 {
      Arith.MulMonotone(2 * total, 101, p);
    }
    if settled == 0 && p > 0 {
      Arith.MulMonotone(2 * total, 1, p);
    }
    if settled == total && p < 100 {
      Arith.MulMonotone(2 * total, p + 1, 100);
    }
  }

  /** More settled images never show a smaller percentage. */
  lemma ProgressMonotone(a: nat, b: nat, total: nat)
    requires 0 < total && a <= b <= total
    ensures Progress(a, total) <= Progress(b, total)
  {
    var pa, pb := Progress(a, total), Progress(b, total);
    ProgressRounds(a, total);
    ProgressRounds(b, total);
    if pa > pb {
      Arith.MulMonotone(2 * total, pb + 1, pa);
    }
  }

  /**
   * The result of one animation-frame callback: the new current frame and
   * last-tick time, whether a frame was drawn, and whether playback completed.
   */
  datatype Tick = Tick(frame: nat, lastTime: int, drew: bool, completed: bool)

  /**
   * What `animate(now)` computes from the current frame and the last tick
   * time (0 meaning "not started"). A tick advances only when strictly more
   * than one interval has elapsed; it then skips `elapsed / interval` frames
   * modulo the frame count and keeps the remainder for the next tick. Without
   * looping, landing exactly on the last frame completes playback.
   */
  function Step(frame: nat, lastTime: int, now: int, interval: nat, frameCount: nat, loop: bool): (t: Tick)
    requires interval > 0 && frameCount > 0 && frame < frameCount
    ensures t.frame < frameCount
    ensures t.completed ==> t.drew && !loop && t.frame == frameCount - 1
  {
    var last := if lastTime == 0 then now else lastTime;
    var elapsed := now - last;
    if elapsed <= interval then Tick(frame, last, false, false)
    else
      var advanced := (frame + elapsed / interval) % frameCount;
      if !loop && advanced >= frameCount - 1 then Tick(frameCount - 1, last, true, true)
      else Tick(advanced, now - elapsed % interval, true, false)
  }

  /** At most one interval since the last tick: nothing moves and nothing is drawn. */
  lemma StepWithinInterval(frame: nat, lastTime: int, now: int, interval: nat, frameCount: nat, loop: bool)
    requires interval > 0 && frameCount > 0 && frame < frameCount && lastTime != 0
    requires now - lastTime <= interval
    ensures Step(frame, lastTime, now, interval, frameCount, loop) == Tick(frame, lastTime, false, false)
  {
  }

  /**
   * More than one interval since the last tick: the frame moves forward by
   * the number of whole intervals elapsed (wrapping around), and the new
   * last-tick time lies exactly that many intervals after the old one, so the
   * remainder carries into the next tick.
   */
  lemma StepAdvances(frame: nat, lastTime: int, now: int, interval: nat, frameCount: nat, loop: bool)
    requires interval > 0 && frameCount > 0 && frame < frameCount && lastTime != 0
    requires now - lastTime > interval
    ensures var t := Step(frame, lastTime, now, interval, frameCount, loop);
      var k := (now - lastTime) / interval;
      && k >= 1
      && t.drew
      && (t.completed <==> !loop && (frame + k) % frameCount == frameCount - 1)
      && (!t.completed ==>
            && t.frame == (frame + k) % frameCount
            && t.lastTime - lastTime == k * interval
            && 0 <= now - t.lastTime < interval)
      && (t.completed ==> t.lastTime == lastTime)
  {
  }

  /**
   * Without looping, a jump that wraps past the last frame does not complete:
   * at frame 8 of 10, three intervals later the player shows frame 1 and keeps
   * playing.
   */
  lemma WrapPastEndKeepsPlaying()
    ensures Step(8, 100, 131, 10, 10, false) == Tick(1, 130, true, false)
  {
  }

  /** The state after a run of ticks of a looping player at the given times. */
  function RunLoop(frame: nat, lastTime: int, times: seq<int>, interval: nat, frameCount: nat): (t: Tick)
    requires interval > 0 && frameCount > 0 && frame < frameCount
    decreases |times|
  {
    if times == [] then Tick(frame, lastTime, false, false)
    else
      var s := Step(frame, lastTime, times[0], interval, frameCount, true);
      RunLoop(s.frame, s.lastTime, times[1..], interval, frameCount)
  }

  /**
   * A looping player never drifts: after any run of ticks, the current frame
   * is the start frame advanced by the number of whole intervals between the
   * first and the latest last-tick time, modulo the frame count, and that
   * span is a whole number of intervals.
   */
  lemma {:induction false} LoopRunAccounting(frame: nat, lastTime: int, times: seq<int>, interval: nat, frameCount: nat)
    requires interval > 0 && frameCount > 0 && lastTime > 0 && frame < frameCount
    ensures var t := RunLoop(frame, lastTime, times, interval, frameCount);
      && t.lastTime >= lastTime
      && (t.lastTime - lastTime) % interval == 0
      && t.frame == (frame + (t.lastTime - lastTime) / interval) % frameCount
    decreases |times|
  {
    if times == [] {
      Arith.DivModUnique(frame, frameCount, 0, frame);
    } else {
      var s := Step(frame, lastTime, times[0], interval, frameCount, true);
      var t := RunLoop(s.frame, s.lastTime, times[1..], interval, frameCount);
      assert t == RunLoop(frame, lastTime, times, interval, frameCount);
      if times[0] - lastTime > interval {
        StepAdvances(frame, lastTime, times[0], interval, frameCount, true);
        var k := (times[0] - lastTime) / interval;
        LoopRunAccounting(s.frame, s.lastTime, times[1..], interval, frameCount);
        var b := t.lastTime - s.lastTime;
        assert t.lastTime - lastTime == interval * k + b;
        Arith.DivAddMultiple(k, b, interval);
        Arith.ModAddLeft(frame + k, b / interval, frameCount);
      } else {
        StepWithinInterval(frame, lastTime, times[0], interval, frameCount, true);
        LoopRunAccounting(frame, lastTime, times[1..], interval, frameCount);
      }
    }
  }

  // ---------------------------------------------------------------------------
  // The player component
  // ---------------------------------------------------------------------------

  const NoFramesError: string := "No frames provided"

  /**
   * One mounted player, with one set of props: the frame list, frame rate and
   * the autoplay and loop props. A new frame list restarts the preload in the
   * source; here that is a new player.
   */
  class Player {
    /** `frames.length`. */
    const frameCount: nat
    /** `1000 / fps`, in milliseconds. */
    const interval: nat
    const autoplay: bool
    const loop: bool
    /**
     * The reduced-motion flag as it was when the frames effect ran at mount:
     * the load handlers close over this value, not the current one.
     */
    const reducedAtMount: bool

    var reducedMotion: bool
    var isLoaded: bool
    var isLoading: bool
    var isPlaying: bool
    var loadProgress: nat
    var error: Option<string>
    /** The load effect's `loadedCount`: images settled by load or error. */
    var loadedCount: nat
    /** Indices of the images that have fired their load or error event. */
    ghost var settled: set<nat>
    var currentFrame: nat
    /** The time of the last counted tick; 0 until the first tick. */
    var lastTime: int
    /** An animation-frame request is pending (`animationFrameRef` is set). */
    var scheduled: bool
    /** The frame last drawn onto the canvas, if any. */
    var shown: Option<nat>

    /** Everything the load handlers and the controls maintain, except the tick-loop registration. */
    ghost predicate Consistent()
      reads this
    {
      && interval > 0
      && (forall i :: i in settled ==> i < frameCount)
      && loadedCount == |settled|
      && (isLoaded <==> frameCount > 0 && loadedCount == frameCount)
      && (frameCount == 0 ==> error == Some(NoFramesError) && !isLoading && loadProgress == 0)
      && (frameCount > 0 ==>
            && error == None
            && isLoading == !isLoaded
            && loadedCount <= frameCount
            && loadProgress == Progress(loadedCount, frameCount))
      && (if frameCount > 0 then currentFrame < frameCount else currentFrame == 0)
      && (shown.Some? ==> isLoaded && shown.value < frameCount)
    }

    /** The tick loop is registered exactly while playing, loaded and not reduced-motion. */
    ghost predicate Valid()
      reads this
    {
      Consistent() && scheduled == (isPlaying && isLoaded && !reducedMotion)
    }

    /**
     * Mounting: the initial state, then the effects in order (reduced motion,
     * preload start, tick loop). An empty frame list is an error and never loads.
     */
    constructor (frames: nat, frameInterval: nat, autoplayProp: bool, loopProp: bool, reduced: bool)
      requires frameInterval > 0
      ensures Valid()
      ensures frameCount == frames && interval == frameInterval && autoplay == autoplayProp && loop == loopProp
      ensures reducedMotion == reduced && reducedAtMount == reduced
      ensures isPlaying == (autoplayProp && !reduced)
      ensures !isLoaded && !scheduled && shown == None && currentFrame == 0 && lastTime == 0
      ensures loadedCount == 0 && settled == {} && loadProgress == 0
      ensures frames == 0 <==> error == Some(NoFramesError)
      ensures isLoading == (frames > 0)
    {
      frameCount, interval, autoplay, loop := frames, frameInterval, autoplayProp, loopProp;
      reducedAtMount, reducedMotion := reduced, reduced;
      isLoaded, isPlaying, isLoading, loadProgress, error := false, autoplayProp && !reduced, true, 0, None;
      loadedCount, settled := 0, {};
      currentFrame, lastTime, scheduled, shown := 0, 0, false, None;
      // reduced-motion effect
      if reduced {
        isPlaying := false;
      } else if autoplayProp {
        isPlaying := true;
      }
      // preload effect
      if frames == 0 {
        error := Some(NoFramesError);
        isLoading := false;
      } else {
        isLoading, loadProgress, error := true, 0, None;
      }
      new;
      if frameCount > 0 {
        ProgressRounds(0, frameCount);
      }
    }

    /**
     * The tick-loop effect: it re-runs when playing, loaded or reduced motion
     * changes; when all three allow it, it fires `onPlay` and requests a frame,
     * otherwise it cancels the pending request.
     */
    method SyncLoop() returns (onPlayCalls: nat)
      requires Consistent()
      modifies this`scheduled
      ensures Valid()
      ensures onPlayCalls == if scheduled && !old(scheduled) then 1 else 0
    {
      var active := isPlaying && isLoaded && !reducedMotion;
      onPlayCalls := if active && !scheduled then 1 else 0;
      scheduled := active;
    }

    /** One image settled: count it and report the rounded percentage. */
    method CountSettled(index: nat)
      requires Valid() && frameCount > 0
      requires index < frameCount && index !in settled
      modifies this`loadedCount, this`settled, this`loadProgress
      ensures loadedCount == old(loadedCount) + 1 && settled == old(settled) + {index}
      ensures loadedCount <= frameCount
      ensures loadProgress == Progress(loadedCount, frameCount)
    {
      Arith.IndexSetBound(settled + {index}, frameCount);
      loadedCount := loadedCount + 1;
      settled := settled + {index};
      loadProgress := Progress(loadedCount, frameCount);
    }

    /**
     * `handleImageLoad`: the image counts; when it is the last to settle the
     * player becomes loaded, fires `onLoaded`, draws frame 0 and, if autoplay
     * was on and motion was not reduced at mount, starts playing.
     */
    method HandleImageLoad(index: nat) returns (onLoaded: bool, onPlayCalls: nat)
      requires Valid()
      requires index < frameCount && index !in settled
      modifies this
      ensures Valid()
      ensures loadedCount == old(loadedCount) + 1 && settled == old(settled) + {index}
      ensures loadProgress == Progress(loadedCount, frameCount)
      ensures onLoaded == isLoaded == (loadedCount == frameCount)
      ensures onLoaded ==> shown == Some(0) && isPlaying == (old(isPlaying) || (autoplay && !reducedAtMount))
      ensures !onLoaded ==> shown == old(shown) && isPlaying == old(isPlaying)
      ensures onPlayCalls == if scheduled && !old(scheduled) then 1 else 0
      ensures currentFrame == old(currentFrame) && lastTime == old(lastTime)
      ensures reducedMotion == old(reducedMotion)
    {
      CountSettled(index);
      onLoaded := false;
      if loadedCount == frameCount {
        isLoaded, isLoading := true, false;
        onLoaded := true;
        shown := Some(0);
        if autoplay && !reducedAtMount {
          isPlaying := true;
        }
      }
      onPlayCalls := SyncLoop();
    }

    /**
     * `handleImageError`: a failed image counts like a loaded one; when it is
     * the last to settle the player still becomes loaded and draws frame 0,
     * but `onLoaded` is not called and autoplay is not restarted.
     */
    method HandleImageError(index: nat) returns (onPlayCalls: nat)
      requires Valid()
      requires index < frameCount && index !in settled
      modifies this
      ensures Valid()
      ensures loadedCount == old(loadedCount) + 1 && settled == old(settled) + {index}
      ensures loadProgress == Progress(loadedCount, frameCount)
      ensures isLoaded == (loadedCount == frameCount)
      ensures isLoaded ==> shown == Some(0)
      ensures !isLoaded ==> shown == old(shown)
      ensures isPlaying == old(isPlaying)
      ensures onPlayCalls == if scheduled && !old(scheduled) then 1 else 0
      ensures currentFrame == old(currentFrame) && lastTime == old(lastTime)
      ensures reducedMotion == old(reducedMotion)
    {
      CountSettled(index);
      if loadedCount == frameCount {
        isLoaded, isLoading := true, false;
        shown := Some(0);
      }
      onPlayCalls := SyncLoop();
    }

    /** `drawFrame(i)`: draws only once the images are in place. */
    method DrawFrame(frameIndex: nat)
      requires Consistent()
      modifies this`shown
      ensures Consistent()
      ensures shown == if isLoaded && frameIndex < frameCount then Some(frameIndex) else old(shown)
    {
      if isLoaded && frameIndex < frameCount {
        shown := Some(frameIndex);
      }
    }

    /**
     * The animation-frame callback, run only while a request is pending. It
     * moves the current frame and last-tick time as `Step` says, draws when a
     * frame was counted, and on completion stops playing and does not request
     * another frame.
     */
    method Animate(now: int) returns (drew: bool, onComplete: bool)
      requires Valid() && scheduled
      modifies this
      ensures Valid()
      ensures var t := Step(old(currentFrame), old(lastTime), now, interval, frameCount, loop);
        currentFrame == t.frame && lastTime == t.lastTime && drew == t.drew && onComplete == t.completed
      ensures shown == if drew then Some(currentFrame) else old(shown)
      ensures onComplete ==> !isPlaying && !scheduled
      ensures !onComplete ==> isPlaying == old(isPlaying) && scheduled
      ensures isLoaded == old(isLoaded) && reducedMotion == old(reducedMotion)
      ensures loadedCount == old(loadedCount) && settled == old(settled)
    {
      if lastTime == 0 {
        lastTime := now;
      }
      var elapsed := now - lastTime;
      drew, onComplete := false, false;
      if elapsed > interval {
        var framesToAdvance := elapsed / interval;
        currentFrame := (currentFrame + framesToAdvance) % frameCount;
        if !loop && currentFrame >= frameCount - 1 {
          currentFrame := frameCount - 1;
          DrawFrame(currentFrame);
          drew, onComplete := true, true;
          isPlaying := false;
          var _ := SyncLoop();
          return;
        }
        DrawFrame(currentFrame);
        drew := true;
        lastTime := now - elapsed % interval;
      }
    }

    /** `play()`: a no-op until loaded or while motion is reduced; otherwise it plays and fires `onPlay`. */
    method Play() returns (onPlayCalls: nat)
      requires Valid()
      modifies this
      ensures Valid()
      ensures !old(isLoaded) || reducedMotion ==> isPlaying == old(isPlaying) && onPlayCalls == 0
      ensures old(isLoaded) && !reducedMotion ==>
        isPlaying && scheduled && onPlayCalls == (if old(isPlaying) then 1 else 2)
      ensures currentFrame == old(currentFrame) && lastTime == old(lastTime) && shown == old(shown)
      ensures isLoaded == old(isLoaded) && reducedMotion == old(reducedMotion)
      ensures loadedCount == old(loadedCount) && settled == old(settled)
    {
      if !isLoaded || reducedMotion {
        return 0;
      }
      isPlaying := true;
      var fromEffect := SyncLoop();
      onPlayCalls := 1 + fromEffect;
    }

    /** `pause()`: always stops playing and fires `onPause`; the current frame stays. */
    method Pause() returns (onPause: bool)
      requires Valid()
      modifies this
      ensures Valid()
      ensures !isPlaying && !scheduled && onPause
      ensures currentFrame == old(currentFrame) && lastTime == old(lastTime) && shown == old(shown)
      ensures isLoaded == old(isLoaded) && reducedMotion == old(reducedMotion)
      ensures loadedCount == old(loadedCount) && settled == old(settled)
    {
      isPlaying := false;
      var _ := SyncLoop();
      onPause := true;
    }

    /** `toggle()`: pause when playing, otherwise play (with play's conditions). */
    method Toggle() returns (onPlayCalls: nat, onPause: bool)
      requires Valid()
      modifies this
      ensures Valid()
      ensures old(isPlaying) ==> !isPlaying && onPause && onPlayCalls == 0
      ensures !old(isPlaying) && old(isLoaded) && !reducedMotion ==> isPlaying && !onPause && onPlayCalls == 2
      ensures !old(isPlaying) && (!old(isLoaded) || reducedMotion) ==> !isPlaying && !onPause && onPlayCalls == 0
      ensures currentFrame == old(currentFrame) && lastTime == old(lastTime) && shown == old(shown)
      ensures isLoaded == old(isLoaded) && reducedMotion == old(reducedMotion)
      ensures loadedCount == old(loadedCount) && settled == old(settled)
    {
      if isPlaying {
        onPause := Pause();
        onPlayCalls := 0;
      } else {
        onPlayCalls := Play();
        onPause := false;
      }
    }

    /** `seek(i)`: jumps to the nearest existing frame and draws it; playing is unaffected. */
    method Seek(frameIndex: int)
      requires Valid()
      modifies this
      ensures Valid()
      ensures currentFrame == Clamp(frameIndex, frameCount)
      ensures shown == if isLoaded then Some(currentFrame) else old(shown)
      ensures isPlaying == old(isPlaying) && scheduled == old(scheduled) && lastTime == old(lastTime)
      ensures isLoaded == old(isLoaded) && reducedMotion == old(reducedMotion)
      ensures loadedCount == old(loadedCount) && settled == old(settled)
    {
      currentFrame := Clamp(frameIndex, frameCount);
      DrawFrame(currentFrame);
    }

    /**
     * The platform's reduced-motion flag changes. Turning it on stops playing
     * and draws frame 0 (without moving the current frame); turning it off
     * resumes playing when autoplay is set.
     */
    method SetReducedMotion(reduced: bool) returns (onPlayCalls: nat)
      requires Valid()
      modifies this
      ensures Valid()
      ensures reducedMotion == reduced
      ensures reduced ==> !scheduled && onPlayCalls == 0
      ensures reduced && !old(reducedMotion) ==> !isPlaying
      ensures reduced && !old(reducedMotion) && isLoaded ==> shown == Some(0)
      ensures !(reduced && !old(reducedMotion) && isLoaded) ==> shown == old(shown)
      ensures !reduced && old(reducedMotion) ==> isPlaying == (old(isPlaying) || autoplay)
      ensures reduced == old(reducedMotion) ==> isPlaying == old(isPlaying)
      ensures currentFrame == old(currentFrame) && lastTime == old(lastTime)
      ensures isLoaded == old(isLoaded) && loadedCount == old(loadedCount) && settled == old(settled)
    {
      onPlayCalls := 0;
      if reduced != reducedMotion {
        reducedMotion := reduced;
        if reduced {
          isPlaying := false;
          DrawFrame(0);
        } else if autoplay {
          isPlaying := true;
        }
        onPlayCalls := SyncLoop();
      }
    }
  }

  /**
   * The load handlers close over the reduced-motion flag of the mount: if
   * motion becomes reduced while frames are still loading, the last image
   * loading restarts playback (`isPlaying` becomes true) although motion is
   * reduced; the tick loop still stays unregistered, so nothing animates.
   */
  method StaleReducedMotionOnLoad() returns (p: Player)
    ensures p.Valid() && p.reducedMotion && p.isPlaying && !p.scheduled
  {
    p := new Player(1, 33, true, true, false);
    var _ := p.SetReducedMotion(true);
    var loaded, _ := p.HandleImageLoad(0);
  }
}
