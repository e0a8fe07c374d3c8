/**
 * Helpers for JPG animation sequences: frame-URL generation, a preload
 * controller that counts settled images, frame-rate and duration arithmetic,
 * and a metadata summary of a URL list.
 */
module JpgSequence {
  import opened Common
  import Arith

  // ---------------------------------------------------------------------------
  // Decimal text of frame numbers
  // ---------------------------------------------------------------------------

  function DigitChar(d: nat): (c: char)
    requires d < 10
    ensures '0' <= c <= '9'
  {
    (48 + d) as char
  }

  function DigitValue(c: char): nat
  {
    if '0' <= c <= '9' then (c as int - 48) as nat else 0
  }

  predicate IsDigits(s: string)
  {
    forall i :: 0 <= i < |s| ==> '0' <= s[i] <= '9'
  }

  /** The decimal digits of `n`, as `String(n)` writes a non-negative integer. */
  function Digits(n: nat): (s: string)
    ensures |s| >= 1 && IsDigits(s)
    ensures |s| > 1 ==> s[0] != '0'
    decreases n
  {
    if n < 10 then [DigitChar(n)] else Digits(n / 10) + [DigitChar(n % 10)]
  }

  /** `String(i)` for any integer: a minus sign before the digits of a negative number. */
  function IntToString(i: int): (s: string)
    ensures i >= 0 ==> s == Digits(i)
    ensures i < 0 ==> s == "-" + Digits(-i)
  {
    if i < 0 then "-" + Digits(-i) else Digits(i)
  }

  /** Reads a string of decimal digits back as a number; leading zeros are allowed. */
  function ParseDecimal(s: string): nat
  {
    if s == [] then 0 else ParseDecimal(s[..|s| - 1]) * 10 + DigitValue(s[|s| - 1])
  }

  lemma {:induction false} ParseDigits(n: nat)
    ensures ParseDecimal(Digits(n)) == n
    decreases n
  {
    if n >= 10 {
      var d := Digits(n);
      assert d[..|d| - 1] == Digits(n / 10);
      ParseDigits(n / 10);
    }
  }

  lemma {:induction false} ParseZeros(z: string)
    requires forall i :: 0 <= i < |z| ==> z[i] == '0'
    ensures ParseDecimal(z) == 0
    decreases |z|
  {
    if z != [] {
      ParseZeros(z[..|z| - 1]);
    }
  }

  lemma {:induction false} ParseLeadingZeros(z: string, s: string)
    requires forall i :: 0 <= i < |z| ==> z[i] == '0'
    ensures ParseDecimal(z + s) == ParseDecimal(s)
    decreases |s|
  {
    if s == [] {
      assert z + s == z;
      ParseZeros(z);
    } else {
      assert (z + s)[..|z + s| - 1] == z + s[..|s| - 1];
      ParseLeadingZeros(z, s[..|s| - 1]);
    }
  }

  /**
   * `s.padStart(width, fill)` with a one-character fill: the result is `s`
   * left-filled up to `width` characters and is never truncated.
   */
  function PadStart(s: string, width: int, fill: char): string
  {
    if width <= |s| then s else seq(width - |s|, _ => fill) + s
  }

  /** The padded text is `width` long (or `s` itself when longer), ends with `s`, and is `fill` before it. */
  lemma PadStartShape(s: string, width: int, fill: char)
    ensures var r := PadStart(s, width, fill);
      && |r| == (if width <= |s| then |s| else width)
      && r[|r| - |s|..] == s
      && forall i :: 0 <= i < |r| - |s| ==> r[i] == fill
  {
  }

  /** Zero padding never changes the number the digits denote. */
  lemma PaddedNumber(n: nat, width: int)
    ensures ParseDecimal(PadStart(Digits(n), width, '0')) == n
  {
    var r := PadStart(Digits(n), width, '0');
    PadStartShape(Digits(n), width, '0');
    var k := |r| - |Digits(n)|;
    assert r == r[..k] + Digits(n);
    ParseLeadingZeros(r[..k], Digits(n));
    ParseDigits(n);
  }

  // ---------------------------------------------------------------------------
  // generateFrameUrls
  // ---------------------------------------------------------------------------

  /** The URL of frame number `i`: `${folder}/${prefix}${padded i}${extension}`. */
  function FrameUrl(folder: string, prefix: string, extension: string, i: int, padding: int): string
  {
    folder + "/" + prefix + PadStart(IntToString(i), padding, '0') + extension
  }

  /** The URLs of frames `start` up to but excluding `stop`, in increasing frame order. */
  function FrameUrlRange(folder: string, prefix: string, extension: string, start: int, stop: int, padding: int): seq<string>
    decreases stop - start
  {
    if stop <= start then []
    else FrameUrlRange(folder, prefix, extension, start, stop - 1, padding) + [FrameUrl(folder, prefix, extension, stop - 1, padding)]
  }

  /** The range holds one URL per frame number. */
  lemma {:induction false} FrameUrlRangeLength(folder: string, prefix: string, extension: string, start: int, stop: int, padding: int)
    ensures |FrameUrlRange(folder, prefix, extension, start, stop, padding)| == if start <= stop then stop - start else 0
    decreases stop - start
  {
    if stop > start {
      FrameUrlRangeLength(folder, prefix, extension, start, stop - 1, padding);
    }
  }

  /** The `k`-th URL of the range is that of frame `start + k`. */
  lemma {:induction false} FrameUrlRangeAt(folder: string, prefix: string, extension: string, start: int, stop: int, padding: int, k: nat)
    requires k < stop - start
    ensures |FrameUrlRange(folder, prefix, extension, start, stop, padding)| == stop - start
    ensures FrameUrlRange(folder, prefix, extension, start, stop, padding)[k] == FrameUrl(folder, prefix, extension, start + k, padding)
    decreases stop - start
  {
    FrameUrlRangeLength(folder, prefix, extension, start, stop, padding);
    FrameUrlRangeLength(folder, prefix, extension, start, stop - 1, padding);
    if k < stop - 1 - start {
      FrameUrlRangeAt(folder, prefix, extension, start, stop - 1, padding, k);
    }
  }

  /** Builds the URLs of frames `start..end` (inclusive), in increasing frame order. */
  method GenerateFrameUrls(folder: string, prefix: string, extension: string, start: int, end: int, padding: int)
    returns (frames: seq<string>)
    ensures frames == FrameUrlRange(folder, prefix, extension, start, end + 1, padding)
    ensures |frames| == if start <= end then end - start + 1 else 0
    ensures forall k :: 0 <= k < |frames| ==> frames[k] == FrameUrl(folder, prefix, extension, start + k, padding)
  {
    frames := [];
    var i := start;
    while i <= end
      invariant i <= end + 1 || i == start
      invariant frames == FrameUrlRange(folder, prefix, extension, start, i, padding)
    {
      var frameNumber := PadStart(IntToString(i), padding, '0');
      var filename := prefix + frameNumber + extension;
      FrameUrlParts(folder, prefix, extension, i, padding);
      frames := frames + [folder + "/" + filename];
      i := i + 1;
    }
    FrameUrlRangeLength(folder, prefix, extension, start, end + 1, padding);
    forall k | 0 <= k < |frames|
      ensures frames[k] == FrameUrl(folder, prefix, extension, start + k, padding)
    {
      FrameUrlRangeAt(folder, prefix, extension, start, end + 1, padding, k);
    }
  }

  lemma FrameUrlParts(folder: string, prefix: string, extension: string, i: int, padding: int)
    ensures folder + "/" + (prefix + PadStart(IntToString(i), padding, '0') + extension)
      == FrameUrl(folder, prefix, extension, i, padding)
  {
  }

  /** Two different non-negative frame numbers never share a URL, whatever the padding. */
  lemma FrameUrlsDistinct(folder: string, prefix: string, extension: string, i: nat, j: nat, padding: int)
    requires i != j
    ensures FrameUrl(folder, prefix, extension, i, padding) != FrameUrl(folder, prefix, extension, j, padding)
  {
    var head := folder + "/" + prefix;
    var pi := PadStart(Digits(i), padding, '0');
    var pj := PadStart(Digits(j), padding, '0');
    PaddedNumber(i, padding);
    PaddedNumber(j, padding);
    assert pi != pj;
    assert FrameUrl(folder, prefix, extension, i, padding) == head + pi + extension;
    assert FrameUrl(folder, prefix, extension, j, padding) == head + pj + extension;
    if |pi| == |pj| {
      MiddleDiffers(head, pi, pj, extension);
    }
  }

  /** Strings that differ only in equally long middles are different. */
  lemma MiddleDiffers(head: string, a: string, b: string, tail: string)
    requires |a| == |b| && a != b
    ensures head + a + tail != head + b + tail
  {
    var k :| 0 <= k < |a| && a[k] != b[k];
    assert (head + a + tail)[|head| + k] == a[k];
    assert (head + b + tail)[|head| + k] == b[k];
  }

  // ---------------------------------------------------------------------------
  // preloadSequence
  // ---------------------------------------------------------------------------

  /** The arguments of one `onProgress(loaded, total, url)` call. */
  datatype ProgressReport = ProgressReport(loaded: nat, total: nat, url: string)

  /** The arguments of one `onError(event, url, index)` call (the event itself is not modelled). */
  datatype LoadError = LoadError(url: string, index: nat)

  /**
   * The controller returned by `preloadSequence`: one load counter shared by
   * the per-image handlers, and a cancel flag. Each image fires exactly one
   * of its load and error events; those events are the methods below.
   */
  class Preload {
    const urls: seq<string>
    var loadedCount: nat
    var cancelled: bool
    /** Indices of the images that have fired their load or error event. */
    ghost var settled: set<nat>
    /** Number of `onComplete` calls so far. */
    ghost var completions: nat

    ghost predicate Valid()
      reads this
    {
      && (forall x :: x in settled ==> x < |urls|)
      && loadedCount <= |settled|
      && (!cancelled ==> loadedCount == |settled|)
      && completions == (if |urls| > 0 && loadedCount == |urls| then 1 else 0)
    }

    /** Starts loading every URL; nothing has settled yet. */
    constructor (frameUrls: seq<string>)
      ensures Valid()
      ensures urls == frameUrls && loadedCount == 0 && !cancelled
      ensures settled == {} && completions == 0
    {
      urls := frameUrls;
      loadedCount := 0;
      cancelled := false;
      settled := {};
      completions := 0;
    }

    /**
     * Image `index` loaded. Unless cancelled, it counts, reports progress, and
     * completes the preload when it is the last image to settle.
     */
    method HandleLoad(index: nat) returns (progress: Option<ProgressReport>, complete: bool)
      requires Valid()
      requires index < |urls| && index !in settled
      modifies this
      ensures Valid()
      ensures settled == old(settled) + {index} && cancelled == old(cancelled)
      ensures old(cancelled) ==> loadedCount == old(loadedCount) && progress == None && !complete
      ensures !old(cancelled) ==>
        && loadedCount == old(loadedCount) + 1
        && progress == Some(ProgressReport(loadedCount, |urls|, urls[index]))
        && complete == (loadedCount == |urls|)
      ensures completions == old(completions) + (if complete then 1 else 0)
    {
      Arith.IndexSetBound(settled + {index}, |urls|);
      settled := settled + {index};
      if cancelled {
        return None, false;
      }
      loadedCount := loadedCount + 1;
      progress := Some(ProgressReport(loadedCount, |urls|, urls[index]));
      complete := loadedCount == |urls|;
      if complete {
        completions := completions + 1;
      }
    }

    /**
     * Image `index` failed. Unless cancelled, it reports the error (not
     * progress), counts toward completion, and may complete the preload.
     */
    method HandleError(index: nat) returns (reported: Option<LoadError>, complete: bool)
      requires Valid()
      requires index < |urls| && index !in settled
      modifies this
      ensures Valid()
      ensures settled == old(settled) + {index} && cancelled == old(cancelled)
      ensures old(cancelled) ==> loadedCount == old(loadedCount) && reported == None && !complete
      ensures !old(cancelled) ==>
        && loadedCount == old(loadedCount) + 1
        && reported == Some(LoadError(urls[index], index))
        && complete == (loadedCount == |urls|)
      ensures completions == old(completions) + (if complete then 1 else 0)
    {
      Arith.IndexSetBound(settled + {index}, |urls|);
      settled := settled + {index};
      if cancelled {
        return None, false;
      }
      reported := Some(LoadError(urls[index], index));
      loadedCount := loadedCount + 1;
      complete := loadedCount == |urls|;
      if complete {
        completions := completions + 1;
      }
    }

    /** `cancel()`: every later event is ignored. */
    method Cancel()
      requires Valid()
      modifies this
      ensures Valid()
      ensures cancelled
      ensures loadedCount == old(loadedCount) && settled == old(settled) && completions == old(completions)
    {
      cancelled := true;
    }
  }

  /** `onComplete` runs at most once per preload, and only once every image has settled. */
  lemma CompletesOnce(p: Preload)
    requires p.Valid()
    ensures p.completions <= 1
    ensures p.completions == 1 ==> |p.settled| == |p.urls| > 0
  {
    Arith.IndexSetBound(p.settled, |p.urls|);
  }

  // ---------------------------------------------------------------------------
  // calculateFps, calculateDuration
  // ---------------------------------------------------------------------------

  /**
   * The frame rate that plays `frameCount` frames in `targetDuration`
   * seconds, rounded half up as `Math.round` does; 30 when the duration is
   * not positive.
   */
  function CalculateFps(frameCount: int, targetDuration: real): (fps: int)
    ensures targetDuration <= 0.0 ==> fps == 30
    ensures targetDuration > 0.0 ==>
      fps as real - 0.5 <= frameCount as real / targetDuration < fps as real + 0.5
  {
    if targetDuration <= 0.0 then 30 else (frameCount as real / targetDuration + 0.5).Floor
  }

  /** The playing time in seconds of `frameCount` frames at `fps`; 30 fps when `fps` is not positive. */
  function CalculateDuration(frameCount: int, fps: real): (seconds: real)
    ensures fps > 0.0 ==> seconds * fps == frameCount as real
    ensures fps <= 0.0 ==> seconds * 30.0 == frameCount as real
  {
    if fps <= 0.0 then frameCount as real / 30.0 else frameCount as real / fps
  }

  /** The frame rate recovered from the duration of a non-empty sequence is the rate it was computed at. */
  lemma FpsDurationRoundTrip(frameCount: int, fps: int)
    requires frameCount > 0 && fps > 0
    ensures CalculateFps(frameCount, CalculateDuration(frameCount, fps as real)) == fps
  {
    var d := CalculateDuration(frameCount, fps as real);
    assert d * (fps as real) == frameCount as real;
    assert d > 0.0;
    assert frameCount as real / d == fps as real;
  }

  // ---------------------------------------------------------------------------
  // getSequenceMetadata
  // ---------------------------------------------------------------------------

  /**
   * The summary object. A key the source leaves out is `None`: an empty list
   * has `aspectRatio: null` and no first/last frame; a non-empty one has the
   * first and last URL and no aspect ratio.
   */
  datatype Metadata = Metadata(
    frameCount: nat,
    estimatedSize: nat,
    aspectRatio: Option<real>,
    firstFrame: Option<string>,
    lastFrame: Option<string>)

  /** Bytes assumed per frame (200 KB). */
  const FrameSizeEstimate: nat := 200 * 1024

  function GetSequenceMetadata(frameUrls: Option<seq<string>>): (m: Metadata)
    ensures m.aspectRatio == None
    ensures frameUrls == None || frameUrls.value == [] <==> m.frameCount == 0
    ensures m.estimatedSize == m.frameCount * FrameSizeEstimate
    ensures m.firstFrame.Some? <==> m.frameCount > 0
    ensures m.lastFrame.Some? <==> m.frameCount > 0
    ensures m.frameCount > 0 ==>
      && m.frameCount == |frameUrls.value|
      && m.firstFrame == Some(frameUrls.value[0])
      && m.lastFrame == Some(frameUrls.value[|frameUrls.value| - 1])
  {
    match frameUrls
    case None => Metadata(0, 0, None, None, None)
    case Some(urls) =>
      if |urls| == 0 then Metadata(0, 0, None, None, None)
      else Metadata(|urls|, |urls| * 200 * 1024, None, Some(urls[0]), Some(urls[|urls| - 1]))
  }

  /** The metadata of generated frames names the first and the last requested frame. */
  lemma MetadataOfGenerated(urls: seq<string>, folder: string, prefix: string, extension: string,
                            start: int, end: int, padding: int)
    requires start <= end
    requires |urls| == end - start + 1
    requires forall k :: 0 <= k < |urls| ==> urls[k] == FrameUrl(folder, prefix, extension, start + k, padding)
    ensures GetSequenceMetadata(Some(urls)) ==
      Metadata(end - start + 1, (end - start + 1) * FrameSizeEstimate, None,
               Some(FrameUrl(folder, prefix, extension, start, padding)),
               Some(FrameUrl(folder, prefix, extension, end, padding)))
  {
    assert urls[|urls| - 1] == FrameUrl(folder, prefix, extension, start + (|urls| - 1), padding);
  }
}
