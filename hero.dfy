/**
 * The landing hero: the frame list it hands the sequence player, the
 * player's settings, the guard that lets the entrance animation run only
 * once, and the headline words drawn with the gradient.
 */
module Hero {
  import opened Common
  import JpgSequence
  import SequencePlayer

  const DefaultFrameCount := 60
  const FramePadding := 3
  const FrameFolder := "/images/hero/sequence"

  /** The URL of generated frame `i`: `/images/hero/sequence/frame_${i padded to 3}.jpg`. */
  function HeroFrameUrl(i: int): string
  {
    "/images/hero/sequence/frame_" + JpgSequence.PadStart(JpgSequence.IntToString(i), FramePadding, '0') + ".jpg"
  }

  /** The hero's frame names are the sequence utilities' naming for that folder, prefix and extension. */
  lemma HeroFrameUrlIsFrameUrl(i: int)
    ensures HeroFrameUrl(i) == JpgSequence.FrameUrl(FrameFolder, "frame_", ".jpg", i, FramePadding)
  {
    var pad := JpgSequence.PadStart(JpgSequence.IntToString(i), FramePadding, '0');
    assert FrameFolder + "/" + "frame_" == "/images/hero/sequence/frame_";
    calc {
      JpgSequence.FrameUrl(FrameFolder, "frame_", ".jpg", i, FramePadding);
      FrameFolder + "/" + "frame_" + pad + ".jpg";
      "/images/hero/sequence/frame_" + pad + ".jpg";
    }
  }

  /**
   * `getJpgFrames`: the frames given, when there are any; otherwise 60
   * generated names, numbered 1 to 60 in order.
   */
  method GetJpgFrames(jpgFrames: seq<string>) returns (frames: seq<string>)
    ensures |jpgFrames| > 0 ==> frames == jpgFrames
    ensures |jpgFrames| == 0 ==> |frames| == DefaultFrameCount
    ensures |jpgFrames| == 0 ==> forall k :: 0 <= k < |frames| ==> frames[k] == HeroFrameUrl(k + 1)
  {
    if |jpgFrames| > 0 {
      return jpgFrames;
    }
    frames := [];
    var i := 1;
    while i <= DefaultFrameCount
      invariant 1 <= i <= DefaultFrameCount + 1
      invariant |frames| == i - 1
      invariant forall k :: 0 <= k < |frames| ==> frames[k] == HeroFrameUrl(k + 1)
    {
      var frameNumber := JpgSequence.PadStart(JpgSequence.IntToString(i), FramePadding, '0');
      frames := frames + ["/images/hero/sequence/frame_" + frameNumber + ".jpg"];
      i := i + 1;
    }
  }

  /** The generated names are all different. */
  lemma GeneratedFramesDistinct(i: nat, j: nat)
    requires i != j
    ensures HeroFrameUrl(i) != HeroFrameUrl(j)
  {
    HeroFrameUrlIsFrameUrl(i);
    HeroFrameUrlIsFrameUrl(j);
    JpgSequence.FrameUrlsDistinct(FrameFolder, "frame_", ".jpg", i, j, FramePadding);
  }

  /** Each generated name carries its frame number, as three digits for frames 1 to 60. */
  lemma GeneratedFramesNumbered(i: nat)
    ensures 1 <= i <= DefaultFrameCount ==> |JpgSequence.PadStart(JpgSequence.IntToString(i), FramePadding, '0')| == FramePadding
    ensures JpgSequence.ParseDecimal(JpgSequence.PadStart(JpgSequence.IntToString(i), FramePadding, '0')) == i
  {
    JpgSequence.PaddedNumber(i, FramePadding);
    if 1 <= i <= DefaultFrameCount {
      assert |JpgSequence.IntToString(i)| <= 2 by {
        assert JpgSequence.IntToString(i) == JpgSequence.Digits(i);
        DigitsOfSmall(i);
      }
    }
  }

  lemma DigitsOfSmall(n: nat)
    requires n < 100
    ensures |JpgSequence.Digits(n)| <= 2
  {
    if n >= 10 {
      assert JpgSequence.Digits(n) == JpgSequence.Digits(n / 10) + [JpgSequence.DigitChar(n % 10)];
    }
  }

  /** The sequence player's settings: always looping, autoplaying unless motion is reduced. */
  method MountPlayer(jpgFrames: seq<string>, frameInterval: nat, reducedMotion: bool)
    returns (player: SequencePlayer.Player)
    requires frameInterval > 0
    ensures player.Valid()
    ensures player.loop && player.autoplay == !reducedMotion
    ensures player.frameCount == (if |jpgFrames| > 0 then |jpgFrames| else DefaultFrameCount)
    ensures !player.isPlaying || !reducedMotion
  {
    var frames := GetJpgFrames(jpgFrames);
    player := new SequencePlayer.Player(|frames|, frameInterval, !reducedMotion, true, reducedMotion);
  }

  // ---- Headline

  /** `s.split(' ')`: the pieces between single spaces, empty ones included. */
  function SplitWords(s: string): (words: seq<string>)
    ensures |words| >= 1
    ensures forall k :: 0 <= k < |words| ==> ' ' !in words[k]
  {
    if ' ' !in s then [s]
    else
      var i := FirstSpace(s);
      [s[..i]] + SplitWords(s[i + 1..])
  }

  function FirstSpace(s: string): (i: nat)
    requires ' ' in s
    ensures i < |s| && s[i] == ' ' && ' ' !in s[..i]
  {
    if s[0] == ' ' then 0
    else
      assert s == [s[0]] + s[1..];
      var k := FirstSpace(s[1..]);
      assert s[..k + 1] == [s[0]] + s[1..][..k];
      k + 1
  }

  /** The words joined back with single spaces. */
  function JoinWords(words: seq<string>): string
    requires |words| >= 1
  {
    if |words| == 1 then words[0] else words[0] + " " + JoinWords(words[1..])
  }

  /** Splitting on spaces and joining with spaces gives back the headline. */
  lemma {:induction false} SplitJoin(s: string)
    ensures JoinWords(SplitWords(s)) == s
    decreases |s|
  {
    if ' ' in s {
      var i := FirstSpace(s);
      var rest := s[i + 1..];
      SplitJoin(rest);
      var words := SplitWords(s);
      assert words == [s[..i]] + SplitWords(rest);
      assert words[0] == s[..i] && words[1..] == SplitWords(rest);
      assert JoinWords(words) == s[..i] + " " + JoinWords(SplitWords(rest));
      assert s == s[..i] + " " + rest;
    }
  }

  /** The two words drawn with the gradient. */
  predicate IsGradient(word: string)
    ensures IsGradient(word) ==> word != "" && ' ' !in word
  {
    word == "Life's" || word == "Moments"
  }

  /** Each headline word with whether it is drawn with the gradient. */
  function MarkedHeadline(headline: string): (marked: seq<(string, bool)>)
    ensures |marked| == |SplitWords(headline)|
    ensures forall k :: 0 <= k < |marked| ==>
      marked[k].0 == SplitWords(headline)[k] && (marked[k].1 <==> IsGradient(SplitWords(headline)[k]))
  {
    var words := SplitWords(headline);
    seq(|words|, k requires 0 <= k < |words| => (words[k], IsGradient(words[k])))
  }

  /** A string made of a space-free word, a space and a rest splits into that word and the rest's words. */
  lemma SplitAt(s: string, word: string, rest: string)
    requires ' ' !in word && s == word + " " + rest
    ensures SplitWords(s) == [word] + SplitWords(rest)
  {
    assert s[|word|] == ' ';
    assert forall j :: 0 <= j < |word| ==> s[j] == word[j];
    var i := FirstSpace(s);
    assert s[..i] == word;
    assert s[i + 1..] == rest;
  }

  // ---- Entrance animation guard

  /**
   * The hero's state: whether the media has loaded, whether the entrance
   * has run, and the reduced-motion flag; `runs` counts entrance runs.
   */
  class HeroState {
    var isMediaLoaded: bool
    var hasAnimated: bool
    var reducedMotion: bool
    ghost var runs: nat

    ghost predicate Valid()
      reads this
    {
      runs <= 1 && (hasAnimated <==> runs == 1)
    }

    constructor (reduced: bool)
      ensures Valid() && runs == 0
      ensures !isMediaLoaded && !hasAnimated && reducedMotion == reduced
    {
      isMediaLoaded := false;
      hasAnimated := false;
      reducedMotion := reduced;
      runs := 0;
    }

    /** The entrance effect: it runs only once the media is loaded, never twice, never with reduced motion. */
    method EntranceEffect() returns (ran: bool)
      requires Valid()
      modifies this
      ensures Valid()
      ensures ran <==> old(isMediaLoaded) && !old(hasAnimated) && !old(reducedMotion)
      ensures runs == old(runs) + (if ran then 1 else 0)
      ensures isMediaLoaded == old(isMediaLoaded) && reducedMotion == old(reducedMotion)
    {
      if !isMediaLoaded || hasAnimated || reducedMotion {
        return false;
      }
      runs := runs + 1;
      hasAnimated := true;
      ran := true;
    }

    /** `handleMediaLoaded`, followed by the effect it triggers. */
    method HandleMediaLoaded() returns (ran: bool)
      requires Valid()
      modifies this
      ensures Valid() && isMediaLoaded
      ensures ran <==> !old(hasAnimated) && !reducedMotion
      ensures runs == old(runs) + (if ran then 1 else 0)
      ensures reducedMotion == old(reducedMotion)
    {
      isMediaLoaded := true;
      ran := EntranceEffect();
    }

    /** The reduced-motion preference changed, followed by the effect it triggers. */
    method SetReducedMotion(reduced: bool) returns (ran: bool)
      requires Valid()
      modifies this
      ensures Valid() && reducedMotion == reduced
      ensures ran <==> isMediaLoaded && !old(hasAnimated) && !reduced
      ensures runs == old(runs) + (if ran then 1 else 0)
      ensures isMediaLoaded == old(isMediaLoaded)
    {
      reducedMotion := reduced;
      ran := EntranceEffect();
    }
  }

  /** However the events interleave, the entrance runs at most once. */
  method EntranceRunsOnce(events: seq<bool>, reduced: bool) returns (h: HeroState, runCount: nat)
    ensures h.Valid() && runCount == h.runs && runCount <= 1
  {
    h := new HeroState(reduced);
    runCount := 0;
    var i := 0;
    while i < |events|
      invariant 0 <= i <= |events|
      invariant h.Valid() && runCount == h.runs
    {
      var ran;
      if events[i] {
        ran := h.HandleMediaLoaded();
      } else {
        ran := h.SetReducedMotion(!h.reducedMotion);
      }
      if ran {
        runCount := runCount + 1;
      }
      i := i + 1;
    }
  }
}
