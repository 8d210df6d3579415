/**
 * The animated phone mockup: four screens shown one at a time, rotated by a
 * 5 s interval or chosen with the navigation dots. Two effects follow every
 * change of the active screen: the sign-language video (screen 1) is rewound
 * and played when its screen becomes active and paused otherwise, and the hand
 * animation (screen 2) builds its 60-frame table and draws one frame per
 * animation frame, cycling through the table, while its screen is active.
 * The geometry of the hand is not modelled: a frame is its time parameter.
 */
module AppDemo {
  import opened Optional

  const TotalScreens: nat := 4
  const VideoScreen: nat := 1
  const HandScreen: nat := 2
  const HandFrameCount: nat := 60

  /** One frame of the hand animation; its palm and finger positions are functions of time. */
  datatype HandFrame = HandFrame(time: real)

  /** The frame table the hand animation builds: frame i is taken at time i / 10. */
  function HandTable(): (table: seq<HandFrame>)
    ensures |table| == HandFrameCount
  {
    seq(HandFrameCount, i => HandFrame(i as real / 10.0))
  }

  /** One step of an index that wraps around at the given modulus. */
  function Wrap(modulus: nat, i: nat): (next: nat)
    requires modulus > 0
    ensures next < modulus
    ensures i + 1 < modulus ==> next == i + 1
    ensures i + 1 == modulus ==> next == 0
  {
    (i + 1) % modulus
  }

  /** n steps of Wrap. */
  function Advance(modulus: nat, i: nat, n: nat): (r: nat)
    requires modulus > 0
    ensures i < modulus ==> r < modulus
  {
    if n == 0 then i else Wrap(modulus, Advance(modulus, i, n - 1))
  }

  /** Until the end of the range is reached, n steps add n. */
  lemma {:induction false} AdvanceCountsUp(modulus: nat, i: nat, n: nat)
    requires 0 < modulus && i + n < modulus
    ensures Advance(modulus, i, n) == i + n
  {
    if n > 0 {
      AdvanceCountsUp(modulus, i, n - 1);
    }
  }

  /** a steps followed by b steps are a + b steps. */
  lemma {:induction false} AdvanceComposes(modulus: nat, i: nat, a: nat, b: nat)
    requires 0 < modulus
    ensures Advance(modulus, i, a + b) == Advance(modulus, Advance(modulus, i, a), b)
  {
    if b > 0 {
      AdvanceComposes(modulus, i, a, b - 1);
    }
  }

  /** From i, the step that leaves the last index lands on 0. */
  lemma WrapsToZero(modulus: nat, i: nat)
    requires i < modulus
    ensures Advance(modulus, i, modulus - i) == 0
  {
    AdvanceCountsUp(modulus, i, modulus - i - 1);
  }

  /** A full round of steps comes back to where it started, and no shorter one does. */
  lemma FullRoundReturns(modulus: nat, i: nat)
    requires i < modulus
    ensures Advance(modulus, i, modulus) == i
    ensures forall n :: 0 < n < modulus ==> Advance(modulus, i, n) != i
  {
    WrapsToZero(modulus, i);
    AdvanceComposes(modulus, i, modulus - i, i);
    AdvanceCountsUp(modulus, 0, i);
    forall n | 0 < n < modulus ensures Advance(modulus, i, n) != i {
      if i + n < modulus {
        AdvanceCountsUp(modulus, i, n);
      } else {
        AdvanceComposes(modulus, i, modulus - i, n - (modulus - i));
        AdvanceCountsUp(modulus, 0, n - (modulus - i));
      }
    }
  }

  /** Steps repeat with period modulus. */
  lemma AdvancePeriodic(modulus: nat, i: nat, n: nat)
    requires i < modulus
    ensures Advance(modulus, i, n + modulus) == Advance(modulus, i, n)
  {
    AdvanceComposes(modulus, i, modulus, n);
    FullRoundReturns(modulus, i);
  }

  /** Four interval ticks bring the carousel back to the screen it started on. */
  lemma FourTicksReturn(screen: nat)
    requires screen < TotalScreens
    ensures Advance(TotalScreens, screen, 4) == screen
  {
    FullRoundReturns(TotalScreens, screen);
  }

  /** Screen k is rendered, and dot k highlighted, when k is the active screen. */
  predicate ScreenShown(active: nat, k: nat) {
    active == k
  }

  /** Of the four screens exactly one is rendered, the active one. */
  lemma ExactlyOneScreenShown(active: nat)
    requires active < TotalScreens
    ensures (set k | 0 <= k < TotalScreens && ScreenShown(active, k)) == {active}
    ensures |set k | 0 <= k < TotalScreens && ScreenShown(active, k)| == 1
  {
    var shown := set k | 0 <= k < TotalScreens && ScreenShown(active, k);
    assert active in shown;
    assert shown == {active};
  }

  /** The loop that fills the hand animation's frame table. */
  method BuildHandPositions() returns (positions: seq<HandFrame>)
    ensures |positions| == HandFrameCount
    ensures forall i :: 0 <= i < |positions| ==> positions[i].time == i as real / 10.0
    ensures positions == HandTable()
  {
    positions := [];
    for i := 0 to HandFrameCount
      invariant |positions| == i
      invariant forall k :: 0 <= k < i ==> positions[k] == HandFrame(k as real / 10.0)
    {
      positions := positions + [HandFrame(i as real / 10.0)];
    }
  }

  class PhoneMockup {
    var activeScreen: nat
    var videoPlaying: bool
    /** Playback position of the video, in seconds. */
    var videoPosition: nat
    var isDrawing: bool
    var handPositions: seq<HandFrame>
    var frameIndex: nat

    /**
     * The active screen is one of the four; the video plays exactly on its
     * screen; the hand is drawn exactly on its screen, from a full table.
     */
    ghost predicate Valid()
      reads this
    {
      && activeScreen < TotalScreens
      && (videoPlaying <==> activeScreen == VideoScreen)
      && (isDrawing <==> activeScreen == HandScreen)
      && (isDrawing ==> handPositions == HandTable() && frameIndex < HandFrameCount)
    }

    constructor ()
      ensures Valid() && activeScreen == 0
      ensures !videoPlaying && videoPosition == 0 && !isDrawing
    {
      activeScreen := 0;
      videoPlaying := false;
      videoPosition := 0;
      isDrawing := false;
      handPositions := [];
      frameIndex := 0;
    }

    /** drawHand: draws the current frame and moves to the next one, wrapping at the end of the table. */
    method DrawHand() returns (drawn: HandFrame)
      requires |handPositions| > 0
      modifies this`frameIndex
      ensures drawn == handPositions[old(frameIndex) % |handPositions|]
      ensures frameIndex == Wrap(|handPositions|, old(frameIndex))
    {
      drawn := handPositions[frameIndex % |handPositions|];
      frameIndex := (frameIndex + 1) % |handPositions|;
    }

    /**
     * The effects React runs after the active screen changes: the video rule,
     * then the hand animation's clean-up and, on its screen, its restart
     * (a fresh table, frame 0 drawn at once).
     */
    method ScreenEffects()
      requires activeScreen < TotalScreens
      modifies this`videoPlaying, this`videoPosition, this`isDrawing, this`handPositions, this`frameIndex
      ensures Valid()
      ensures activeScreen == VideoScreen ==> videoPosition == 0
      ensures activeScreen != VideoScreen ==> videoPosition == old(videoPosition)
      ensures activeScreen == HandScreen ==> frameIndex == 1
      ensures activeScreen != HandScreen ==>
        handPositions == old(handPositions) && frameIndex == old(frameIndex)
    {
      if activeScreen == VideoScreen {
        videoPosition := 0;
        videoPlaying := true;
      } else {
        videoPlaying := false;
      }
      isDrawing := false;
      if activeScreen == HandScreen {
        handPositions := BuildHandPositions();
        frameIndex := 0;
        isDrawing := true;
        var first := DrawHand();
      }
    }

    /** The 5 s interval: the next screen, after the last the first. */
    method Tick()
      requires Valid()
      modifies this
      ensures Valid()
      ensures activeScreen == Wrap(TotalScreens, old(activeScreen))
      ensures activeScreen == VideoScreen ==> videoPosition == 0
      ensures activeScreen != VideoScreen ==> videoPosition == old(videoPosition)
      ensures activeScreen == HandScreen ==> frameIndex == 1
      ensures activeScreen != HandScreen ==>
        handPositions == old(handPositions) && frameIndex == old(frameIndex)
    {
      activeScreen := (activeScreen + 1) % TotalScreens;
      ScreenEffects();
    }

    /** A click on navigation dot `index`; choosing the active screen changes nothing. */
    method SelectScreen(index: nat)
      requires Valid() && index < TotalScreens
      modifies this
      ensures Valid() && activeScreen == index
      ensures old(activeScreen) == index ==> unchanged(this)
      ensures old(activeScreen) != index && index == VideoScreen ==> videoPosition == 0
      ensures old(activeScreen) != index && index == HandScreen ==> frameIndex == 1
      ensures index != VideoScreen ==> videoPosition == old(videoPosition)
      ensures index != HandScreen ==>
        handPositions == old(handPositions) && frameIndex == old(frameIndex)
    {
      if index != activeScreen {
        activeScreen := index;
        ScreenEffects();
      }
    }

    /** An animation frame: while the hand is drawn, the next frame of the table. */
    method AnimationFrame() returns (drawn: Option<HandFrame>)
      requires Valid()
      modifies this`frameIndex
      ensures Valid()
      ensures old(isDrawing) ==>
        drawn == Some(handPositions[old(frameIndex)]) && frameIndex == Wrap(HandFrameCount, old(frameIndex))
      ensures !old(isDrawing) ==> drawn == None && unchanged(this)
    {
      if isDrawing {
        var frame := DrawHand();
        drawn := Some(frame);
      } else {
        drawn := None;
      }
    }

    /** The video element playing on for the given number of seconds. */
    method VideoPlays(seconds: nat)
      requires Valid()
      modifies this`videoPosition
      ensures Valid()
      ensures videoPosition == if videoPlaying then old(videoPosition) + seconds else old(videoPosition)
    {
      if videoPlaying {
        videoPosition := videoPosition + seconds;
      }
    }
  }

  /** Four ticks go round the carousel once; the video restarts from 0 on each visit. */
  method CarouselScenario() {
    var phone := new PhoneMockup();
    phone.Tick();
    assert phone.activeScreen == VideoScreen && phone.videoPlaying && phone.videoPosition == 0;
    phone.VideoPlays(3);
    phone.SelectScreen(VideoScreen);
    assert phone.videoPosition == 3;
    phone.Tick();
    assert phone.activeScreen == HandScreen && !phone.videoPlaying && phone.isDrawing;
    var frame := phone.AnimationFrame();
    assert frame == Some(HandFrame(1.0 / 10.0));
    phone.Tick();
    phone.Tick();
    assert phone.activeScreen == 0 && !phone.isDrawing;
    phone.SelectScreen(VideoScreen);
    assert phone.videoPosition == 0;
  }
}
