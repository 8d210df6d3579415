/**
 * The simulated video call on the landing page. Every timer firing and every
 * button press is one event method of CallDemo:
 *   - the 3 s ring timer (armed while the call is incoming) answers the call
 *     and starts the transcript;
 *   - the Accept button answers the call without starting the transcript;
 *   - the 1 s duration tick counts seconds while the call is active;
 *   - the 3 s transcript timer (armed while the transcript is shown and not
 *     finished) reveals the next line, and on revealing the last one arms a
 *     3 s end timer that is never cancelled;
 *   - the end timer ends the call; the two hang-up buttons end an active call;
 *   - "Call Again" puts the demo back to its initial state.
 * A timer that the component has cleared never fires, so each timer event is
 * a no-op outside the state that arms it.
 */
module ChatDemo {
  import opened Optional
  import opened DurationFormat

  datatype CallState = Incoming | Active | Ended

  datatype Speaker = Doctor | Patient

  datatype Line = Line(speaker: Speaker, text: string)

  /** The scripted conversation, revealed one line at a time. */
  const Transcript: seq<Line> := [
    Line(Doctor, "Hello, this is Dr. Sarah from Tri-Snap. How can I help you today?"),
    Line(Patient, "Hi doctor, I've been having severe headaches for the past three days."),
    Line(Doctor, "I'm sorry to hear that. Can you describe the pain and its location?"),
    Line(Patient, "It's mostly on the right side of my head, and it gets worse when I'm in bright light."),
    Line(Doctor, "Are you experiencing any nausea or visual disturbances with these headaches?"),
    Line(Patient, "Yes, I feel nauseous in the mornings, and sometimes my vision gets a bit blurry."),
    Line(Doctor, "Based on your symptoms, this sounds like it could be migraine headaches. I recommend...")
  ]

  /** The doctor opens and the two speakers take turns. */
  lemma TranscriptTakesTurns()
    ensures |Transcript| == 7
    ensures forall k :: 0 <= k < |Transcript| ==>
      Transcript[k].speaker == if k % 2 == 0 then Doctor else Patient
  {
  }

  /** The fixed captions carry no ':'. */
  lemma CaptionsWithoutColon()
    ensures ':' !in "Incoming call..." && ':' !in "Call ended"
  {
  }

  /** The running timer's caption has a ':' and reads back as the duration. */
  lemma ActiveCaption(seconds: nat)
    ensures ':' in FormatDuration(seconds)
    ensures ParseDuration(FormatDuration(seconds)) == Some((seconds / 60, seconds % 60))
  {
    var t := FormatDuration(seconds);
    assert t[|t| - 3] == ':';
    DurationRoundTrip(seconds);
  }

  class CallDemo {
    var callState: CallState
    var callDuration: nat
    var showTranscript: bool
    var currentTranscriptIndex: nat
    /** End timers armed on revealing the last line that have not fired yet. */
    var pendingEndTimers: nat

    /**
     * The index never passes the transcript; a ringing call has not started;
     * and once the whole transcript has been shown the call has ended or an
     * end timer is on its way.
     */
    ghost predicate Valid()
      reads this
    {
      && currentTranscriptIndex <= |Transcript|
      && (callState == Incoming ==>
            callDuration == 0 && currentTranscriptIndex == 0 && !showTranscript)
      && (showTranscript && currentTranscriptIndex == |Transcript| ==>
            callState == Ended || pendingEndTimers > 0)
    }

    /**
     * The status line under the caller's name. It shows a ':' exactly while
     * the call is active, and then it reads back as the call's duration.
     */
    function HeaderText(): (caption: string)
      reads this
      ensures (':' in caption) <==> callState == Active
      ensures callState == Active ==>
        ParseDuration(caption) == Some((callDuration / 60, callDuration % 60))
    {
      match callState
      case Incoming => CaptionsWithoutColon(); "Incoming call..."
      case Active => ActiveCaption(callDuration); FormatDuration(callDuration)
      case Ended => CaptionsWithoutColon(); "Call ended"
    }

    /** The lines on screen: the first currentTranscriptIndex lines of the script. */
    function VisibleLines(): (lines: seq<Line>)
      reads this
      requires Valid()
      ensures |lines| == currentTranscriptIndex
      ensures callState == Incoming ==> lines == []
      ensures forall k :: 0 <= k < |lines| ==> lines[k] == Transcript[k]
    {
      Transcript[..currentTranscriptIndex]
    }

    constructor ()
      ensures Valid()
      ensures callState == Incoming && callDuration == 0
      ensures currentTranscriptIndex == 0 && !showTranscript && pendingEndTimers == 0
      ensures VisibleLines() == []
    {
      callState := Incoming;
      callDuration := 0;
      showTranscript := false;
      currentTranscriptIndex := 0;
      pendingEndTimers := 0;
    }

    /** The 3 s ring timer: answers the call and starts the transcript. */
    method RingTimerFires()
      requires Valid()
      modifies this`callState, this`showTranscript
      ensures Valid()
      ensures old(callState) == Incoming ==> callState == Active && showTranscript
      ensures old(callState) != Incoming ==> unchanged(this)
    {
      if callState == Incoming {
        callState := Active;
        showTranscript := true;
      }
    }

    /** The Accept button, shown while the call rings: answers without starting the transcript. */
    method Accept()
      requires Valid() && callState == Incoming
      modifies this`callState
      ensures Valid() && callState == Active && !showTranscript
    {
      callState := Active;
    }

    /** The 1 s tick: one more second, counted only while the call is active. */
    method DurationTick()
      requires Valid()
      modifies this`callDuration
      ensures Valid()
      ensures callDuration == if callState == Active then old(callDuration) + 1 else old(callDuration)
    {
      if callState == Active {
        callDuration := callDuration + 1;
      }
    }

    /**
     * The 3 s transcript timer: reveals the next line while the transcript is
     * shown and unfinished; revealing the last line arms the end timer.
     */
    method TranscriptTimerFires()
      requires Valid()
      modifies this`currentTranscriptIndex, this`pendingEndTimers
      ensures Valid()
      ensures old(showTranscript && currentTranscriptIndex < |Transcript|) ==>
        currentTranscriptIndex == old(currentTranscriptIndex) + 1 &&
        VisibleLines() == old(VisibleLines()) + [Transcript[old(currentTranscriptIndex)]]
      ensures !old(showTranscript && currentTranscriptIndex < |Transcript|) ==> unchanged(this)
      ensures pendingEndTimers ==
        if old(showTranscript) && old(currentTranscriptIndex) == |Transcript| - 1
        then old(pendingEndTimers) + 1 else old(pendingEndTimers)
    {
      if showTranscript && currentTranscriptIndex < |Transcript| {
        if currentTranscriptIndex == |Transcript| - 1 {
          pendingEndTimers := pendingEndTimers + 1;
        }
        currentTranscriptIndex := currentTranscriptIndex + 1;
      }
    }

    /** An armed end timer fires and ends the call, whatever state it is in. */
    method EndTimerFires()
      requires Valid() && pendingEndTimers > 0
      modifies this`callState, this`pendingEndTimers
      ensures Valid()
      ensures callState == Ended && pendingEndTimers == old(pendingEndTimers) - 1
    {
      callState := Ended;
      pendingEndTimers := pendingEndTimers - 1;
    }

    /** Either hang-up button, shown while the call is active. */
    method HangUp()
      requires Valid() && callState == Active
      modifies this`callState
      ensures Valid() && callState == Ended
    {
      callState := Ended;
    }

    /** "Call Again", shown once the call has ended: back to a ringing call. */
    method CallAgain()
      requires Valid() && callState == Ended
      modifies this`callState, this`callDuration, this`currentTranscriptIndex, this`showTranscript
      ensures Valid()
      ensures callState == Incoming && callDuration == 0
      ensures currentTranscriptIndex == 0 && !showTranscript && VisibleLines() == []
    {
      callState := Incoming;
      callDuration := 0;
      currentTranscriptIndex := 0;
      showTranscript := false;
    }
  }

  /** Left alone, the call rings, is answered, plays the whole script and ends. */
  method UnattendedCallScenario() {
    var demo := new CallDemo();
    demo.RingTimerFires();
    demo.DurationTick();
    assert demo.HeaderText() == FormatDuration(1);
    var n := 0;
    while n < |Transcript|
      invariant demo.Valid() && demo.callState == Active && demo.showTranscript
      invariant demo.currentTranscriptIndex == n <= |Transcript|
      invariant demo.pendingEndTimers == if n == |Transcript| then 1 else 0
    {
      demo.TranscriptTimerFires();
      n := n + 1;
    }
    assert |demo.VisibleLines()| == |Transcript|;
    demo.EndTimerFires();
    assert demo.callState == Ended && demo.HeaderText() == "Call ended";
    demo.CallAgain();
    assert demo.currentTranscriptIndex == 0 && demo.callDuration == 0;
  }

  /** Answering with the Accept button leaves the transcript hidden: it never advances. */
  method AcceptedCallScenario() {
    var demo := new CallDemo();
    demo.Accept();
    demo.RingTimerFires();
    demo.TranscriptTimerFires();
    assert demo.currentTranscriptIndex == 0 && !demo.showTranscript;
    demo.HangUp();
    assert demo.callState == Ended;
  }

  /**
   * The end timer armed by a finished transcript is never cancelled: hanging up
   * and calling again leaves it pending, and it then ends the next call, even
   * one answered with Accept that shows no transcript.
   */
  method StaleEndTimerScenario() {
    var demo := new CallDemo();
    demo.RingTimerFires();
    var n := 0;
    while n < |Transcript|
      invariant demo.Valid() && demo.callState == Active && demo.showTranscript
      invariant demo.currentTranscriptIndex == n <= |Transcript|
      invariant demo.pendingEndTimers == if n == |Transcript| then 1 else 0
    {
      demo.TranscriptTimerFires();
      n := n + 1;
    }
    demo.HangUp();
    demo.CallAgain();
    demo.Accept();
    assert demo.pendingEndTimers == 1;
    demo.EndTimerFires();
    assert demo.callState == Ended && !demo.showTranscript && demo.VisibleLines() == [];
  }
}
