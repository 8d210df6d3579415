# Tri-Snap landing page: a Dafny model of its interactive logic

The Tri-Snap landing page is mostly layout and animation. It has three pieces
of behaviour with rules worth stating, and this project models them and proves
properties about them:

- **Lead-capture forms.** There are two: the contact form (name, e-mail,
  message) and the early-access sign-up form (e-mail only). Each is a class
  with the component's own state: `name`, `email`, `message`, `isSubmitting`,
  `isSubmitted`, `error`. The submit handler is cut at its `await`:
  - `BeginSubmit` is the part before it. It clears the error, marks the form
    as submitting, and checks the address against `/^[^\s@]+@[^\s@]+\.[^\s@]+$/`.
  - `SettleSend(ok)` is the part after it, once the send settles: `ok` is the
    `try` path and `!ok` the `catch` path.
  - `Submit(sendOk)` runs both with no event in between.

  Because of this cut, the in-flight state can be seen, and a submit during it
  (the button is disabled) is shown to change nothing. `EmailPattern.ValidEmail`
  is the regular expression, written as the set of strings it matches. A lemma
  shows that it accepts exactly these strings: one `@`, no whitespace, a
  non-empty part before the `@`, and a domain with a `.` that is neither its
  first nor its last character. `FormStatus` reads the three flags as the
  status Idle, Submitting, Succeeded or Failed(reason).
- **Simulated call.** `ChatDemo.CallDemo` is a state machine over `callState`,
  `callDuration`, `showTranscript` and `currentTranscriptIndex`. Each timer
  firing and each button press is one method. `DurationFormat.FormatDuration`
  is the `MM:SS` label. A parser reads the label back, and the round trip is
  proved for every duration.
- **Phone-mockup carousel.** `AppDemo.PhoneMockup` has these parts:
  - the active screen, which the 5 s interval rotates modulo 4 and the
    navigation dots set directly;
  - the video rule: it rewinds and plays on screen 1 and pauses elsewhere;
  - the hand animation: its 60-entry frame table is built by a loop, and its
    frame index cycles modulo 60.

An effect keyed on `activeScreen` runs only when the value changes. So a
click on the dot of the current screen changes nothing, and in particular it
does not rewind the video.

The `Accept` button answers the call without setting `showTranscript`, as the
code does (`animated-chat-demo.tsx:136`). A call answered this way never
reveals its transcript. It does not end by itself either, unless an end timer
from an earlier call is still pending. That timer is never cancelled, and it
ends whichever call is current when it fires. `AcceptedCallScenario` and
`StaleEndTimerScenario` show both cases. The model keeps this behaviour.

Each form has scenario methods (`SuccessfulContactScenario`,
`RejectedContactScenario`, `SignupScenario`, `RejectedSignupScenario`). The
demos have `UnattendedCallScenario`, `AcceptedCallScenario`,
`StaleEndTimerScenario` and `CarouselScenario`. These are verified client
methods: their assertions about each component's end-to-end behaviour follow
from the contracts alone.

## Model

| member | source | states |
|---|---|---|
| `EmailPattern.IsSpace` | Tri-Snap/tri-snap-web/components/contact-form.tsx:27 | The `\s` class of ECMAScript patterns (WhiteSpace and LineTerminator), so `[^\s@]` is `PartChar`. Letters, digits, `.` and `@` are never whitespace. `RejectedCharacterSamples` shows a space splitting an address. |
| `EmailPattern.ValidEmail` | Tri-Snap/tri-snap-web/components/early-access-form.tsx:23 | The pattern `/^[^\s@]+@[^\s@]+\.[^\s@]+$/` as a set of strings. An accepted string has at least 5 characters. `ValidEmailCharacterisation` states exactly which strings it accepts. |
| `EmailPattern.ValidEmailCharacterisation` | Tri-Snap/tri-snap-web/components/contact-form.tsx:27-28 | The pattern holds exactly when there is one `@`, no whitespace (the full `\s` class), a non-empty part before the `@`, and a `.` after it that is neither the domain's first nor its last character. Both directions. |
| `EmailPattern.MatchIsWellFormed` | Tri-Snap/tri-snap-web/components/contact-form.tsx:27 | A split of the string into `[^\s@]+ @ [^\s@]+ . [^\s@]+` gives a well-formed address. |
| `EmailPattern.WellFormedIsMatch` | Tri-Snap/tri-snap-web/components/contact-form.tsx:27 | A well-formed address, split at its `@` and an inner `.`, matches the pattern. |
| `EmailPattern.ComposedAddressMatches` | Tri-Snap/tri-snap-web/components/early-access-form.tsx:23 | Any `local@domain.tld` whose three parts are non-empty runs without whitespace or `@` is accepted. |
| `EmailPattern.AcceptedShortSample` | Tri-Snap/tri-snap-web/components/contact-form.tsx:27-28 | `a@b.com` is accepted. |
| `EmailPattern.AcceptedSignupSample` | Tri-Snap/tri-snap-web/components/early-access-form.tsx:23-24 | `user@example.com` is accepted. |
| `EmailPattern.AcceptedContactSample` | Tri-Snap/tri-snap-web/components/contact-form.tsx:27-28 | `jane@x.com` is accepted. |
| `EmailPattern.NoAtSignRejected` | Tri-Snap/tri-snap-web/components/contact-form.tsx:27 | A string without `@` is rejected. |
| `EmailPattern.RejectedShapeSamples` | Tri-Snap/tri-snap-web/components/early-access-form.tsx:23-24 | The empty string, `not-an-email`, `bad-email` and `a@b` are rejected. |
| `EmailPattern.RejectedCharacterSamples` | Tri-Snap/tri-snap-web/components/contact-form.tsx:27-28 | `a b@c.com` (whitespace), `a@b@c.com` (two `@`), `a@.com` and `a@b.` (a `.` at the edge of the domain) are rejected. |
| `FormStatus.StatusOf` | Tri-Snap/tri-snap-web/components/contact-form.tsx:139-167 | The status is Submitting exactly while `isSubmitting`. On consistent flags it is Failed exactly when an error is shown, with that error as the reason. |
| `FormStatus.StatusDeterminesFlags` | Tri-Snap/tri-snap-web/components/contact-form.tsx:16-18 | On consistent flags, the status determines all three flags, so the four statuses are mutually exclusive and lose nothing. |
| `Contact.ContactForm.constructor` | Tri-Snap/tri-snap-web/components/contact-form.tsx:13-18 | All fields are empty, nothing is submitting or submitted, there is no error, and the status is Idle. |
| `Contact.ContactForm.EditName` | Tri-Snap/tri-snap-web/components/contact-form.tsx:78 | The name becomes the typed value. Only the name changes. |
| `Contact.ContactForm.EditEmail` | Tri-Snap/tri-snap-web/components/contact-form.tsx:103 | The e-mail becomes the typed value. Only the e-mail changes. |
| `Contact.ContactForm.EditMessage` | Tri-Snap/tri-snap-web/components/contact-form.tsx:127 | The message becomes the typed value. Only the message changes. |
| `Contact.ContactForm.BeginSubmit` | Tri-Snap/tri-snap-web/components/contact-form.tsx:21-32 | While submitting, there is no change and no send. Otherwise a send is in flight exactly when the address matches, and then the form is Submitting with the error cleared. A rejected address gives Failed("Please enter a valid email address") and `isSubmitting` false. Only `isSubmitting` and `error` may change. |
| `Contact.ContactForm.SettleSend` | Tri-Snap/tri-snap-web/components/contact-form.tsx:34-46 | On success: submitted, all three fields empty, no error. On failure: "Something went wrong. Please try again.", fields and `isSubmitted` unchanged. Either way `isSubmitting` becomes false. |
| `Contact.ContactForm.Submit` | Tri-Snap/tri-snap-web/components/contact-form.tsx:21-47 | A submit while submitting changes nothing. Otherwise `isSubmitting` is false on return, on each of the three paths (rejected address, send ok, send failed), with each path's fields and message as above. |
| `Contact.ContactForm.SubmitAnother` | Tri-Snap/tri-snap-web/components/contact-form.tsx:190 | Only `isSubmitted` changes, to false. From Succeeded the form is Idle, and the fields emptied by the success stay empty. |
| `EarlyAccess.EarlyAccessForm.constructor` | Tri-Snap/tri-snap-web/components/early-access-form.tsx:12-15 | Empty address, not submitting, not submitted, no error. |
| `EarlyAccess.EarlyAccessForm.EditEmail` | Tri-Snap/tri-snap-web/components/early-access-form.tsx:53 | The e-mail becomes the typed value. Only the e-mail changes. |
| `EarlyAccess.EarlyAccessForm.BeginSubmit` | Tri-Snap/tri-snap-web/components/early-access-form.tsx:17-28 | Same as the contact form, with the same pattern (`ValidEmail`), so both forms accept exactly the same addresses. A rejected address keeps `email` and resets `isSubmitting`. |
| `EarlyAccess.EarlyAccessForm.SettleSend` | Tri-Snap/tri-snap-web/components/early-access-form.tsx:30-40 | On success: submitted, `email` empty, no error. On failure: the send-failure message, `isSubmitted` stays false, `email` is kept. `isSubmitting` becomes false. |
| `EarlyAccess.EarlyAccessForm.Submit` | Tri-Snap/tri-snap-web/components/early-access-form.tsx:17-41 | A no-op while submitting. Otherwise `isSubmitting` is false after every path, with each path's outcome as above. |
| `EarlyAccess.EarlyAccessForm.SubmitAnother` | Tri-Snap/tri-snap-web/components/early-access-form.tsx:107 | Only `isSubmitted` changes, to false. From Succeeded the form is Idle. |
| `DurationFormat.DecimalString` | Tri-Snap/tri-snap-web/components/animated-chat-demo.tsx:79 | `toString()` of a non-negative integer is a non-empty digit string. It has one digit exactly below 10, and at most two exactly below 100. |
| `DurationFormat.PadTwo` | Tri-Snap/tri-snap-web/components/animated-chat-demo.tsx:79 | `padStart(2, "0")` gives length max(2, \|t\|), keeps `t` as its suffix, and puts only `0`s before it. |
| `DurationFormat.ParseDecimalOfString` | Tri-Snap/tri-snap-web/components/animated-chat-demo.tsx:79 | Reading the decimal string of n gives n back. |
| `DurationFormat.LeadingZeroIgnored` | Tri-Snap/tri-snap-web/components/animated-chat-demo.tsx:79 | A leading `0` does not change the value of a digit string. |
| `DurationFormat.FormatDuration` | Tri-Snap/tri-snap-web/components/animated-chat-demo.tsx:76-80 | The label is at least 5 characters long. It has a `:` three places from the end, and every other character is a digit. `DurationRoundTrip`, `FormatDurationInjective` and `FormatDurationShape` state what it encodes. |
| `DurationFormat.DurationRoundTrip` | Tri-Snap/tri-snap-web/components/animated-chat-demo.tsx:76-80 | Parsing `formatDuration(s)` at its `:` gives (s div 60, s mod 60), so sec < 60 and 60·m + sec = s, for every s. |
| `DurationFormat.FormatDurationInjective` | Tri-Snap/tri-snap-web/components/animated-chat-demo.tsx:76-80 | Different durations give different labels. |
| `DurationFormat.FormatDurationShape` | Tri-Snap/tri-snap-web/components/animated-chat-demo.tsx:76-80 | The label has exactly 5 characters if and only if s < 6000. Then `:` is at index 2 and the other four characters are digits. |
| `DurationFormat.FormatDurationZero` | Tri-Snap/tri-snap-web/components/animated-chat-demo.tsx:76-80 | `formatDuration(0)` is `00:00`. |
| `DurationFormat.FormatDurationHundredMinutes` | Tri-Snap/tri-snap-web/components/animated-chat-demo.tsx:77-79 | Minutes are not capped: `formatDuration(6000)` is `100:00`. |
| `ChatDemo.TranscriptTakesTurns` | Tri-Snap/tri-snap-web/components/animated-chat-demo.tsx:16-30 | `Transcript` (the script of lines 16-30) has 7 lines. The doctor speaks the even-numbered lines and the patient the odd ones. |
| `ChatDemo.ActiveCaption` | Tri-Snap/tri-snap-web/components/animated-chat-demo.tsx:115 | The caption shown while a call is active contains a `:` and parses back to (seconds div 60, seconds mod 60). |
| `ChatDemo.CallDemo.HeaderText` | Tri-Snap/tri-snap-web/components/animated-chat-demo.tsx:106-124 | The header contains a `:` exactly while the call is active, so it tells the three call states apart. While active it reads back as the duration: parsing it gives (callDuration div 60, callDuration mod 60). |
| `ChatDemo.CallDemo.VisibleLines` | Tri-Snap/tri-snap-web/components/animated-chat-demo.tsx:229 | As many lines as `currentTranscriptIndex`, taken from the script in order, and none while the call rings. `TranscriptTimerFires` states that they grow one line at a time. |
| `ChatDemo.CallDemo.constructor` | Tri-Snap/tri-snap-web/components/animated-chat-demo.tsx:9-14 | Starts incoming, duration 0, index 0, transcript hidden, no end timer armed, no lines on screen. |
| `ChatDemo.CallDemo.RingTimerFires` | Tri-Snap/tri-snap-web/components/animated-chat-demo.tsx:33-40 | From incoming: active, with the transcript shown. In any other state the timer has been cleared and nothing changes. |
| `ChatDemo.CallDemo.Accept` | Tri-Snap/tri-snap-web/components/animated-chat-demo.tsx:136 | From incoming: active, with `showTranscript` left false. |
| `ChatDemo.CallDemo.DurationTick` | Tri-Snap/tri-snap-web/components/animated-chat-demo.tsx:42-48 | `callDuration` goes up by exactly 1, and only while active. Nothing else changes. |
| `ChatDemo.CallDemo.TranscriptTimerFires` | Tri-Snap/tri-snap-web/components/animated-chat-demo.tsx:52-73 | The index goes up by 1 exactly when the transcript is shown and the index is below 7. Then the lines on screen are the old ones plus the next line of the script, so lines appear one at a time in script order. Otherwise nothing changes. Going from 6 to 7 arms one end timer. The index never exceeds 7, and a fully shown transcript means the call has ended or an end timer is armed. |
| `ChatDemo.CallDemo.EndTimerFires` | Tri-Snap/tri-snap-web/components/animated-chat-demo.tsx:64-68 | An armed end timer ends the call and is used up. |
| `ChatDemo.CallDemo.HangUp` | Tri-Snap/tri-snap-web/components/animated-chat-demo.tsx:147 | From active: ended. The button at line 361 runs the same handler. |
| `ChatDemo.CallDemo.CallAgain` | Tri-Snap/tri-snap-web/components/animated-chat-demo.tsx:310-315 | From ended: incoming, duration 0, index 0, transcript hidden, no lines on screen. Armed end timers stay armed. |
| `AppDemo.HandTable` | Tri-Snap/tri-snap-web/components/animated-app-demo.tsx:44-64 | The hand frame table has exactly 60 entries. |
| `AppDemo.BuildHandPositions` | Tri-Snap/tri-snap-web/components/animated-app-demo.tsx:42-64 | The loop pushes 60 frames, and frame i is taken at time i / 10. |
| `AppDemo.Wrap` | Tri-Snap/tri-snap-web/components/animated-app-demo.tsx:17 | `(i + 1) % m` is below m. It is i + 1 before the end of the range and 0 at the end. |
| `AppDemo.Advance` | Tri-Snap/tri-snap-web/components/animated-app-demo.tsx:159 | Repeated wrapping steps keep an index that starts in range in range. |
| `AppDemo.AdvanceCountsUp` | Tri-Snap/tri-snap-web/components/animated-app-demo.tsx:17 | Before the wrap, n steps add n. |
| `AppDemo.AdvanceComposes` | Tri-Snap/tri-snap-web/components/animated-app-demo.tsx:17 | a steps then b steps are a + b steps. |
| `AppDemo.WrapsToZero` | Tri-Snap/tri-snap-web/components/animated-app-demo.tsx:159 | From i, m − i steps land on 0. |
| `AppDemo.FullRoundReturns` | Tri-Snap/tri-snap-web/components/animated-app-demo.tsx:17 | m steps return to the start, and no shorter positive number of steps does. |
| `AppDemo.AdvancePeriodic` | Tri-Snap/tri-snap-web/components/animated-app-demo.tsx:159 | The index sequence repeats with period m. |
| `AppDemo.FourTicksReturn` | Tri-Snap/tri-snap-web/components/animated-app-demo.tsx:15-20 | Four consecutive interval ticks return to the starting screen. |
| `AppDemo.ExactlyOneScreenShown` | Tri-Snap/tri-snap-web/components/animated-app-demo.tsx:179 | Of the four screen conditions (lines 179, 289, 374, 429) exactly one holds: the one for the active screen. The same holds for the highlighted dot (line 574). |
| `AppDemo.PhoneMockup.constructor` | Tri-Snap/tri-snap-web/components/animated-app-demo.tsx:9-13 | `activeScreen` starts at 0, the video is not playing, and the hand is not drawn. |
| `AppDemo.PhoneMockup.DrawHand` | Tri-Snap/tri-snap-web/components/animated-app-demo.tsx:73-159 | Draws the frame at `frameIndex % length` and moves the index to `(frameIndex + 1) % length`. |
| `AppDemo.PhoneMockup.ScreenEffects` | Tri-Snap/tri-snap-web/components/animated-app-demo.tsx:22-171 | After a change of screen, the video plays exactly on screen 1, where it is rewound to 0, and is paused elsewhere. The hand is drawn exactly on screen 2, from a fresh 60-frame table with frame 0 already drawn. |
| `AppDemo.PhoneMockup.Tick` | Tri-Snap/tri-snap-web/components/animated-app-demo.tsx:15-20 | `activeScreen` becomes `(activeScreen + 1) % 4`, so it stays in [0, 4). The effects follow. |
| `AppDemo.PhoneMockup.SelectScreen` | Tri-Snap/tri-snap-web/components/animated-app-demo.tsx:571-576 | Dot i (for i < 4) sets `activeScreen` to exactly i. The effects run only if the screen changed; clicking the current dot changes nothing. |
| `AppDemo.PhoneMockup.AnimationFrame` | Tri-Snap/tri-snap-web/components/animated-app-demo.tsx:159-160 | While drawing: returns table entry `frameIndex`, and `frameIndex` becomes `(frameIndex + 1) % 60`, staying in [0, 60). After clean-up: no frame and no change. |

## Left out

- Rendering, layout, framer-motion animation, and the `Math.random()` waveform heights: these are presentation.
- The hand geometry (the `Math.sin`/`Math.cos` positions) and the canvas drawing calls. A frame is modelled by its time parameter. The `getContext` failure branch is not modelled either.
- Real time. Every `setTimeout`, `setInterval` and `requestAnimationFrame` firing, and the 1 s simulated send, is a discrete event method. The send's outcome is the `ok`/`sendOk` parameter.
- Media playback. The `play()`/`pause()` promises and their failures are left out. The video is a `videoPlaying` flag and a position; `VideoPlays` stands in for the media element playing on. The chat demo's notification sound is not modelled, and neither is its `audioPlaying` state, which the component never updates.
- React's batching of state updates. In the source, a rejected address sets `isSubmitting` and then resets it within one handler, so that intermediate state is never rendered. The model states only the state when each handler returns, not which intermediate states are painted.
- `SettleSend(false)` and `Submit(false)` model the `catch` branch (contact-form.tsx:42-43, early-access-form.tsx:36-37). The bundled send is a one-second timer whose promise only resolves, so as written that branch is never taken. It is kept for a real send that can fail.
- `callDuration` is an unbounded `nat`, while the source counts in a JavaScript number. The two agree until 2^53 seconds, where increments lose precision, and `toString` switches to exponent notation only from 10^21. Neither is reachable in a demo that counts one per second.
- The uncancelled 3 s end timer. It is modelled as a counter of armed timers, so a stale timer from an earlier call still ends a later one, as in the code. `StaleEndTimerScenario` shows such a timer ending a later call that was answered with Accept.
- The browser's own checks (`required`, `type="email"`) and the `focusedField` label state: these are presentation-layer constraints.
- `ValidEmail` works on Unicode scalar values. JavaScript's pattern (without the `u` flag) works on UTF-16 code units. Every code unit of a surrogate pair is outside `\s` and is not `@`, so both accept the same strings.
- The navigation bar, footer, team cards and page layout: they hold no logic beyond hover and menu flags.
