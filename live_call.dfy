/**
 * The live-call page of the client as a state machine: the voice transport's
 * callbacks become events consumed by a step method, the one-second interval
 * becomes `Tick` events naming the interval that fired, and what the page asks
 * of the transport and the router is appended to a command log.
 */
module LiveCall {
  import opened Common

  datatype CallStatus = Connecting | Active | Ended | Error

  /** One line of the on-screen transcript. */
  datatype TranscriptLine = TranscriptLine(role: string, text: string)

  /** A transport `message`; an absent property is the empty string. */
  datatype TransportMessage = TransportMessage(msgType: string, transcriptType: string, role: string, transcript: string)

  /** What the transport, the timers and the page's own teardown report. */
  datatype Event =
    | CallStart
    | CallEnd
    | SpeechStart
    | SpeechEnd
    | VolumeLevel(level: real)
    | Message(msg: TransportMessage)
    | TransportError
    | StartResolved(callId: Option<string>)
    | StartRejected
    | Tick(interval: nat)
    | Teardown

  /** What the page asks of the transport, the backend and the router. */
  datatype Command =
    | Navigate(path: string)
    | NavigateAfter(path: string, delayMs: nat)
    | StartTransport(config: Json)
    | StopTransport
    | SetMuted(muted: bool)
    | UpdateCallId(sessionId: nat, callId: string)

  /**
   * The page's state. `timerRef` is the interval the page holds, `running` the
   * intervals not yet cleared, `started` whether the page asked the transport
   * to start (its promise may still settle), and `listening` whether the
   * transport handlers are registered.
   */
  datatype CallState = CallState(
    sessionId: nat, status: CallStatus, isMuted: bool, volume: real, duration: nat,
    messages: seq<TranscriptLine>, aiSpeaking: bool,
    timerRef: Option<nat>, running: set<nat>, nextInterval: nat, started: bool, listening: bool,
    commands: seq<Command>)

  function ScorecardPath(sessionId: nat): string
  {
    "/scorecard/" + NatToString(sessionId)
  }

  /** The state the page mounts with; without a launch configuration it only navigates back to setup. */
  function Init(config: Option<Json>, sessionId: nat): (s: CallState)
    ensures s.status == Connecting && s.duration == 0 && s.messages == [] && !s.isMuted && !s.aiSpeaking
    ensures s.running == {} && s.timerRef.None?
    ensures config.None? ==> !s.started && !s.listening && s.commands == [Navigate("/new-session")]
    ensures config.Some? ==> s.started && s.listening && s.commands == [StartTransport(config.value)]
  {
    CallState(sessionId, Connecting, false, 0.0, 0, [], false, None, {}, 0, config.Some?, config.Some?,
      if config.None? then [Navigate("/new-session")] else [StartTransport(config.value)])
  }

  /** The interval the page holds, as a set (empty when it holds none). */
  function Held(s: CallState): set<nat>
  {
    if s.timerRef.Some? then {s.timerRef.value} else {}
  }

  /** A transcript message that adds a line: a final transcript fragment. */
  predicate IsFinal(m: TransportMessage)
  {
    m.msgType == "transcript" && m.transcriptType == "final"
  }

  /** The call id of a resolved start, reported to the backend when present and non-empty. */
  function Reported(s: CallState, callId: Option<string>): CallState
  {
    if Truthy(callId) then s.(commands := s.commands + [UpdateCallId(s.sessionId, callId.value)]) else s
  }

  /**
   * The effect of one event. Once the handlers are gone, transport events
   * change nothing, but the start promise's continuation still reports the
   * call id: it is not a handler and is not removed.
   */
  function Next(s: CallState, e: Event): CallState
  {
    if !s.listening then
      if s.started && e.StartResolved? then Reported(s, e.callId) else s
    else
      match e
      case CallStart =>
        s.(status := Active, timerRef := Some(s.nextInterval), running := s.running + {s.nextInterval},
           nextInterval := s.nextInterval + 1)
      case CallEnd =>
        s.(status := Ended, running := s.running - Held(s),
           commands := s.commands + [NavigateAfter(ScorecardPath(s.sessionId), 2000)])
      case SpeechStart => s.(aiSpeaking := true)
      case SpeechEnd => s.(aiSpeaking := false)
      case VolumeLevel(level) => s.(volume := level)
      case Message(m) =>
        if IsFinal(m) then s.(messages := s.messages + [TranscriptLine(m.role, m.transcript)]) else s
      case TransportError => s.(status := Error)
      case StartResolved(callId) => Reported(s, callId)
      case StartRejected => s.(status := Error)
      case Tick(i) => if i in s.running then s.(duration := s.duration + 1) else s
      case Teardown => s.(running := s.running - Held(s), commands := s.commands + [StopTransport], listening := false)
  }

  /** The state after a sequence of events. */
  function Run(s: CallState, events: seq<Event>): CallState
  {
    if events == [] then s else Next(Run(s, events[..|events| - 1]), events[|events| - 1])
  }

  /** The mute button works only during an active call; the end button until the call has ended. */
  predicate MuteEnabled(s: CallState) { s.status == Active }

  predicate EndEnabled(s: CallState) { s.status != Ended }

  /** The source's `toggleMute`: the transport is told the flipped value and the flag flips. */
  function Toggled(s: CallState): (r: CallState)
    ensures r.isMuted == !s.isMuted && r.commands == s.commands + [SetMuted(r.isMuted)]
    ensures r == s.(isMuted := !s.isMuted, commands := r.commands)
  {
    s.(isMuted := !s.isMuted, commands := s.commands + [SetMuted(!s.isMuted)])
  }

  /** The source's `handleEndCall`: the transport is asked to stop; the page waits for its `call-end`. */
  function EndRequested(s: CallState): (r: CallState)
    ensures r == s.(commands := s.commands + [StopTransport])
  {
    s.(commands := s.commands + [StopTransport])
  }

  // ---------------------------------------------------------------------------
  // Properties of the event handlers

  /** What each event does to the status, the clock and the transcript. */
  lemma StepEffects(s: CallState, e: Event)
    requires s.listening
    ensures e == CallStart ==> Next(s, e).status == Active && Next(s, e).timerRef.value in Next(s, e).running
    ensures e == CallEnd ==>
      Next(s, e).status == Ended && Held(s) !! Next(s, e).running
      && Next(s, e).commands == s.commands + [NavigateAfter("/scorecard/" + NatToString(s.sessionId), 2000)]
    ensures e == TransportError || e == StartRejected ==>
      Next(s, e).status == Error && Next(s, e).running == s.running && Next(s, e).timerRef == s.timerRef
    ensures e.Tick? ==> Next(s, e).duration == s.duration + (if e.interval in s.running then 1 else 0)
    ensures !e.Tick? ==> Next(s, e).duration == s.duration
    ensures e.Message? && IsFinal(e.msg) ==> Next(s, e).messages == s.messages + [TranscriptLine(e.msg.role, e.msg.transcript)]
    ensures !(e.Message? && IsFinal(e.msg)) ==> Next(s, e).messages == s.messages
    ensures e.StartResolved? ==>
      Next(s, e).commands == s.commands + (if Truthy(e.callId) then [UpdateCallId(s.sessionId, e.callId.value)] else [])
    ensures e == Teardown ==>
      !Next(s, e).listening && Held(s) !! Next(s, e).running && Next(s, e).commands == s.commands + [StopTransport]
  {
  }

  /** The final transcript fragments among some events, as transcript lines, in order. */
  function FinalLines(events: seq<Event>): seq<TranscriptLine>
  {
    if events == [] then []
    else
      var e := events[|events| - 1];
      FinalLines(events[..|events| - 1])
      + (if e.Message? && IsFinal(e.msg) then [TranscriptLine(e.msg.role, e.msg.transcript)] else [])
  }

  predicate NoTeardown(events: seq<Event>)
  {
    forall i :: 0 <= i < |events| ==> events[i] != Teardown
  }

  /** While the handlers stay registered, the transcript is append-only and grows by exactly the final fragments. */
  lemma {:induction false} TranscriptIsFinalFragments(s: CallState, events: seq<Event>)
    requires s.listening && NoTeardown(events)
    ensures Run(s, events).listening
    ensures Run(s, events).messages == s.messages + FinalLines(events)
  {
    if events != [] {
      var init := events[..|events| - 1];
      assert NoTeardown(init) by {
        forall i | 0 <= i < |init| ensures init[i] != Teardown {
          assert init[i] == events[i];
        }
      }
      TranscriptIsFinalFragments(s, init);
      var e := events[|events| - 1];
      assert e != Teardown;
      NextMessages(Run(s, init), e);
    }
  }

  /** One event other than teardown keeps the handlers and adds at most its final fragment to the transcript. */
  lemma NextMessages(s: CallState, e: Event)
    requires s.listening && e != Teardown
    ensures Next(s, e).listening
    ensures Next(s, e).messages
      == s.messages + (if e.Message? && IsFinal(e.msg) then [TranscriptLine(e.msg.role, e.msg.transcript)] else [])
  {
  }

  predicate NoCallStart(events: seq<Event>)
  {
    forall i :: 0 <= i < |events| ==> events[i] != CallStart
  }

  /** With no interval running and no new `call-start`, the duration never changes again. */
  lemma {:induction false} ClockStopped(s: CallState, events: seq<Event>)
    requires s.running == {} && NoCallStart(events)
    ensures Run(s, events).running == {}
    ensures Run(s, events).duration == s.duration
  {
    if events != [] {
      var init := events[..|events| - 1];
      assert NoCallStart(init) by {
        forall i | 0 <= i < |init| ensures init[i] != CallStart {
          assert init[i] == events[i];
        }
      }
      ClockStopped(s, init);
      assert events[|events| - 1] != CallStart;
    }
  }

  /**
   * From a mounted page, one `call-start` later followed by `call-end`
   * leaves no interval running, so the duration is frozen from then on until
   * another `call-start`.
   */
  lemma OneCallFreezesClock(config: Json, sessionId: nat, during: seq<Event>, after: seq<Event>)
    requires NoCallStart(during) && NoTeardown(during) && NoCallStart(after)
    ensures var ended := Run(Init(Some(config), sessionId), [CallStart] + during + [CallEnd]);
      ended.status == Ended
      && Run(ended, after).duration == ended.duration
  {
    var s0 := Init(Some(config), sessionId);
    var s1 := Next(s0, CallStart);
    assert Run(s0, [CallStart]) == s1;
    assert s1.running == Held(s1);
    HeldIsAll(s1, during);
    var es := [CallStart] + during;
    RunAppend(s0, [CallStart], during);
    var s2 := Run(s0, es);
    assert ([CallStart] + during + [CallEnd])[..|es|] == es;
    var ended := Next(s2, CallEnd);
    assert Run(s0, [CallStart] + during + [CallEnd]) == ended;
    ClockStopped(ended, after);
  }

  /** Without a `call-start`, the intervals running are at most the one the page holds. */
  lemma {:induction false} HeldIsAll(s: CallState, events: seq<Event>)
    requires s.listening && s.running <= Held(s) && NoCallStart(events) && NoTeardown(events)
    ensures Run(s, events).listening && Run(s, events).running <= Held(Run(s, events))
  {
    if events != [] {
      var init := events[..|events| - 1];
      assert NoCallStart(init) && NoTeardown(init) by {
        forall i | 0 <= i < |init| ensures init[i] != CallStart && init[i] != Teardown {
          assert init[i] == events[i];
        }
      }
      HeldIsAll(s, init);
      assert events[|events| - 1] != CallStart && events[|events| - 1] != Teardown;
    }
  }

  lemma {:induction false} RunAppend(s: CallState, a: seq<Event>, b: seq<Event>)
    ensures Run(s, a + b) == Run(Run(s, a), b)
    decreases |b|
  {
    if b == [] {
      assert a + b == a;
    } else {
      assert (a + b)[..|a + b| - 1] == a + b[..|b| - 1];
      RunAppend(s, a, b[..|b| - 1]);
    }
  }

  /** Without a launch configuration nothing but the redirect ever happens. */
  lemma {:induction false} NoConfigIsInert(sessionId: nat, events: seq<Event>)
    ensures Run(Init(None, sessionId), events) == Init(None, sessionId)
  {
    if events != [] {
      NoConfigIsInert(sessionId, events[..|events| - 1]);
    }
  }

  /** The call-id reports that resolved starts among some events make, in order. */
  function CallIdReports(sessionId: nat, events: seq<Event>): seq<Command>
  {
    if events == [] then []
    else
      var e := events[|events| - 1];
      CallIdReports(sessionId, events[..|events| - 1])
      + (if e.StartResolved? && Truthy(e.callId) then [UpdateCallId(sessionId, e.callId.value)] else [])
  }

  /**
   * After the teardown the page's state is frozen, except that a start that
   * resolves late still reports its call id to the backend.
   */
  lemma {:induction false} AfterTeardown(s: CallState, events: seq<Event>)
    requires !s.listening
    ensures Run(s, events) == s.(commands := s.commands + (if s.started then CallIdReports(s.sessionId, events) else []))
  {
    if events != [] {
      AfterTeardown(s, events[..|events| - 1]);
    }
  }

  /** Unmounting before the start resolves: the call id is still reported, after the transport was stopped. */
  lemma LateStartReported(config: Json, sessionId: nat, callId: string)
    requires callId != ""
    ensures Run(Init(Some(config), sessionId), [Teardown, StartResolved(Some(callId))]).commands
      == [StartTransport(config), StopTransport, UpdateCallId(sessionId, callId)]
  {
    var s0 := Init(Some(config), sessionId);
    var events := [Teardown, StartResolved(Some(callId))];
    assert events[..1] == [Teardown];
    assert Run(s0, events[..1]) == Next(s0, Teardown);
  }

  /** Once ended, the end button is off, and the mute button is off outside an active call. */
  lemma ButtonsAfterEnd(s: CallState)
    requires s.listening
    ensures !EndEnabled(Next(s, CallEnd)) && !MuteEnabled(Next(s, CallEnd))
    ensures EndEnabled(Next(s, TransportError)) && !MuteEnabled(Next(s, TransportError))
    ensures MuteEnabled(Next(s, CallStart)) && EndEnabled(Next(s, CallStart))
  {
  }

  /** Toggling mute twice restores the flag and tells the transport both values in turn. */
  lemma ToggleTwice(s: CallState)
    ensures Toggled(Toggled(s)).isMuted == s.isMuted
    ensures Toggled(Toggled(s)).commands == s.commands + [SetMuted(!s.isMuted), SetMuted(s.isMuted)]
  {
  }

  // ---------------------------------------------------------------------------
  // The clock display

  /** Two decimal digits of a number below 100, with a leading zero when needed. */
  function Pad2(n: nat): (r: string)
    requires n < 100
    ensures |r| == 2 && AllDigits(r) && ParseNat(r) == n
  {
    if n < 10 then
      var r := "0" + NatToString(n);
      assert r[..1] == "0" && r[..1][..0] == [];
      assert r[1] == DigitChar(n);
      assert ParseNat(r) == ParseNat(r[..1]) * 10 + n;
      r
    else
      var r := NatToString(n);
      ParseNatToString(n);
      r
  }

  /** The source's `formatTime`: whole minutes, a colon, and the seconds as two digits. */
  function FormatTime(s: nat): (r: string)
    ensures |r| >= 4 && r[|r| - 3] == ':'
  {
    NatToString(s / 60) + ":" + Pad2(s % 60)
  }

  /** Reading the minutes and seconds back from the display gives the number of seconds. */
  lemma FormatTimeRoundTrip(s: nat)
    ensures var r := FormatTime(s);
      AllDigits(r[..|r| - 3]) && AllDigits(r[|r| - 2..])
      && ParseNat(r[..|r| - 3]) * 60 + ParseNat(r[|r| - 2..]) == s
      && ParseNat(r[|r| - 2..]) < 60
  {
    var m, p := NatToString(s / 60), Pad2(s % 60);
    ColonParts(m, p);
    ParseNatToString(s / 60);
  }

  /** The parts around the colon of `m:pp` are `m` and `pp`. */
  lemma ColonParts(m: string, p: string)
    requires |p| == 2
    ensures var r := m + ":" + p; |r| == |m| + 3 && r[..|r| - 3] == m && r[|r| - 2..] == p
  {
  }

  lemma FormatTimeExamples()
    ensures FormatTime(42) == "0:42"
    ensures FormatTime(65) == "1:05"
    ensures FormatTime(600) == "10:00"
  {
    assert NatToString(10) == "10";
  }

  // ---------------------------------------------------------------------------
  // The page as an object

  /** The live-call page: its state fields, updated by its handlers. */
  class CallController {
    var sessionId: nat
    var status: CallStatus
    var isMuted: bool
    var volume: real
    var duration: nat
    var messages: seq<TranscriptLine>
    var aiSpeaking: bool
    var timerRef: Option<nat>
    var running: set<nat>
    var nextInterval: nat
    var started: bool
    var listening: bool
    var commands: seq<Command>

    function State(): CallState
      reads this
    {
      CallState(sessionId, status, isMuted, volume, duration, messages, aiSpeaking, timerRef, running, nextInterval,
        started, listening, commands)
    }

    /** Mounting the page: with a launch configuration, register the handlers and start the transport. */
    constructor (config: Option<Json>, id: nat)
      ensures State() == Init(config, id)
    {
      sessionId, status, isMuted, volume, duration := id, Connecting, false, 0.0, 0;
      messages, aiSpeaking, timerRef, running, nextInterval := [], false, None, {}, 0;
      started, listening := config.Some?, config.Some?;
      commands := if config.None? then [Navigate("/new-session")] else [StartTransport(config.value)];
    }

    /** One event, handled as the registered callbacks handle it. */
    method Step(e: Event)
      modifies this
      ensures State() == Next(old(State()), e)
    {
      if !listening {
        if started && e.StartResolved? {
          OnStartResolved(e.callId);
        }
        return;
      }
      match e {
        case CallStart => OnCallStart();
        case CallEnd => OnCallEnd();
        case SpeechStart => aiSpeaking := true;
        case SpeechEnd => aiSpeaking := false;
        case VolumeLevel(level) => volume := level;
        case Message(m) => OnMessage(m);
        case TransportError => status := Error;
        case StartResolved(callId) => OnStartResolved(callId);
        case StartRejected => status := Error;
        case Tick(i) => OnTick(i);
        case Teardown => OnTeardown();
      }
    }

    /** The `call-start` handler: the call is active and a new interval runs. */
    method OnCallStart()
      modifies this
      ensures State() == old(State()).(status := Active, timerRef := Some(old(nextInterval)),
        running := old(running) + {old(nextInterval)}, nextInterval := old(nextInterval) + 1)
    {
      status := Active;
      timerRef := Some(nextInterval);
      running := running + {nextInterval};
      nextInterval := nextInterval + 1;
    }

    /** The `call-end` handler: the call has ended, the held interval is cleared and the scorecard is scheduled. */
    method OnCallEnd()
      modifies this
      ensures State() == old(State()).(status := Ended, running := old(running) - Held(old(State())),
        commands := old(commands) + [NavigateAfter(ScorecardPath(old(sessionId)), 2000)])
    {
      status := Ended;
      if timerRef.Some? {
        running := running - {timerRef.value};
      }
      commands := commands + [NavigateAfter(ScorecardPath(sessionId), 2000)];
    }

    /** The `message` handler: a final transcript fragment adds a line. */
    method OnMessage(m: TransportMessage)
      modifies this
      ensures State() == if IsFinal(m) then old(State()).(messages := old(messages) + [TranscriptLine(m.role, m.transcript)])
                         else old(State())
    {
      if m.msgType == "transcript" && m.transcriptType == "final" {
        messages := messages + [TranscriptLine(m.role, m.transcript)];
      }
    }

    /** The continuation of the start promise: a non-empty call id is reported to the backend. */
    method OnStartResolved(callId: Option<string>)
      modifies this
      ensures State() == Reported(old(State()), callId)
    {
      if callId.Some? && callId.value != "" {
        commands := commands + [UpdateCallId(sessionId, callId.value)];
      }
    }

    /** One firing of an interval: a running one adds a second. */
    method OnTick(i: nat)
      modifies this
      ensures State() == if i in old(running) then old(State()).(duration := old(duration) + 1) else old(State())
    {
      if i in running {
        duration := duration + 1;
      }
    }

    /** The effect's cleanup: clear the held interval, stop the transport and remove the handlers. */
    method OnTeardown()
      modifies this
      ensures State() == old(State()).(running := old(running) - Held(old(State())),
        commands := old(commands) + [StopTransport], listening := false)
    {
      if timerRef.Some? {
        running := running - {timerRef.value};
      }
      commands := commands + [StopTransport];
      listening := false;
    }

    /** The source's `toggleMute`. */
    method ToggleMute()
      modifies this
      ensures State() == Toggled(old(State()))
    {
      commands := commands + [SetMuted(!isMuted)];
      isMuted := !isMuted;
    }

    /** The source's `handleEndCall`. */
    method EndCall()
      modifies this
      ensures State() == EndRequested(old(State()))
    {
      commands := commands + [StopTransport];
    }
  }
}
