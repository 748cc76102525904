/**
  Runs of the playback state machine: any order of the events that reach the
  audio code of client/src/avatar.ts from the page and from the browser.
*/
module Traces {
  import opened Wrappers
  import opened Playback

  datatype Event =
    | Init(ctx: ContextState)          // initAudioAnalysis
    | Resume                           // resumeAudioContext
    | ResumeDone                       // a context.resume() promise settles
    | Audio(binary: Option<string>)    // playAndAnalyzeAudio, after window.atob
    | Listening                        // stopAudioPlayback
    | Ended(source: SourceId)          // the 'ended' event of a source

  /** How the 'ended' event is handled: as the source does, or only for the current source. */
  datatype Completion = AsWritten | IfCurrent

  /** The browser delivers only the events that can occur in state s. */
  predicate Enabled(s: Player, e: Event) {
    match e
    case ResumeDone => s.pendingResumes > 0
    case Ended(src) => src in s.endPending
    case _ => true
  }

  function Step(s: Player, e: Event, c: Completion): Player
    requires Enabled(s, e)
  {
    match e
    case Init(ctx) => InitAudioAnalysis(s, ctx)
    case Resume => ResumeAudioContext(s)
    case ResumeDone => ResumeCompleted(s)
    case Audio(binary) => PlayAndAnalyze(s, binary)
    case Listening => Stop(s)
    case Ended(src) => if c == AsWritten then OnEnded(s, src) else OnEndedIfCurrent(s, src)
  }

  predicate Feasible(s: Player, evs: seq<Event>, c: Completion)
    decreases |evs|
  {
    evs == [] || (Enabled(s, evs[0]) && Feasible(Step(s, evs[0], c), evs[1..], c))
  }

  function Run(s: Player, evs: seq<Event>, c: Completion): Player
    requires Feasible(s, evs, c)
    decreases |evs|
  {
    if evs == [] then s else Run(Step(s, evs[0], c), evs[1..], c)
  }

  lemma StepKeepsInv(s: Player, e: Event, c: Completion)
    requires Inv(s) && Enabled(s, e)
    ensures Inv(Step(s, e, c))
    ensures Exclusive(s) && c == IfCurrent ==> Exclusive(Step(s, e, c))
  {
    match e
    case Init(ctx) => InitKeepsInv(s, ctx);
    case Resume => ResumeKeepsInv(s);
    case ResumeDone => ResumeCompletedKeepsInv(s);
    case Audio(binary) => PlayAndAnalyzeKeepsInv(s, binary);
    case Listening => StopKeepsInv(s);
    case Ended(src) =>
      OnEndedKeepsInv(s, src);
      OnEndedIfCurrentKeepsExclusive(s, src);
  }

  /**
    On every run, isPlaying agrees with the current source, handles stay
    well formed, and the buffers started are queued ones in submission order.
  */
  lemma {:induction false} RunKeepsInv(s: Player, evs: seq<Event>, c: Completion)
    requires Inv(s) && Feasible(s, evs, c)
    ensures Inv(Run(s, evs, c))
    ensures Exclusive(s) && c == IfCurrent ==> Exclusive(Run(s, evs, c))
    decreases |evs|
  {
    if evs != [] {
      StepKeepsInv(s, evs[0], c);
      RunKeepsInv(Step(s, evs[0], c), evs[1..], c);
    }
  }

  /** From the module's initial state, every run keeps the invariant. */
  lemma ReachableInv(evs: seq<Event>, c: Completion)
    requires Feasible(Initial(), evs, c)
    ensures Inv(Run(Initial(), evs, c))
    ensures c == IfCurrent ==> Exclusive(Run(Initial(), evs, c))
  {
    InitialInv();
    RunKeepsInv(Initial(), evs, c);
  }

  /**
    Without a stop, nothing is dropped: every buffer ever queued has started,
    in submission order, or is still waiting in the queue.
  */
  lemma {:induction false} NoStopLosesNothing(s: Player, evs: seq<Event>, c: Completion)
    requires Feasible(s, evs, c)
    requires forall i :: 0 <= i < |evs| ==> evs[i] != Listening
    requires s.started + s.queue == s.submitted
    ensures var r := Run(s, evs, c); r.started + r.queue == r.submitted
    decreases |evs|
  {
    if evs != [] {
      var t := Step(s, evs[0], c);
      assert t.started + t.queue == t.submitted by {
        match evs[0]
        case Audio(binary) =>
          var n := NewBuffers(s, binary);
          assert t.started + t.queue == s.started + s.queue + n;
          assert t.submitted == s.submitted + n;
        case Ended(src) =>
          if c == IfCurrent {
            var cleared := if s.current == Some(src) then s.(isPlaying := false, current := None) else s;
            assert t == ProcessQueue(cleared.(audible := s.audible - {src}, endPending := s.endPending - {src}));
          }
        case _ =>
      }
      NoStopLosesNothing(t, evs[1..], c);
    }
  }

  /**
    The 'ended' event of a source stopped by stopAudioPlayback can arrive after
    the next buffer has started. As written, it then clears isPlaying and the
    current source while that next source still sounds, and the next payload
    starts a second source beside it.
  */
  function StaleCompletion(a: string, b: string, c: string): seq<Event> {
    [Init(Running), Audio(Some(a)), Listening, Audio(Some(b)), Ended(0), Audio(Some(c))]
  }

  /** A two-byte payload always decodes, to one sample. */
  lemma TwoBytesDecode(binary: string)
    requires |binary| == 2
    ensures Decoded(Some(binary)).Some?
  {
    assert |Pcm.Latin1Bytes(binary)| == 2;
  }

  /** Running a non-empty trace is taking its first step and running the rest. */
  lemma RunCons(s: Player, evs: seq<Event>, c: Completion)
    requires evs != [] && Enabled(s, evs[0]) && Feasible(Step(s, evs[0], c), evs[1..], c)
    ensures Feasible(s, evs, c) && Run(s, evs, c) == Run(Step(s, evs[0], c), evs[1..], c)
  {
  }

  /** A decodable payload submitted while idle, ready and with nothing queued starts at once. */
  lemma IdleAudioStarts(s: Player, binary: string)
    requires s.hasListener && s.hasAnalyser && s.resumed && !s.isPlaying && s.queue == []
    requires |binary| == 2
    ensures var r := Step(s, Audio(Some(binary)), AsWritten);
      && r.hasListener && r.hasAnalyser && r.resumed && r.isPlaying && r.queue == []
      && r.current == Some(s.nextSource) && r.nextSource == s.nextSource + 1
      && r.audible == s.audible + {s.nextSource} && r.endPending == s.endPending + {s.nextSource}
  {
    TwoBytesDecode(binary);
  }

  /** The first event sets up a ready listener and analyser, with nothing playing. */
  lemma InitRunningIsReady()
    ensures var r := Step(Initial(), Init(Running), AsWritten);
      && r.hasListener && r.hasAnalyser && r.resumed && r.queue == [] && !r.isPlaying
      && r.nextSource == 0 && r.audible == {} && r.endPending == {}
  {
  }

  /** A stop with nothing queued silences the current source and keeps the setup. */
  lemma StopWhilePlaying(s: Player)
    requires s.current.Some? && s.queue == []
    ensures var r := Step(s, Listening, AsWritten);
      && r.hasListener == s.hasListener && r.hasAnalyser == s.hasAnalyser && r.resumed == s.resumed
      && !r.isPlaying && r.queue == [] && r.current == None && r.nextSource == s.nextSource
      && r.audible == s.audible - {s.current.value} && r.endPending == s.endPending
  {
  }

  /** A completion with nothing queued leaves the player idle, whichever source it was. */
  lemma EndedWithEmptyQueue(s: Player, src: SourceId)
    requires src in s.endPending && s.queue == []
    ensures var r := Step(s, Ended(src), AsWritten);
      && r.hasListener == s.hasListener && r.hasAnalyser == s.hasAnalyser && r.resumed == s.resumed
      && !r.isPlaying && r.queue == [] && r.current == None && r.nextSource == s.nextSource
      && r.audible == s.audible - {src}
  {
  }

  /** Ready, with a listener and an analyser, and nothing queued. */
  ghost predicate ReadyAndDrained(s: Player) {
    s.hasListener && s.hasAnalyser && s.resumed && s.queue == []
  }

  /** The last event: a payload arrives while source 1 still sounds but nothing is current. */
  lemma StaleTail5(s: Player, c: string)
    requires ReadyAndDrained(s) && |c| == 2
    requires !s.isPlaying && s.current == None && s.nextSource == 2 && s.audible == {1}
    ensures Feasible(s, [Audio(Some(c))], AsWritten)
    ensures var r := Run(s, [Audio(Some(c))], AsWritten); r.audible == {1, 2} && r.current == Some(2)
  {
    IdleAudioStarts(s, c);
    RunCons(s, [Audio(Some(c))], AsWritten);
  }

  /** The stale 'ended' event of source 0 arrives while source 1 plays. */
  lemma StaleTail4(s: Player, c: string)
    requires ReadyAndDrained(s) && |c| == 2
    requires s.current == Some(1) && s.nextSource == 2 && s.audible == {1} && 0 in s.endPending
    ensures Feasible(s, [Ended(0), Audio(Some(c))], AsWritten)
    ensures var r := Run(s, [Ended(0), Audio(Some(c))], AsWritten); r.audible == {1, 2} && r.current == Some(2)
  {
    EndedWithEmptyQueue(s, 0);
    StaleTail5(Step(s, Ended(0), AsWritten), c);
    RunCons(s, [Ended(0), Audio(Some(c))], AsWritten);
  }

  /** A second payload arrives after the stop and starts source 1. */
  lemma StaleTail3(s: Player, b: string, c: string)
    requires ReadyAndDrained(s) && |b| == 2 && |c| == 2
    requires !s.isPlaying && s.current == None && s.nextSource == 1 && s.audible == {} && 0 in s.endPending
    ensures Feasible(s, [Audio(Some(b)), Ended(0), Audio(Some(c))], AsWritten)
    ensures var r := Run(s, [Audio(Some(b)), Ended(0), Audio(Some(c))], AsWritten);
      r.audible == {1, 2} && r.current == Some(2)
  {
    IdleAudioStarts(s, b);
    StaleTail4(Step(s, Audio(Some(b)), AsWritten), c);
    RunCons(s, [Audio(Some(b)), Ended(0), Audio(Some(c))], AsWritten);
  }

  /** The agent starts listening: source 0 is stopped, its 'ended' event still to come. */
  lemma StaleTail2(s: Player, b: string, c: string)
    requires ReadyAndDrained(s) && |b| == 2 && |c| == 2
    requires s.current == Some(0) && s.nextSource == 1 && s.audible == {0} && s.endPending == {0}
    ensures Feasible(s, [Listening, Audio(Some(b)), Ended(0), Audio(Some(c))], AsWritten)
    ensures var r := Run(s, [Listening, Audio(Some(b)), Ended(0), Audio(Some(c))], AsWritten);
      r.audible == {1, 2} && r.current == Some(2)
  {
    StopWhilePlaying(s);
    StaleTail3(Step(s, Listening, AsWritten), b, c);
    RunCons(s, [Listening, Audio(Some(b)), Ended(0), Audio(Some(c))], AsWritten);
  }

  /** The first payload starts source 0. */
  lemma StaleTail1(s: Player, a: string, b: string, c: string)
    requires ReadyAndDrained(s) && |a| == 2 && |b| == 2 && |c| == 2
    requires !s.isPlaying && s.nextSource == 0 && s.audible == {} && s.endPending == {}
    ensures Feasible(s, StaleCompletion(a, b, c)[1..], AsWritten)
    ensures var r := Run(s, StaleCompletion(a, b, c)[1..], AsWritten);
      r.audible == {1, 2} && r.current == Some(2)
  {
    IdleAudioStarts(s, a);
    StaleTail2(Step(s, Audio(Some(a)), AsWritten), b, c);
    var evs := StaleCompletion(a, b, c)[1..];
    assert evs[1..] == [Listening, Audio(Some(b)), Ended(0), Audio(Some(c))];
    RunCons(s, evs, AsWritten);
  }

  lemma StaleCompletionOverlaps(a: string, b: string, c: string)
    requires |a| == 2 && |b| == 2 && |c| == 2
    ensures Feasible(Initial(), StaleCompletion(a, b, c), AsWritten)
    ensures Run(Initial(), StaleCompletion(a, b, c), AsWritten).audible == {1, 2}
    ensures !Exclusive(Run(Initial(), StaleCompletion(a, b, c), AsWritten))
  {
    InitRunningIsReady();
    StaleTail1(Step(Initial(), Init(Running), AsWritten), a, b, c);
    RunCons(Initial(), StaleCompletion(a, b, c), AsWritten);
  }
}
