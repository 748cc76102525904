/**
  The playback state machine of client/src/avatar.ts as a value: the
  module-level variables (audioQueue, isPlaying, audioContextResumed,
  currentAudioSource, and whether listener and analyser exist), the handles
  handed out so far, and a record of what happened to the audio: which
  buffers were queued and started, which sources are sounding, and which
  still owe their 'ended' event. Each entry point is a function from the old
  state to the new one; class AudioPlayer (module Avatar) is proved to follow
  them.
*/
module Playback {
  import opened Wrappers
  import Pcm

  /** An AudioBufferSourceNode, named by the order in which it was created. */
  type SourceId = nat

  /** A decoded AudioBuffer; id is its position in the order of creation. */
  datatype AudioBuffer = AudioBuffer(id: nat, samples: seq<int>)

  /** listener.context.state */
  datatype ContextState = Suspended | Running | Closed

  datatype Player = Player(
    hasListener: bool,            // listener !== null
    hasAnalyser: bool,            // analyser !== null
    context: ContextState,
    queue: seq<AudioBuffer>,      // audioQueue
    isPlaying: bool,
    resumed: bool,                // audioContextResumed
    current: Option<SourceId>,    // currentAudioSource
    nextBuffer: nat,              // id of the next AudioBuffer created
    nextSource: nat,              // id of the next source node created
    pendingResumes: nat,          // context.resume() promises not yet settled
    submitted: seq<AudioBuffer>,  // every buffer ever queued, oldest first
    started: seq<AudioBuffer>,    // every buffer ever started; source k plays started[k]
    audible: set<SourceId>,       // sources started and neither stopped nor ended
    endPending: set<SourceId>     // sources whose 'ended' event is still to come
  )

  /** The state when the module is loaded. */
  function Initial(): (r: Player)
    ensures r.queue == [] && r.submitted == [] && r.started == [] && r.current == None
    ensures !r.isPlaying && !r.resumed && !r.hasListener && !r.hasAnalyser
  {
    Player(false, false, Suspended, [], false, false, None, 0, 0, 0, [], [], {}, {})
  }

  // ---------------------------------------------------------------------------
  // Invariants

  /** isPlaying is set exactly when a current source is recorded. */
  ghost predicate FlagsAgree(s: Player) {
    s.isPlaying <==> s.current.Some?
  }

  /**
    Source handles: every source ever created started one buffer, only created
    sources owe an 'ended' event, a sounding source still owes one, and the
    current source is sounding.
  */
  ghost predicate HandlesWellFormed(s: Player) {
    && s.nextSource == |s.started|
    && (forall x :: x in s.endPending ==> x < s.nextSource)
    && s.audible <= s.endPending
    && (s.current.Some? ==> s.current.value in s.audible)
  }

  /**
    FIFO: buffers are numbered in the order they were queued; the queue is the
    most recent part of that order; the buffers started are queued ones, in
    strictly increasing order, all taken before anything still waiting.
  */
  ghost predicate InSubmissionOrder(s: Player) {
    && s.nextBuffer == |s.submitted|
    && (forall i :: 0 <= i < |s.submitted| ==> s.submitted[i].id == i)
    && |s.queue| <= |s.submitted|
    && s.queue == s.submitted[|s.submitted| - |s.queue|..]
    && (forall i :: 0 <= i < |s.started| ==>
          s.started[i].id < |s.submitted| - |s.queue| && s.submitted[s.started[i].id] == s.started[i])
    && (forall i, j :: 0 <= i < j < |s.started| ==> s.started[i].id < s.started[j].id)
  }

  ghost predicate Inv(s: Player) {
    FlagsAgree(s) && HandlesWellFormed(s) && InSubmissionOrder(s)
  }

  /** At most one source sounds, and it is the current one. */
  ghost predicate Exclusive(s: Player) {
    forall x :: x in s.audible ==> s.current == Some(x)
  }

  // ---------------------------------------------------------------------------
  // Entry points

  /** The guard of processQueue, negated: playback may advance. */
  predicate CanAdvance(s: Player): (r: bool)
    ensures r ==> |s.queue| > 0 && !s.isPlaying && s.resumed
  {
    !s.isPlaying && |s.queue| > 0 && s.hasListener && s.hasAnalyser && s.resumed
  }

  /**
    processQueue: unless a guard holds, shift the head of the queue, bind it
    to a new source node, start it and record it as the current source.
  */
  function ProcessQueue(s: Player): (r: Player)
    ensures r.started + r.queue == s.started + s.queue
    ensures r.submitted == s.submitted
    ensures r == s || (CanAdvance(s) && r.isPlaying && r.current == Some(s.nextSource)
                       && r.audible == s.audible + {s.nextSource})
    ensures r != s ==> r.queue == s.queue[1..] && r.started == s.started + [s.queue[0]]
  {
    if !CanAdvance(s) then s
    else
      s.(isPlaying := true,
         queue := s.queue[1..],
         nextSource := s.nextSource + 1,
         current := Some(s.nextSource),
         started := s.started + [s.queue[0]],
         audible := s.audible + {s.nextSource},
         endPending := s.endPending + {s.nextSource})
  }

  /** The samples a payload yields: None when atob or the decoding throws. */
  function Decoded(payload: Option<string>): Option<seq<int>> {
    match payload
    case None => None
    case Some(binary) => Pcm.Decode(Pcm.Latin1Bytes(binary))
  }

  /** The buffer a successful decode appends to the queue. */
  function NewBuffers(s: Player, payload: Option<string>): seq<AudioBuffer> {
    if s.hasListener && Decoded(payload).Some? then [AudioBuffer(s.nextBuffer, Decoded(payload).value)] else []
  }

  /**
    queueAudioBufferFromBase64: with a listener, decode the payload and push
    the buffer at the tail of the queue; the push comes after every sample is
    written, so a throw leaves the queue as it was.
  */
  function QueueFromBase64(s: Player, payload: Option<string>): (r: Player)
    ensures r.queue == s.queue + NewBuffers(s, payload)
    ensures r.submitted == s.submitted + NewBuffers(s, payload)
    ensures NewBuffers(s, payload) == [] ==> r == s
  {
    if !s.hasListener then s
    else
      match Decoded(payload)
      case None => s
      case Some(samples) =>
        var b := AudioBuffer(s.nextBuffer, samples);
        s.(queue := s.queue + [b], submitted := s.submitted + [b], nextBuffer := s.nextBuffer + 1)
  }

  /**
    playAndAnalyzeAudio: always try to queue the payload; advance playback
    only when a listener exists and the context has been resumed.
  */
  function PlayAndAnalyze(s: Player, payload: Option<string>): (r: Player)
    ensures r.submitted == s.submitted + NewBuffers(s, payload)
    ensures r.started + r.queue == s.started + s.queue + NewBuffers(s, payload)
  {
    var queued := QueueFromBase64(s, payload);
    if !s.hasListener || !s.resumed then queued else ProcessQueue(queued)
  }

  /**
    The onended closure of the source `src`: clear isPlaying and the current
    source whichever source that is, disconnect `src`, and advance playback.
  */
  function OnEnded(s: Player, src: SourceId): (r: Player)
    requires src in s.endPending
    ensures r.started + r.queue == s.started + s.queue
    ensures src < s.nextSource ==> src !in r.endPending
  {
    ProcessQueue(s.(isPlaying := false, current := None,
                    audible := s.audible - {src}, endPending := s.endPending - {src}))
  }

  /**
    stopAudioPlayback: if a source is current, stop and disconnect it and
    force the idle state; then pop the queue until it is empty.
  */
  function Stop(s: Player): (r: Player)
    ensures r.queue == [] && r.current == None
    ensures r.started == s.started && r.submitted == s.submitted
    ensures r.audible == if s.current.Some? then s.audible - {s.current.value} else s.audible
  {
    var idle :=
      if s.current.Some? then s.(current := None, isPlaying := false, audible := s.audible - {s.current.value})
      else s;
    idle.(queue := [])
  }

  /**
    resumeAudioContext: a suspended context is asked to resume (the flag is
    set when that completes); a running one sets the flag at once; with no
    listener, or a closed context, nothing happens.
  */
  function ResumeAudioContext(s: Player): (r: Player)
    ensures !s.hasListener ==> r == s
    ensures s.hasListener && s.context == Running ==> r == s.(resumed := true)
    ensures r.queue == s.queue && r.started == s.started && r.current == s.current
    ensures r.resumed == (s.resumed || (s.hasListener && s.context == Running))
    ensures r.pendingResumes == s.pendingResumes + (if s.hasListener && s.context == Suspended then 1 else 0)
  {
    if s.hasListener && s.context == Suspended then s.(pendingResumes := s.pendingResumes + 1)
    else if s.hasListener && s.context == Running then s.(resumed := true)
    else s
  }

  /** Completion of a context.resume() promise: the context runs, the flag is set, playback advances. */
  function ResumeCompleted(s: Player): (r: Player)
    requires s.pendingResumes > 0
    ensures r.resumed && r.context == Running && r.pendingResumes == s.pendingResumes - 1
    ensures r.started + r.queue == s.started + s.queue
    ensures s.hasListener && s.hasAnalyser && !s.isPlaying && |s.queue| > 0 ==>
              r.isPlaying && r.started == s.started + [s.queue[0]] && r.queue == s.queue[1..]
  {
    ProcessQueue(s.(pendingResumes := s.pendingResumes - 1, context := Running, resumed := true))
  }

  /**
    initAudioAnalysis: create the listener and the analyser once, with the
    context in the state the browser gives it, and try to resume it.
  */
  function InitAudioAnalysis(s: Player, ctx: ContextState): (r: Player)
    ensures r.hasListener && r.hasAnalyser == (s.hasAnalyser || !s.hasListener)
    ensures s.hasListener ==> r == s
    ensures r.queue == s.queue && r.started == s.started && r.current == s.current
  {
    if s.hasListener then s
    else ResumeAudioContext(s.(hasListener := true, hasAnalyser := true, context := ctx))
  }

  /**
    The completion closure with the guard the source lacks: only the current
    source's 'ended' event clears the playing state.
  */
  function OnEndedIfCurrent(s: Player, src: SourceId): (r: Player)
    requires src in s.endPending
    ensures r.started + r.queue == s.started + s.queue
    ensures src < s.nextSource ==> src !in r.endPending && src !in r.audible
    ensures s.isPlaying && s.current.Some? && s.current != Some(src) ==>
              r.isPlaying && r.current == s.current && r.queue == s.queue
  {
    var cleared :=
      if s.current == Some(src) then s.(isPlaying := false, current := None) else s;
    ProcessQueue(cleared.(audible := s.audible - {src}, endPending := s.endPending - {src}))
  }

  // ---------------------------------------------------------------------------
  // Every entry point keeps the invariant

  lemma InitialInv()
    ensures Inv(Initial()) && Exclusive(Initial())
  {
  }

  lemma ProcessQueueKeepsInv(s: Player)
    requires Inv(s)
    ensures Inv(ProcessQueue(s))
    ensures Exclusive(s) ==> Exclusive(ProcessQueue(s))
  {
    if CanAdvance(s) {
      var r := ProcessQueue(s);
      var k := |s.submitted| - |s.queue|;
      assert s.queue[0] == s.submitted[k];
      assert r.queue == r.submitted[|r.submitted| - |r.queue|..];
      forall i | 0 <= i < |r.started|
        ensures r.started[i].id < |r.submitted| - |r.queue| && r.submitted[r.started[i].id] == r.started[i]
      {
        if i < |s.started| {
          assert r.started[i] == s.started[i];
        }
      }
    }
  }

  lemma QueueKeepsInv(s: Player, payload: Option<string>)
    requires Inv(s)
    ensures Inv(QueueFromBase64(s, payload))
    ensures Exclusive(s) ==> Exclusive(QueueFromBase64(s, payload))
  {
    var r := QueueFromBase64(s, payload);
    if r != s {
      assert r.queue == r.submitted[|r.submitted| - |r.queue|..];
    }
  }

  lemma PlayAndAnalyzeKeepsInv(s: Player, payload: Option<string>)
    requires Inv(s)
    ensures Inv(PlayAndAnalyze(s, payload))
    ensures Exclusive(s) ==> Exclusive(PlayAndAnalyze(s, payload))
  {
    QueueKeepsInv(s, payload);
    ProcessQueueKeepsInv(QueueFromBase64(s, payload));
  }

  /**
    The completion of any pending source keeps the invariant; it keeps the
    single-playback rule only when the source that ended is the current one
    or none is current.
  */
  lemma OnEndedKeepsInv(s: Player, src: SourceId)
    requires Inv(s) && src in s.endPending
    ensures Inv(OnEnded(s, src))
    ensures var r := OnEnded(s, src);
      || (!r.isPlaying && r.current == None && r.queue == s.queue)
      || (r.current == Some(s.nextSource) && r.started == s.started + [s.queue[0]] && r.queue == s.queue[1..])
    ensures Exclusive(s) && (s.current == None || s.current == Some(src)) ==> Exclusive(OnEnded(s, src))
  {
    ProcessQueueKeepsInv(s.(isPlaying := false, current := None,
                            audible := s.audible - {src}, endPending := s.endPending - {src}));
  }

  lemma StopKeepsInv(s: Player)
    requires Inv(s)
    ensures Inv(Stop(s))
    ensures Exclusive(s) ==> Exclusive(Stop(s))
  {
  }

  lemma ResumeKeepsInv(s: Player)
    requires Inv(s)
    ensures Inv(ResumeAudioContext(s))
    ensures Exclusive(s) ==> Exclusive(ResumeAudioContext(s))
  {
  }

  lemma ResumeCompletedKeepsInv(s: Player)
    requires Inv(s) && s.pendingResumes > 0
    ensures Inv(ResumeCompleted(s))
    ensures Exclusive(s) ==> Exclusive(ResumeCompleted(s))
  {
    ProcessQueueKeepsInv(s.(pendingResumes := s.pendingResumes - 1, context := Running, resumed := true));
  }

  lemma InitKeepsInv(s: Player, ctx: ContextState)
    requires Inv(s)
    ensures Inv(InitAudioAnalysis(s, ctx))
    ensures Exclusive(s) ==> Exclusive(InitAudioAnalysis(s, ctx))
  {
    if !s.hasListener {
      ResumeKeepsInv(s.(hasListener := true, hasAnalyser := true, context := ctx));
    }
  }

  /** With the guard, every completion keeps both the invariant and the single-playback rule. */
  lemma OnEndedIfCurrentKeepsExclusive(s: Player, src: SourceId)
    requires Inv(s) && src in s.endPending
    ensures Inv(OnEndedIfCurrent(s, src))
    ensures Exclusive(s) ==> Exclusive(OnEndedIfCurrent(s, src))
  {
    var cleared :=
      if s.current == Some(src) then s.(isPlaying := false, current := None) else s;
    ProcessQueueKeepsInv(cleared.(audible := s.audible - {src}, endPending := s.endPending - {src}));
  }

  // ---------------------------------------------------------------------------
  // Properties of single entry points

  /**
    When processQueue proceeds it removes exactly the head of the queue and
    starts it on a fresh source, which becomes current and sounds.
  */
  lemma AdvanceTakesHead(s: Player)
    requires Inv(s) && CanAdvance(s)
    ensures var r := ProcessQueue(s);
      && r.queue == s.queue[1..]
      && r.started == s.started + [s.queue[0]]
      && r.isPlaying && r.current == Some(s.nextSource)
      && s.nextSource !in s.endPending && r.audible == s.audible + {s.nextSource}
  {
  }

  /** A second advance while playing is a no-op: the queue and the current source stay. */
  lemma AdvanceTwiceIsAdvanceOnce(s: Player)
    requires Inv(s)
    ensures ProcessQueue(ProcessQueue(s)) == ProcessQueue(s)
  {
  }

  /**
    After stopAudioPlayback the queue is empty and nothing is current or
    playing; a second call changes nothing, and so does a call with nothing
    playing and nothing queued.
  */
  lemma StopClearsEverything(s: Player)
    requires Inv(s)
    ensures var r := Stop(s); r.queue == [] && r.current == None && !r.isPlaying
    ensures Stop(Stop(s)) == Stop(s)
    ensures !s.isPlaying && s.queue == [] ==> Stop(s) == s
  {
  }

  /**
    Before the context is resumed a payload is queued (when it decodes and a
    listener exists) and nothing starts.
  */
  lemma SubmitBeforeReadyWaits(s: Player, payload: Option<string>)
    requires !s.resumed
    ensures var r := PlayAndAnalyze(s, payload);
      && r.queue == s.queue + NewBuffers(s, payload)
      && r.started == s.started && r.isPlaying == s.isPlaying && r.current == s.current
  {
  }

  /**
    After a stop, a payload submitted with the context ready starts at once
    and alone: the stopped queue's buffers are never started.
  */
  lemma StopThenSubmitPlaysOnlyNew(s: Player, binary: string)
    requires Inv(s) && s.hasListener && s.hasAnalyser && s.resumed
    requires Decoded(Some(binary)).Some?
    ensures var r := PlayAndAnalyze(Stop(s), Some(binary));
      && r.queue == []
      && r.started == s.started + [AudioBuffer(s.nextBuffer, Decoded(Some(binary)).value)]
      && r.isPlaying
  {
    StopKeepsInv(s);
  }

  // ---------------------------------------------------------------------------
  // Draining the queue through completions

  /** Deliver the 'ended' event of the current source, if there is one. */
  function CompleteCurrent(s: Player): (r: Player)
    requires Inv(s)
    ensures Inv(r)
  {
    if s.current.Some? then
      OnEndedKeepsInv(s, s.current.value);
      OnEnded(s, s.current.value)
    else s
  }

  /** k natural completions in a row. */
  function CompleteN(s: Player, k: nat): (r: Player)
    requires Inv(s)
    ensures Inv(r)
    decreases k
  {
    if k == 0 then s else CompleteN(CompleteCurrent(s), k - 1)
  }

  /**
    While playing with a listener, an analyser and a resumed context, each
    natural completion starts the next queued buffer: after k completions the
    first k buffers of the queue have started, in order, and playback goes on.
  */
  lemma {:induction false} DrainInOrder(s: Player, k: nat)
    requires Inv(s) && s.isPlaying && s.hasListener && s.hasAnalyser && s.resumed
    requires k <= |s.queue|
    ensures var r := CompleteN(s, k);
      r.started == s.started + s.queue[..k] && r.queue == s.queue[k..] && r.isPlaying
    decreases k
  {
    if k > 0 {
      var src := s.current.value;
      var mid := s.(isPlaying := false, current := None,
                    audible := s.audible - {src}, endPending := s.endPending - {src});
      assert CanAdvance(mid);
      var t := CompleteCurrent(s);
      assert t == ProcessQueue(mid);
      assert t.started == s.started + [s.queue[0]] && t.queue == s.queue[1..] && t.isPlaying;
      assert CompleteN(s, k) == CompleteN(t, k - 1);
      DrainInOrder(t, k - 1);
      MoveHead(s.started, s.queue, k);
    } else {
      assert s.queue[..0] == [] && s.started + [] == s.started;
    }
  }

  /** Moving the head of q onto a, then k - 1 more, is moving the first k of q. */
  lemma MoveHead<T>(a: seq<T>, q: seq<T>, k: nat)
    requires 0 < k <= |q|
    ensures (a + [q[0]]) + q[1..][..k - 1] == a + q[..k]
    ensures q[1..][k - 1..] == q[k..]
  {
    assert q[..k] == [q[0]] + q[1..][..k - 1];
  }

  /**
    Buffers queued while the context was suspended all play, in their original
    order and without being submitted again, once a pending resume completes.
  */
  lemma ResumeDrainsBacklog(s: Player)
    requires Inv(s) && s.hasListener && s.hasAnalyser && !s.isPlaying
    requires s.pendingResumes > 0 && |s.queue| > 0
    ensures var r := CompleteN(ResumeCompleted(s), |s.queue| - 1);
      r.started == s.started + s.queue && r.queue == [] && r.isPlaying
  {
    ResumeCompletedKeepsInv(s);
    var t := ResumeCompleted(s);
    assert t.started == s.started + [s.queue[0]] && t.queue == s.queue[1..];
    DrainInOrder(t, |s.queue| - 1);
    assert s.queue == [s.queue[0]] + s.queue[1..];
  }
}
