/**
  The module-level audio state of client/src/avatar.ts as an object, with one
  method per entry point. Web Audio nodes are handles numbered as they are
  created; the asynchronous completion of context.resume() and the onended
  callback of a source are event methods. Each method is proved to move the
  state exactly as the matching function of module Playback says.
*/
module Avatar {
  import opened Wrappers
  import Pcm
  import opened Playback

  class AudioPlayer {
    var hasListener: bool
    var hasAnalyser: bool
    var contextState: ContextState
    var audioQueue: seq<AudioBuffer>
    var isPlaying: bool
    var audioContextResumed: bool
    var currentAudioSource: Option<SourceId>
    var nextBufferId: nat
    var nextSourceId: nat

    // what happened so far, as seen from outside the module
    ghost var pendingResumes: nat
    ghost var submitted: seq<AudioBuffer>
    ghost var started: seq<AudioBuffer>
    ghost var audible: set<SourceId>
    ghost var endPending: set<SourceId>

    /** The state as a value of Playback.Player. */
    ghost function Model(): Player
      reads this
    {
      Player(hasListener, hasAnalyser, contextState, audioQueue, isPlaying, audioContextResumed,
             currentAudioSource, nextBufferId, nextSourceId, pendingResumes,
             submitted, started, audible, endPending)
    }

    ghost predicate Valid()
      reads this
    {
      Inv(Model())
    }

    /** The module's initial values: no listener, nothing queued or playing. */
    constructor()
      ensures Valid() && Model() == Initial()
    {
      hasListener, hasAnalyser, contextState := false, false, Suspended;
      audioQueue, isPlaying, audioContextResumed, currentAudioSource := [], false, false, None;
      nextBufferId, nextSourceId := 0, 0;
      pendingResumes, submitted, started, audible, endPending := 0, [], [], {}, {};
      InitialInv();
    }

    /** initAudioAnalysis, with the context in the state `ctx` the browser creates it in. */
    method InitAudioAnalysis(ctx: ContextState)
      requires Valid()
      modifies this
      ensures Valid() && Model() == Playback.InitAudioAnalysis(old(Model()), ctx)
    {
      if hasListener {
        return;
      }
      hasListener, hasAnalyser, contextState := true, true, ctx;
      ResumeAudioContext();
    }

    /** resumeAudioContext */
    method ResumeAudioContext()
      requires Valid()
      modifies this
      ensures Valid() && Model() == Playback.ResumeAudioContext(old(Model()))
    {
      ResumeKeepsInv(Model());
      if hasListener && contextState == Suspended {
        pendingResumes := pendingResumes + 1;
      } else if hasListener && contextState == Running {
        audioContextResumed := true;
      }
    }

    /** The `.then` continuation of context.resume(). */
    method ResumeCompleted()
      requires Valid() && pendingResumes > 0
      modifies this
      ensures Valid() && Model() == Playback.ResumeCompleted(old(Model()))
    {
      pendingResumes := pendingResumes - 1;
      contextState := Running;
      audioContextResumed := true;
      ProcessQueue();
    }

    /** playAndAnalyzeAudio, given the result of window.atob (None when it throws). */
    method PlayAndAnalyzeAudio(binary: Option<string>)
      requires Valid()
      modifies this
      ensures Valid() && Model() == PlayAndAnalyze(old(Model()), binary)
    {
      if !hasListener || !audioContextResumed {
        QueueAudioBufferFromBase64(binary);
        return;
      }
      QueueAudioBufferFromBase64(binary);
      ProcessQueue();
    }

    /** queueAudioBufferFromBase64 */
    method QueueAudioBufferFromBase64(binary: Option<string>)
      requires Valid()
      modifies this
      ensures Valid() && Model() == QueueFromBase64(old(Model()), binary)
    {
      QueueKeepsInv(Model(), binary);
      if !hasListener {
        return;
      }
      match binary {
        case None =>
          return;
        case Some(b) =>
          var samples := Pcm.DecodePcm16(b);
          if samples.Some? {
            var buffer := AudioBuffer(nextBufferId, samples.value);
            nextBufferId := nextBufferId + 1;
            audioQueue := audioQueue + [buffer];
            submitted := submitted + [buffer];
          }
      }
    }

    /** processQueue */
    method ProcessQueue()
      requires Valid()
      modifies this
      ensures Valid() && Model() == Playback.ProcessQueue(old(Model()))
      ensures old(isPlaying || audioQueue == [] || !hasListener || !hasAnalyser || !audioContextResumed)
              ==> unchanged(this)
    {
      ProcessQueueKeepsInv(Model());
      if isPlaying || |audioQueue| == 0 || !hasListener || !hasAnalyser || !audioContextResumed {
        return;
      }
      isPlaying := true;
      var buffer := audioQueue[0];
      audioQueue := audioQueue[1..];
      var source := nextSourceId;   // createBufferSource, connect, start(0)
      nextSourceId := nextSourceId + 1;
      started := started + [buffer];
      audible := audible + {source};
      endPending := endPending + {source};
      currentAudioSource := Some(source);
    }

    /** The onended closure of the source `source`, as written: it clears the state whichever source is current. */
    method OnEnded(source: SourceId)
      requires Valid() && source in endPending
      modifies this
      ensures Valid() && Model() == Playback.OnEnded(old(Model()), source)
    {
      OnEndedKeepsInv(Model(), source);
      isPlaying := false;
      audible := audible - {source};        // it has finished playing
      endPending := endPending - {source};
      currentAudioSource := None;
      ProcessQueue();
    }

    /** stopAudioPlayback: stop the current source, then pop the queue empty. */
    method StopAudioPlayback()
      requires Valid()
      modifies this
      ensures Valid() && Model() == Stop(old(Model()))
      ensures audioQueue == [] && currentAudioSource == None && !isPlaying
    {
      StopKeepsInv(Model());
      StopClearsEverything(Model());
      if currentAudioSource.Some? {
        audible := audible - {currentAudioSource.value};   // stop(), disconnect()
        currentAudioSource := None;
        isPlaying := false;
      }
      ghost var idle := Model();
      while |audioQueue| > 0
        invariant audioQueue <= idle.queue
        invariant Model() == idle.(queue := audioQueue)
        decreases |audioQueue|
      {
        audioQueue := audioQueue[..|audioQueue| - 1];
      }
    }
  }
}
