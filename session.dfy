/** The session orchestrator of App.tsx as an object: its React state and
    refs are the fields, and every event handler is a method.  An `await`
    splits a handler into the method that runs up to it and a method for the
    event that resumes it, so that other events can come in between.  Each
    method is proved to carry out the corresponding step of module
    SessionSteps on the snapshot `Abs()`, and the proof-only ledger moves as
    module SessionInvariants says; the lemmas there and in SessionSteps state
    what the steps keep and achieve. */
module Session {
  import opened Types
  import opened Conversation
  import opened Transcript
  import opened Playback
  import opened SessionSteps
  import opened SessionInvariants
  import opened GeminiService

  class Orchestrator {
    /** Whether the client was created on mount (an API key was present). */
    const hasClient: bool

    var status: AppStatus
    var error: Option<string>
    var hasPermissions: bool
    var facingMode: Facing
    var speechRate: real
    var speechRateRef: real
    /** Whether `sessionRef`, `scriptProcessorRef` and `frameIntervalRef`
        hold something. */
    var hasSession: bool
    var hasScriptProcessor: bool
    var hasFrameTimer: bool
    /** The transcript with every update applied, and the copy the last
        render left in `conversationRef`. */
    var conversation: seq<ChatMessage>
    var conversationRef: seq<ChatMessage>
    var currentInputTranscription: string
    var currentOutputTranscription: string
    var currentUserMessageId: Option<MessageId>
    var currentAiMessageId: Option<MessageId>
    /** Where message ids are drawn from, standing in for `Date.now()`. */
    var clock: nat
    var isEnriching: bool
    var enrichmentQueue: seq<Job>
    var nextAudioStartTime: real
    /** The sources in `audioQueue`, by number. */
    var audioQueue: set<nat>
    /** The sources `stop()` has been called on. */
    var stoppedSources: set<nat>
    var nextSourceId: nat

    /** The jobs pushed, started and running, for the proofs. */
    ghost var ledger: Ledger
    /** Whether `live.connect` has been called, so that its callbacks can
        fire. */
    ghost var connected: bool

    function Abs(): View
      reads this
    {
      View(status, error, hasPermissions, facingMode, speechRate, speechRateRef,
           hasSession, hasScriptProcessor, hasFrameTimer, conversation, conversationRef,
           currentInputTranscription, currentOutputTranscription,
           currentUserMessageId, currentAiMessageId, clock, isEnriching, enrichmentQueue,
           nextAudioStartTime, audioQueue, stoppedSources, nextSourceId)
    }

    /** Mount; the client exists when an API key is configured. */
    constructor (apiKeyPresent: bool)
      ensures hasClient == apiKeyPresent
      ensures Abs() == Mounted() && ledger == NoJobs && !connected
    {
      hasClient := apiKeyPresent;
      status := Idle;
      error := None;
      hasPermissions := false;
      facingMode := UserFacing;
      speechRate := 1.0;
      speechRateRef := 1.0;
      hasSession := false;
      hasScriptProcessor := false;
      hasFrameTimer := false;
      conversation := [];
      conversationRef := [];
      currentInputTranscription := "";
      currentOutputTranscription := "";
      currentUserMessageId := None;
      currentAiMessageId := None;
      clock := 0;
      isEnriching := false;
      enrichmentQueue := [];
      nextAudioStartTime := 0.0;
      audioQueue := {};
      stoppedSources := {};
      nextSourceId := 0;
      ledger := NoJobs;
      connected := false;
    }

    // -------------------------------------------------------------------
    // Writes.  Each React setter and each write of a ref's `current` is a
    // method of its own that changes that one part of the snapshot; the
    // handlers below are made of them.
    // -------------------------------------------------------------------

    /** `setStatus` */
    method SetStatus(s: AppStatus)
      modifies this
      ensures Abs() == old(Abs()).(status := s) && ledger == old(ledger) && connected == old(connected)
    {
      status := s;
    }

    /** `setError` */
    method SetError(e: Option<string>)
      modifies this
      ensures Abs() == old(Abs()).(error := e) && ledger == old(ledger) && connected == old(connected)
    {
      error := e;
    }

    /** `setHasPermissions` */
    method SetHasPermissions(b: bool)
      modifies this
      ensures Abs() == old(Abs()).(hasPermissions := b) && ledger == old(ledger) && connected == old(connected)
    {
      hasPermissions := b;
    }

    /** `setFacingMode` */
    method SetFacingMode(m: Facing)
      modifies this
      ensures Abs() == old(Abs()).(facingMode := m) && ledger == old(ledger) && connected == old(connected)
    {
      facingMode := m;
    }

    /** `setConversation`, applied when it is called */
    method SetConversation(c: seq<ChatMessage>)
      modifies this
      ensures Abs() == old(Abs()).(conversation := c) && ledger == old(ledger) && connected == old(connected)
    {
      conversation := c;
    }

    /** `conversationRef.current = ...` */
    method SetConversationRef(c: seq<ChatMessage>)
      modifies this
      ensures Abs() == old(Abs()).(conversationRef := c) && ledger == old(ledger) && connected == old(connected)
    {
      conversationRef := c;
    }

    /** `speechRateRef.current = ...` */
    method SetSpeechRateRef(r: real)
      modifies this
      ensures Abs() == old(Abs()).(speechRateRef := r) && ledger == old(ledger) && connected == old(connected)
    {
      speechRateRef := r;
    }

    /** `sessionRef.current = ...` */
    method SetSessionRef(b: bool)
      modifies this
      ensures Abs() == old(Abs()).(hasSession := b) && ledger == old(ledger) && connected == old(connected)
    {
      hasSession := b;
    }

    /** `scriptProcessorRef.current = ...` */
    method SetScriptProcessorRef(b: bool)
      modifies this
      ensures Abs() == old(Abs()).(hasScriptProcessor := b) && ledger == old(ledger) && connected == old(connected)
    {
      hasScriptProcessor := b;
    }

    /** `frameIntervalRef.current = ...` */
    method SetFrameIntervalRef(b: bool)
      modifies this
      ensures Abs() == old(Abs()).(hasFrameTimer := b) && ledger == old(ledger) && connected == old(connected)
    {
      hasFrameTimer := b;
    }

    /** `currentInputTranscription.current = ...` */
    method SetInputTranscription(t: string)
      modifies this
      ensures Abs() == old(Abs()).(input := t) && ledger == old(ledger) && connected == old(connected)
    {
      currentInputTranscription := t;
    }

    /** `currentOutputTranscription.current = ...` */
    method SetOutputTranscription(t: string)
      modifies this
      ensures Abs() == old(Abs()).(output := t) && ledger == old(ledger) && connected == old(connected)
    {
      currentOutputTranscription := t;
    }

    /** `currentUserMessageIdRef.current = ...` */
    method SetUserMessageId(id: Option<MessageId>)
      modifies this
      ensures Abs() == old(Abs()).(userId := id) && ledger == old(ledger) && connected == old(connected)
    {
      currentUserMessageId := id;
    }

    /** `currentAiMessageIdRef.current = ...` */
    method SetAiMessageId(id: Option<MessageId>)
      modifies this
      ensures Abs() == old(Abs()).(aiId := id) && ledger == old(ledger) && connected == old(connected)
    {
      currentAiMessageId := id;
    }

    /** `isEnrichingRef.current = ...` */
    method SetEnriching(b: bool)
      modifies this
      ensures Abs() == old(Abs()).(isEnriching := b) && ledger == old(ledger) && connected == old(connected)
    {
      isEnriching := b;
    }

    /** `enrichmentQueueRef.current = ...` */
    method SetEnrichmentQueue(q: seq<Job>)
      modifies this
      ensures Abs() == old(Abs()).(queue := q) && ledger == old(ledger) && connected == old(connected)
    {
      enrichmentQueue := q;
    }

    /** `nextAudioStartTime.current = ...` */
    method SetNextAudioStartTime(t: real)
      modifies this
      ensures Abs() == old(Abs()).(cursor := t) && ledger == old(ledger) && connected == old(connected)
    {
      nextAudioStartTime := t;
    }

    /** `audioQueue.current` after an `add`, a `delete` or a `clear` */
    method SetAudioQueue(a: set<nat>)
      modifies this
      ensures Abs() == old(Abs()).(sources := a) && ledger == old(ledger) && connected == old(connected)
    {
      audioQueue := a;
    }

    /** `Date.now()` as a source of message ids: every draw is new. */
    method DrawStamp() returns (stamp: nat)
      modifies this
      ensures stamp == old(clock) && Abs() == old(Abs()).(clock := old(clock) + 1) && ledger == old(ledger) && connected == old(connected)
    {
      stamp := clock;
      clock := clock + 1;
    }

    /** `createBufferSource()`: sources are numbered as they are made. */
    method CreateSource() returns (source: nat)
      modifies this
      ensures source == old(nextSourceId) && Abs() == old(Abs()).(nextSource := source + 1) && ledger == old(ledger) && connected == old(connected)
    {
      source := nextSourceId;
      nextSourceId := nextSourceId + 1;
    }

    /** `source.stop()` */
    method StopSource(source: nat)
      modifies this
      ensures Abs() == old(Abs()).(stopped := old(stoppedSources) + {source}) && ledger == old(ledger) && connected == old(connected)
    {
      stoppedSources := stoppedSources + {source};
    }

    /** The ledger's record of a push, a start or an end. */
    ghost method Record(l: Ledger)
      modifies this
      ensures Abs() == old(Abs()) && ledger == l && connected == old(connected)
    {
      ledger := l;
    }

    // -------------------------------------------------------------------
    // Rendering, settings, permissions, camera
    // -------------------------------------------------------------------

    /** A render, after which the effects copy the state into the refs. */
    method Render()
      modifies this
      ensures Abs() == Rendered(old(Abs())) && ledger == old(ledger) && connected == old(connected)
    {
      SetConversationRef(conversation);
      SetSpeechRateRef(speechRate);
    }

    /** `setSpeechRate`, from the rate slider. */
    method SetSpeechRate(rate: real)
      modifies this
      ensures Abs() == RateChosen(old(Abs()), rate) && ledger == old(ledger) && connected == old(connected)
    {
      speechRate := rate;
    }

    /** `handleStart` */
    method HandleStart()
      modifies this
      ensures Abs() == StartPressed(old(Abs())) && ledger == old(ledger) && connected == old(connected)
    {
      SetError(None);
      SetStatus(Initializing);
    }

    /** The permission effect, with the outcome of the media request. */
    method RequestPermissions(granted: bool)
      modifies this
      ensures Abs() == PermissionAnswered(old(Abs()), granted) && ledger == old(ledger) && connected == old(connected)
    {
      if status == Initializing && !hasPermissions {
        if granted {
          SetHasPermissions(true);
          SetStatus(Ready);
        } else {
          SetError(Some(PermissionDenied));
          SetHasPermissions(false);
          SetStatus(Idle);
        }
      }
    }

    /** `switchCamera`, with the outcome of the request for the other camera. */
    method SwitchCamera(succeeded: bool)
      modifies this
      ensures Abs() == CameraSwitched(old(Abs()), succeeded) && ledger == old(ledger) && connected == old(connected)
    {
      if status != Ready && status != Listening {
        return;
      }
      var newMode := if facingMode == UserFacing then Environment else UserFacing;
      if succeeded {
        SetFacingMode(newMode);
      } else {
        SetError(Some(CameraSwitchFailed));
      }
    }

    // -------------------------------------------------------------------
    // The session lifecycle
    // -------------------------------------------------------------------

    /** `startSession` up to the connect, with the outcome of the frame
        capture; the result says whether `live.connect` is called. */
    method StartSession(frameCaptured: bool) returns (connecting: bool)
      modifies this
      ensures (Abs(), connecting) == SessionStarting(old(Abs()), hasClient, frameCaptured)
      ensures ledger == old(ledger) && connected == (old(connected) || connecting)
    {
      if !hasPermissions || !hasClient {
        return false;
      }
      SetError(None);
      SetStatus(Initializing);
      SetConversation([]);
      connecting := CaptureAndConnect(frameCaptured);
    }

    /** The rest of `startSession` once the transcript is emptied: without a
        captured frame the start is abandoned, otherwise `live.connect` is
        called. */
    method CaptureAndConnect(frameCaptured: bool) returns (connecting: bool)
      modifies this
      ensures connecting == frameCaptured
      ensures Abs() == if frameCaptured then old(Abs()) else old(Abs()).(error := Some(FrameCaptureFailed), status := Ready)
      ensures ledger == old(ledger) && connected == (old(connected) || connecting)
    {
      if !frameCaptured {
        SetError(Some(FrameCaptureFailed));
        SetStatus(Ready);
        return false;
      }
      connected := true;
      connecting := true;
    }

    /** The connect resolved: the session handle is kept. */
    method SessionConnected()
      modifies this
      ensures Abs() == Connected(old(Abs())) && ledger == old(ledger) && connected == old(connected)
    {
      SetSessionRef(true);
    }

    /** The scene description or the connect threw. */
    method ConnectFailed()
      modifies this
      ensures Abs() == ConnectionFailed(old(Abs())) && ledger == old(ledger) && connected == old(connected)
    {
      SetError(Some(ConnectFailedMessage));
      SetStatus(Ready);
    }

    /** `onopen` */
    method OnOpen()
      modifies this
      ensures Abs() == Opened(old(Abs())) && ledger == old(ledger) && connected == old(connected)
    {
      SetScriptProcessorRef(true);
      SetStatus(Listening);
      SetFrameIntervalRef(true);
    }

    /** `onerror` */
    method OnError()
      modifies this
      ensures Abs() == Errored(old(Abs())) && ledger == old(ledger) && connected == old(connected)
    {
      SetError(Some(SessionFailed));
      SetStatus(Ready);
    }

    /** `onclose`, with the status its closure captured. */
    method OnClose(capturedStatus: AppStatus)
      modifies this
      ensures Abs() == SessionClosed(old(Abs()), capturedStatus) && ledger == old(ledger) && connected == old(connected)
    {
      if capturedStatus != Idle && capturedStatus != Ready {
        SetStatus(Ready);
      }
    }

    // -------------------------------------------------------------------
    // The enrichment queue
    // -------------------------------------------------------------------

    /** `processEnrichmentQueue` up to its await: the call it makes, if any. */
    method ProcessEnrichmentQueue() returns (call: Option<Call>)
      modifies this
      ensures (Abs(), call) == StartNext(old(Abs()), hasClient)
      ensures ledger == Began(old(ledger), CallsOf(call)) && connected == old(connected)
    {
      if isEnriching || |enrichmentQueue| == 0 || !hasClient {
        return None;
      }
      SetEnriching(true);
      var job := enrichmentQueue[0];
      SetEnrichmentQueue(enrichmentQueue[1..]);
      var history := HistoryForApi(ContextWindow(conversationRef, job.messageId));
      call := Some(Call(job, history));
      Record(Began(ledger, CallsOf(call)));
    }

    /** `addToEnrichmentQueue` */
    method AddToEnrichmentQueue(text: string, speaker: Speaker, messageId: MessageId) returns (call: Option<Call>)
      modifies this
      ensures (Abs(), call) == Enqueue(old(Abs()), Job(text, speaker, messageId), hasClient)
      ensures ledger == Began(Pushed(old(ledger), [Job(text, speaker, messageId)]), CallsOf(call))
      ensures connected == old(connected)
    {
      SetEnrichmentQueue(enrichmentQueue + [Job(text, speaker, messageId)]);
      Record(Pushed(ledger, [Job(text, speaker, messageId)]));
      call := ProcessEnrichmentQueue();
    }

    /** The end of an enrichment call, of this session or of an ended one:
        the merge of what `enrichTranscription` resolved to (the model's
        answer, or the fallback when the call failed), then the `finally` block, which clears the busy flag and
        tries the next job. */
    method CompleteEnrichment(job: Job, outcome: Option<EnrichmentData>) returns (next: Option<Call>)
      modifies this
      ensures (Abs(), next) == Complete(old(Abs()), job, outcome, hasClient)
      ensures ledger == Began(Finished(old(ledger), job), CallsOf(next)) && connected == old(connected)
    {
      SetConversation(MergeEnrichment(conversation, job.messageId, EnrichTranscription(job.text, outcome)));
      SetEnriching(false);
      Record(Finished(ledger, job));
      next := ProcessEnrichmentQueue();
    }

    // -------------------------------------------------------------------
    // Server messages
    // -------------------------------------------------------------------

    /** The input-transcription branch of `onmessage`. */
    method OnInputTranscription(text: string)
      modifies this
      ensures Abs() == WithTranscript(old(Abs()), Delta(TranscriptOf(old(Abs())), User, text))
      ensures ledger == old(ledger) && connected == old(connected)
    {
      if text != "" {
        if currentUserMessageId.Some? {
          SetInputTranscription(currentInputTranscription + text);
          SetConversation(UpdateEnglish(conversation, currentUserMessageId.value, currentInputTranscription));
        } else {
          var stamp := DrawStamp();
          var messageId := MessageId(User, stamp);
          SetUserMessageId(Some(messageId));
          SetInputTranscription(text);
          SetConversation(conversation + [NewEntry(messageId, User, text)]);
        }
      }
    }

    /** The output-transcription branch of `onmessage`. */
    method OnOutputTranscription(text: string)
      modifies this
      ensures Abs() == WithTranscript(old(Abs()), Delta(TranscriptOf(old(Abs())), Ai, text))
      ensures ledger == old(ledger) && connected == old(connected)
    {
      if text != "" {
        if currentAiMessageId.Some? {
          SetOutputTranscription(currentOutputTranscription + text);
          SetConversation(UpdateEnglish(conversation, currentAiMessageId.value, currentOutputTranscription));
        } else {
          var stamp := DrawStamp();
          var messageId := MessageId(Ai, stamp);
          SetAiMessageId(Some(messageId));
          SetOutputTranscription(text);
          SetConversation(conversation + [NewEntry(messageId, Ai, text)]);
        }
      }
    }

    /** The `turnComplete` branch of `onmessage`: the open user turn, then
        the open ai turn, are pushed, and both turns are closed. */
    method OnTurnComplete() returns (calls: seq<Call>)
      modifies this
      ensures (Abs(), calls) == TurnComplete(old(Abs()), hasClient)
      ensures ledger == Began(Pushed(old(ledger), BoundaryJobs(old(Abs()))), calls) && connected == old(connected)
    {
      calls := PushOpenTurns();
      CloseOpenTurns();
    }

    /** Both open turns are pushed, the user's first. */
    method PushOpenTurns() returns (calls: seq<Call>)
      modifies this
      ensures (Abs(), calls) == EnqueueAll(old(Abs()), BoundaryJobs(old(Abs())), hasClient)
      ensures ledger == Began(Pushed(old(ledger), BoundaryJobs(old(Abs()))), calls) && connected == old(connected)
    {
      ghost var v0, l0 := Abs(), ledger;
      ghost var userJobs := OpenJob(currentUserMessageId, currentInputTranscription, User);
      var userCalls := PushTurn(currentUserMessageId, currentInputTranscription, User);
      EnqueueAllFrame(v0, userJobs, hasClient);
      ghost var aiJobs := OpenJob(currentAiMessageId, currentOutputTranscription, Ai);
      assert BoundaryJobs(v0) == userJobs + aiJobs;
      var aiCalls := PushTurn(currentAiMessageId, currentOutputTranscription, Ai);
      calls := userCalls + aiCalls;
      EnqueueAllConcat(v0, userJobs, aiJobs, hasClient);
      LedgerConcat(l0, userJobs, aiJobs, userCalls, aiCalls);
    }

    /** One open turn is pushed; a closed one pushes nothing. */
    method PushTurn(id: Option<MessageId>, text: string, sp: Speaker) returns (calls: seq<Call>)
      modifies this
      ensures (Abs(), calls) == EnqueueAll(old(Abs()), OpenJob(id, text, sp), hasClient)
      ensures ledger == Began(Pushed(old(ledger), OpenJob(id, text, sp)), calls) && connected == old(connected)
    {
      ghost var v0, l0 := Abs(), ledger;
      if id.Some? {
        var c := AddToEnrichmentQueue(text, sp, id.value);
        calls := CallsOf(c);
        EnqueueAllOne(v0, Job(text, sp, id.value), hasClient);
      } else {
        calls := [];
        NothingPushed(l0);
      }
    }

    /** Both buffers and both open ids are cleared. */
    method CloseOpenTurns()
      modifies this
      ensures Abs() == WithTranscript(old(Abs()), CloseTurns(TranscriptOf(old(Abs()))))
      ensures ledger == old(ledger) && connected == old(connected)
    {
      SetInputTranscription("");
      SetUserMessageId(None);
      SetOutputTranscription("");
      SetAiMessageId(None);
    }

    /** `onmessage` up to its await on the audio decode: the calls it starts,
        and whether a chunk is being decoded. */
    method OnMessage(m: ServerMessage) returns (calls: seq<Call>, awaitingDecode: bool)
      modifies this
      ensures MessageOutcome(Abs(), calls, awaitingDecode) == Received(old(Abs()), m, hasClient)
      ensures ledger == Began(Pushed(old(ledger), MessageJobs(old(Abs()), m)), calls) && connected == old(connected)
    {
      ghost var v0 := Abs();
      OnInputTranscription(m.inputText);
      OnOutputTranscription(m.outputText);
      WithTranscriptTwice(v0, Delta(TranscriptOf(v0), User, m.inputText),
                          Delta(Delta(TranscriptOf(v0), User, m.inputText), Ai, m.outputText));
      calls := [];
      if m.turnComplete {
        calls := OnTurnComplete();
      } else {
        NothingPushed(ledger);
      }
      if m.hasAudio {
        awaitingDecode := true;
        return;
      }
      awaitingDecode := false;
      if m.interrupted {
        StopAudioPlayback();
      }
    }

    /** The rest of `onmessage` once the chunk is decoded at audio-clock time
        `now`: the source starts at `max(now, nextAudioStartTime)` with the
        current speech rate, the cursor moves past it and it is tracked; then
        the message's interrupt flag is honoured.  Returns the source, its
        start time and its playback rate. */
    method CompleteAudioDecode(now: real, duration: Duration, interrupted: bool)
      returns (source: nat, start: real, rate: real)
      modifies this
      ensures Abs() == ChunkDecoded(old(Abs()), now, duration, interrupted)
      ensures source == old(nextSourceId) && start == StartTime(now, old(nextAudioStartTime))
      ensures rate == old(speechRateRef)
      ensures ledger == old(ledger) && connected == old(connected)
    {
      source, start, rate := ScheduleChunk(now, duration);
      if interrupted {
        StopAudioPlayback();
      }
    }

    /** The scheduling part of a decoded chunk. */
    method ScheduleChunk(now: real, duration: Duration) returns (source: nat, start: real, rate: real)
      modifies this
      ensures Abs() == ChunkDecoded(old(Abs()), now, duration, false)
      ensures source == old(nextSourceId) && start == StartTime(now, old(nextAudioStartTime))
      ensures rate == old(speechRateRef)
      ensures ledger == old(ledger) && connected == old(connected)
    {
      start := if now >= nextAudioStartTime then now else nextAudioStartTime;
      source := CreateSource();
      rate := speechRateRef;
      SetNextAudioStartTime(start + duration);
      SetAudioQueue(audioQueue + {source});
    }

    /** `source.onended` */
    method OnSourceEnded(source: nat)
      modifies this
      ensures Abs() == SourceEnded(old(Abs()), source) && ledger == old(ledger) && connected == old(connected)
    {
      SetAudioQueue(audioQueue - {source});
    }

    /** `stopAudioPlayback`: every tracked source is stopped; then the set is
        cleared and the cursor rewound. */
    method StopAudioPlayback()
      modifies this
      ensures Abs() == Stopped(old(Abs())) && ledger == old(ledger) && connected == old(connected)
    {
      StopEachSource();
      SetAudioQueue({});
      SetNextAudioStartTime(0.0);
    }

    /** The loop of `stopAudioPlayback`: `stop()` on each tracked source, one
        at a time. */
    method StopEachSource()
      modifies this
      ensures Abs() == old(Abs()).(stopped := old(stoppedSources) + old(audioQueue))
      ensures ledger == old(ledger) && connected == old(connected)
    {
      var remaining := audioQueue;
      while remaining != {}
        invariant Abs() == old(Abs()).(stopped := stoppedSources)
        invariant stoppedSources + remaining == old(stoppedSources) + old(audioQueue)
        invariant ledger == old(ledger) && connected == old(connected)
        decreases |remaining|
      {
        var source :| source in remaining;
        StopSource(source);
        remaining := remaining - {source};
      }
    }

    // -------------------------------------------------------------------
    // Typed input
    // -------------------------------------------------------------------

    /** `handleSendText` up to its await: the enrichment call it makes, if
        any.  The message itself goes to the live session, which is not
        modelled. */
    method HandleSendText(text: string) returns (call: Option<TypedCall>)
      modifies this
      ensures (Abs(), call) == SendText(old(Abs()), text)
      ensures ledger == old(ledger) && connected == old(connected)
    {
      if !hasSession || status != Listening {
        return None;
      }
      var stamp := DrawStamp();
      var messageId := MessageId(User, stamp);
      SetConversation(conversation + [NewEntry(messageId, User, text)]);
      var history := HistoryForApi(LastFour(conversationRef));
      call := Some(TypedCall(messageId, text, history));
    }

    /** The end of the typed path's call for `text`, merged with the
        phonetics of what `enrichTranscription` resolved to. */
    method CompleteTypedEnrichment(messageId: MessageId, text: string, outcome: Option<EnrichmentData>)
      modifies this
      ensures Abs() == TypedCompleted(old(Abs()), messageId, text, outcome)
      ensures ledger == old(ledger) && connected == old(connected)
    {
      SetConversation(MergeEnrichment(conversation, messageId, EnrichTranscription(text, outcome)));
    }

    // -------------------------------------------------------------------
    // Teardown
    // -------------------------------------------------------------------

    /** `endSession`.  A call in flight keeps running, as an orphan. */
    method EndSession()
      modifies this
      ensures Abs() == TornDown(old(Abs()))
      ensures ledger == Ended(old(ledger), old(clock)) && connected == old(connected)
    {
      ReleaseHandles();
      StopAudioPlayback();
      ClearSessionState();
      SetStatus(if hasPermissions then Ready else Idle);
      Record(Ended(ledger, clock));
    }

    /** The frame timer, the live session and the microphone processor are
        released. */
    method ReleaseHandles()
      modifies this
      ensures Abs() == old(Abs()).(hasFrameTimer := false, hasSession := false, hasScriptProcessor := false)
      ensures ledger == old(ledger) && connected == old(connected)
    {
      SetFrameIntervalRef(false);
      SetSessionRef(false);
      SetScriptProcessorRef(false);
    }

    /** The transcript, both turns and the queue are emptied. */
    method ClearSessionState()
      modifies this
      ensures Abs() == old(Abs()).(conversation := [], input := "", output := "", queue := [], isEnriching := false,
                                   userId := None, aiId := None)
      ensures ledger == old(ledger) && connected == old(connected)
    {
      SetConversation([]);
      SetInputTranscription("");
      SetOutputTranscription("");
      SetEnrichmentQueue([]);
      SetEnriching(false);
      SetUserMessageId(None);
      SetAiMessageId(None);
    }
  }

  /** The job a turn boundary pushes for a turn: one when it is open. */
  function OpenJob(id: Option<MessageId>, text: string, sp: Speaker): seq<Job> {
    if id.Some? then [Job(text, sp, id.value)] else []
  }

  /** A single push is a push of a one-job list. */
  lemma EnqueueAllOne(v: View, job: Job, hasClient: bool)
    ensures EnqueueAll(v, [job], hasClient) == (Enqueue(v, job, hasClient).0, CallsOf(Enqueue(v, job, hasClient).1))
  {
    assert [job][1..] == [];
    assert CallsOf(Enqueue(v, job, hasClient).1) + [] == CallsOf(Enqueue(v, job, hasClient).1);
  }

  lemma NothingPushed(l: Ledger)
    ensures Began(Pushed(l, []), []) == l
  {
    assert l.enqueued + [] == l.enqueued && l.started + [] == l.started;
  }

  /** Two pushes, each followed by its calls, make one push followed by all
      the calls. */
  lemma LedgerConcat(l: Ledger, a: seq<Job>, b: seq<Job>, c: seq<Call>, cs: seq<Call>)
    ensures Began(Pushed(Began(Pushed(l, a), c), b), cs) == Began(Pushed(l, a + b), c + cs)
  {
    SeqAssoc(l.enqueued, a, b);
    BeganTwice(Pushed(l, a + b), c, cs);
  }

  lemma WithTranscriptTwice(v: View, t1: State, t2: State)
    ensures WithTranscript(WithTranscript(v, t1), t2) == WithTranscript(v, t2)
  {
  }

  /** A client: a server message keeps the invariant of the orchestrator. */
  method DeliverMessage(o: Orchestrator, m: ServerMessage) returns (calls: seq<Call>, awaitingDecode: bool)
    modifies o
    requires Inv(o.Abs(), o.ledger, o.hasClient)
    ensures Inv(o.Abs(), o.ledger, o.hasClient)
  {
    ReceivedKeepsInv(o.Abs(), o.ledger, o.hasClient, m);
    calls, awaitingDecode := o.OnMessage(m);
  }

  /** A client: ending a session twice ends it once. */
  method EndSessionTwice(o: Orchestrator)
    modifies o
    ensures o.Abs() == TornDown(old(o.Abs()))
  {
    o.EndSession();
    o.EndSession();
    TornDownIdempotent(old(o.Abs()));
  }
}
