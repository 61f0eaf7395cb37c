/** The orchestrator of App.tsx seen as a value: a snapshot of all its refs
    and state, and what each event handler does to that snapshot.  The class
    in module Session carries out these steps field by field; the lemmas here
    state what the steps achieve. */
module SessionSteps {
  import opened Types
  import opened Conversation
  import opened Transcript
  import opened Playback
  import opened GeminiService

  /** `'user' | 'environment'` */
  datatype Facing = UserFacing | Environment

  /** An enrichment call as it leaves the queue: the job and the context
      history sent with it. */
  datatype Call = Call(job: Job, history: seq<HistoryItem>)

  /** The parts of a live-session server message the handler looks at.  An
      absent transcription is the empty text, which the handler skips just
      the same. */
  datatype ServerMessage = ServerMessage(
    inputText: string,
    outputText: string,
    turnComplete: bool,
    hasAudio: bool,
    interrupted: bool)

  /** Everything the orchestrator holds, as one value.  Audio sources are
      numbered in the order they are created. */
  datatype View = View(
    status: AppStatus,
    error: Option<string>,
    hasPermissions: bool,
    facingMode: Facing,
    speechRate: real,
    speechRateRef: real,
    hasSession: bool,
    hasScriptProcessor: bool,
    hasFrameTimer: bool,
    conversation: seq<ChatMessage>,
    conversationRef: seq<ChatMessage>,
    input: string,
    output: string,
    userId: Option<MessageId>,
    aiId: Option<MessageId>,
    clock: nat,
    isEnriching: bool,
    queue: seq<Job>,
    cursor: real,
    sources: set<nat>,
    stopped: set<nat>,
    nextSource: nat)

  /** The transcript part of a snapshot. */
  function TranscriptOf(v: View): State {
    State(v.conversation, Turn(v.userId, v.input), Turn(v.aiId, v.output), v.clock)
  }

  function WithTranscript(v: View, t: State): (r: View)
    ensures TranscriptOf(r) == t
  {
    v.(conversation := t.conversation, userId := t.user.id, input := t.user.text,
       aiId := t.ai.id, output := t.ai.text, clock := t.clock)
  }

  function CallsOf(c: Option<Call>): seq<Call> {
    if c.Some? then [c.value] else []
  }

  function JobsOf(calls: seq<Call>): (jobs: seq<Job>)
    ensures |jobs| == |calls|
    ensures forall i :: 0 <= i < |calls| ==> jobs[i] == calls[i].job
  {
    seq(|calls|, i requires 0 <= i < |calls| => calls[i].job)
  }

  // ---------------------------------------------------------------------
  // Rendering, permissions, camera and the session lifecycle
  // ---------------------------------------------------------------------

  const PermissionDenied: string := "权限被拒绝或摄像头不可用。请在浏览器设置中允许访问。"
  const CameraSwitchFailed: string := "无法切换摄像头。"
  const FrameCaptureFailed: string := "无法从摄像头捕捉画面。"
  const SessionFailed: string := "会话出错。请重试。"
  const ConnectFailedMessage: string := "无法开始会话。请检查您的API密钥和网络连接。"

  /** The state on mount: idle, nothing held, speech rate 1, front camera. */
  function Mounted(): View {
    View(Idle, None, false, UserFacing, 1.0, 1.0, false, false, false, [], [],
         "", "", None, None, 0, false, [], 0.0, {}, {}, 0)
  }

  /** A render, after which the two effects copy the transcript and the
      speech rate into their refs. */
  function Rendered(v: View): View {
    v.(conversationRef := v.conversation, speechRateRef := v.speechRate)
  }

  function RateChosen(v: View, rate: real): View {
    v.(speechRate := rate)
  }

  /** `handleStart` */
  function StartPressed(v: View): View {
    v.(error := None, status := Initializing)
  }

  /** The permission effect: it acts only while initializing without the
      permissions; `granted` says whether the media request succeeded. */
  function PermissionAnswered(v: View, granted: bool): View {
    if v.status != Initializing || v.hasPermissions then v
    else if granted then v.(hasPermissions := true, status := Ready)
    else v.(error := Some(PermissionDenied), hasPermissions := false, status := Idle)
  }

  /** `switchCamera`: only while ready or listening; `succeeded` says whether
      the stream for the other camera was obtained.  On failure the camera
      stays and the error is shown. */
  function CameraSwitched(v: View, succeeded: bool): View {
    if v.status != Ready && v.status != Listening then v
    else if succeeded then v.(facingMode := if v.facingMode == UserFacing then Environment else UserFacing)
    else v.(error := Some(CameraSwitchFailed))
  }

  /** `startSession` up to the connect: nothing without the permissions or
      a client; otherwise the error is cleared, the status becomes
      initializing and the transcript is emptied (the accumulators and the
      queue are not), and without a captured frame the start is abandoned.
      The result says whether `live.connect` is called. */
  function SessionStarting(v: View, hasClient: bool, frameCaptured: bool): (View, bool) {
    if !v.hasPermissions || !hasClient then (v, false)
    else
      var w := v.(error := None, status := Initializing, conversation := []);
      if frameCaptured then (w, true) else (w.(error := Some(FrameCaptureFailed), status := Ready), false)
  }

  /** The connect resolved: the session handle is kept. */
  function Connected(v: View): View {
    v.(hasSession := true)
  }

  /** The scene description or the connect threw. */
  function ConnectionFailed(v: View): View {
    v.(error := Some(ConnectFailedMessage), status := Ready)
  }

  /** `onopen`: the microphone processor is attached, the status becomes
      listening, and the frame timer is (re)started. */
  function Opened(v: View): View {
    v.(hasScriptProcessor := true, status := Listening, hasFrameTimer := true)
  }

  /** `onerror`: the error and the status change, and nothing is torn down. */
  function Errored(v: View): View {
    v.(error := Some(SessionFailed), status := Ready)
  }

  /** `onclose`: the status it tests is the one its closure captured when
      the session was started, `capturedStatus`. */
  function SessionClosed(v: View, capturedStatus: AppStatus): View {
    if capturedStatus != Idle && capturedStatus != Ready then v.(status := Ready) else v
  }

  /** Starting a session empties the transcript but leaves the open turns,
      the queue and the busy flag as they were; the connect is made exactly
      with the permissions, a client and a captured frame. */
  lemma StartingKeepsTurnsAndQueue(v: View, hasClient: bool, frameCaptured: bool)
    ensures var (r, connecting) := SessionStarting(v, hasClient, frameCaptured);
      (connecting <==> v.hasPermissions && hasClient && frameCaptured) &&
      (v.hasPermissions && hasClient ==>
         r.conversation == [] && r.status == (if frameCaptured then Initializing else Ready) &&
         r.error == (if frameCaptured then None else Some(FrameCaptureFailed))) &&
      (!(v.hasPermissions && hasClient) ==> r == v) &&
      r.userId == v.userId && r.aiId == v.aiId && r.input == v.input && r.output == v.output &&
      r.queue == v.queue && r.isEnriching == v.isEnriching && r.clock == v.clock
  {
  }

  /** The permissions, once granted, are never withdrawn, and the permission
      effect acts at most once: after it has acted, running it again changes
      nothing. */
  lemma PermissionsStay(v: View, granted: bool, again: bool)
    ensures v.hasPermissions ==> PermissionAnswered(v, granted).hasPermissions
    ensures PermissionAnswered(PermissionAnswered(v, granted), again) == PermissionAnswered(v, granted)
  {
  }

  /** Switching the camera twice, both times successfully, faces the way it
      faced before. */
  lemma CameraSwitchTwice(v: View)
    ensures CameraSwitched(CameraSwitched(v, true), true) == v
  {
  }

  // ---------------------------------------------------------------------
  // The enrichment queue
  // ---------------------------------------------------------------------

  /** `processEnrichmentQueue` up to its first await: nothing when busy, when
      the queue is empty or when there is no client; otherwise the head job
      leaves the queue, the busy flag is set, and the call goes out with the
      context window of the target in the rendered transcript. */
  function StartNext(v: View, hasClient: bool): (View, Option<Call>) {
    if v.isEnriching || |v.queue| == 0 || !hasClient then (v, None)
    else
      var job := v.queue[0];
      (v.(isEnriching := true, queue := v.queue[1..]),
       Some(Call(job, HistoryForApi(ContextWindow(v.conversationRef, job.messageId)))))
  }

  /** `addToEnrichmentQueue`: push, then try to start. */
  function Enqueue(v: View, job: Job, hasClient: bool): (View, Option<Call>) {
    StartNext(v.(queue := v.queue + [job]), hasClient)
  }

  function EnqueueAll(v: View, jobs: seq<Job>, hasClient: bool): (View, seq<Call>)
    decreases |jobs|
  {
    if jobs == [] then (v, [])
    else
      var (v1, c) := Enqueue(v, jobs[0], hasClient);
      var (v2, cs) := EnqueueAll(v1, jobs[1..], hasClient);
      (v2, CallsOf(c) + cs)
  }

  /** Trying to start changes nothing but the queue and the busy flag; it
      starts the head job exactly when the queue is idle, non-empty and a
      client exists, and then leaves the rest of the queue in order. */
  lemma StartNextTakesHead(v: View, hasClient: bool)
    ensures var (r, c) := StartNext(v, hasClient);
      (c.Some? <==> !v.isEnriching && v.queue != [] && hasClient) &&
      JobsOf(CallsOf(c)) + r.queue == v.queue &&
      r.isEnriching == (v.isEnriching || c.Some?) &&
      (c.Some? ==> c.value.history == HistoryForApi(ContextWindow(v.conversationRef, c.value.job.messageId)))
  {
    var (r, c) := StartNext(v, hasClient);
    if c.Some? {
      assert JobsOf(CallsOf(c)) == [v.queue[0]];
      assert [v.queue[0]] + v.queue[1..] == v.queue;
    }
  }

  lemma StartNextFrame(v: View, hasClient: bool)
    ensures var r := StartNext(v, hasClient).0;
      r == v.(isEnriching := r.isEnriching, queue := r.queue)
  {
  }

  /** Pushing jobs touches nothing but the queue and the busy flag. */
  lemma {:induction false} EnqueueAllFrame(v: View, jobs: seq<Job>, hasClient: bool)
    ensures var r := EnqueueAll(v, jobs, hasClient).0;
      r == v.(isEnriching := r.isEnriching, queue := r.queue)
    decreases |jobs|
  {
    if jobs != [] {
      var w := v.(queue := v.queue + [jobs[0]]);
      StartNextFrame(w, hasClient);
      EnqueueAllFrame(StartNext(w, hasClient).0, jobs[1..], hasClient);
    }
  }

  lemma JobsOfAppend(a: seq<Call>, b: seq<Call>)
    ensures JobsOf(a + b) == JobsOf(a) + JobsOf(b)
  {
    assert |JobsOf(a + b)| == |JobsOf(a) + JobsOf(b)|;
    forall i | 0 <= i < |a + b| ensures JobsOf(a + b)[i] == (JobsOf(a) + JobsOf(b))[i] {
      if i < |a| {
        assert (a + b)[i] == a[i];
      } else {
        assert (a + b)[i] == b[i - |a|];
      }
    }
  }

  /** Pushing jobs one after the other keeps them in order behind the jobs
      already waiting: the jobs that started, followed by those still
      waiting, are the old queue followed by the new jobs.  At most one of
      them starts, and none when a call was already in flight. */
  lemma {:induction false} EnqueueAllIsFifo(v: View, jobs: seq<Job>, hasClient: bool)
    ensures JobsOf(EnqueueAll(v, jobs, hasClient).1) + EnqueueAll(v, jobs, hasClient).0.queue == v.queue + jobs
    ensures |EnqueueAll(v, jobs, hasClient).1| <= 1
    ensures v.isEnriching ==> EnqueueAll(v, jobs, hasClient).1 == []
    ensures EnqueueAll(v, jobs, hasClient).0.isEnriching == (v.isEnriching || EnqueueAll(v, jobs, hasClient).1 != [])
    decreases |jobs|
  {
    if jobs != [] {
      var w := v.(queue := v.queue + [jobs[0]]);
      var v1, c := StartNext(w, hasClient).0, StartNext(w, hasClient).1;
      StartNextTakesHead(w, hasClient);
      EnqueueAllIsFifo(v1, jobs[1..], hasClient);
      var v2, cs := EnqueueAll(v1, jobs[1..], hasClient).0, EnqueueAll(v1, jobs[1..], hasClient).1;
      assert EnqueueAll(v, jobs, hasClient).0 == v2;
      assert EnqueueAll(v, jobs, hasClient).1 == CallsOf(c) + cs;
      if c.Some? {
        assert v1.isEnriching && cs == [];
      } else {
        assert v1.isEnriching == v.isEnriching && CallsOf(c) + cs == cs;
      }
      JobsOfAppend(CallsOf(c), cs);
      FifoStep(JobsOf(CallsOf(c)), v1.queue, JobsOf(cs), v2.queue, v.queue, jobs);
    }
  }

  lemma FifoStep(started: seq<Job>, waiting: seq<Job>, startedLater: seq<Job>, waitingLater: seq<Job>,
                 queue: seq<Job>, jobs: seq<Job>)
    requires jobs != []
    requires started + waiting == queue + [jobs[0]]
    requires startedLater + waitingLater == waiting + jobs[1..]
    ensures (started + startedLater) + waitingLater == queue + jobs
  {
    calc {
      (started + startedLater) + waitingLater;
      started + (startedLater + waitingLater);
      (started + waiting) + jobs[1..];
      (queue + [jobs[0]]) + jobs[1..];
      { assert [jobs[0]] + jobs[1..] == jobs; }
      queue + jobs;
    }
  }

  /** Pushing two lists of jobs, one after the other, is pushing their
      concatenation: the calls started are those of the first push followed
      by those of the second. */
  lemma {:induction false} EnqueueAllConcat(v: View, a: seq<Job>, b: seq<Job>, hasClient: bool)
    ensures EnqueueAll(v, a + b, hasClient) ==
      (EnqueueAll(EnqueueAll(v, a, hasClient).0, b, hasClient).0,
       EnqueueAll(v, a, hasClient).1 + EnqueueAll(EnqueueAll(v, a, hasClient).0, b, hasClient).1)
    decreases |a|
  {
    if a == [] {
      assert a + b == b;
      assert EnqueueAll(v, a, hasClient) == (v, []);
      assert [] + EnqueueAll(v, b, hasClient).1 == EnqueueAll(v, b, hasClient).1;
    } else {
      assert (a + b)[0] == a[0] && (a + b)[1..] == a[1..] + b;
      var w, c := Enqueue(v, a[0], hasClient).0, Enqueue(v, a[0], hasClient).1;
      EnqueueAllConcat(w, a[1..], b, hasClient);
      var v1, c1 := EnqueueAll(w, a[1..], hasClient).0, EnqueueAll(w, a[1..], hasClient).1;
      var c2 := EnqueueAll(v1, b, hasClient).1;
      assert EnqueueAll(v, a, hasClient) == (v1, CallsOf(c) + c1);
      assert EnqueueAll(v, a + b, hasClient).1 == CallsOf(c) + (c1 + c2);
      assert CallsOf(c) + (c1 + c2) == (CallsOf(c) + c1) + c2;
    }
  }

  /** With no call in flight, nothing waiting and a client present, the
      first pushed job starts at once and the others wait in order. */
  lemma EnqueueAllWhenIdle(v: View, jobs: seq<Job>, hasClient: bool)
    requires !v.isEnriching && v.queue == [] && hasClient && jobs != []
    ensures var (r, calls) := EnqueueAll(v, jobs, hasClient);
      |calls| == 1 && calls[0].job == jobs[0] && r.queue == jobs[1..] && r.isEnriching &&
      calls[0].history == HistoryForApi(ContextWindow(v.conversationRef, jobs[0].messageId))
  {
    EnqueueAllIsFifo(v, jobs, hasClient);
    var w := v.(queue := v.queue + [jobs[0]]);
    var (v1, c) := StartNext(w, hasClient);
    assert c.Some? && c.value.job == jobs[0] && v1.isEnriching;
    EnqueueAllIsFifo(v1, jobs[1..], hasClient);
    var (v2, cs) := EnqueueAll(v1, jobs[1..], hasClient);
    assert cs == [];
    assert EnqueueAll(v, jobs, hasClient).1 == CallsOf(c) + cs == [c.value];
    assert EnqueueAll(v, jobs, hasClient).0 == v2;
    assert JobsOf([c.value]) == [jobs[0]];
    assert [jobs[0]] + v2.queue == jobs;
    assert v2.queue == jobs[1..];
  }

  /** The end of an enrichment call (`try`/`finally` after the await): what
      the service returned, given the model's parsed answer `outcome` (`None`
      when the call or the parsing failed), is merged onto the entry with the
      job's id in the latest transcript; the busy flag is cleared and the next
      job is tried at once. */
  function Complete(v: View, job: Job, outcome: Option<EnrichmentData>, hasClient: bool): (View, Option<Call>) {
    StartNext(v.(conversation := Merged(v.conversation, job.messageId, job.text, outcome), isEnriching := false), hasClient)
  }

  /** The merge after an enrichment call for `text`.  `enrichTranscription`
      never rejects: on any failure it returns the fallback result.  So the
      merge is always the success merge, applied to what the service
      returned, and the `catch` branch (`Conversation.MergeFailure`) is never
      taken. */
  function Merged(conv: seq<ChatMessage>, id: MessageId, text: string, outcome: Option<EnrichmentData>): (r: seq<ChatMessage>)
    ensures |r| == |conv| && Ids(r) == Ids(conv)
    ensures forall i :: 0 <= i < |conv| ==> r[i].id == conv[i].id
    ensures forall i :: 0 <= i < |conv| && conv[i].id != id ==> r[i] == conv[i]
    ensures forall i :: 0 <= i < |conv| && conv[i].id == id ==>
      r[i] == Finalized(conv[i], EnrichTranscription(text, outcome))
  {
    MergeEnrichment(conv, id, EnrichTranscription(text, outcome))
  }

  /** A completion always hands over to the next waiting job (when a client
      exists), and leaves the queue idle when nothing is waiting. */
  lemma CompleteDrains(v: View, job: Job, outcome: Option<EnrichmentData>, hasClient: bool)
    requires hasClient
    ensures var (r, c) := Complete(v, job, outcome, hasClient);
      (v.queue != [] ==> c.Some? && c.value.job == v.queue[0] && r.queue == v.queue[1..] && r.isEnriching) &&
      (v.queue == [] ==> c.None? && r.queue == [] && !r.isEnriching)
  {
  }

  /** A completion changes the transcript only at the job's entry, and not at
      all when that entry is gone; it touches nothing but the transcript, the
      queue and the busy flag. */
  lemma CompleteTouchesOnlyTarget(v: View, job: Job, outcome: Option<EnrichmentData>, hasClient: bool)
    ensures var (r, c) := Complete(v, job, outcome, hasClient);
      r == v.(conversation := r.conversation, isEnriching := r.isEnriching, queue := r.queue) &&
      |r.conversation| == |v.conversation| &&
      (forall i :: 0 <= i < |v.conversation| && v.conversation[i].id != job.messageId ==>
         r.conversation[i] == v.conversation[i]) &&
      (forall i :: 0 <= i < |v.conversation| && v.conversation[i].id == job.messageId ==>
         r.conversation[i].isFinal && r.conversation[i].id == job.messageId) &&
      (job.messageId !in Ids(v.conversation) ==> r.conversation == v.conversation)
  {
    var w := v.(conversation := Merged(v.conversation, job.messageId, job.text, outcome), isEnriching := false);
    StartNextFrame(w, hasClient);
    MergedTouchesOnlyTarget(v.conversation, job.messageId, job.text, outcome);
  }

  /** The merge changes only the target's entries, finalizing them, and
      changes nothing when the target is gone. */
  lemma MergedTouchesOnlyTarget(conv: seq<ChatMessage>, id: MessageId, text: string, outcome: Option<EnrichmentData>)
    ensures var r := Merged(conv, id, text, outcome);
      (forall i :: 0 <= i < |conv| && conv[i].id == id ==> r[i].isFinal && r[i].id == id) &&
      (id !in Ids(conv) ==> r == conv)
  {
    if id !in Ids(conv) {
      MergesOnAbsentIdAreNoOps(conv, id, EnrichTranscription(text, outcome));
    }
  }

  /** A failed enrichment call (network, model or JSON) is not a rejection:
      the service answers with the fallback, and the entry is finalized by the
      success merge with the fallback's two sides and no phonetics.  The text
      stays on one side; the failure sentinel is the translation exactly when
      the text has no CJK character (or is the sentinel itself). */
  lemma FailedCallShowsFallback(v: View, job: Job, hasClient: bool)
    ensures var r := Complete(v, job, None, hasClient).0;
      |r.conversation| == |v.conversation| &&
      forall i :: 0 <= i < |v.conversation| && v.conversation[i].id == job.messageId ==>
        var e := r.conversation[i];
        e == v.conversation[i].(english := Fallback(job.text).english, chinese := Fallback(job.text).chinese,
                                phonetic := Some([]), isFinal := true) &&
        (e.english == job.text || e.chinese == job.text) &&
        (e.chinese == TranslationFailed <==> !ContainsCjk(job.text) || job.text == TranslationFailed)
  {
    var w := v.(conversation := Merged(v.conversation, job.messageId, job.text, None), isEnriching := false);
    StartNextFrame(w, hasClient);
    FallbackKeepsText(job.text);
  }

  // ---------------------------------------------------------------------
  // Server messages
  // ---------------------------------------------------------------------

  /** The `turnComplete` branch: the open user turn is pushed first, then the
      open ai turn; both accumulators are then cleared. */
  function TurnComplete(v: View, hasClient: bool): (View, seq<Call>) {
    var (v1, calls) := EnqueueAll(v, TurnJobs(TranscriptOf(v)), hasClient);
    (WithTranscript(v1, CloseTurns(TranscriptOf(v1))), calls)
  }

  /** `stopAudioPlayback`: every scheduled source is stopped, the set of
      sources is cleared and the cursor goes back to 0. */
  function Stopped(v: View): View {
    v.(stopped := v.stopped + v.sources, sources := {}, cursor := 0.0)
  }

  datatype MessageOutcome = MessageOutcome(view: View, calls: seq<Call>, awaitingDecode: bool)

  /** `onmessage` up to its await: input transcription, output
      transcription, turn boundary, in that order.  A message with audio
      suspends on the decode, and its interrupt flag is looked at only after
      the decode; without audio an interrupt stops playback at once. */
  function Received(v: View, m: ServerMessage, hasClient: bool): MessageOutcome {
    var v1 := Transcribed(v, m);
    var (v2, calls) := if m.turnComplete then TurnComplete(v1, hasClient) else (v1, []);
    if m.hasAudio then MessageOutcome(v2, calls, true)
    else MessageOutcome(if m.interrupted then Stopped(v2) else v2, calls, false)
  }

  /** The snapshot after a message's two transcription fields, input first. */
  function Transcribed(v: View, m: ServerMessage): View {
    WithTranscript(v, Delta(Delta(TranscriptOf(v), User, m.inputText), Ai, m.outputText))
  }

  /** The calls a message starts are those of its turn boundary, and only the
      boundary touches the busy flag. */
  lemma ReceivedPushes(v: View, m: ServerMessage, hasClient: bool)
    ensures Received(v, m, hasClient).calls == (if m.turnComplete then TurnComplete(Transcribed(v, m), hasClient).1 else [])
    ensures Received(v, m, hasClient).view.isEnriching ==
      (if m.turnComplete then TurnComplete(Transcribed(v, m), hasClient).0.isEnriching else v.isEnriching)
  {
  }

  /** A turn boundary leaves both turns closed and pushes, user first, one job
      per open turn with the turn's whole text and its entry's id; nothing
      else but the queue and the busy flag changes. */
  lemma TurnCompleteHandsOver(v: View, hasClient: bool)
    ensures var (r, calls) := TurnComplete(v, hasClient);
      var jobs := TurnJobs(TranscriptOf(v));
      r.userId.None? && r.aiId.None? && r.input == "" && r.output == "" &&
      r.conversation == v.conversation && r.clock == v.clock &&
      JobsOf(calls) + r.queue == v.queue + jobs &&
      |jobs| == (if v.userId.Some? then 1 else 0) + (if v.aiId.Some? then 1 else 0) &&
      (v.userId.Some? ==> jobs[0] == Job(v.input, User, v.userId.value)) &&
      (v.aiId.Some? ==> jobs[|jobs| - 1] == Job(v.output, Ai, v.aiId.value)) &&
      r == v.(userId := None, aiId := None, input := "", output := "",
              isEnriching := r.isEnriching, queue := r.queue)
  {
    EnqueueAllIsFifo(v, TurnJobs(TranscriptOf(v)), hasClient);
    EnqueueAllFrame(v, TurnJobs(TranscriptOf(v)), hasClient);
  }

  /** Fields are handled in order: a fragment that arrives in the same
      message as the turn boundary is part of the text handed over. */
  lemma FragmentBeforeBoundary(v: View, m: ServerMessage, hasClient: bool)
    requires m.turnComplete && m.inputText != ""
    ensures var o := Received(v, m, hasClient);
      var jobs := TurnJobs(TranscriptOf(Transcribed(v, m)));
      JobsOf(o.calls) + o.view.queue == v.queue + jobs &&
      jobs[0] == (if v.userId.Some? then Job(v.input + m.inputText, User, v.userId.value)
                  else Job(m.inputText, User, MessageId(User, v.clock)))
  {
    TurnCompleteHandsOver(Transcribed(v, m), hasClient);
  }

  /** An interrupt in a message without audio empties the set of sources and
      resets the cursor; the same flag in a message with audio waits for the
      decode, so the audio state is left as it was. */
  lemma InterruptWaitsForAudio(v: View, m: ServerMessage, hasClient: bool)
    ensures var o := Received(v, m, hasClient);
      o.awaitingDecode == m.hasAudio &&
      (m.hasAudio ==> o.view.sources == v.sources && o.view.cursor == v.cursor && o.view.stopped == v.stopped) &&
      (!m.hasAudio && m.interrupted ==> o.view.sources == {} && o.view.cursor == 0.0 &&
                                        o.view.stopped == v.stopped + v.sources) &&
      (!m.interrupted ==> o.view.sources == v.sources && o.view.cursor == v.cursor)
  {
    if m.turnComplete {
      TurnCompleteHandsOver(Transcribed(v, m), hasClient);
    }
  }

  /** A message with no transcription, no boundary and no audio changes
      nothing when it is not an interrupt. */
  lemma EmptyMessageIsNoOp(v: View, hasClient: bool)
    ensures Received(v, ServerMessage("", "", false, false, false), hasClient) == MessageOutcome(v, [], false)
  {
  }

  // ---------------------------------------------------------------------
  // Audio
  // ---------------------------------------------------------------------

  /** The rest of `onmessage` once a chunk is decoded: a new source is
      started at `max(now, cursor)`, the cursor moves past the chunk, and the
      source joins the set; then the message's interrupt flag is honoured. */
  function ChunkDecoded(v: View, now: real, duration: Duration, interrupted: bool): View {
    var start := StartTime(now, v.cursor);
    var v1 := v.(sources := v.sources + {v.nextSource}, nextSource := v.nextSource + 1,
                 cursor := start + duration);
    if interrupted then Stopped(v1) else v1
  }

  /** Scheduling a chunk follows the cursor rule of module Playback, and an
      interrupt in the same message stops the new source along with the
      others. */
  lemma ChunkFollowsCursor(v: View, now: real, duration: Duration, interrupted: bool)
    ensures var r := ChunkDecoded(v, now, duration, interrupted);
      r.nextSource == v.nextSource + 1 &&
      (!interrupted ==> r.cursor == Advance(now, v.cursor, duration) &&
                        r.sources == v.sources + {v.nextSource} && r.stopped == v.stopped) &&
      (interrupted ==> r.cursor == 0.0 && r.sources == {} &&
                       r.stopped == v.stopped + v.sources + {v.nextSource})
  {
  }

  /** `source.onended`: only that source leaves the set. */
  function SourceEnded(v: View, source: nat): (r: View)
    ensures r.sources == v.sources - {source}
    ensures r == v.(sources := r.sources)
  {
    v.(sources := v.sources - {source})
  }

  /** A stop right after a stop adds nothing: no source is stopped twice. */
  lemma StoppedIdempotent(v: View)
    ensures Stopped(Stopped(v)) == Stopped(v)
  {
  }

  // ---------------------------------------------------------------------
  // Typed input
  // ---------------------------------------------------------------------

  /** The enrichment call of the typed path: the new entry's id, the text and
      the history sent with it. */
  datatype TypedCall = TypedCall(messageId: MessageId, text: string, history: seq<HistoryItem>)

  /** `handleSendText` up to its await: only with a session and while
      listening.  A new user entry is appended, and the enrichment call goes
      out at once, not through the queue, with the last four entries of the
      rendered transcript. */
  function SendText(v: View, text: string): (View, Option<TypedCall>) {
    if !v.hasSession || v.status != Listening then (v, None)
    else
      var id := MessageId(User, v.clock);
      (v.(conversation := v.conversation + [NewEntry(id, User, text)], clock := v.clock + 1),
       Some(TypedCall(id, text, RecentHistory(v.conversationRef))))
  }

  /** A typed message is sent exactly with a session while listening; it
      appends one pending user entry with the typed text, leaves the turns,
      the queue and the busy flag alone, and sends the recent history of the
      rendered transcript. */
  lemma SendTextBypassesQueue(v: View, text: string)
    ensures var (r, c) := SendText(v, text);
      (c.Some? <==> v.hasSession && v.status == Listening) &&
      (c.None? ==> r == v) &&
      (c.Some? ==>
        r.conversation == v.conversation + [NewEntry(c.value.messageId, User, text)] &&
        c.value.messageId == MessageId(User, v.clock) && r.clock == v.clock + 1 &&
        c.value.text == text && c.value.history == RecentHistory(v.conversationRef) &&
        r == v.(conversation := r.conversation, clock := r.clock))
  {
  }

  /** The end of the typed path's call for `text`, merged as the queue
      merges (with the phonetics; see `Conversation.MergeTypedAsWritten` for
      the merge as App.tsx writes it).  As on the queue, the service never
      rejects, so a failed call shows the fallback. */
  function TypedCompleted(v: View, id: MessageId, text: string, outcome: Option<EnrichmentData>): (r: View)
    ensures r == v.(conversation := r.conversation) && |r.conversation| == |v.conversation|
    ensures forall i :: 0 <= i < |v.conversation| && v.conversation[i].id != id ==> r.conversation[i] == v.conversation[i]
    ensures outcome.Some? ==> forall i :: 0 <= i < |v.conversation| && v.conversation[i].id == id ==>
      r.conversation[i] == Finalized(v.conversation[i], outcome.value) &&
      r.conversation[i].phonetic == Some(outcome.value.phonetics)
    ensures outcome.None? ==> forall i :: 0 <= i < |v.conversation| && v.conversation[i].id == id ==>
      r.conversation[i] == Finalized(v.conversation[i], Fallback(text)) &&
      r.conversation[i].phonetic == Some([])
  {
    v.(conversation := Merged(v.conversation, id, text, outcome))
  }

  // ---------------------------------------------------------------------
  // Teardown
  // ---------------------------------------------------------------------

  /** `endSession`: timer, session and microphone processor released,
      playback stopped, transcript emptied, both accumulators and the queue
      cleared and the busy flag dropped, whatever was in progress; the status
      goes back to ready when the permissions are held and to idle otherwise. */
  function TornDown(v: View): View {
    Stopped(v).(hasFrameTimer := false, hasSession := false, hasScriptProcessor := false,
                conversation := [], input := "", output := "", queue := [], isEnriching := false,
                userId := None, aiId := None,
                status := if v.hasPermissions then Ready else Idle)
  }

  /** What teardown leaves, and what it keeps. */
  lemma TornDownIsEmpty(v: View)
    ensures var r := TornDown(v);
      !r.hasFrameTimer && !r.hasSession && !r.hasScriptProcessor &&
      r.sources == {} && r.cursor == 0.0 && r.conversation == [] &&
      TranscriptOf(r).user == Closed && TranscriptOf(r).ai == Closed &&
      r.queue == [] && !r.isEnriching &&
      (r.status == Ready <==> v.hasPermissions) && (r.status == Idle <==> !v.hasPermissions) &&
      r.hasPermissions == v.hasPermissions && r.clock == v.clock &&
      r.error == v.error && r.conversationRef == v.conversationRef &&
      r.stopped == v.stopped + v.sources
  {
  }

  /** Tearing down twice is tearing down once. */
  lemma TornDownIdempotent(v: View)
    ensures TornDown(TornDown(v)) == TornDown(v)
  {
  }

  /** Nothing a completion or a transcription does after teardown can bring
      back an entry: a merge for a job of the ended session finds no entry. */
  lemma LateMergeAfterTeardown(v: View, job: Job, outcome: Option<EnrichmentData>, hasClient: bool)
    ensures Complete(TornDown(v), job, outcome, hasClient).0.conversation == []
  {
  }
}
