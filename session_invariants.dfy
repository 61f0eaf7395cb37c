/** What the orchestrator's steps keep true.  Beside the snapshot `View`, the
    proofs keep a `Ledger` of the enrichment jobs: those pushed and those
    started since the last teardown, the calls of this session still
    running, and the calls a teardown left running ("orphans").  Each step of
    module SessionSteps is paired here with the change it makes to the
    ledger, and every step is proved to keep the invariant `Inv`; the steps
    of the queue also keep `OneInFlight`, as long as no orphan completes. */
module SessionInvariants {
  import opened Types
  import opened Conversation
  import opened Transcript
  import opened Playback
  import opened SessionSteps
  import opened GeminiService

  datatype Ledger = Ledger(
    enqueued: seq<Job>,
    started: seq<Job>,
    inFlight: multiset<Job>,
    orphans: multiset<Job>,
    sessionBase: nat)

  const NoJobs: Ledger := Ledger([], [], multiset{}, multiset{}, 0)

  /** Jobs pushed onto the queue. */
  function Pushed(l: Ledger, jobs: seq<Job>): Ledger {
    l.(enqueued := l.enqueued + jobs)
  }

  /** Calls that went out. */
  function Began(l: Ledger, calls: seq<Call>): Ledger {
    l.(started := l.started + JobsOf(calls), inFlight := l.inFlight + multiset(JobsOf(calls)))
  }

  /** A call that came back: one of this session, or else an orphan. */
  function Finished(l: Ledger, job: Job): Ledger {
    if job in l.inFlight then l.(inFlight := l.inFlight - multiset{job})
    else l.(orphans := l.orphans - multiset{job})
  }

  /** A teardown at clock reading `clock`: the running calls become orphans. */
  function Ended(l: Ledger, clock: nat): Ledger {
    Ledger([], [], multiset{}, l.orphans + l.inFlight, clock)
  }

  // ---------------------------------------------------------------------
  // The invariant, part by part
  // ---------------------------------------------------------------------

  /** An accumulator is empty exactly when its turn is closed, and an open
      turn's id was drawn in this session. */
  ghost predicate TurnOk(t: Turn, base: nat, clock: nat) {
    (t.id.None? <==> t.text == "") && (t.id.Some? ==> base <= t.id.value.stamp < clock)
  }

  /** The transcript of this session: unique ids, all drawn since `base`. */
  ghost predicate TranscriptOk(s: State, base: nat) {
    base <= s.clock && TurnOk(s.user, base, s.clock) && TurnOk(s.ai, base, s.clock) &&
    UniqueIds(s.conversation) &&
    forall i :: 0 <= i < |s.conversation| ==> base <= s.conversation[i].id.stamp < s.clock
  }

  /** Jobs start in the order they were pushed, every waiting or running job
      carries an id already drawn, and orphans carry ids drawn before the
      last teardown. */
  ghost predicate JobsOk(queue: seq<Job>, l: Ledger, clock: nat) {
    l.enqueued == l.started + queue &&
    (forall j :: j in queue ==> j.messageId.stamp < clock) &&
    (forall j :: j in l.inFlight ==> j.messageId.stamp < clock) &&
    (forall j :: j in l.orphans ==> j.messageId.stamp < l.sessionBase)
  }

  /** The cursor is never negative and every tracked source has a number
      already handed out. */
  predicate AudioOk(cursor: real, sources: set<nat>, nextSource: nat) {
    cursor >= 0.0 && forall s :: s in sources ==> s < nextSource
  }

  /** The queue never waits while it could run. */
  predicate WorkConserving(isEnriching: bool, queue: seq<Job>, hasClient: bool) {
    !isEnriching && hasClient ==> queue == []
  }

  ghost predicate Core(v: View, l: Ledger, hasClient: bool) {
    TranscriptOk(TranscriptOf(v), l.sessionBase) && StampsBelow(v.conversationRef, v.clock) &&
    JobsOk(v.queue, l, v.clock) && (v.isEnriching ==> hasClient) &&
    AudioOk(v.cursor, v.sources, v.nextSource)
  }

  ghost predicate Inv(v: View, l: Ledger, hasClient: bool) {
    Core(v, l, hasClient) && WorkConserving(v.isEnriching, v.queue, hasClient)
  }

  /** At most one call of this session runs at a time, exactly while the
      busy flag is set, and it is the last one started. */
  ghost predicate OneInFlight(isEnriching: bool, l: Ledger) {
    |l.inFlight| <= 1 && (isEnriching <==> |l.inFlight| == 1) &&
    forall j :: j in l.inFlight ==> |l.started| > 0 && j == l.started[|l.started| - 1]
  }

  // ---------------------------------------------------------------------
  // The transcript part
  // ---------------------------------------------------------------------

  /** Appending an entry with the current clock's stamp, the clock then
      moving past it, keeps the transcript well formed. */
  lemma AppendKeepsTranscriptOk(s: State, base: nat, e: ChatMessage)
    requires TranscriptOk(s, base) && e.id.stamp == s.clock
    ensures TranscriptOk(s.(conversation := s.conversation + [e], clock := s.clock + 1), base)
  {
    var conv := s.conversation;
    var r := conv + [e];
    forall i, j | 0 <= i < j < |r| ensures r[i].id != r[j].id {
      if j == |conv| {
        assert r[i] == conv[i] && r[i].id.stamp < s.clock;
      } else {
        assert r[i] == conv[i] && r[j] == conv[j];
      }
    }
  }

  /** A transcription delta keeps the transcript well formed and never moves
      the clock back. */
  lemma DeltaKeepsTranscriptOk(s: State, base: nat, sp: Speaker, text: string)
    requires TranscriptOk(s, base)
    ensures TranscriptOk(Delta(s, sp, text), base) && Delta(s, sp, text).clock >= s.clock
  {
    var t := TurnOf(s, sp);
    if text != "" {
      if t.id.Some? {
        var r := UpdateEnglish(s.conversation, t.id.value, t.text + text);
        assert forall i :: 0 <= i < |r| ==> r[i].id == s.conversation[i].id;
      } else {
        AppendKeepsTranscriptOk(s, base, NewEntry(MessageId(sp, s.clock), sp, text));
      }
    }
  }

  /** A merge keeps every entry's id, hence the transcript well formed. */
  lemma MergeKeepsTranscriptOk(s: State, base: nat, id: MessageId, text: string, outcome: Option<EnrichmentData>)
    requires TranscriptOk(s, base)
    ensures TranscriptOk(s.(conversation := Merged(s.conversation, id, text, outcome)), base)
  {
    var merged := Merged(s.conversation, id, text, outcome);
    assert forall i :: 0 <= i < |merged| ==> merged[i].id == s.conversation[i].id;
  }

  /** A call left over from an ended session names no entry of the current
      transcript: its id was drawn before the teardown. */
  lemma OrphanFindsNoEntry(s: State, base: nat, id: MessageId)
    requires TranscriptOk(s, base) && id.stamp < base
    ensures id !in Ids(s.conversation)
  {
    assert forall i :: 0 <= i < |s.conversation| ==> s.conversation[i].id != id;
  }

  lemma JobsOkLater(queue: seq<Job>, l: Ledger, clock: nat, later: nat)
    requires JobsOk(queue, l, clock) && clock <= later
    ensures JobsOk(queue, l, later)
  {
  }

  lemma StampsBelowLater(conv: seq<ChatMessage>, clock: nat, later: nat)
    requires StampsBelow(conv, clock) && clock <= later
    ensures StampsBelow(conv, later)
  {
  }

  /** The handlers that only touch the status, the error, the permissions,
      the camera, the speech rate, the session handles and the rendered
      copy leave the invariant alone; the rendered copy is always a copy of
      the transcript, taken after some render. */
  lemma ControlsKeepInv(v: View, w: View, l: Ledger, hasClient: bool)
    requires Inv(v, l, hasClient)
    requires TranscriptOf(w) == TranscriptOf(v)
    requires w.isEnriching == v.isEnriching && w.queue == v.queue
    requires w.cursor == v.cursor && w.sources == v.sources && w.nextSource == v.nextSource
    requires w.conversationRef == v.conversationRef || w.conversationRef == v.conversation
    ensures Inv(w, l, hasClient)
  {
    assert w.clock == TranscriptOf(w).clock;
  }

  /** `startSession` empties the transcript, which keeps the invariant. */
  lemma ClearedTranscriptKeepsInv(v: View, l: Ledger, hasClient: bool)
    requires Inv(v, l, hasClient)
    ensures Inv(v.(conversation := []), l, hasClient)
  {
    assert TranscriptOf(v.(conversation := [])) == TranscriptOf(v).(conversation := []);
  }

  /** The state on mount satisfies the invariant, with no job anywhere. */
  lemma MountedIsValid(hasClient: bool)
    ensures Inv(Mounted(), NoJobs, hasClient) && OneInFlight(Mounted().isEnriching, NoJobs)
    ensures StatusOk(Mounted(), false)
  {
    assert TranscriptOf(Mounted()) == State([], Closed, Closed, 0);
  }

  /** Rendering and the settings keep the invariant. */
  lemma SettingsKeepInv(v: View, l: Ledger, hasClient: bool, rate: real)
    requires Inv(v, l, hasClient)
    ensures Inv(Rendered(v), l, hasClient) && Inv(RateChosen(v, rate), l, hasClient)
    ensures Inv(StartPressed(v), l, hasClient)
  {
    ControlsKeepInv(v, Rendered(v), l, hasClient);
    ControlsKeepInv(v, RateChosen(v, rate), l, hasClient);
    ControlsKeepInv(v, StartPressed(v), l, hasClient);
  }

  /** The permission effect keeps the invariant. */
  lemma PermissionKeepsInv(v: View, l: Ledger, hasClient: bool, granted: bool)
    requires Inv(v, l, hasClient)
    ensures Inv(PermissionAnswered(v, granted), l, hasClient)
  {
    ControlsKeepInv(v, PermissionAnswered(v, granted), l, hasClient);
  }

  /** The camera switch keeps the invariant. */
  lemma CameraKeepsInv(v: View, l: Ledger, hasClient: bool, succeeded: bool)
    requires Inv(v, l, hasClient)
    ensures Inv(CameraSwitched(v, succeeded), l, hasClient)
  {
    ControlsKeepInv(v, CameraSwitched(v, succeeded), l, hasClient);
  }

  /** Starting a session keeps the invariant. */
  lemma StartingKeepsInv(v: View, l: Ledger, hasClient: bool, frameCaptured: bool)
    requires Inv(v, l, hasClient)
    ensures Inv(SessionStarting(v, hasClient, frameCaptured).0, l, hasClient)
  {
    if v.hasPermissions && hasClient {
      ClearedTranscriptKeepsInv(v, l, hasClient);
      ControlsKeepInv(v.(conversation := []), SessionStarting(v, hasClient, frameCaptured).0, l, hasClient);
    }
  }

  /** The connect's outcome keeps the invariant. */
  lemma ConnectKeepsInv(v: View, l: Ledger, hasClient: bool)
    requires Inv(v, l, hasClient)
    ensures Inv(Connected(v), l, hasClient) && Inv(ConnectionFailed(v), l, hasClient)
  {
    ControlsKeepInv(v, Connected(v), l, hasClient);
    ControlsKeepInv(v, ConnectionFailed(v), l, hasClient);
  }

  /** The callbacks of the session keep the invariant. */
  lemma CallbacksKeepInv(v: View, l: Ledger, hasClient: bool, capturedStatus: AppStatus)
    requires Inv(v, l, hasClient)
    ensures Inv(Opened(v), l, hasClient) && Inv(Errored(v), l, hasClient)
    ensures Inv(SessionClosed(v, capturedStatus), l, hasClient)
  {
    ControlsKeepInv(v, Opened(v), l, hasClient);
    ControlsKeepInv(v, Errored(v), l, hasClient);
    ControlsKeepInv(v, SessionClosed(v, capturedStatus), l, hasClient);
  }

  // ---------------------------------------------------------------------
  // Status and permissions
  // ---------------------------------------------------------------------

  /** The app shows "ready" or "listening" only with the camera and
      microphone permissions, a connect (which needs them) has happened when
      `connected`, and there is a session handle only after a connect. */
  predicate StatusOk(v: View, connected: bool) {
    (connected ==> v.hasPermissions) &&
    ((v.status == Ready || v.status == Listening) ==> v.hasPermissions) &&
    (v.hasSession ==> connected)
  }

  /** The handlers that may run before any connect keep `StatusOk`; a start
      that connects records the connect. */
  lemma ControlStepsKeepStatusOk(v: View, connected: bool, hasClient: bool, rate: real,
                                 granted: bool, succeeded: bool, frameCaptured: bool)
    requires StatusOk(v, connected)
    ensures StatusOk(Rendered(v), connected) && StatusOk(RateChosen(v, rate), connected)
    ensures StatusOk(StartPressed(v), connected) && StatusOk(PermissionAnswered(v, granted), connected)
    ensures StatusOk(CameraSwitched(v, succeeded), connected)
    ensures StatusOk(SessionStarting(v, hasClient, frameCaptured).0, connected || SessionStarting(v, hasClient, frameCaptured).1)
  {
  }

  /** The callbacks of a connect keep `StatusOk`: they can only fire after
      the connect, which needed the permissions. */
  lemma CallbacksKeepStatusOk(v: View, capturedStatus: AppStatus)
    requires StatusOk(v, true)
    ensures StatusOk(Connected(v), true) && StatusOk(ConnectionFailed(v), true)
    ensures StatusOk(Opened(v), true) && StatusOk(Errored(v), true)
    ensures StatusOk(SessionClosed(v, capturedStatus), true)
  {
  }

  /** The queue and the server messages never touch the status, the
      permissions or the session handle. */
  lemma QueueKeepsStatusOk(v: View, connected: bool, hasClient: bool, job: Job, outcome: Option<EnrichmentData>)
    requires StatusOk(v, connected)
    ensures StatusOk(StartNext(v, hasClient).0, connected) && StatusOk(Complete(v, job, outcome, hasClient).0, connected)
  {
    StartNextFrame(v, hasClient);
    StartNextFrame(v.(conversation := Merged(v.conversation, job.messageId, job.text, outcome), isEnriching := false), hasClient);
  }

  lemma MessageKeepsStatusOk(v: View, connected: bool, m: ServerMessage, hasClient: bool)
    requires StatusOk(v, connected)
    ensures StatusOk(Received(v, m, hasClient).view, connected)
  {
    var v1 := Transcribed(v, m);
    if m.turnComplete {
      EnqueueAllFrame(v1, BoundaryJobs(v1), hasClient);
    }
  }

  /** Nor does the audio. */
  lemma AudioKeepsStatusOk(v: View, connected: bool, now: real, duration: Duration, interrupted: bool, source: nat)
    requires StatusOk(v, connected)
    ensures StatusOk(ChunkDecoded(v, now, duration, interrupted), connected) && StatusOk(SourceEnded(v, source), connected)
  {
  }

  /** Nor does the typed path; teardown drops the handle and goes to ready
      only with the permissions. */
  lemma TypedAndTeardownKeepStatusOk(v: View, connected: bool, id: MessageId, outcome: Option<EnrichmentData>, text: string)
    requires StatusOk(v, connected)
    ensures StatusOk(SendText(v, text).0, connected) && StatusOk(TypedCompleted(v, id, text, outcome), connected)
    ensures StatusOk(TornDown(v), connected)
  {
  }

  // ---------------------------------------------------------------------
  // The queue
  // ---------------------------------------------------------------------

  lemma StartKeepsOrder(started: seq<Job>, queue: seq<Job>)
    requires queue != []
    ensures (started + [queue[0]]) + queue[1..] == started + queue
  {
    assert [queue[0]] + queue[1..] == queue;
  }

  /** Trying to start the next job keeps the invariant, even from a state
      where the queue waits (as after a completion). */
  lemma StartNextKeepsInv(v: View, l: Ledger, hasClient: bool)
    requires Core(v, l, hasClient)
    ensures Inv(StartNext(v, hasClient).0, Began(l, CallsOf(StartNext(v, hasClient).1)), hasClient)
  {
    var r, c := StartNext(v, hasClient).0, StartNext(v, hasClient).1;
    StartNextFrame(v, hasClient);
    assert TranscriptOf(r) == TranscriptOf(v);
    if c.Some? {
      var l1 := Began(l, CallsOf(c));
      StartKeepsOrder(l.started, v.queue);
      assert JobsOf(CallsOf(c)) == [v.queue[0]];
      assert l1.inFlight == l.inFlight + multiset{v.queue[0]};
      assert v.queue[0] in v.queue;
      forall j | j in r.queue ensures j.messageId.stamp < v.clock {
        assert j in v.queue;
      }
      assert JobsOk(r.queue, l1, r.clock);
    } else {
      assert JobsOf(CallsOf(c)) == [];
      assert Began(l, CallsOf(c)) == l;
    }
  }

  /** A job starts only when no call of this session is running, and then it
      is the one call running. */
  lemma StartNextKeepsOneInFlight(v: View, l: Ledger, hasClient: bool)
    requires OneInFlight(v.isEnriching, l)
    ensures OneInFlight(StartNext(v, hasClient).0.isEnriching, Began(l, CallsOf(StartNext(v, hasClient).1)))
  {
    var c := StartNext(v, hasClient).1;
    if c.Some? {
      assert JobsOf(CallsOf(c)) == [v.queue[0]];
      assert l.inFlight == multiset{};
    } else {
      assert JobsOf(CallsOf(c)) == [];
      assert Began(l, CallsOf(c)) == l;
    }
  }

  /** Pushing a job whose id is already drawn keeps everything but the
      work-conserving part of the invariant, which the start that follows
      restores. */
  lemma PushKeepsCore(v: View, l: Ledger, hasClient: bool, job: Job)
    requires Inv(v, l, hasClient) && job.messageId.stamp < v.clock
    ensures Core(v.(queue := v.queue + [job]), Pushed(l, [job]), hasClient)
  {
    var w := v.(queue := v.queue + [job]);
    var l1 := Pushed(l, [job]);
    assert l.enqueued + [job] == l.started + (v.queue + [job]);
    assert TranscriptOf(w) == TranscriptOf(v);
    assert JobsOk(w.queue, l1, w.clock);
  }

  lemma BeganTwice(l: Ledger, c: seq<Call>, cs: seq<Call>)
    ensures Began(Began(l, c), cs) == Began(l, c + cs)
  {
    JobsOfAppend(c, cs);
    SeqAssoc(l.started, JobsOf(c), JobsOf(cs));
  }

  lemma SeqAssoc(s: seq<Job>, a: seq<Job>, b: seq<Job>)
    ensures (s + a) + b == s + (a + b)
    ensures multiset(a + b) == multiset(a) + multiset(b)
  {
  }

  lemma LedgerSteps(l: Ledger, jobs: seq<Job>, c: seq<Call>, cs: seq<Call>)
    requires jobs != []
    ensures Began(Pushed(Began(Pushed(l, [jobs[0]]), c), jobs[1..]), cs) == Began(Pushed(l, jobs), c + cs)
  {
    assert Began(Pushed(Began(Pushed(l, [jobs[0]]), c), jobs[1..]), cs) == Began(Began(Pushed(l, jobs), c), cs) by {
      assert (l.enqueued + [jobs[0]]) + jobs[1..] == l.enqueued + jobs by {
        assert [jobs[0]] + jobs[1..] == jobs;
      }
    }
    BeganTwice(Pushed(l, jobs), c, cs);
  }

  /** One push, then the rest: the view and the ledger after pushing `jobs`. */
  lemma EnqueueAllUnfold(v: View, l: Ledger, hasClient: bool, jobs: seq<Job>)
    requires jobs != []
    ensures var w := v.(queue := v.queue + [jobs[0]]);
      var v1, c := StartNext(w, hasClient).0, StartNext(w, hasClient).1;
      var rest := EnqueueAll(v1, jobs[1..], hasClient);
      EnqueueAll(v, jobs, hasClient).0 == rest.0 &&
      Began(Pushed(l, jobs), EnqueueAll(v, jobs, hasClient).1) ==
        Began(Pushed(Began(Pushed(l, [jobs[0]]), CallsOf(c)), jobs[1..]), rest.1)
  {
    var w := v.(queue := v.queue + [jobs[0]]);
    var v1, c := StartNext(w, hasClient).0, StartNext(w, hasClient).1;
    var rest := EnqueueAll(v1, jobs[1..], hasClient);
    assert EnqueueAll(v, jobs, hasClient) == (rest.0, CallsOf(c) + rest.1);
    LedgerSteps(l, jobs, CallsOf(c), rest.1);
  }

  /** Pushing several jobs with drawn ids keeps the invariant. */
  lemma {:induction false} EnqueueAllKeepsInv(v: View, l: Ledger, hasClient: bool, jobs: seq<Job>)
    requires Inv(v, l, hasClient)
    requires forall j :: j in jobs ==> j.messageId.stamp < v.clock
    ensures Inv(EnqueueAll(v, jobs, hasClient).0, Began(Pushed(l, jobs), EnqueueAll(v, jobs, hasClient).1), hasClient)
    decreases |jobs|
  {
    if jobs == [] {
      assert Began(Pushed(l, jobs), []) == l;
    } else {
      assert jobs[0] in jobs;
      var w := v.(queue := v.queue + [jobs[0]]);
      var v1, c := StartNext(w, hasClient).0, StartNext(w, hasClient).1;
      PushKeepsCore(v, l, hasClient, jobs[0]);
      StartNextKeepsInv(w, Pushed(l, [jobs[0]]), hasClient);
      StartNextFrame(w, hasClient);
      forall j | j in jobs[1..] ensures j.messageId.stamp < v1.clock {
        assert j in jobs;
      }
      EnqueueAllKeepsInv(v1, Began(Pushed(l, [jobs[0]]), CallsOf(c)), hasClient, jobs[1..]);
      EnqueueAllUnfold(v, l, hasClient, jobs);
    }
  }

  /** Pushing several jobs starts at most one call, and only when none of
      this session is running. */
  lemma {:induction false} EnqueueAllKeepsOneInFlight(v: View, l: Ledger, hasClient: bool, jobs: seq<Job>)
    requires OneInFlight(v.isEnriching, l)
    ensures OneInFlight(EnqueueAll(v, jobs, hasClient).0.isEnriching, Began(Pushed(l, jobs), EnqueueAll(v, jobs, hasClient).1))
    decreases |jobs|
  {
    if jobs == [] {
      assert Began(Pushed(l, jobs), []) == l;
    } else {
      var w := v.(queue := v.queue + [jobs[0]]);
      var c := StartNext(w, hasClient).1;
      StartNextKeepsOneInFlight(w, Pushed(l, [jobs[0]]), hasClient);
      EnqueueAllKeepsOneInFlight(StartNext(w, hasClient).0, Began(Pushed(l, [jobs[0]]), CallsOf(c)), hasClient, jobs[1..]);
      EnqueueAllUnfold(v, l, hasClient, jobs);
    }
  }

  /** The pushes of a turn boundary: the jobs of the open turns. */
  function BoundaryJobs(v: View): seq<Job> {
    TurnJobs(TranscriptOf(v))
  }

  /** A turn boundary keeps the invariant. */
  lemma TurnCompleteKeepsInv(v: View, l: Ledger, hasClient: bool)
    requires Inv(v, l, hasClient)
    ensures Inv(TurnComplete(v, hasClient).0, Began(Pushed(l, BoundaryJobs(v)), TurnComplete(v, hasClient).1), hasClient)
  {
    var jobs := BoundaryJobs(v);
    BoundaryJobsDrawn(v, l, hasClient);
    EnqueueAllKeepsInv(v, l, hasClient, jobs);
    var p := EnqueueAll(v, jobs, hasClient);
    ClosedTurnsKeepInv(p.0, Began(Pushed(l, jobs), p.1), hasClient);
  }

  lemma BoundaryJobsDrawn(v: View, l: Ledger, hasClient: bool)
    requires Inv(v, l, hasClient)
    ensures forall j :: j in BoundaryJobs(v) ==> j.messageId.stamp < v.clock
  {
  }

  lemma ClosedTurnsKeepInv(v: View, l: Ledger, hasClient: bool)
    requires Inv(v, l, hasClient)
    ensures Inv(WithTranscript(v, CloseTurns(TranscriptOf(v))), l, hasClient)
  {
    var t := CloseTurns(TranscriptOf(v));
    assert TranscriptOk(t, l.sessionBase);
    NewTranscriptKeepsInv(v, l, hasClient, t);
  }

  lemma TurnCompleteKeepsOneInFlight(v: View, l: Ledger, hasClient: bool)
    requires OneInFlight(v.isEnriching, l)
    ensures OneInFlight(TurnComplete(v, hasClient).0.isEnriching, Began(Pushed(l, BoundaryJobs(v)), TurnComplete(v, hasClient).1))
  {
    EnqueueAllKeepsOneInFlight(v, l, hasClient, BoundaryJobs(v));
  }

  /** The end of a call of this session, or of an orphan, keeps the
      invariant; an orphan's merge changes no entry. */
  lemma CompleteKeepsInv(v: View, l: Ledger, hasClient: bool, job: Job, outcome: Option<EnrichmentData>)
    requires Inv(v, l, hasClient) && (job in l.inFlight || job in l.orphans)
    ensures Inv(Complete(v, job, outcome, hasClient).0, Began(Finished(l, job), CallsOf(Complete(v, job, outcome, hasClient).1)), hasClient)
    ensures job !in l.inFlight ==> Complete(v, job, outcome, hasClient).0.conversation == v.conversation
  {
    var merged := Merged(v.conversation, job.messageId, job.text, outcome);
    var w := v.(conversation := merged, isEnriching := false);
    var l1 := Finished(l, job);
    var s := TranscriptOf(v);
    MergeKeepsTranscriptOk(s, l.sessionBase, job.messageId, job.text, outcome);
    assert TranscriptOf(w) == s.(conversation := merged);
    if job !in l.inFlight {
      OrphanFindsNoEntry(s, l.sessionBase, job.messageId);
      MergedOnAbsentId(v.conversation, job.messageId, job.text, outcome);
    }
    assert forall j :: j in l1.inFlight ==> j in l.inFlight;
    assert forall j :: j in l1.orphans ==> j in l.orphans;
    assert JobsOk(w.queue, l1, w.clock);
    assert Core(w, l1, hasClient);
    StartNextKeepsInv(w, l1, hasClient);
    StartNextFrame(w, hasClient);
  }

  /** The end of the one running call of this session leaves that session's
      queue with at most the next call running. */
  lemma CompleteKeepsOneInFlight(v: View, l: Ledger, hasClient: bool, job: Job, outcome: Option<EnrichmentData>)
    requires OneInFlight(v.isEnriching, l) && job in l.inFlight
    ensures OneInFlight(Complete(v, job, outcome, hasClient).0.isEnriching,
                        Began(Finished(l, job), CallsOf(Complete(v, job, outcome, hasClient).1)))
  {
    var w := v.(conversation := Merged(v.conversation, job.messageId, job.text, outcome), isEnriching := false);
    OnlyCallFinished(l.inFlight, job);
    StartNextKeepsOneInFlight(w, Finished(l, job), hasClient);
  }

  lemma OnlyCallFinished(inFlight: multiset<Job>, job: Job)
    requires job in inFlight && |inFlight| <= 1
    ensures inFlight - multiset{job} == multiset{}
  {
    var rest := inFlight - multiset{job};
    assert inFlight == rest + multiset{job};
    assert |rest| == 0;
  }

  lemma MergedOnAbsentId(conv: seq<ChatMessage>, id: MessageId, text: string, outcome: Option<EnrichmentData>)
    requires id !in Ids(conv)
    ensures Merged(conv, id, text, outcome) == conv
  {
    MergesOnAbsentIdAreNoOps(conv, id, EnrichTranscription(text, outcome));
  }

  // ---------------------------------------------------------------------
  // Transcription, messages, typed input
  // ---------------------------------------------------------------------

  /** A view whose transcript moved forward from a well-formed one, all else
      kept, is well formed again. */
  lemma NewTranscriptKeepsInv(v: View, l: Ledger, hasClient: bool, t: State)
    requires Inv(v, l, hasClient)
    requires TranscriptOk(t, l.sessionBase) && t.clock >= v.clock
    ensures Inv(WithTranscript(v, t), l, hasClient)
  {
    JobsOkLater(v.queue, l, v.clock, t.clock);
    StampsBelowLater(v.conversationRef, v.clock, t.clock);
  }

  /** A transcription delta keeps the invariant. */
  lemma DeltaKeepsInv(v: View, l: Ledger, hasClient: bool, sp: Speaker, text: string)
    requires Inv(v, l, hasClient)
    ensures Inv(WithTranscript(v, Delta(TranscriptOf(v), sp, text)), l, hasClient)
  {
    DeltaKeepsTranscriptOk(TranscriptOf(v), l.sessionBase, sp, text);
    NewTranscriptKeepsInv(v, l, hasClient, Delta(TranscriptOf(v), sp, text));
  }

  /** The jobs a server message pushes. */
  function MessageJobs(v: View, m: ServerMessage): seq<Job> {
    if m.turnComplete then BoundaryJobs(Transcribed(v, m)) else []
  }

  /** A server message keeps the invariant. */
  lemma ReceivedKeepsInv(v: View, l: Ledger, hasClient: bool, m: ServerMessage)
    requires Inv(v, l, hasClient)
    ensures Inv(Received(v, m, hasClient).view, Began(Pushed(l, MessageJobs(v, m)), Received(v, m, hasClient).calls), hasClient)
  {
    var s := TranscriptOf(v);
    var t1 := Delta(s, User, m.inputText);
    DeltaKeepsTranscriptOk(s, l.sessionBase, User, m.inputText);
    DeltaKeepsTranscriptOk(t1, l.sessionBase, Ai, m.outputText);
    NewTranscriptKeepsInv(v, l, hasClient, Delta(t1, Ai, m.outputText));
    var v1 := Transcribed(v, m);
    if m.turnComplete {
      TurnCompleteKeepsInv(v1, l, hasClient);
      var p := TurnComplete(v1, hasClient);
      AudioStepsKeepInv(p.0, Began(Pushed(l, BoundaryJobs(v1)), p.1), hasClient, 0);
    } else {
      assert Began(Pushed(l, []), []) == l;
      AudioStepsKeepInv(v1, l, hasClient, 0);
    }
  }

  lemma ReceivedKeepsOneInFlight(v: View, l: Ledger, hasClient: bool, m: ServerMessage)
    requires OneInFlight(v.isEnriching, l)
    ensures OneInFlight(Received(v, m, hasClient).view.isEnriching, Began(Pushed(l, MessageJobs(v, m)), Received(v, m, hasClient).calls))
  {
    var v1 := Transcribed(v, m);
    ReceivedPushes(v, m, hasClient);
    if m.turnComplete {
      TurnCompleteKeepsOneInFlight(v1, l, hasClient);
    } else {
      assert Began(Pushed(l, []), []) == l;
    }
  }

  /** A typed message keeps the invariant, and the rendered transcript its
      history is drawn from holds no entry with the new id, so the history
      never holds the typed entry itself. */
  lemma SendTextKeepsInv(v: View, l: Ledger, hasClient: bool, text: string)
    requires Inv(v, l, hasClient)
    ensures Inv(SendText(v, text).0, l, hasClient)
    ensures SendText(v, text).1.Some? ==>
      forall i :: 0 <= i < |v.conversationRef| ==> v.conversationRef[i].id != SendText(v, text).1.value.messageId
  {
    if v.hasSession && v.status == Listening {
      var s := TranscriptOf(v);
      var e := NewEntry(MessageId(User, v.clock), User, text);
      var t := s.(conversation := s.conversation + [e], clock := s.clock + 1);
      AppendKeepsTranscriptOk(s, l.sessionBase, e);
      assert SendText(v, text).0 == WithTranscript(v, t);
      NewTranscriptKeepsInv(v, l, hasClient, t);
    }
  }

  /** The end of a typed call keeps the invariant. */
  lemma TypedMergeKeepsInv(v: View, l: Ledger, hasClient: bool, id: MessageId, text: string, outcome: Option<EnrichmentData>)
    requires Inv(v, l, hasClient)
    ensures Inv(TypedCompleted(v, id, text, outcome), l, hasClient)
  {
    var s := TranscriptOf(v);
    MergeKeepsTranscriptOk(s, l.sessionBase, id, text, outcome);
    assert TranscriptOf(TypedCompleted(v, id, text, outcome)) == s.(conversation := Merged(s.conversation, id, text, outcome));
  }

  // ---------------------------------------------------------------------
  // Audio and teardown
  // ---------------------------------------------------------------------

  /** A decoded chunk gets a source number no tracked source has, and the
      invariant is kept. */
  lemma ChunkDecodedKeepsInv(v: View, l: Ledger, hasClient: bool, now: real, duration: Duration, interrupted: bool)
    requires Inv(v, l, hasClient) && now >= 0.0
    ensures v.nextSource !in v.sources
    ensures Inv(ChunkDecoded(v, now, duration, interrupted), l, hasClient)
  {
    assert TranscriptOf(ChunkDecoded(v, now, duration, interrupted)) == TranscriptOf(v);
  }

  lemma AudioStepsKeepInv(v: View, l: Ledger, hasClient: bool, source: nat)
    requires Inv(v, l, hasClient)
    ensures Inv(Stopped(v), l, hasClient) && Inv(SourceEnded(v, source), l, hasClient)
  {
    assert TranscriptOf(Stopped(v)) == TranscriptOf(v);
    assert TranscriptOf(SourceEnded(v, source)) == TranscriptOf(v);
  }

  /** Teardown keeps the invariant and leaves no call of the new session in
      flight: the running call, if any, becomes an orphan. */
  lemma TornDownKeepsInv(v: View, l: Ledger, hasClient: bool)
    requires Inv(v, l, hasClient)
    ensures Inv(TornDown(v), Ended(l, v.clock), hasClient)
    ensures OneInFlight(TornDown(v).isEnriching, Ended(l, v.clock))
    ensures Ended(l, v.clock).orphans == l.orphans + l.inFlight
  {
    var r, e := TornDown(v), Ended(l, v.clock);
    assert TranscriptOf(r) == State([], Closed, Closed, v.clock);
    assert r.conversationRef == v.conversationRef && r.clock == v.clock;
    EndedJobsOk(l, v.queue, v.clock);
    InvFromParts(r, e, hasClient);
  }

  /** After a teardown nothing runs or waits, and every job of the session
      that ended is an orphan drawn before the new session's base. */
  lemma EndedJobsOk(l: Ledger, queue: seq<Job>, clock: nat)
    requires JobsOk(queue, l, clock) && l.sessionBase <= clock
    ensures JobsOk([], Ended(l, clock), clock)
  {
    var e := Ended(l, clock);
    forall j | j in e.orphans ensures j.messageId.stamp < e.sessionBase {
      if j in l.orphans {
        assert j.messageId.stamp < l.sessionBase <= clock;
      } else {
        assert j in l.inFlight;
      }
    }
  }

  /** The invariant from its parts. */
  lemma InvFromParts(v: View, l: Ledger, hasClient: bool)
    requires TranscriptOk(TranscriptOf(v), l.sessionBase) && StampsBelow(v.conversationRef, v.clock)
    requires JobsOk(v.queue, l, v.clock) && (v.isEnriching ==> hasClient)
    requires AudioOk(v.cursor, v.sources, v.nextSource) && WorkConserving(v.isEnriching, v.queue, hasClient)
    ensures Inv(v, l, hasClient)
  {
  }

  // ---------------------------------------------------------------------
  // The single-flight property breaks across a teardown
  // ---------------------------------------------------------------------

  /** A one-fragment user turn ending in a boundary, received while idle with
      both turns closed: its job starts at once. */
  lemma HiWhenIdle(w: View, l: Ledger)
    requires w.userId == None && w.aiId == None && w.queue == [] && !w.isEnriching
    ensures var m := ServerMessage("Hi", "", true, false, false);
      var o := Received(w, m, true);
      |o.calls| == 1 && o.view.isEnriching && o.view.queue == [] &&
      o.view.userId == None && o.view.aiId == None &&
      o.calls[0].job == Job("Hi", User, MessageId(User, w.clock)) &&
      Began(Pushed(l, MessageJobs(w, m)), o.calls).inFlight == l.inFlight + multiset{o.calls[0].job}
  {
    var m := ServerMessage("Hi", "", true, false, false);
    var u := Transcribed(w, m);
    assert u.userId == Some(MessageId(User, w.clock)) && u.aiId == None;
    assert MessageJobs(w, m) == [Job("Hi", User, MessageId(User, w.clock))];
    EnqueueAllWhenIdle(u, MessageJobs(w, m), true);
    var o := Received(w, m, true);
    assert JobsOf(o.calls) == [o.calls[0].job];
  }

  /** A call of an earlier session coming back, whatever it returned, while
      a call of this session runs and nothing waits: the busy flag drops,
      nothing starts, and the running call stays in flight. */
  lemma OrphanReturnsOnEmptyQueue(w: View, l: Ledger, job: Job, outcome: Option<EnrichmentData>)
    requires w.queue == [] && job !in l.inFlight
    ensures var (v3, c3) := Complete(w, job, outcome, true);
      c3.None? && !v3.isEnriching && v3.queue == [] && v3.userId == w.userId && v3.aiId == w.aiId &&
      Began(Finished(l, job), CallsOf(c3)).inFlight == l.inFlight
  {
  }

  /** A session in which one call is running is torn down and restarted:
      `startSession` with a captured frame, the connect resolving, `onopen`.
      The new session starts a second call; then the first session's call
      comes back, with whatever it returned.  Its completion clears the busy
      flag that belongs to the second call, so the next turn boundary starts
      a third call while the second is still running: two calls of the same
      session are in flight. */
  lemma OrphanCompletionBreaksSingleFlight(v: View, l: Ledger, job: Job, outcome: Option<EnrichmentData>)
    requires Inv(v, l, true) && OneInFlight(v.isEnriching, l) && job in l.inFlight
    requires v.hasPermissions
    ensures
      var l1 := Ended(l, v.clock);
      var v1 := Opened(Connected(SessionStarting(TornDown(v), true, true).0));
      var m := ServerMessage("Hi", "", true, false, false);
      var o2 := Received(v1, m, true);
      var l2 := Began(Pushed(l1, MessageJobs(v1, m)), o2.calls);
      var v3 := Complete(o2.view, job, outcome, true).0;
      var c3 := Complete(o2.view, job, outcome, true).1;
      var l3 := Began(Finished(l2, job), CallsOf(c3));
      var o4 := Received(v3, m, true);
      var l4 := Began(Pushed(l3, MessageJobs(v3, m)), o4.calls);
      SessionStarting(TornDown(v), true, true).1 &&
      v1.hasSession && v1.status == Listening &&
      job in l1.orphans && OneInFlight(o2.view.isEnriching, l2) && o2.view.isEnriching &&
      !v3.isEnriching && |l3.inFlight| == 1 &&
      |l4.inFlight| == 2 && !OneInFlight(o4.view.isEnriching, l4)
  {
    var l1 := Ended(l, v.clock);
    var v0 := TornDown(v);
    var v1 := Opened(Connected(SessionStarting(v0, true, true).0));
    var m := ServerMessage("Hi", "", true, false, false);
    TornDownKeepsInv(v, l, true);
    assert v1 == v0.(error := None, status := Listening, hasSession := true, hasScriptProcessor := true, hasFrameTimer := true);
    ReceivedKeepsOneInFlight(v1, l1, true, m);
    HiWhenIdle(v1, l1);
    var o2 := Received(v1, m, true);
    var l2 := Began(Pushed(l1, MessageJobs(v1, m)), o2.calls);
    assert job.messageId.stamp < v.clock;
    assert job !in l2.inFlight;
    OrphanReturnsOnEmptyQueue(o2.view, l2, job, outcome);
    var v3 := Complete(o2.view, job, outcome, true).0;
    var l3 := Began(Finished(l2, job), CallsOf(Complete(o2.view, job, outcome, true).1));
    HiWhenIdle(v3, l3);
  }
}
