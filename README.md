# Live English-practice session orchestrator, modelled in Dafny

The application is a single-page React app. The learner talks to a live
audio model while the camera shows a scene. Every turn of the conversation
is transcribed twice, once for each speaker. A background queue sends each
finished turn to a text model, one turn at a time, and the text model
returns a translation and phonetic annotations for it. The reply audio
arrives in chunks, and the app schedules them back to back on one playback
cursor.

This project models the orchestrator in `App.tsx`: its React state, its
refs and every event handler. It also models the pure parts of
`src/services/geminiService.ts`: the history text written into the prompt,
and the fallback result that is used when the model call fails.

The modules follow the program's structure:

- `Types` (types.dfy) holds the records of `src/types.ts` and the queue
  element of `App.tsx`.
- `Conversation` (conversation.dfy) holds the transcript operations that
  `App.tsx` applies:
  - the update keyed on an id (`prev.map(m => m.id === id ? … : m)`) and
    the three merges built on it;
  - `findIndex`;
  - the four-entry context window of the queue;
  - the `slice(-4)` history of the typed path.
- `GeminiService` (gemini_service.dfy) holds the history text, the CJK test
  and the fallback result.
- `Transcript` (transcript.dfy) holds the accumulator of streamed
  transcription fragments as a pure step. It has at most one open entry per
  speaker, and the turn boundary hands the open turns to the queue. Lemmas
  cover whole runs of fragments.
- `Playback` (playback.dfy) holds the `max(now, cursor)` scheduling rule
  and what it implies over a sequence of chunks.
- `SessionSteps` (session_steps.dfy) holds the whole orchestrator as one
  value (`View`) and one function per handler, plus lemmas about what each
  handler achieves.
- `SessionInvariants` (session_invariants.dfy) proves that every step keeps
  the invariant `Inv`. The invariant covers:
  - a well-formed transcript with unique ids;
  - jobs that start in the order they were pushed;
  - a work-conserving queue;
  - a sane audio state.

  Beside the `View`, the proofs keep a proof-only ledger of the jobs that
  were pushed, started, are running, or were left running by a teardown.
  The module proves `OneInFlight` (at most one enrichment call of a session
  runs at a time) and `StatusOk` (ready or listening only with the
  permissions).
- `Session` (session.dfy) holds the class `Orchestrator`. Its fields are
  the state and refs of `App.tsx`:
  - each React setter, and each write to a ref's `current`, is a one-field
    method;
  - each handler is a method built from those writes;
  - each handler's `ensures` says that it performs the matching step of
    `SessionSteps` on the snapshot `Abs()`, and how it moves the ledger.

  An `await` splits a handler into two methods: one that runs up to the
  await, and one for the event that resumes it (for example
  `ProcessEnrichmentQueue` / `CompleteEnrichment`). Other events can then
  interleave between the two, as they do in the browser's event loop.

Two behaviours of the code as written are proved, not corrected, because
the rest of the program lives with them:

- **Orphaned calls reset the busy flag.** `endSession` does not cancel an
  enrichment call that is still running. When that call returns, its
  `finally` block clears `isEnrichingRef`, even if a call of the next
  session is already running. `SessionInvariants.OrphanCompletionBreaksSingleFlight`
  builds that scenario and shows two calls of one session in flight.
  `SessionInvariants.CompleteKeepsInv` shows why it breaks nothing else: an
  orphan's merge finds no entry in the new transcript.
- **The cursor ignores the speech rate.** The playback cursor advances by
  the buffer duration whatever `playbackRate` is. At a rate below 1, a
  chunk is still sounding when the next one starts; above 1, a silence
  opens between them (`Playback.RateIgnoredByCursor`).

## Model

| member | source | states |
|---|---|---|
| Conversation.MapById | App.tsx:163-167 | the update keyed on an id keeps the length; entries with another id are unchanged; entries with the id become `f` of themselves |
| Conversation.UpdateEnglish | App.tsx:303-307 | the streaming update replaces only the target entry's english; ids, speakers and the set of ids are kept |
| Conversation.MergeEnrichment | App.tsx:163-167 | the queue's success merge sets english, chinese and phonetic from the result and finalizes the target; every other entry and the set of ids are kept |
| Conversation.MergeFailure | App.tsx:168-172 | the `catch` branch's merge sets the sentinel translation and finalizes the target, nothing else changes (no step takes this branch: the service does not reject) |
| Conversation.MergeTypedAsWritten | App.tsx:215-217 | the typed path's success merge as written keeps ids, length and every other entry, and gives the target the result's english and chinese and `isFinal`, its phonetic field untouched |
| Conversation.MapByIdIds | App.tsx:163-167 | an id-preserving update keeps the set of ids |
| Conversation.MapByIdAbsent | App.tsx:163-167 | an update for an id that is not in the transcript leaves it unchanged |
| Conversation.MapByIdAppend | App.tsx:312-315 | appending an entry with another id commutes with an update keyed on the id |
| Conversation.MergesOnAbsentIdAreNoOps | App.tsx:163-172 | a late merge of any kind, for an id that is gone, changes nothing |
| Conversation.MergeChangesOnlyTarget | App.tsx:163-167 | with unique ids the merge changes exactly the target position, however many entries were appended since |
| Conversation.TypedMergeKeepsPhonetic | App.tsx:215-217 | the typed merge as written never changes any entry's phonetic field |
| Conversation.TypedMergeDropsPhonetics | App.tsx:215-217 | concrete case: an enrichment with one phonetic is shown by the queue's merge and dropped by the typed merge |
| Conversation.IndexOf | App.tsx:158 | `findIndex`: the first position with the id, or -1 exactly when the id is absent |
| Conversation.ContextWindowPrecedesTarget | App.tsx:157-160 | the context window is the min(4, k) entries just before the target at k, and it never holds the target |
| Conversation.ContextWindowEmpty | App.tsx:159 | the window is empty exactly when the target is first or absent |
| Conversation.LastFour | App.tsx:212 | `slice(-4)` is the last min(4, n) entries of the transcript, in order |
| Conversation.HistoryForApi | App.tsx:160 | each entry is reduced to its speaker and english, in order |
| Conversation.RecentHistory | App.tsx:212-213 | the typed history has min(4, n) items |
| Conversation.RecentHistoryIsNewest | App.tsx:212-213 | the typed history is the newest min(4, n) entries, oldest first |
| GeminiService.HistoryLines | src/services/geminiService.ts:34 | one `Speaker: english` line per history item, in order |
| GeminiService.HistoryText | src/services/geminiService.ts:33-35 | an empty history is written as "No history yet." |
| GeminiService.SplitJoin | src/services/geminiService.ts:34 | splitting the newline-joined lines on newlines gives the lines back when no line holds a newline |
| GeminiService.HistoryTextIsOneLinePerEntry | src/services/geminiService.ts:33-35 | a non-empty history is written as exactly one tagged line per entry with no trailing newline |
| GeminiService.HistoryTextStartsWithLabel | src/services/geminiService.ts:33-35 | a non-empty history starts with its first speaker's tag and is never the empty-history text |
| GeminiService.ScanCjkIsContainsCjk | src/services/geminiService.ts:93 | the left-to-right scan that `Fallback` runs finds a character in U+4E00..U+9FA5 exactly when one exists |
| GeminiService.Fallback | src/services/geminiService.ts:90-98 | no phonetics; text with a CJK character is Chinese (english is "Translation failed"), any other text is English (chinese is the sentinel) |
| GeminiService.FallbackKeepsText | src/services/geminiService.ts:93-98 | the text is kept on one side; the sentinels appear exactly when the language test says so (or the text is the sentinel itself) |
| GeminiService.EnrichTranscription | src/services/geminiService.ts:31-100 | the service never rejects: a parsed response is returned as is, and a failure yields exactly `Fallback(text)`, with no phonetics and the text kept |
| Playback.StartTime | App.tsx:360-361 | the start is the later of now and the cursor, and one of them |
| Playback.Advance | App.tsx:369 | the cursor moves to the chunk's end, never back and never before now |
| Playback.StartsAfterArrival | App.tsx:356-372 | no chunk in a sequence starts before it arrives or before the initial cursor |
| Playback.NonOverlapping | App.tsx:356-372 | successive chunks never overlap in buffer time, and start times never decrease |
| Playback.GaplessIffEarly | App.tsx:360-369 | a chunk follows the previous one without a gap exactly when it arrived before the previous one ended; otherwise it starts on arrival |
| Playback.FinalCursorIsLastEnd | App.tsx:369 | after a sequence the cursor is the end of the last chunk and never moved back |
| Playback.ExampleTimeline | App.tsx:356-372 | three concrete chunks start at 0, 1 and 3, and the cursor ends at 4.2 |
| Playback.NextAfterResetStartsNow | App.tsx:193 | after the reset to 0 the next chunk starts at the current audio time |
| Playback.PlayingTime | App.tsx:365 | a buffer at rate r sounds d/r seconds: longer below 1, shorter above 1 |
| Playback.RateIgnoredByCursor | App.tsx:365-369 | the cursor moves by the buffer duration at any rate, so chunks overlap in wall time below rate 1 and leave silences above it |
| Transcript.WithTurn | App.tsx:301-316 | setting one speaker's accumulator leaves the other one, the transcript and the clock alone |
| Transcript.DeltaKeepsOtherEntries | App.tsx:298-340 | one fragment appends at most one entry, exactly when it is non-empty and the speaker has no open turn, and changes no entry but the open one, whose english becomes the whole buffer |
| Transcript.CloseTurns | App.tsx:350-353 | the boundary closes both turns and keeps the transcript and the clock |
| Transcript.RunOpensOneEntryPerSpeaker | App.tsx:298-340 | an interleaved run of fragments appends, after the untouched old entries, one entry per speaker that said something; it holds all that speaker said, pending and not final, and is that speaker's open turn |
| Transcript.OneSpeakerRun | App.tsx:298-318 | a single speaker's run appends nothing, or exactly one pending entry holding the concatenated fragments with a fresh id |
| Transcript.OpenTurnIsNew | App.tsx:301-316 | an open turn at the end of a run holds everything its speaker said and names an entry appended by the run |
| Transcript.JobsFromTurns | App.tsx:342-348 | the boundary's jobs are one per open turn, user first, each with the whole text and the id of an appended entry |
| Transcript.RunThenTurnComplete | App.tsx:298-354 | after a run, the boundary pushes, user first, one job per speaker that spoke, with all it said and its entry's id, and closes both turns |
| SessionSteps.StartingKeepsTurnsAndQueue | App.tsx:227-238 | the connect is made exactly with permissions, client and frame; the start empties the transcript, and the open turns, the queue and the busy flag are kept |
| SessionSteps.PermissionsStay | App.tsx:81-97 | permissions are never withdrawn and the effect acts at most once |
| SessionSteps.CameraSwitchTwice | App.tsx:105-132 | two successful switches face the original way |
| SessionSteps.StartNextTakesHead | App.tsx:148-160 | a job starts exactly when idle, non-empty and with a client; it is the head, the rest stays in order, and the history is the head's context window |
| SessionSteps.EnqueueAllFrame | App.tsx:179-182 | pushing jobs changes only the queue and the busy flag |
| SessionSteps.EnqueueAllIsFifo | App.tsx:148-182 | the started jobs followed by those still waiting are the old queue followed by the new jobs; at most one starts, and none if one was running |
| SessionSteps.EnqueueAllConcat | App.tsx:344-348 | two successive pushes are one push of the concatenation |
| SessionSteps.EnqueueAllWhenIdle | App.tsx:179-182 | on an idle, empty queue the first pushed job starts at once and the rest wait in order |
| SessionSteps.Merged | App.tsx:162-167 | the merge of what the service resolved to (`EnrichTranscription`, so the fallback when the call failed) finalizes the target with it; length, ids and every other entry are kept |
| SessionSteps.CompleteDrains | App.tsx:173-176 | a completion starts the next waiting job, or leaves the queue idle and empty |
| SessionSteps.CompleteTouchesOnlyTarget | App.tsx:162-176 | a completion finalizes only the job's entry, changes nothing when it is gone, and touches only the transcript, the queue and the busy flag |
| SessionSteps.MergedTouchesOnlyTarget | App.tsx:163-167 | the merge finalizes the target's entries and is a no-op when the target is gone |
| SessionSteps.FailedCallShowsFallback | App.tsx:162-167 | a failed call finalizes the target with the fallback's english and chinese and an empty phonetic list; the text stays on one side, and the sentinel translation appears exactly when the text has no CJK character |
| SessionSteps.ReceivedPushes | App.tsx:342-354 | a message starts calls only through its turn boundary |
| SessionSteps.TurnCompleteHandsOver | App.tsx:342-354 | the boundary pushes, user first, one job per open turn with its whole text, closes both turns and changes nothing else but the queue |
| SessionSteps.FragmentBeforeBoundary | App.tsx:298-354 | a fragment in the same message as the boundary is part of the text handed over |
| SessionSteps.InterruptWaitsForAudio | App.tsx:356-376 | without audio an interrupt stops and clears the sources and rewinds the cursor; with audio it waits for the decode |
| SessionSteps.EmptyMessageIsNoOp | App.tsx:297-378 | a message with nothing in it changes nothing |
| SessionSteps.ChunkFollowsCursor | App.tsx:356-376 | a decoded chunk follows the cursor rule and gets a new source; an interrupt in the same message stops it along with the others |
| SessionSteps.SourceEnded | App.tsx:371 | `onended` removes just that source |
| SessionSteps.StoppedIdempotent | App.tsx:184-194 | stopping twice is stopping once |
| SessionSteps.SendTextBypassesQueue | App.tsx:196-214 | a typed message goes out exactly with a session while listening; it appends one pending user entry and calls the service directly with the rendered last four, bypassing the queue |
| SessionSteps.TypedCompleted | App.tsx:214-217 | the end of the typed call, corrected: the target gets english, chinese and the phonetics of the model's result, or on a failed call the fallback's two sides and no phonetics, and becomes final; every other entry and every other field is kept |
| SessionSteps.TornDownIsEmpty | App.tsx:401-423 | teardown releases every handle and clears playback, transcript, turns, queue and busy flag; status is ready exactly with permissions, else idle |
| SessionSteps.TornDownIdempotent | App.tsx:401-423 | tearing down twice is tearing down once |
| SessionSteps.LateMergeAfterTeardown | App.tsx:162-176 | a completion after teardown leaves the transcript empty |
| SessionInvariants.MountedIsValid | App.tsx:22-67 | the state on mount satisfies the invariant, single flight and the status rule |
| SessionInvariants.SettingsKeepInv | App.tsx:52-60 | rendering, the rate setting and the start button keep the invariant |
| SessionInvariants.PermissionKeepsInv | App.tsx:81-97 | the permission effect keeps the invariant |
| SessionInvariants.CameraKeepsInv | App.tsx:105-132 | the camera switch keeps the invariant |
| SessionInvariants.StartingKeepsInv | App.tsx:227-238 | the start keeps the invariant |
| SessionInvariants.ConnectKeepsInv | App.tsx:392-398 | the connect's outcome keeps the invariant |
| SessionInvariants.CallbacksKeepInv | App.tsx:272-294 | `onopen`, `onerror` and `onclose` keep the invariant |
| SessionInvariants.ControlStepsKeepStatusOk | App.tsx:81-238 | the pre-connect handlers keep "ready or listening only with the permissions", and a connect needs them |
| SessionInvariants.CallbacksKeepStatusOk | App.tsx:272-398 | the connect callbacks keep the status rule |
| SessionInvariants.QueueKeepsStatusOk | App.tsx:148-177 | the queue never touches status, permissions or the session handle |
| SessionInvariants.MessageKeepsStatusOk | App.tsx:297-378 | nor do server messages |
| SessionInvariants.AudioKeepsStatusOk | App.tsx:356-372 | nor does audio |
| SessionInvariants.TypedAndTeardownKeepStatusOk | App.tsx:196-225 | the typed path and teardown keep the status rule |
| SessionInvariants.StartNextKeepsInv | App.tsx:148-160 | trying to start restores the full invariant, even from a waiting queue |
| SessionInvariants.StartNextKeepsOneInFlight | App.tsx:149-153 | a job starts only when no call of the session runs, and then it is the one running |
| SessionInvariants.PushKeepsCore | App.tsx:180 | pushing a job with a drawn id keeps all but work-conservation |
| SessionInvariants.EnqueueAllKeepsInv | App.tsx:179-182 | pushing jobs with drawn ids keeps the invariant |
| SessionInvariants.EnqueueAllKeepsOneInFlight | App.tsx:179-182 | pushing jobs keeps single flight |
| SessionInvariants.TurnCompleteKeepsInv | App.tsx:342-354 | a turn boundary keeps the invariant |
| SessionInvariants.TurnCompleteKeepsOneInFlight | App.tsx:342-354 | a turn boundary keeps single flight |
| SessionInvariants.CompleteKeepsInv | App.tsx:162-176 | a completion of this session or of an orphan keeps the invariant, and an orphan's merge changes no entry |
| SessionInvariants.CompleteKeepsOneInFlight | App.tsx:173-176 | the completion of the running call keeps single flight |
| SessionInvariants.DeltaKeepsInv | App.tsx:298-340 | a transcription fragment keeps the invariant |
| SessionInvariants.ReceivedKeepsInv | App.tsx:297-378 | a whole server message keeps the invariant |
| SessionInvariants.ReceivedKeepsOneInFlight | App.tsx:297-378 | a whole server message keeps single flight |
| SessionInvariants.SendTextKeepsInv | App.tsx:196-214 | a typed message keeps the invariant, and its history never holds the typed entry |
| SessionInvariants.TypedMergeKeepsInv | App.tsx:214-217 | the end of a typed call keeps the invariant |
| SessionInvariants.ChunkDecodedKeepsInv | App.tsx:356-372 | a decoded chunk gets an unused source number and keeps the invariant |
| SessionInvariants.AudioStepsKeepInv | App.tsx:184-194 | stopping playback and `onended` keep the invariant |
| SessionInvariants.TornDownKeepsInv | App.tsx:401-423 | teardown keeps the invariant, leaves nothing of the new session in flight and turns the running call into an orphan |
| SessionInvariants.HiWhenIdle | App.tsx:298-354 | one user fragment ending a turn on an idle queue starts its job at once |
| SessionInvariants.OrphanReturnsOnEmptyQueue | App.tsx:162-176 | an orphan's return, whatever the service answered, clears the busy flag while the session's own call keeps running |
| SessionInvariants.OrphanCompletionBreaksSingleFlight | App.tsx:173-176 | teardown, restart (`startSession`, the connect, `onopen`), a new call, then the orphan's return with any answer: the next boundary puts two calls of one session in flight |
| Session.Orchestrator.constructor | App.tsx:22-67 | mount: the initial state, and the client exists exactly with an API key |
| Session.Orchestrator.Render | App.tsx:52-60 | the effects copy transcript and rate into their refs |
| Session.Orchestrator.SetSpeechRate | App.tsx:29 | the chosen rate is stored, its ref waits for the next render |
| Session.Orchestrator.HandleStart | App.tsx:100-103 | the error is cleared and the status becomes initializing |
| Session.Orchestrator.RequestPermissions | App.tsx:81-97 | the permission effect, granted or denied |
| Session.Orchestrator.SwitchCamera | App.tsx:105-132 | the camera switch, succeeded or failed |
| Session.Orchestrator.StartSession | App.tsx:227-238 | the start up to the connect, and whether the connect is made |
| Session.Orchestrator.CaptureAndConnect | App.tsx:233-238 | without a frame the start is abandoned with the error, otherwise the connect is made |
| Session.Orchestrator.SessionConnected | App.tsx:392 | the session handle is kept |
| Session.Orchestrator.ConnectFailed | App.tsx:394-398 | the error is shown and the status becomes ready |
| Session.Orchestrator.OnOpen | App.tsx:272-294 | the processor and the frame timer are set and the status becomes listening |
| Session.Orchestrator.OnError | App.tsx:379-383 | the error is shown and the status becomes ready, with no teardown |
| Session.Orchestrator.OnClose | App.tsx:384-388 | the status becomes ready unless the captured status was idle or ready |
| Session.Orchestrator.ProcessEnrichmentQueue | App.tsx:148-162 | the queue step up to its await, and the call it makes |
| Session.Orchestrator.AddToEnrichmentQueue | App.tsx:179-182 | push, then try to start |
| Session.Orchestrator.CompleteEnrichment | App.tsx:162-176 | the merge of the service's result (the fallback on failure), then the busy flag cleared and the next job tried |
| Session.Orchestrator.OnInputTranscription | App.tsx:298-318 | the user's fragment step on the accumulator |
| Session.Orchestrator.OnOutputTranscription | App.tsx:320-340 | the ai's fragment step on the accumulator |
| Session.Orchestrator.OnTurnComplete | App.tsx:342-354 | the turn boundary step |
| Session.Orchestrator.PushOpenTurns | App.tsx:343-348 | both open turns are pushed, the user's first |
| Session.Orchestrator.PushTurn | App.tsx:343-348 | an open turn is pushed, and a closed one pushes nothing |
| Session.Orchestrator.CloseOpenTurns | App.tsx:350-353 | both buffers and ids are cleared |
| Session.Orchestrator.OnMessage | App.tsx:297-376 | the message step up to the decode, with the calls it started |
| Session.Orchestrator.CompleteAudioDecode | App.tsx:358-376 | the chunk step after decoding; the source starts at max(now, cursor) with the rendered speech rate |
| Session.Orchestrator.ScheduleChunk | App.tsx:360-371 | the chunk scheduling without the interrupt |
| Session.Orchestrator.OnSourceEnded | App.tsx:371 | the ended source leaves the set |
| Session.Orchestrator.StopAudioPlayback | App.tsx:184-194 | every source is stopped, the set cleared and the cursor rewound |
| Session.Orchestrator.StopEachSource | App.tsx:185-191 | the loop stops exactly the tracked sources and changes nothing else |
| Session.Orchestrator.HandleSendText | App.tsx:196-214 | the typed path up to its await, and the call it makes |
| Session.Orchestrator.CompleteTypedEnrichment | App.tsx:214-217 | the end of the typed call, merged with the phonetics of the service's result (the fallback on failure) |
| Session.Orchestrator.EndSession | App.tsx:401-423 | the teardown step, after which the running call is an orphan |
| Session.Orchestrator.ReleaseHandles | App.tsx:402-409 | timer, session and processor are released |
| Session.Orchestrator.ClearSessionState | App.tsx:411-417 | transcript, turns, queue and busy flag are cleared |
| Session.DeliverMessage | App.tsx:297-378 | handling a server message on the object keeps the invariant |
| Session.EndSessionTwice | App.tsx:401-423 | ending a session twice on the object is ending it once |

## Left out

- Media and I/O are not modelled: the camera, the microphone, the audio
  contexts, PCM encoding and decoding, `sendRealtimeInput`, the frame timer's
  captures and the scene description. Each outcome that matters (permission
  granted, camera switched, frame captured, connect resolved, decode
  finished at audio time `now` with a length, enrichment result or failure)
  is a parameter of the method that resumes the handler.
- The prompt text and the JSON schema of the enrichment request are not
  modelled beyond the history text. A parsed model response is an input;
  a failure of the call or of `JSON.parse` is `None`.
- The difficulty setting and the settings dialog only shape the system
  instruction text, so they are not modelled.
- `Date.now()` is modelled by a counter. Two ids drawn in the same
  millisecond would collide in the browser; in the model ids never repeat.
- A React state updater `prev => …` is applied when the handler calls it.
  React may apply it later, and the refs it reads
  (`currentInputTranscription`, `currentUserMessageIdRef`) may have changed
  by then. The model does not capture that reordering.
- `conversationRef` and `speechRateRef` change only at `Render`. The queue
  and the typed path read the transcript as of the last render, and so does
  `handleSendText`'s `conversation` closure.
- SessionSteps.SendText and Session.Orchestrator.HandleSendText test the
  current `status`. `handleSendText` tests the `status` its `useCallback`
  closure captured at the last render (App.tsx:197, dependencies at
  App.tsx:225). The model does not capture a typed message sent between a
  status change and the next render.
- Session.Orchestrator.CompleteAudioDecode: the decode of an audio chunk
  always resumes `onmessage` in the model. In the app, `decodeAudioData`
  rejecting, or `audioContextRef.current` being null (App.tsx:358-360),
  abandons the rest of `onmessage`: no chunk is scheduled, and an
  `interrupted` flag in the same message does not call `stopAudioPlayback()`
  (App.tsx:374-376). The model has no such outcome.
- Session.Orchestrator.OnClose: `onclose` reads the `status` its closure
  captured when `startSession` ran. That is a parameter here, not the
  current status.
- The errors `console.error` / `console.warn` log are not modelled, and
  neither is a `source.stop()` that throws, which the loop catches.
- `onerror` only shows the error and sets ready; it does not tear the
  session down, and neither does the model.
- Typed input calls the enrichment service directly; it pushes no queue
  job, and the model's typed path does not either.
- The `catch` branches after an enrichment call (App.tsx:168-172 on the
  queue, App.tsx:218-223 on the typed path) are never reached:
  `enrichTranscription` catches every failure itself and returns the
  fallback result (src/services/geminiService.ts:90-98). A failed call
  therefore shows the fallback through the success merge
  (`SessionSteps.FailedCallShowsFallback`). `Conversation.MergeFailure`
  models the `catch` branch's merge, and no step uses it.
- Session.Orchestrator.CompleteTypedEnrichment and SessionSteps.TypedCompleted:
  they give the typed entry `phonetic == Some(result.phonetics)`, the
  corrected merge of the finding below. App.tsx:215-217 as written leaves
  the entry's `phonetic` untouched, so a typed entry never shows phonetics;
  that merge is `Conversation.MergeTypedAsWritten`, and the object does not
  run it.
- Floating point is not modelled: audio times and rates are real numbers.

## Findings

| source | as written | input that shows it | evidently intended | confidence | as-written member | corrected member |
|---|---|---|---|---|---|---|
| App.tsx:215-217 | the typed path merges `{ ...msg, ...enriched, isFinal: true }`, but the result's key is `phonetics` and the message's field is `phonetic`, so typed messages never show phonetic annotations | the typed text "thorough" enriched with one phonetic `thorough /ˈθʌrə/`: the entry's `phonetic` stays absent (`Conversation.TypedMergeDropsPhonetics`) | set `phonetic: enriched.phonetics`, as the queue's merge at App.tsx:165 does | not executed | Conversation.MergeTypedAsWritten | SessionSteps.TypedCompleted |
