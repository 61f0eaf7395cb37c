/** The transcript turn accumulator of App.tsx: streamed input and output
    transcription deltas are folded into at most one open entry per speaker,
    and a turn boundary hands the open turns to the enrichment queue. */
module Transcript {
  import opened Types
  import opened Conversation

  /** One speaker's accumulator: the id of its open entry
      (`currentUserMessageIdRef` / `currentAiMessageIdRef`) and the text
      gathered so far (`currentInputTranscription` /
      `currentOutputTranscription`). */
  datatype Turn = Turn(id: Option<MessageId>, text: string)

  const Closed: Turn := Turn(None, "")

  /** The transcript, both accumulators, and the clock the ids are taken from. */
  datatype State = State(conversation: seq<ChatMessage>, user: Turn, ai: Turn, clock: nat)

  function TurnOf(s: State, sp: Speaker): Turn {
    if sp == User then s.user else s.ai
  }

  function WithTurn(s: State, sp: Speaker, t: Turn): (r: State)
    ensures TurnOf(r, sp) == t
    ensures sp != User ==> r.user == s.user
    ensures sp != Ai ==> r.ai == s.ai
    ensures r.conversation == s.conversation && r.clock == s.clock
  {
    if sp == User then s.(user := t) else s.(ai := t)
  }

  /** A freshly opened entry: the first fragment, the pending translation,
      not final. */
  function NewEntry(id: MessageId, sp: Speaker, text: string): ChatMessage {
    ChatMessage(id, sp, text, Pending, None, false)
  }

  /** One transcription delta of speaker `sp`.  An empty fragment is ignored;
      with a turn open the fragment is appended to the buffer and the open
      entry's english is replaced by the whole buffer; otherwise a new entry
      is appended and a turn is opened on it. */
  function Delta(s: State, sp: Speaker, text: string): State {
    if text == "" then s
    else
      var t := TurnOf(s, sp);
      if t.id.Some? then
        var buffered := t.text + text;
        WithTurn(s.(conversation := UpdateEnglish(s.conversation, t.id.value, buffered)), sp, Turn(t.id, buffered))
      else
        var id := MessageId(sp, s.clock);
        WithTurn(s.(conversation := s.conversation + [NewEntry(id, sp, text)], clock := s.clock + 1), sp, Turn(Some(id), text))
  }

  /** A single delta changes no entry other than the speaker's open one, and
      appends at most one entry, at the end. */
  lemma DeltaKeepsOtherEntries(s: State, sp: Speaker, text: string)
    ensures var r := Delta(s, sp, text);
      |s.conversation| <= |r.conversation| <= |s.conversation| + 1 &&
      (|r.conversation| == |s.conversation| + 1 <==> text != "" && TurnOf(s, sp).id.None?) &&
      forall i :: 0 <= i < |s.conversation| ==>
        r.conversation[i] == s.conversation[i] ||
        (Some(s.conversation[i].id) == TurnOf(s, sp).id &&
         r.conversation[i] == s.conversation[i].(english := TurnOf(s, sp).text + text))
  {
  }

  /** The turn boundary: the open user turn first, then the open ai turn,
      each with its gathered text and its entry's id. */
  function TurnJobs(s: State): seq<Job> {
    (if s.user.id.Some? then [Job(s.user.text, User, s.user.id.value)] else []) +
    (if s.ai.id.Some? then [Job(s.ai.text, Ai, s.ai.id.value)] else [])
  }

  function CloseTurns(s: State): (r: State)
    ensures r.user == Closed && r.ai == Closed
    ensures r.conversation == s.conversation && r.clock == s.clock
  {
    s.(user := Closed, ai := Closed)
  }

  // ---------------------------------------------------------------------
  // Runs of deltas
  // ---------------------------------------------------------------------

  datatype Fragment = Fragment(speaker: Speaker, text: string)

  /** The deltas of a run applied in arrival order. */
  function Run(s: State, frags: seq<Fragment>): State
    decreases |frags|
  {
    if frags == [] then s
    else
      var last := frags[|frags| - 1];
      Delta(Run(s, frags[..|frags| - 1]), last.speaker, last.text)
  }

  /** Everything `sp` said in a run: its fragments concatenated in order. */
  function Said(frags: seq<Fragment>, sp: Speaker): string
    decreases |frags|
  {
    if frags == [] then ""
    else
      var last := frags[|frags| - 1];
      Said(frags[..|frags| - 1], sp) + (if last.speaker == sp then last.text else "")
  }

  predicate StampsBelow(conv: seq<ChatMessage>, clock: nat) {
    forall i :: 0 <= i < |conv| ==> conv[i].id.stamp < clock
  }

  function SaidBy(sp: Speaker, userSaid: string, aiSaid: string): string {
    if sp == User then userSaid else aiSaid
  }

  function Added(s0: State, r: State): seq<ChatMessage>
    requires |s0.conversation| <= |r.conversation|
  {
    r.conversation[|s0.conversation|..]
  }

  /** An entry a run has appended: opened after the run began, carried by its
      speaker's open turn, holding everything that speaker said. */
  ghost predicate EntryOk(s0: State, r: State, e: ChatMessage, said: string) {
    s0.clock <= e.id.stamp < r.clock && e.id.prefix == e.speaker &&
    TurnOf(r, e.speaker).id == Some(e.id) &&
    e == NewEntry(e.id, e.speaker, said)
  }

  /** A speaker's accumulator during a run: it holds everything the speaker
      said, and it is open exactly when that is non-empty, on an appended
      entry. */
  ghost predicate TurnOk(r: State, added: seq<ChatMessage>, sp: Speaker, said: string) {
    TurnOf(r, sp).text == said &&
    (TurnOf(r, sp).id.None? <==> said == "") &&
    (TurnOf(r, sp).id.Some? ==> exists j :: 0 <= j < |added| && added[j].speaker == sp)
  }

  /** What a run from closed turns has done so far, the user having said
      `u` and the ai `a`: the old entries are untouched, and the entries
      after them are one per speaker that has said something. */
  ghost predicate RunInv(s0: State, r: State, u: string, a: string) {
    |s0.conversation| <= |r.conversation| && r.conversation[..|s0.conversation|] == s0.conversation &&
    s0.clock <= r.clock &&
    var added := Added(s0, r);
    (forall j :: 0 <= j < |added| ==> EntryOk(s0, r, added[j], SaidBy(added[j].speaker, u, a))) &&
    (forall j, k :: 0 <= j < k < |added| ==> added[j].speaker != added[k].speaker) &&
    TurnOk(r, added, User, u) && TurnOk(r, added, Ai, a)
  }

  lemma RunInvStart(s0: State)
    requires s0.user == Closed && s0.ai == Closed
    ensures RunInv(s0, s0, "", "")
  {
    assert s0.conversation[..|s0.conversation|] == s0.conversation;
  }

  function Other(sp: Speaker): Speaker {
    if sp == User then Ai else User
  }

  /** With the id at one position only, the update keyed on it is the update
      of that position. */
  lemma UpdateEnglishAt(conv: seq<ChatMessage>, k: nat, text: string)
    requires k < |conv|
    requires forall i :: 0 <= i < |conv| && i != k ==> conv[i].id != conv[k].id
    ensures UpdateEnglish(conv, conv[k].id, text) == conv[k := conv[k].(english := text)]
  {
  }

  lemma EntryOkKept(s0: State, r: State, r': State, e: ChatMessage, said: string)
    requires EntryOk(s0, r, e, said)
    requires r'.clock == r.clock && TurnOf(r', e.speaker).id == TurnOf(r, e.speaker).id
    ensures EntryOk(s0, r', e, said)
  {
  }

  lemma EntryOkExtended(s0: State, r: State, r': State, e: ChatMessage, said: string, text: string)
    requires EntryOk(s0, r, e, said)
    requires r'.clock == r.clock && TurnOf(r', e.speaker).id == TurnOf(r, e.speaker).id
    ensures EntryOk(s0, r', e.(english := said + text), said + text)
  {
  }

  /** The open turn of a speaker during a run is carried by one appended
      entry, the only entry with its id. */
  lemma OpenEntry(s0: State, r: State, u: string, a: string, sp: Speaker) returns (j: nat)
    requires StampsBelow(s0.conversation, s0.clock)
    requires RunInv(s0, r, u, a) && TurnOf(r, sp).id.Some?
    ensures j < |Added(s0, r)| && Added(s0, r)[j].speaker == sp
    ensures EntryOk(s0, r, Added(s0, r)[j], SaidBy(sp, u, a))
    ensures |s0.conversation| + j < |r.conversation| && r.conversation[|s0.conversation| + j] == Added(s0, r)[j]
    ensures r.conversation[|s0.conversation| + j].id == TurnOf(r, sp).id.value
    ensures forall i :: 0 <= i < |r.conversation| && i != |s0.conversation| + j ==>
      r.conversation[i].id != TurnOf(r, sp).id.value
  {
    var n := |s0.conversation|;
    var id := TurnOf(r, sp).id.value;
    var added := Added(s0, r);
    assert TurnOk(r, added, sp, SaidBy(sp, u, a)) by { assert sp == User || sp == Ai; }
    j :| 0 <= j < |added| && added[j].speaker == sp;
    assert EntryOk(s0, r, added[j], SaidBy(sp, u, a));
    forall i | 0 <= i < |r.conversation| && i != n + j ensures r.conversation[i].id != id {
      if i < n {
        assert r.conversation[i] == s0.conversation[i];
      } else {
        assert added[i - n] == r.conversation[i];
        assert EntryOk(s0, r, added[i - n], SaidBy(added[i - n].speaker, u, a));
      }
    }
  }

  /** Updating the entry at `|c0| + j`, the only one with its id, past the
      first `|c0|` entries. */
  lemma UpdateOpenEntry(c0: seq<ChatMessage>, c: seq<ChatMessage>, c': seq<ChatMessage>, j: nat, id: MessageId, text: string)
    requires |c0| <= |c0| + j < |c| && c[..|c0|] == c0 && c[|c0| + j].id == id
    requires forall i :: 0 <= i < |c| && i != |c0| + j ==> c[i].id != id
    requires c' == UpdateEnglish(c, id, text)
    ensures |c0| <= |c'| && c'[..|c0|] == c0
    ensures c'[|c0|..] == c[|c0|..][j := c[|c0|..][j].(english := text)]
  {
    UpdateEnglishAt(c, |c0| + j, text);
  }

  /** The entries after an update of the open entry at `j`. */
  lemma EntriesAfterOpen(s0: State, r: State, r': State, added: seq<ChatMessage>, added': seq<ChatMessage>,
                         u: string, a: string, u': string, a': string, sp: Speaker, j: nat, ext: string)
    requires j < |added| && added[j].speaker == sp
    requires forall k :: 0 <= k < |added| ==> EntryOk(s0, r, added[k], SaidBy(added[k].speaker, u, a))
    requires forall k, l :: 0 <= k < l < |added| ==> added[k].speaker != added[l].speaker
    requires SaidBy(sp, u', a') == SaidBy(sp, u, a) + ext
    requires SaidBy(Other(sp), u', a') == SaidBy(Other(sp), u, a)
    requires added' == added[j := added[j].(english := SaidBy(sp, u', a'))]
    requires r'.clock == r.clock
    requires TurnOf(r', User).id == TurnOf(r, User).id && TurnOf(r', Ai).id == TurnOf(r, Ai).id
    ensures forall k :: 0 <= k < |added'| ==> EntryOk(s0, r', added'[k], SaidBy(added'[k].speaker, u', a'))
    ensures forall k, l :: 0 <= k < l < |added'| ==> added'[k].speaker != added'[l].speaker
  {
    forall k | 0 <= k < |added'| ensures EntryOk(s0, r', added'[k], SaidBy(added'[k].speaker, u', a')) {
      assert EntryOk(s0, r, added[k], SaidBy(added[k].speaker, u, a));
      if k == j {
        EntryOkExtended(s0, r, r', added[k], SaidBy(sp, u, a), ext);
      } else {
        assert added[k].speaker == Other(sp) by { assert sp == User || sp == Ai; }
        EntryOkKept(s0, r, r', added[k], SaidBy(Other(sp), u, a));
      }
    }
  }

  /** The step of a run that extends an open turn, with the new state given
      by what `Delta` does to it. */
  lemma RunInvStepOpen(s0: State, r: State, u: string, a: string, sp: Speaker, text: string, r': State)
    requires StampsBelow(s0.conversation, s0.clock)
    requires RunInv(s0, r, u, a) && TurnOf(r, sp).id.Some?
    requires r'.conversation == UpdateEnglish(r.conversation, TurnOf(r, sp).id.value, TurnOf(r, sp).text + text)
    requires r'.clock == r.clock
    requires TurnOf(r', sp) == Turn(TurnOf(r, sp).id, TurnOf(r, sp).text + text)
    requires TurnOf(r', Other(sp)) == TurnOf(r, Other(sp))
    ensures RunInv(s0, r', u + (if sp == User then text else ""), a + (if sp == Ai then text else ""))
  {
    var j := OpenEntry(s0, r, u, a, sp);
    var u', a' := u + (if sp == User then text else ""), a + (if sp == Ai then text else "");
    SaidByStep(sp, u, a, text);
    var added := Added(s0, r);
    TurnOkBySpeaker(r, added, u, a, sp);
    OpenStepEntries(s0, r, u, a, sp, text, r', j, u', a');
    var added' := Added(s0, r');
    OtherTurnKept(r, r', sp);
    EntriesAfterOpen(s0, r, r', added, added', u, a, u', a', sp, j, text);
    OpenStepTurns(r, r', added, added', u, a, u', a', sp, j, text);
  }

  /** The entries part of an open step: the old entries stay, and the open
      entry's english becomes everything its speaker said. */
  lemma OpenStepEntries(s0: State, r: State, u: string, a: string, sp: Speaker, text: string, r': State, j: nat,
                        u': string, a': string)
    requires |s0.conversation| <= |r.conversation| && r.conversation[..|s0.conversation|] == s0.conversation
    requires TurnOf(r, sp).id.Some? && TurnOf(r, sp).text == SaidBy(sp, u, a)
    requires |s0.conversation| + j < |r.conversation|
    requires r.conversation[|s0.conversation| + j].id == TurnOf(r, sp).id.value
    requires forall i :: 0 <= i < |r.conversation| && i != |s0.conversation| + j ==>
      r.conversation[i].id != TurnOf(r, sp).id.value
    requires r'.conversation == UpdateEnglish(r.conversation, TurnOf(r, sp).id.value, TurnOf(r, sp).text + text)
    requires SaidBy(sp, u', a') == SaidBy(sp, u, a) + text
    ensures |s0.conversation| <= |r'.conversation| && r'.conversation[..|s0.conversation|] == s0.conversation
    ensures Added(s0, r') == Added(s0, r)[j := Added(s0, r)[j].(english := SaidBy(sp, u', a'))]
  {
    UpdateOpenEntry(s0.conversation, r.conversation, r'.conversation, j, TurnOf(r, sp).id.value, SaidBy(sp, u', a'));
  }

  /** The turns part of an open step. */
  lemma OpenStepTurns(r: State, r': State, added: seq<ChatMessage>, added': seq<ChatMessage>,
                      u: string, a: string, u': string, a': string, sp: Speaker, j: nat, text: string)
    requires TurnOk(r, added, User, u) && TurnOk(r, added, Ai, a)
    requires j < |added| && added' == added[j := added[j].(english := SaidBy(sp, u', a'))]
    requires TurnOf(r', sp).id == TurnOf(r, sp).id && TurnOf(r', sp).text == SaidBy(sp, u', a')
    requires TurnOf(r', Other(sp)) == TurnOf(r, Other(sp))
    requires SaidBy(Other(sp), u', a') == SaidBy(Other(sp), u, a)
    requires SaidBy(sp, u', a') == SaidBy(sp, u, a) + text
    requires TurnOf(r, sp).id.Some?
    ensures TurnOk(r', added', User, u') && TurnOk(r', added', Ai, a')
  {
    TurnOkBySpeaker(r, added, u, a, sp);
    TurnsAfterOpen(r, r', added, added', sp, j, SaidBy(sp, u, a), SaidBy(sp, u', a'));
    TurnsAfterOpen(r, r', added, added', Other(sp), j, SaidBy(Other(sp), u, a), SaidBy(Other(sp), u', a'));
    TurnOkBack(r', added', u', a', sp);
  }

  lemma SaidByStep(sp: Speaker, u: string, a: string, text: string)
    ensures SaidBy(sp, u + (if sp == User then text else ""), a + (if sp == Ai then text else "")) == SaidBy(sp, u, a) + text
    ensures SaidBy(Other(sp), u + (if sp == User then text else ""), a + (if sp == Ai then text else "")) == SaidBy(Other(sp), u, a)
  {
    assert u + "" == u && a + "" == a;
  }

  lemma TurnOkBySpeaker(r: State, added: seq<ChatMessage>, u: string, a: string, sp: Speaker)
    requires TurnOk(r, added, User, u) && TurnOk(r, added, Ai, a)
    ensures TurnOk(r, added, sp, SaidBy(sp, u, a)) && TurnOk(r, added, Other(sp), SaidBy(Other(sp), u, a))
  {
  }

  lemma TurnOkBack(r: State, added: seq<ChatMessage>, u: string, a: string, sp: Speaker)
    requires TurnOk(r, added, sp, SaidBy(sp, u, a)) && TurnOk(r, added, Other(sp), SaidBy(Other(sp), u, a))
    ensures TurnOk(r, added, User, u) && TurnOk(r, added, Ai, a)
  {
  }

  lemma OtherTurnKept(r: State, r': State, sp: Speaker)
    requires TurnOf(r', sp).id == TurnOf(r, sp).id && TurnOf(r', Other(sp)) == TurnOf(r, Other(sp))
    ensures TurnOf(r', User).id == TurnOf(r, User).id && TurnOf(r', Ai).id == TurnOf(r, Ai).id
  {
  }

  lemma TurnsAfterOpen(r: State, r': State, added: seq<ChatMessage>, added': seq<ChatMessage>, sp: Speaker, j: nat,
                       said: string, said': string)
    requires TurnOk(r, added, sp, said)
    requires j < |added| && |added'| == |added|
    requires forall k :: 0 <= k < |added| ==> added'[k].speaker == added[k].speaker
    requires TurnOf(r', sp).id == TurnOf(r, sp).id && TurnOf(r', sp).text == said'
    requires said == "" <==> said' == ""
    ensures TurnOk(r', added', sp, said')
  {
    if TurnOf(r', sp).id.Some? {
      var i :| 0 <= i < |added| && added[i].speaker == sp;
      assert added'[i].speaker == sp;
    }
  }

  /** The step of a run that opens a turn. */
  lemma RunInvStepNew(s0: State, r: State, u: string, a: string, sp: Speaker, text: string, r': State)
    requires RunInv(s0, r, u, a) && text != "" && TurnOf(r, sp).id.None?
    requires r'.conversation == r.conversation + [NewEntry(MessageId(sp, r.clock), sp, text)]
    requires r'.clock == r.clock + 1
    requires TurnOf(r', sp) == Turn(Some(MessageId(sp, r.clock)), text)
    requires TurnOf(r', Other(sp)) == TurnOf(r, Other(sp))
    ensures RunInv(s0, r', u + (if sp == User then text else ""), a + (if sp == Ai then text else ""))
  {
    var u', a' := u + (if sp == User then text else ""), a + (if sp == Ai then text else "");
    SaidByStep(sp, u, a, text);
    var added := Added(s0, r);
    TurnOkBySpeaker(r, added, u, a, sp);
    var e := NewEntry(MessageId(sp, r.clock), sp, text);
    NewStepEntries(s0, r, r', e);
    EntriesAfterNew(s0, r, r', added, u, a, u', a', sp, e);
    NewStepTurns(r, r', added, u, a, u', a', sp, e, text);
  }

  /** The entries part of a step that opens a turn: one entry is appended. */
  lemma NewStepEntries(s0: State, r: State, r': State, e: ChatMessage)
    requires |s0.conversation| <= |r.conversation| && r.conversation[..|s0.conversation|] == s0.conversation
    requires r'.conversation == r.conversation + [e]
    ensures |s0.conversation| <= |r'.conversation| && r'.conversation[..|s0.conversation|] == s0.conversation
    ensures Added(s0, r') == Added(s0, r) + [e]
  {
  }

  /** The appended entries after a step that opens a turn of `sp`, whose
      turn was closed, so that no earlier appended entry is its. */
  lemma EntriesAfterNew(s0: State, r: State, r': State, added: seq<ChatMessage>,
                        u: string, a: string, u': string, a': string, sp: Speaker, e: ChatMessage)
    requires forall k :: 0 <= k < |added| ==> EntryOk(s0, r, added[k], SaidBy(added[k].speaker, u, a))
    requires forall k, l :: 0 <= k < l < |added| ==> added[k].speaker != added[l].speaker
    requires TurnOf(r, sp).id.None? && s0.clock <= r.clock
    requires r'.clock == r.clock + 1
    requires TurnOf(r', Other(sp)) == TurnOf(r, Other(sp))
    requires SaidBy(Other(sp), u', a') == SaidBy(Other(sp), u, a)
    requires e == NewEntry(MessageId(sp, r.clock), sp, SaidBy(sp, u', a')) && TurnOf(r', sp).id == Some(e.id)
    ensures forall k :: 0 <= k < |added + [e]| ==>
      EntryOk(s0, r', (added + [e])[k], SaidBy((added + [e])[k].speaker, u', a'))
    ensures forall k, l :: 0 <= k < l < |added + [e]| ==> (added + [e])[k].speaker != (added + [e])[l].speaker
  {
    var added' := added + [e];
    forall k | 0 <= k < |added|
      ensures added[k].speaker == Other(sp)
      ensures EntryOk(s0, r', added'[k], SaidBy(added'[k].speaker, u', a'))
    {
      assert EntryOk(s0, r, added[k], SaidBy(added[k].speaker, u, a));
      assert added[k].speaker == Other(sp) by { assert sp == User || sp == Ai; }
      assert added'[k] == added[k];
      EntryOkKept(s0, r, r'.(clock := r.clock), added[k], SaidBy(Other(sp), u, a));
    }
    assert added'[|added|] == e;
  }

  /** The turns part of a step that opens a turn. */
  lemma NewStepTurns(r: State, r': State, added: seq<ChatMessage>,
                     u: string, a: string, u': string, a': string, sp: Speaker, e: ChatMessage, text: string)
    requires TurnOk(r, added, sp, SaidBy(sp, u, a)) && TurnOk(r, added, Other(sp), SaidBy(Other(sp), u, a))
    requires TurnOf(r, sp).id.None? && text != ""
    requires SaidBy(sp, u', a') == SaidBy(sp, u, a) + text
    requires SaidBy(Other(sp), u', a') == SaidBy(Other(sp), u, a)
    requires e.speaker == sp && TurnOf(r', sp) == Turn(Some(e.id), text)
    requires TurnOf(r', Other(sp)) == TurnOf(r, Other(sp))
    ensures TurnOk(r', added + [e], User, u') && TurnOk(r', added + [e], Ai, a')
  {
    var added' := added + [e];
    assert SaidBy(sp, u, a) + text == text;
    assert added'[|added|].speaker == sp;
    if TurnOf(r, Other(sp)).id.Some? {
      var i :| 0 <= i < |added| && added[i].speaker == Other(sp);
      assert added'[i].speaker == Other(sp);
    }
    assert TurnOk(r', added', sp, SaidBy(sp, u', a'));
    assert TurnOk(r', added', Other(sp), SaidBy(Other(sp), u', a'));
    TurnOkBack(r', added', u', a', sp);
  }

  lemma SaidStep(frags: seq<Fragment>, f: Fragment)
    ensures Said(frags + [f], User) == Said(frags, User) + (if f.speaker == User then f.text else "")
    ensures Said(frags + [f], Ai) == Said(frags, Ai) + (if f.speaker == Ai then f.text else "")
  {
    assert (frags + [f])[..|frags|] == frags;
  }

  lemma RunInvStep(s0: State, r: State, frags: seq<Fragment>, f: Fragment)
    requires StampsBelow(s0.conversation, s0.clock)
    requires RunInv(s0, r, Said(frags, User), Said(frags, Ai))
    ensures RunInv(s0, Delta(r, f.speaker, f.text), Said(frags + [f], User), Said(frags + [f], Ai))
  {
    SaidStep(frags, f);
    var u, a := Said(frags, User), Said(frags, Ai);
    var r' := Delta(r, f.speaker, f.text);
    if f.text == "" {
      assert u + "" == u && a + "" == a;
    } else if TurnOf(r, f.speaker).id.Some? {
      RunInvStepOpen(s0, r, u, a, f.speaker, f.text, r');
    } else {
      RunInvStepNew(s0, r, u, a, f.speaker, f.text, r');
    }
  }

  /** A run of deltas for both speakers, interleaved in any way, with no turn
      boundary in between and started with both turns closed, appends exactly
      one entry for each speaker that said something non-empty; each such
      entry holds the
      concatenation of that speaker's fragments in arrival order, the pending
      translation and `isFinal = false`, and is the entry of the speaker's
      open turn; no earlier entry changes. */
  lemma {:induction false} RunOpensOneEntryPerSpeaker(s0: State, frags: seq<Fragment>)
    requires s0.user == Closed && s0.ai == Closed
    requires StampsBelow(s0.conversation, s0.clock)
    ensures RunInv(s0, Run(s0, frags), Said(frags, User), Said(frags, Ai))
    decreases |frags|
  {
    if frags == [] {
      RunInvStart(s0);
    } else {
      var prefix, last := frags[..|frags| - 1], frags[|frags| - 1];
      assert prefix + [last] == frags;
      RunOpensOneEntryPerSpeaker(s0, prefix);
      RunInvStep(s0, Run(s0, prefix), prefix, last);
    }
  }

  /** The same for a single speaker, spelled out. */
  lemma OneSpeakerRun(s0: State, frags: seq<Fragment>, sp: Speaker)
    requires s0.user == Closed && s0.ai == Closed
    requires StampsBelow(s0.conversation, s0.clock)
    requires forall i :: 0 <= i < |frags| ==> frags[i].speaker == sp
    ensures var r := Run(s0, frags);
      var text := Said(frags, sp);
      (text == "" ==> r.conversation == s0.conversation && TurnOf(r, sp) == Closed) &&
      (text != "" ==> r.conversation == s0.conversation + [NewEntry(MessageId(sp, s0.clock), sp, text)] &&
                      TurnOf(r, sp) == Turn(Some(MessageId(sp, s0.clock)), text))
  {
    RunOpensOneEntryPerSpeaker(s0, frags);
    OthersSaidNothing(frags, sp, Other(sp));
    var r := Run(s0, frags);
    var added := Added(s0, r);
    assert r.conversation == s0.conversation + added;
    RunClock(s0, frags, sp);
  }

  lemma {:induction false} OthersSaidNothing(frags: seq<Fragment>, sp: Speaker, other: Speaker)
    requires other != sp
    requires forall i :: 0 <= i < |frags| ==> frags[i].speaker == sp
    ensures Said(frags, other) == ""
    decreases |frags|
  {
    if frags != [] {
      OthersSaidNothing(frags[..|frags| - 1], sp, other);
    }
  }

  /** In a one-speaker run the clock moves only for the one entry it opens. */
  lemma {:induction false} RunClock(s0: State, frags: seq<Fragment>, sp: Speaker)
    requires s0.user == Closed && s0.ai == Closed
    requires forall i :: 0 <= i < |frags| ==> frags[i].speaker == sp
    ensures var r := Run(s0, frags);
      r.clock == if Said(frags, sp) == "" then s0.clock else s0.clock + 1
    ensures TurnOf(Run(s0, frags), sp).id.Some? ==> TurnOf(Run(s0, frags), sp).id == Some(MessageId(sp, s0.clock))
    ensures TurnOf(Run(s0, frags), sp).id.None? <==> Said(frags, sp) == ""
    decreases |frags|
  {
    if frags != [] {
      var prefix := frags[..|frags| - 1];
      RunClock(s0, prefix, sp);
    }
  }

  /** A turn at the end of such a run is open exactly when its speaker said
      something; an open one holds everything the speaker said and its id
      names an entry the run appended. */
  lemma OpenTurnIsNew(s0: State, r: State, u: string, a: string, sp: Speaker)
    requires StampsBelow(s0.conversation, s0.clock)
    requires RunInv(s0, r, u, a)
    ensures TurnOf(r, sp).id.None? <==> SaidBy(sp, u, a) == ""
    ensures TurnOf(r, sp).id.Some? ==>
      TurnOf(r, sp).text == SaidBy(sp, u, a) &&
      TurnOf(r, sp).id.value in Ids(r.conversation) && TurnOf(r, sp).id.value !in Ids(s0.conversation)
  {
    TurnOkBySpeaker(r, Added(s0, r), u, a, sp);
    if TurnOf(r, sp).id.Some? {
      var j := OpenEntry(s0, r, u, a, sp);
      var id := TurnOf(r, sp).id.value;
      assert r.conversation[|s0.conversation| + j].id == id;
      assert id.stamp >= s0.clock;
    }
  }

  /** The jobs of a turn boundary, given what each open turn holds. */
  lemma JobsFromTurns(c0: seq<ChatMessage>, r: State, u: string, a: string)
    requires r.user.id.None? <==> u == ""
    requires r.user.id.Some? ==> r.user.text == u && r.user.id.value in Ids(r.conversation) && r.user.id.value !in Ids(c0)
    requires r.ai.id.None? <==> a == ""
    requires r.ai.id.Some? ==> r.ai.text == a && r.ai.id.value in Ids(r.conversation) && r.ai.id.value !in Ids(c0)
    ensures var jobs := TurnJobs(r);
      |jobs| == (if u != "" then 1 else 0) + (if a != "" then 1 else 0) &&
      (forall k :: 0 <= k < |jobs| ==>
         jobs[k].text == SaidBy(jobs[k].speaker, u, a) && jobs[k].text != "" &&
         jobs[k].messageId in Ids(r.conversation) && jobs[k].messageId !in Ids(c0)) &&
      (|jobs| == 2 ==> jobs[0].speaker == User && jobs[1].speaker == Ai)
  {
  }

  /** A turn boundary after such a run hands over, user first, one job per
      speaker that said something, carrying everything it said and the id of
      its entry; afterwards both turns are closed. */
  lemma RunThenTurnComplete(s0: State, frags: seq<Fragment>)
    requires s0.user == Closed && s0.ai == Closed
    requires StampsBelow(s0.conversation, s0.clock)
    ensures var r := Run(s0, frags);
      var jobs := TurnJobs(r);
      |jobs| == (if Said(frags, User) != "" then 1 else 0) + (if Said(frags, Ai) != "" then 1 else 0) &&
      (forall k :: 0 <= k < |jobs| ==>
         jobs[k].text == SaidBy(jobs[k].speaker, Said(frags, User), Said(frags, Ai)) && jobs[k].text != "" &&
         jobs[k].messageId in Ids(r.conversation) && jobs[k].messageId !in Ids(s0.conversation)) &&
      (|jobs| == 2 ==> jobs[0].speaker == User && jobs[1].speaker == Ai) &&
      CloseTurns(r).user == Closed && CloseTurns(r).ai == Closed
  {
    RunOpensOneEntryPerSpeaker(s0, frags);
    var r := Run(s0, frags);
    var u, a := Said(frags, User), Said(frags, Ai);
    OpenTurnIsNew(s0, r, u, a, User);
    OpenTurnIsNew(s0, r, u, a, Ai);
    JobsFromTurns(s0.conversation, r, u, a);
  }
}
