/** The transcript as an ordered list of chat messages, and the operations
    App.tsx applies to it: updates keyed on the message id (`prev.map(m =>
    m.id === id ? {...} : m)`), the `findIndex` lookup, the context window
    handed to the enrichment service, and the last-four history of the typed
    path. */
module Conversation {
  import opened Types

  function Min(a: int, b: int): int { if a <= b then a else b }
  function Max(a: int, b: int): int { if a >= b then a else b }

  function Ids(conv: seq<ChatMessage>): set<MessageId> {
    set i | 0 <= i < |conv| :: conv[i].id
  }

  predicate UniqueIds(conv: seq<ChatMessage>) {
    forall i, j :: 0 <= i < j < |conv| ==> conv[i].id != conv[j].id
  }

  // ---------------------------------------------------------------------
  // Updates keyed on the id
  // ---------------------------------------------------------------------

  /** `conv.map(m => m.id === id ? f(m) : m)`: every entry keeps its place,
      the entries carrying `id` are replaced by `f` of themselves and every
      other entry is left as it was. */
  function MapById(conv: seq<ChatMessage>, id: MessageId, f: ChatMessage -> ChatMessage): (r: seq<ChatMessage>)
    ensures |r| == |conv|
    ensures forall i :: 0 <= i < |conv| && conv[i].id != id ==> r[i] == conv[i]
    ensures forall i :: 0 <= i < |conv| && conv[i].id == id ==> r[i] == f(conv[i])
  {
    if conv == [] then []
    else [if conv[0].id == id then f(conv[0]) else conv[0]] + MapById(conv[1..], id, f)
  }

  /** The streaming update of an open turn: `{ ...m, english: text }`. */
  function WithEnglish(m: ChatMessage, text: string): ChatMessage {
    m.(english := text)
  }

  /** The success merge of the enrichment queue: english, chinese and
      phonetics from the result, and the entry becomes final. */
  function Finalized(m: ChatMessage, data: EnrichmentData): ChatMessage {
    m.(english := data.english, chinese := data.chinese, phonetic := Some(data.phonetics), isFinal := true)
  }

  /** The `catch` branch's merge: the sentinel translation, and the entry
      becomes final.  The branch is not reached, since the service turns
      every failure into its fallback result. */
  function FailedFinal(m: ChatMessage): ChatMessage {
    m.(chinese := TranslationFailed, isFinal := true)
  }

  /** The success merge of the typed path AS WRITTEN: `{ ...msg, ...enriched,
      isFinal: true }` copies `english` and `chinese`, but the result's
      `phonetics` key is not the message's `phonetic` field, so the
      message's phonetic annotation is not set. */
  function TypedFinalizedAsWritten(m: ChatMessage, data: EnrichmentData): ChatMessage {
    m.(english := data.english, chinese := data.chinese, isFinal := true)
  }

  function UpdateEnglish(conv: seq<ChatMessage>, id: MessageId, text: string): (r: seq<ChatMessage>)
    ensures |r| == |conv| && Ids(r) == Ids(conv)
    ensures forall i :: 0 <= i < |conv| ==> r[i].id == conv[i].id && r[i].speaker == conv[i].speaker
    ensures forall i :: 0 <= i < |conv| ==> r[i] == if conv[i].id == id then conv[i].(english := text) else conv[i]
  {
    MapByIdIds(conv, id, m => WithEnglish(m, text));
    MapById(conv, id, m => WithEnglish(m, text))
  }

  function MergeEnrichment(conv: seq<ChatMessage>, id: MessageId, data: EnrichmentData): (r: seq<ChatMessage>)
    ensures |r| == |conv| && Ids(r) == Ids(conv)
    ensures forall i :: 0 <= i < |conv| ==> r[i].id == conv[i].id
    ensures forall i :: 0 <= i < |conv| && conv[i].id != id ==> r[i] == conv[i]
    ensures forall i :: 0 <= i < |conv| && conv[i].id == id ==>
      r[i].isFinal && r[i].english == data.english && r[i].chinese == data.chinese &&
      r[i].phonetic == Some(data.phonetics) && r[i].speaker == conv[i].speaker
  {
    MapByIdIds(conv, id, m => Finalized(m, data));
    MapById(conv, id, m => Finalized(m, data))
  }

  function MergeFailure(conv: seq<ChatMessage>, id: MessageId): (r: seq<ChatMessage>)
    ensures |r| == |conv| && Ids(r) == Ids(conv)
    ensures forall i :: 0 <= i < |conv| ==> r[i].id == conv[i].id
    ensures forall i :: 0 <= i < |conv| && conv[i].id != id ==> r[i] == conv[i]
    ensures forall i :: 0 <= i < |conv| && conv[i].id == id ==>
      r[i] == conv[i].(chinese := TranslationFailed, isFinal := true)
  {
    MapByIdIds(conv, id, FailedFinal);
    MapById(conv, id, FailedFinal)
  }

  function MergeTypedAsWritten(conv: seq<ChatMessage>, id: MessageId, data: EnrichmentData): (r: seq<ChatMessage>)
    ensures |r| == |conv| && Ids(r) == Ids(conv)
    ensures forall i :: 0 <= i < |conv| && conv[i].id != id ==> r[i] == conv[i]
    ensures forall i :: 0 <= i < |conv| && conv[i].id == id ==>
      r[i] == conv[i].(english := data.english, chinese := data.chinese, isFinal := true)
  {
    MapByIdIds(conv, id, m => TypedFinalizedAsWritten(m, data));
    MapById(conv, id, m => TypedFinalizedAsWritten(m, data))
  }

  /** An update keyed on the id that keeps ids keeps the set of ids. */
  lemma MapByIdIds(conv: seq<ChatMessage>, id: MessageId, f: ChatMessage -> ChatMessage)
    requires forall m :: f(m).id == m.id
    ensures Ids(MapById(conv, id, f)) == Ids(conv)
  {
    var r := MapById(conv, id, f);
    forall x | x in Ids(conv) ensures x in Ids(r) {
      var i :| 0 <= i < |conv| && conv[i].id == x;
      assert r[i].id == x;
    }
    forall x | x in Ids(r) ensures x in Ids(conv) {
      var i :| 0 <= i < |r| && r[i].id == x;
      assert conv[i].id == x;
    }
  }

  /** An update keyed on an id that is not (or no longer) in the transcript
      leaves the transcript as it is: this is what makes a late enrichment
      result harmless after the transcript was cleared. */
  lemma {:induction false} MapByIdAbsent(conv: seq<ChatMessage>, id: MessageId, f: ChatMessage -> ChatMessage)
    requires id !in Ids(conv)
    ensures MapById(conv, id, f) == conv
  {
    if conv != [] {
      assert conv[0].id in Ids(conv);
      assert Ids(conv[1..]) <= Ids(conv) by {
        forall x | x in Ids(conv[1..]) ensures x in Ids(conv) {
          var i :| 0 <= i < |conv[1..]| && conv[1..][i].id == x;
          assert conv[i + 1].id == x;
        }
      }
      MapByIdAbsent(conv[1..], id, f);
    }
  }

  /** Appending after an update keyed on the id is the same as updating after
      appending, as long as the appended entry carries another id. */
  lemma MapByIdAppend(conv: seq<ChatMessage>, x: ChatMessage, id: MessageId, f: ChatMessage -> ChatMessage)
    requires x.id != id
    ensures MapById(conv + [x], id, f) == MapById(conv, id, f) + [x]
  {
    var l, r := MapById(conv + [x], id, f), MapById(conv, id, f) + [x];
    assert |l| == |r|;
    forall i | 0 <= i < |l| ensures l[i] == r[i] {
      if i < |conv| {
        assert (conv + [x])[i] == conv[i];
      }
    }
  }

  /** A late merge (of any of the three kinds) for an id that is gone does not
      bring anything back. */
  lemma MergesOnAbsentIdAreNoOps(conv: seq<ChatMessage>, id: MessageId, data: EnrichmentData)
    requires id !in Ids(conv)
    ensures MergeEnrichment(conv, id, data) == conv
    ensures MergeFailure(conv, id) == conv
    ensures MergeTypedAsWritten(conv, id, data) == conv
  {
    MapByIdAbsent(conv, id, m => Finalized(m, data));
    MapByIdAbsent(conv, id, FailedFinal);
    MapByIdAbsent(conv, id, m => TypedFinalizedAsWritten(m, data));
  }

  /** With unique ids, a merge for the entry at position `k` changes that
      entry and only that entry, however many entries were appended after it
      while the enrichment call was running. */
  lemma MergeChangesOnlyTarget(conv: seq<ChatMessage>, k: nat, data: EnrichmentData)
    requires UniqueIds(conv) && k < |conv|
    ensures var r := MergeEnrichment(conv, conv[k].id, data);
      r[k] == Finalized(conv[k], data) &&
      r[..k] == conv[..k] && r[k + 1..] == conv[k + 1..]
  {
    var r := MergeEnrichment(conv, conv[k].id, data);
    assert r == MapById(conv, conv[k].id, m => Finalized(m, data));
    assert r[..k] == conv[..k] by {
      forall i | 0 <= i < k ensures r[i] == conv[i] { assert conv[i].id != conv[k].id; }
    }
    assert r[k + 1..] == conv[k + 1..] by {
      forall i | k < i < |conv| ensures r[i] == conv[i] { assert conv[i].id != conv[k].id; }
    }
  }

  /** The typed path as written never fills in the phonetic annotation:
      whatever the enrichment result, every entry's `phonetic` field is what
      it was before the merge. */
  lemma TypedMergeKeepsPhonetic(conv: seq<ChatMessage>, id: MessageId, data: EnrichmentData)
    ensures var r := MergeTypedAsWritten(conv, id, data);
      |r| == |conv| && forall i :: 0 <= i < |conv| ==> r[i].phonetic == conv[i].phonetic
  {
    var r := MergeTypedAsWritten(conv, id, data);
    assert r == MapById(conv, id, m => TypedFinalizedAsWritten(m, data));
  }

  /** A concrete case: a typed message whose enrichment carries one phonetic
      annotation.  The queue's merge shows it, the typed merge as written
      drops it. */
  lemma TypedMergeDropsPhonetics()
    ensures var m := ChatMessage(MessageId(User, 0), User, "thorough", Pending, None, false);
      var data := EnrichmentData("thorough", "彻底的", [Phonetic("thorough", "ˈθʌrə")]);
      MergeTypedAsWritten([m], m.id, data)[0].phonetic == None &&
      MergeEnrichment([m], m.id, data)[0].phonetic == Some(data.phonetics)
  {
    var m := ChatMessage(MessageId(User, 0), User, "thorough", Pending, None, false);
    var data := EnrichmentData("thorough", "彻底的", [Phonetic("thorough", "ˈθʌrə")]);
    TypedMergeKeepsPhonetic([m], m.id, data);
  }

  // ---------------------------------------------------------------------
  // Lookup and context windows
  // ---------------------------------------------------------------------

  /** `conv.findIndex(msg => msg.id === id)`: the first position carrying
      `id`, or -1 when there is none. */
  function IndexOf(conv: seq<ChatMessage>, id: MessageId): (i: int)
    ensures -1 <= i < |conv|
    ensures 0 <= i ==> conv[i].id == id && forall j :: 0 <= j < i ==> conv[j].id != id
    ensures i == -1 <==> id !in Ids(conv)
  {
    if conv == [] then -1
    else if conv[0].id == id then 0
    else
      var k := IndexOf(conv[1..], id);
      assert id in Ids(conv[1..]) <==> id in Ids(conv) by {
        if id in Ids(conv) {
          var j :| 0 <= j < |conv| && conv[j].id == id;
          assert conv[1..][j - 1].id == id;
        }
        if id in Ids(conv[1..]) {
          var j :| 0 <= j < |conv[1..]| && conv[1..][j].id == id;
          assert conv[j + 1].id == id;
        }
      }
      if k == -1 then -1 else k + 1
  }

  /** The context window of the enrichment queue: the up to four entries just
      before the first entry carrying `id`; nothing when that entry is the
      first one or is absent. */
  function ContextWindow(conv: seq<ChatMessage>, id: MessageId): (w: seq<ChatMessage>)
  {
    var i := IndexOf(conv, id);
    if i > 0 then conv[Max(0, i - 4)..i] else []
  }

  /** What the context window is, in terms of where the target sits. */
  lemma ContextWindowPrecedesTarget(conv: seq<ChatMessage>, k: nat, id: MessageId)
    requires k < |conv| && conv[k].id == id && id !in Ids(conv[..k])
    ensures var w := ContextWindow(conv, id);
      |w| == Min(4, k) &&
      (forall j :: 0 <= j < |w| ==> w[j] == conv[k - |w| + j]) &&
      id !in Ids(w)
  {
    var i := IndexOf(conv, id);
    assert i == k;
  }

  /** The window is empty exactly when the target is the first entry or is
      not in the transcript. */
  lemma ContextWindowEmpty(conv: seq<ChatMessage>, id: MessageId)
    ensures ContextWindow(conv, id) == [] <==> id !in Ids(conv) || conv[0].id == id
  {
    var i := IndexOf(conv, id);
    if id in Ids(conv) && conv[0].id != id {
      assert i != 0 && i != -1;
      assert |ContextWindow(conv, id)| == i - Max(0, i - 4) > 0;
    }
  }

  /** `conversation.slice(-4)`: the last four entries, or all of them when
      there are fewer. */
  function LastFour(conv: seq<ChatMessage>): (r: seq<ChatMessage>)
    ensures |r| == Min(4, |conv|)
    ensures forall j :: 0 <= j < |r| ==> r[j] == conv[|conv| - |r| + j]
  {
    conv[Max(0, |conv| - 4)..]
  }

  /** `history.map(msg => ({ speaker: msg.speaker, english: msg.english }))` */
  function HistoryForApi(entries: seq<ChatMessage>): (h: seq<HistoryItem>)
    ensures |h| == |entries|
    ensures forall i :: 0 <= i < |entries| ==> h[i] == HistoryItem(entries[i].speaker, entries[i].english)
  {
    seq(|entries|, i requires 0 <= i < |entries| => HistoryItem(entries[i].speaker, entries[i].english))
  }

  /** The history the typed path sends: `slice(-4)` then the mapping to
      history items. */
  function RecentHistory(conv: seq<ChatMessage>): (h: seq<HistoryItem>)
    ensures |h| == Min(4, |conv|)
  {
    HistoryForApi(LastFour(conv))
  }

  /** The typed path's history is the newest four entries of the transcript,
      oldest first, or all of them when there are fewer, each reduced to its
      speaker and English text. */
  lemma RecentHistoryIsNewest(conv: seq<ChatMessage>, j: int)
    requires 0 <= j < Min(4, |conv|)
    ensures RecentHistory(conv)[j] ==
      HistoryItem(conv[|conv| - Min(4, |conv|) + j].speaker, conv[|conv| - Min(4, |conv|) + j].english)
  {
    var last := LastFour(conv);
    assert last[j] == conv[Max(0, |conv| - 4) + j];
  }
}
