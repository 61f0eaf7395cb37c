/** The records the session orchestrator works on: chat messages, enrichment
    results, enrichment jobs and the application status.  They mirror
    src/types.ts and the queue element type of App.tsx. */
module Types {

  datatype Option<T> = None | Some(value: T)

  /** `'user' | 'ai'` */
  datatype Speaker = User | Ai

  /** A message id.  The application builds ids as `user-<ms>` / `ai-<ms>`
      from the wall clock; the model keeps the prefix and replaces the
      millisecond reading by a stamp taken from a counter that never repeats. */
  datatype MessageId = MessageId(prefix: Speaker, stamp: nat)

  datatype Phonetic = Phonetic(word: string, ipa: string)

  /** One transcript entry.  `phonetic` is optional in the source record. */
  datatype ChatMessage = ChatMessage(
    id: MessageId,
    speaker: Speaker,
    english: string,
    chinese: string,
    phonetic: Option<seq<Phonetic>>,
    isFinal: bool)

  /** What the enrichment service returns. */
  datatype EnrichmentData = EnrichmentData(english: string, chinese: string, phonetics: seq<Phonetic>)

  /** The history element handed to the enrichment service. */
  datatype HistoryItem = HistoryItem(speaker: Speaker, english: string)

  /** An element of the enrichment queue. */
  datatype Job = Job(text: string, speaker: Speaker, messageId: MessageId)

  datatype AppStatus = Idle | PermissionNeeded | Ready | Initializing | Listening | Speaking | Error

  /** Placeholder translation of an entry whose enrichment has not arrived. */
  const Pending: string := "..."

  /** Sentinel translation of an entry whose enrichment failed. */
  const TranslationFailed: string := "翻译失败"
}
