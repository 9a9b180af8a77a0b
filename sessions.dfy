/** Session histories: role-tagged chat messages and the ten-entry window a
    thread's history is cut back to after each reply. */
module Sessions {

  datatype Role = System | User | Assistant

  /** One entry of a history, `{"role": ..., "content": ...}`. */
  datatype ChatMessage = ChatMessage(role: Role, content: string)

  /** The most entries a history keeps after a reply has been appended. */
  const HISTORY_WINDOW: nat := 10

  /** The system prompt every new session history starts with.  The source
      holds a long persona text here; only its identity matters to the model. */
  const SYSTEM_PROMPT: string := "Your name is CryptoExpert..."

  function SystemEntry(): ChatMessage
  {
    ChatMessage(System, SYSTEM_PROMPT)
  }

  function UserEntry(content: string): ChatMessage
  {
    ChatMessage(User, content)
  }

  function AssistantEntry(content: string): ChatMessage
  {
    ChatMessage(Assistant, content)
  }

  /** `history[-10:]` when the history has grown past the window, the
      history itself otherwise. */
  function Trim(history: seq<ChatMessage>): (kept: seq<ChatMessage>)
    ensures |kept| <= HISTORY_WINDOW
    ensures |kept| <= |history| && kept == history[|history| - |kept|..]
    ensures |kept| == if |history| <= HISTORY_WINDOW then |history| else HISTORY_WINDOW
  {
    if |history| > HISTORY_WINDOW then history[|history| - HISTORY_WINDOW..] else history
  }

  /** Trimming never loses the newest entry. */
  lemma TrimKeepsNewest(history: seq<ChatMessage>)
    requires history != []
    ensures Trim(history) != [] && Trim(history)[|Trim(history)| - 1] == history[|history| - 1]
  {
  }

  /** A history already inside the window is left alone, so trimming twice
      is trimming once. */
  lemma TrimIdempotent(history: seq<ChatMessage>)
    ensures Trim(Trim(history)) == Trim(history)
  {
  }

  /** Appending one entry to a full history drops exactly its single oldest
      entry. */
  lemma TrimAfterAppendToFull(history: seq<ChatMessage>, m: ChatMessage)
    requires |history| == HISTORY_WINDOW
    ensures Trim(history + [m]) == history[1..] + [m]
  {
  }

  /** A thread turn appends two entries (the user turn, then the reply) to a
      full history; the cut then drops its two oldest entries, whichever
      roles they have, the system entry included. */
  lemma TrimAfterTurnOnFull(history: seq<ChatMessage>, user: ChatMessage, reply: ChatMessage)
    requires |history| == HISTORY_WINDOW
    ensures Trim(history + [user] + [reply]) == history[2..] + [user, reply]
  {
  }
}
