/**
 * The turn list sent to the completion provider: a fixed system instruction, the
 * conversation's prior messages in store order, then the new user utterance.
 */
module Context {
  import opened Documents

  /** One entry of the provider's `messages` parameter. */
  datatype Turn = Turn(role: string, content: string)

  const SystemRole: string := "system"

  /** The instruction that opens every context; the same for every conversation and call. */
  const SystemInstruction: string :=
    "You are a helpful AI assistant for a web chat application. "
    + "Answer in very simple English, maximum 120 words. "
    + "When explaining, use short numbered points like '1. ... 2. ...'. "
    + "Do not use markdown formatting like **bold** or ```code```."

  const SystemTurn: Turn := Turn(SystemRole, SystemInstruction)

  /** The speaker of a stored role: "user" stays "user", every other role is the assistant. */
  function Speaker(role: string): (r: string)
    ensures r == UserRole <==> role == UserRole
    ensures r == UserRole || r == AssistantRole
  {
    if role == UserRole then UserRole else AssistantRole
  }

  /** The prior messages as turns: one per message, same order, content copied unchanged. */
  function HistoryTurns(history: seq<Message>): (r: seq<Turn>)
    ensures |r| == |history|
    ensures forall i :: 0 <= i < |history| ==> r[i] == Turn(Speaker(history[i].role), history[i].content)
  {
    if history == [] then []
    else [Turn(Speaker(history[0].role), history[0].content)] + HistoryTurns(history[1..])
  }

  /**
   * The context for one call: the system turn first, one turn per prior message,
   * the new utterance last. Only the first turn speaks as the system, whatever
   * roles the store holds.
   */
  function BuildContext(history: seq<Message>, content: string): (r: seq<Turn>)
    ensures |r| == |history| + 2
    ensures r[0] == SystemTurn
    ensures r[|r| - 1] == Turn(UserRole, content)
    ensures forall i :: 0 <= i < |history| ==> r[i + 1] == Turn(Speaker(history[i].role), history[i].content)
    ensures forall i :: 0 < i < |r| ==> r[i].role != SystemRole
  {
    [SystemTurn] + HistoryTurns(history) + [Turn(UserRole, content)]
  }

  /**
   * No history is ever dropped: the context for a longer history starts with the
   * system turn and all the turns of the shorter one.
   */
  lemma ContextNeverTruncates(history: seq<Message>, later: seq<Message>, c: string, c': string)
    ensures BuildContext(history + later, c')[..|history| + 1] == BuildContext(history, c)[..|history| + 1]
  {
  }
}
