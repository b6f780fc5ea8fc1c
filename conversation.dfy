/**
 * The messages a user's conversation history is made of, and the change
 * `Memory.append` makes to one user's history (src/memory.py:43-49).
 */
module Conversation {

  /** A `{'role': ..., 'content': ...}` dictionary. Roles are free strings: the assistant's comes from the model's response. */
  datatype Message = Message(role: string, content: string)

  /** The message `_initialize` installs: role `system` with the process-wide default text. */
  function SystemMessage(text: string): Message {
    Message("system", text)
  }

  /**
   * The history `append` leaves behind: an empty history is first seeded
   * with exactly one system message carrying `defaultText` (never a
   * per-user override), then `m` goes at the end; earlier entries stay put.
   */
  function AppendTo(h: seq<Message>, defaultText: string, m: Message): (r: seq<Message>)
    ensures |r| == |h| + (if h == [] then 2 else 1)
    ensures r[|r| - 1] == m
    ensures h != [] ==> r[..|h|] == h
    ensures h == [] ==> r[0] == SystemMessage(defaultText)
    ensures (h == [] || h[0] == SystemMessage(defaultText)) ==> r[0] == SystemMessage(defaultText)
  {
    (if h == [] then [SystemMessage(defaultText)] else h) + [m]
  }
}
