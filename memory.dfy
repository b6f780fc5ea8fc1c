/**
 * `Memory` (src/memory.py:19-56): per-user conversation histories and
 * per-user system-message overrides, both keyed by user id.
 */
module ConversationMemory {
  import opened Conversation
  import HistoryPolicy

  class Memory {
    /** `self.storage`: user id to history (a `defaultdict(list)`: reading a missing key inserts `[]`). */
    var storage: map<string, seq<Message>>
    /** `self.system_messages`: user id to override text. Written, never read. */
    var systemMessages: map<string, string>
    const defaultSystemMessage: string
    const memoryMessageCount: int

    /** Every stored history is empty or starts with the default system message. */
    ghost predicate Valid()
      reads this
    {
      forall u :: u in storage ==> storage[u] == [] || storage[u][0] == SystemMessage(defaultSystemMessage)
    }

    /** What `self.storage[u]` evaluates to: the stored list, or `[]` for a user never seen. */
    function History(u: string): seq<Message>
      reads this
    {
      if u in storage then storage[u] else []
    }

    constructor (systemMessage: string, count: int)
      ensures Valid()
      ensures storage == map[] && systemMessages == map[]
      ensures defaultSystemMessage == systemMessage && memoryMessageCount == count
    {
      storage := map[];
      systemMessages := map[];
      defaultSystemMessage := systemMessage;
      memoryMessageCount := count;
    }

    /** `_initialize`: seeds `u`'s history with the default system message, whatever `u`'s override is. */
    method Initialize(u: string)
      requires Valid()
      modifies this`storage
      ensures Valid()
      ensures storage == old(storage)[u := [SystemMessage(defaultSystemMessage)]]
      ensures systemMessages == old(systemMessages)
    {
      storage := storage[u := [SystemMessage(defaultSystemMessage)]];
    }

    /** `change_system_message`: records the override and empties `u`'s history; other users are untouched. */
    method ChangeSystemMessage(u: string, text: string)
      requires Valid()
      modifies this
      ensures Valid()
      ensures systemMessages == old(systemMessages)[u := text]
      ensures storage == old(storage)[u := []]
    {
      systemMessages := systemMessages[u := text];
      Remove(u);
    }

    /**
     * `append`: seeds an empty history, adds `{role, content}` at the end and
     * keeps every earlier entry. The trimmed history `_drop_message` computes
     * is thrown away, so the history only grows.
     */
    method Append(u: string, role: string, content: string)
      requires Valid()
      modifies this`storage
      ensures Valid()
      ensures storage == old(storage)[u := AppendTo(old(History(u)), defaultSystemMessage, Message(role, content))]
      ensures |History(u)| == |old(History(u))| + (if old(History(u)) == [] then 2 else 1)
      ensures systemMessages == old(systemMessages)
    {
      if History(u) == [] {
        Initialize(u);
      }
      storage := storage[u := storage[u] + [Message(role, content)]];
      var discarded := HistoryPolicy.Drop(storage[u], memoryMessageCount);
    }

    /** `get`: `u`'s history; a user never seen gets `[]`, which the `defaultdict` also stores. */
    method Get(u: string) returns (h: seq<Message>)
      requires Valid()
      modifies this`storage
      ensures Valid()
      ensures h == old(History(u))
      ensures storage == old(storage)[u := h]
      ensures systemMessages == old(systemMessages)
    {
      h := History(u);
      storage := storage[u := h];
    }

    /** `remove`: empties `u`'s history only; overrides stay as they are. */
    method Remove(u: string)
      requires Valid()
      modifies this`storage
      ensures Valid()
      ensures storage == old(storage)[u := []]
      ensures systemMessages == old(systemMessages)
    {
      storage := storage[u := []];
    }
  }

  /**
   * A fresh memory fed `turns` one `append` at a time holds the system
   * message followed by every turn, whatever the configured count: nothing
   * is ever trimmed.
   */
  method ReplayAppends(systemMessage: string, count: int, u: string, turns: seq<Message>)
    returns (h: seq<Message>)
    ensures turns == [] ==> h == []
    ensures turns != [] ==> h == [SystemMessage(systemMessage)] + turns
    ensures |h| == if turns == [] then 0 else |turns| + 1
  {
    var memory := new Memory(systemMessage, count);
    var i := 0;
    while i < |turns|
      invariant 0 <= i <= |turns|
      invariant memory.Valid() && memory.defaultSystemMessage == systemMessage
      invariant memory.History(u) == if i == 0 then [] else [SystemMessage(systemMessage)] + turns[..i]
    {
      memory.Append(u, turns[i].role, turns[i].content);
      assert turns[..i + 1] == turns[..i] + [turns[i]];
      i := i + 1;
    }
    assert turns[..|turns|] == turns;
    h := memory.Get(u);
  }

  /**
   * Changing `u`'s system message leaves `get(u)` empty, and appending a user
   * turn then seeds the history with the DEFAULT system message: the override
   * is never used.
   */
  method OverrideIgnored(systemMessage: string, count: int, u: string, override: string, text: string)
    returns (empty: seq<Message>, h: seq<Message>)
    ensures empty == []
    ensures h == [SystemMessage(systemMessage), Message("user", text)]
  {
    var memory := new Memory(systemMessage, count);
    memory.ChangeSystemMessage(u, override);
    empty := memory.Get(u);
    memory.Append(u, "user", text);
    h := memory.Get(u);
  }
}
