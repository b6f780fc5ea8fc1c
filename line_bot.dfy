/**
 * `handle_text_message` (main.py:52-98) and the module state it uses
 * (main.py:29-33): command routing, the order of memory updates around the
 * model call, and the mapping from errors to replies. The LINE reply call
 * and the model's HTTP exchange are parameters; `get_role_and_content` is an
 * abstract function from the model's response to `(role, content)` that may
 * raise an exception.
 */
module LineBot {
  import opened Wrappers
  import opened PyStrings
  import opened Conversation
  import opened OpenAI
  import ConversationMemory

  /** The command prefix (five code points) that sets the user's system message. */
  const SystemMessageCommand := "/系統訊息"
  const CommandAccepted := "輸入成功"
  const ApiKeyErrorPrefix := "Incorrect API key provided"
  const OverloadErrorPrefix := "That model is currently overloaded with other requests."
  const TokenReply := "OpenAI API Token 有誤，請重新註冊。"
  const OverloadReply := "已超過負荷，請稍後再試"
  const GenericReplyPrefix := "系統遇到一些錯誤，請截圖提供以下訊息給管理員。\n"
  /** `memory_message_count` as main.py configures it. */
  const MemoryMessageCount := 2

  /** Whether a stripped text is the system-message command. */
  predicate IsCommand(text: string) {
    StartsWith(text, SystemMessageCommand)
  }

  /**
   * The reply for an error text, chosen by prefix in a fixed order: the
   * API-key message, then the overload message, otherwise the generic
   * message followed by the error text itself. The reply tells the three
   * cases apart.
   */
  function ErrorReply(error: string): (r: string)
    ensures r == TokenReply <==> StartsWith(error, ApiKeyErrorPrefix)
    ensures r == OverloadReply <==>
      !StartsWith(error, ApiKeyErrorPrefix) && StartsWith(error, OverloadErrorPrefix)
    ensures r != TokenReply && r != OverloadReply <==>
      StartsWith(r, GenericReplyPrefix) && r[|GenericReplyPrefix|..] == error
  {
    if StartsWith(error, ApiKeyErrorPrefix) then TokenReply
    else if StartsWith(error, OverloadErrorPrefix) then OverloadReply
    else
      var r := GenericReplyPrefix + error;
      assert r[0] != TokenReply[0] && r[0] != OverloadReply[0];
      r
  }

  /**
   * `str(BaseException(message))` for the `error_message` of the triple:
   * `None` gives "None", a string gives itself, a boolean "True" or "False".
   * Python's rendering of other JSON values is the parameter `repr`.
   */
  function ErrorText(message: Json, repr: Json -> string): (t: string)
    ensures message.JStr? ==> t == message.s
    ensures message == JNull ==> t == "None"
  {
    match message
    case JNull => "None"
    case JStr(s) => s
    case JBool(b) => if b then "True" else "False"
    case _ => repr(message)
  }

  /** How a text event ends: one reply sent, or an exception escaping the handler with no reply. */
  datatype Outcome = Reply(text: string) | Unanswered(error: string)

  /** An exception raised in the `try` block: whether its class derives from `Exception`, and `str()` of it. */
  datatype PyException = PyException(isException: bool, text: string)

  /** The `except Exception` clause: catches `Exception`s and maps their text; anything else escapes. */
  function Except(e: PyException): (r: Outcome)
    ensures r.Reply? <==> e.isException
    ensures e.isException ==> r.text == ErrorReply(e.text)
  {
    if e.isException then Reply(ErrorReply(e.text)) else Unanswered(e.text)
  }

  /**
   * The reply once the model has answered, as main.py:77-96 is written: a
   * failed call raises `BaseException`, which the `except Exception` clause
   * does not catch, so no reply is sent; a successful call replies with the
   * response's content, or maps the exception `get_role_and_content` raises.
   */
  function ReplyAfterChat(result: RequestResult, roleAndContent: Json -> Result<(string, string), string>,
                          repr: Json -> string): (r: Outcome)
    ensures !result.success ==> r == Unanswered(ErrorText(result.errorMessage, repr))
    ensures result.success ==> r.Reply?
    ensures result.success && roleAndContent(result.response).Success? ==>
      r.text == roleAndContent(result.response).value.1
    ensures result.success && roleAndContent(result.response).Failure? ==>
      r.text == ErrorReply(roleAndContent(result.response).error)
  {
    if !result.success then Except(PyException(false, ErrorText(result.errorMessage, repr)))
    else
      match roleAndContent(result.response)
      case Success(rc) => Reply(rc.1)
      case Failure(e) => Except(PyException(true, e))
  }

  /**
   * The same step with `raise Exception(error_message)` at main.py:78, which
   * the error mapping below it evidently expects: every outcome is a reply,
   * and a failed call is answered with the mapped error text.
   */
  function IntendedReplyAfterChat(result: RequestResult, roleAndContent: Json -> Result<(string, string), string>,
                                  repr: Json -> string): (r: Outcome)
    ensures r.Reply?
    ensures !result.success ==> r == Reply(ErrorReply(ErrorText(result.errorMessage, repr)))
    ensures result.success ==> r == ReplyAfterChat(result, roleAndContent, repr)
  {
    if !result.success then Except(PyException(true, ErrorText(result.errorMessage, repr)))
    else
      match roleAndContent(result.response)
      case Success(rc) => Reply(rc.1)
      case Failure(e) => Except(PyException(true, e))
  }

  /** The module-level state of main.py: `memory` and `model_management`. */
  class Bot {
    const memory: ConversationMemory.Memory
    /** `model_management`: user id to that user's model client. */
    var modelManagement: map<string, OpenAIModel>
    const defaultApiKey: string
    /** The `OPENAI_MODEL_ENGINE` setting. */
    const modelEngine: string

    /** main.py:29-33: an empty memory with two turn pairs configured, and no clients yet. */
    constructor (systemMessage: string, apiKey: string, engine: string)
      ensures fresh(memory) && memory.Valid()
      ensures memory.storage == map[] && memory.systemMessages == map[]
      ensures memory.defaultSystemMessage == systemMessage && memory.memoryMessageCount == MemoryMessageCount
      ensures modelManagement == map[] && defaultApiKey == apiKey && modelEngine == engine
    {
      memory := new ConversationMemory.Memory(systemMessage, MemoryMessageCount);
      modelManagement := map[];
      defaultApiKey := apiKey;
      modelEngine := engine;
    }

    /** main.py:59-60: a user's client is created with the default key only when absent, then reused. */
    method EnsureClient(u: string) returns (client: OpenAIModel)
      modifies this`modelManagement
      ensures u in modelManagement && client == modelManagement[u]
      ensures u in old(modelManagement) ==> modelManagement == old(modelManagement)
      ensures u !in old(modelManagement) ==>
        modelManagement == old(modelManagement)[u := OpenAIModel(defaultApiKey)]
    {
      if u !in modelManagement {
        modelManagement := modelManagement[u := OpenAIModel(defaultApiKey)];
      }
      client := modelManagement[u];
    }

    /**
     * The non-command branch (main.py:71-82): the user turn is appended
     * before the model sees the user's history; the assistant's turn is
     * appended only when the call succeeds and its response yields
     * `(role, content)`; a failed call leaves the user turn in place.
     */
    method Converse(u: string, client: OpenAIModel, text: string, http: HttpRequest -> HttpOutcome,
                    roleAndContent: Json -> Result<(string, string), string>,
                    repr: Json -> string)
      returns (outcome: Outcome)
      requires memory.Valid()
      modifies memory
      ensures memory.Valid()
      ensures var sent := AppendTo(old(memory.History(u)), memory.defaultSystemMessage, Message("user", text));
        var result := ChatCompletions(client, sent, modelEngine, http);
        && outcome == ReplyAfterChat(result, roleAndContent, repr)
        && memory.systemMessages == old(memory.systemMessages)
        && memory.storage == old(memory.storage)[u :=
             if result.success && roleAndContent(result.response).Success?
             then sent + [Message(roleAndContent(result.response).value.0, roleAndContent(result.response).value.1)]
             else sent]
    {
      memory.Append(u, "user", text);
      var history := memory.Get(u);
      var result := ChatCompletions(client, history, modelEngine, http);
      outcome := ReplyAfterChat(result, roleAndContent, repr);
      if result.success {
        match roleAndContent(result.response)
        case Success(rc) =>
          memory.Append(u, rc.0, rc.1);
        case Failure(_) =>
      }
    }

    /**
     * `handle_text_message` for user `u` and raw text `raw`: the user's
     * client is looked up or created, the text is stripped, the command
     * changes the user's system message and is confirmed without calling
     * the model, and any other text goes through `Converse`.
     */
    method HandleTextMessage(u: string, raw: string, http: HttpRequest -> HttpOutcome,
                             roleAndContent: Json -> Result<(string, string), string>,
                             repr: Json -> string)
      returns (outcome: Outcome)
      requires memory.Valid()
      modifies this`modelManagement, memory
      ensures memory.Valid()
      ensures u in modelManagement
      ensures u in old(modelManagement) ==> modelManagement == old(modelManagement)
      ensures u !in old(modelManagement) ==>
        modelManagement == old(modelManagement)[u := OpenAIModel(defaultApiKey)]
      ensures var text := Strip(raw);
        IsCommand(text) ==>
          && outcome == Reply(CommandAccepted)
          && memory.systemMessages == old(memory.systemMessages)[u := Strip(text[5..])]
          && memory.storage == old(memory.storage)[u := []]
      ensures var text := Strip(raw);
        !IsCommand(text) ==>
          var sent := AppendTo(old(memory.History(u)), memory.defaultSystemMessage, Message("user", text));
          var result := ChatCompletions(modelManagement[u], sent, modelEngine, http);
          && outcome == ReplyAfterChat(result, roleAndContent, repr)
          && memory.systemMessages == old(memory.systemMessages)
          && memory.storage == old(memory.storage)[u :=
               if result.success && roleAndContent(result.response).Success?
               then sent + [Message(roleAndContent(result.response).value.0, roleAndContent(result.response).value.1)]
               else sent]
    {
      var client := EnsureClient(u);
      var text := Strip(raw);
      if IsCommand(text) {
        memory.ChangeSystemMessage(u, Strip(text[5..]));
        outcome := Reply(CommandAccepted);
      } else {
        outcome := Converse(u, client, text, http, roleAndContent, repr);
      }
    }
  }
}
