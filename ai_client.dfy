/**
 * The chat client shared by the translator and the classifier
 * (codes/bytedance_ai_tools/bytedance_ai_client.py). The remote chat-completion
 * service is the parameter `chat`: it maps the message list it is sent to the reply
 * text, or to `None` when the call raises. JSON decoding is the parameter `parse`,
 * `None` when decoding raises.
 */
module AiClient {
  import opened Wrappers
  import opened Text
  import opened Values

  /** The system prompt a client falls back to when it is given none. */
  const AssistantPrompt := "你是一个AI助手，请回答用户的问题。"

  const SystemRole := "system"
  const UserRole := "user"

  datatype Message = Message(role: string, content: string)

  /** The chat service a client talks to; it exists only when AI is enabled. */
  datatype Endpoint = Endpoint(baseUrl: Option<string>, modelId: Option<string>)

  datatype Client = Client(useAi: bool, endpoint: Option<Endpoint>, defaultSystemPrompt: string)

  /** Python's `s or default` for an optional string: `None` and `''` both give `default`. */
  function Or(s: Option<string>, default: string): (r: string)
    ensures s.Some? && s.value != [] ==> r == s.value
    ensures s.None? || s.value == [] ==> r == default
  {
    if s.Some? && s.value != [] then s.value else default
  }

  /** `ByteDanceAIClient.__init__`: the endpoint is set up only when AI is enabled. */
  function NewClient(useAi: bool, baseUrl: Option<string>, modelId: Option<string>,
                     defaultSystemPrompt: Option<string>): (c: Client)
    ensures c.useAi == useAi
    ensures c.endpoint.Some? <==> useAi
    ensures useAi ==> c.endpoint.value == Endpoint(baseUrl, modelId)
    ensures c.defaultSystemPrompt != []
    ensures defaultSystemPrompt.Some? && defaultSystemPrompt.value != [] ==> c.defaultSystemPrompt == defaultSystemPrompt.value
    ensures defaultSystemPrompt.None? || defaultSystemPrompt.value == [] ==> c.defaultSystemPrompt == AssistantPrompt
  {
    Client(useAi, if useAi then Some(Endpoint(baseUrl, modelId)) else None,
           Or(defaultSystemPrompt, AssistantPrompt))
  }

  /**
   * `generate_messages`: a system message, then the user message, then the additional
   * messages in order (none when they are `None` or empty).
   */
  function GenerateMessages(c: Client, userContent: string, systemPrompt: Option<string>,
                            additional: Option<seq<Message>>): (ms: seq<Message>)
    ensures |ms| == 2 + |additional.GetOr([])|
    ensures ms[0] == Message(SystemRole, Or(systemPrompt, c.defaultSystemPrompt))
    ensures ms[1] == Message(UserRole, userContent)
    ensures ms[2..] == additional.GetOr([])
  {
    var messages := [Message(SystemRole, Or(systemPrompt, c.defaultSystemPrompt)), Message(UserRole, userContent)];
    if additional.Some? && additional.value != [] then messages + additional.value else messages
  }

  /**
   * `generate_response`: `Null` without a call when AI is disabled; otherwise the
   * stripped reply text, decoded when `parseJson` holds. A raised call or a failed
   * decoding also gives `Null`.
   */
  function GenerateResponse(c: Client, userContent: string, systemPrompt: Option<string>,
                            additional: Option<seq<Message>>, parseJson: bool,
                            chat: seq<Message> -> Option<string>,
                            parse: string -> Option<Value>): (r: Value)
    ensures !c.useAi ==> r == Null
    ensures var reply := chat(GenerateMessages(c, userContent, systemPrompt, additional));
            reply.None? ==> r == Null
    ensures var reply := chat(GenerateMessages(c, userContent, systemPrompt, additional));
            c.useAi && reply.Some? && !parseJson ==> r == Str(Strip(reply.value))
    ensures var reply := chat(GenerateMessages(c, userContent, systemPrompt, additional));
            c.useAi && reply.Some? && parseJson ==> r == parse(Strip(reply.value)).GetOr(Null)
    ensures parseJson && r != Null ==>
              parse(Strip(chat(GenerateMessages(c, userContent, systemPrompt, additional)).value)) == Some(r)
  {
    if !c.useAi then Null
    else
      match chat(GenerateMessages(c, userContent, systemPrompt, additional))
      case None => Null
      case Some(text) =>
        var result := Strip(text);
        if parseJson then parse(result).GetOr(Null) else Str(result)
  }

  /** Without JSON decoding, the reply never depends on the decoder and is never a list. */
  lemma PlainResponseIgnoresParser(c: Client, userContent: string, chat: seq<Message> -> Option<string>,
                                   parse1: string -> Option<Value>, parse2: string -> Option<Value>)
    ensures GenerateResponse(c, userContent, None, None, false, chat, parse1)
         == GenerateResponse(c, userContent, None, None, false, chat, parse2)
    ensures !GenerateResponse(c, userContent, None, None, false, chat, parse1).StrList?
  {
  }

  /** The reply depends on the service only through its answer to the one message list sent. */
  lemma ResponseDependsOnSentMessages(c: Client, userContent: string, parseJson: bool,
                                      chat1: seq<Message> -> Option<string>,
                                      chat2: seq<Message> -> Option<string>,
                                      parse: string -> Option<Value>)
    requires chat1([Message(SystemRole, c.defaultSystemPrompt), Message(UserRole, userContent)])
          == chat2([Message(SystemRole, c.defaultSystemPrompt), Message(UserRole, userContent)])
    ensures GenerateResponse(c, userContent, None, None, parseJson, chat1, parse)
         == GenerateResponse(c, userContent, None, None, parseJson, chat2, parse)
  {
    var ms := GenerateMessages(c, userContent, None, None);
    assert ms == [Message(SystemRole, c.defaultSystemPrompt), Message(UserRole, userContent)];
  }
}
