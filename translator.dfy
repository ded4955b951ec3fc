/**
 * The translator (codes/bytedance_ai_tools/bytedance_translator.py and
 * bytedance_ai_tools/bytedance_translator.py; they differ only in how they bridge to
 * the asynchronous client, which is not modelled).
 */
module Translator {
  import opened Wrappers
  import opened Text
  import opened Values
  import opened AiClient

  /** The English-to-Chinese instruction every translator is built with. */
  const TranslationPrompt := "你是一个英文到中文的翻译助手。请将给定的英文文本翻译成中文，保持专业性和准确性。只需返回翻译结果，不需要解释。"

  datatype Translator = Translator(client: Client)

  /** `BytedanceTranslator.__init__`. */
  function NewTranslator(useAi: bool, baseUrl: Option<string>, modelId: Option<string>): (t: Translator)
    ensures t.client.useAi == useAi
    ensures t.client.endpoint.Some? <==> useAi
    ensures t.client.defaultSystemPrompt == TranslationPrompt
  {
    Translator(NewClient(useAi, baseUrl, modelId, Some(TranslationPrompt)))
  }

  /** The message list the translator sends for `text`. */
  function TranslateRequest(t: Translator, text: string): seq<Message> {
    [Message(SystemRole, t.client.defaultSystemPrompt), Message(UserRole, text)]
  }

  /**
   * `translate`: the identity when AI is disabled or the service call fails, otherwise
   * the service's stripped answer to the text.
   */
  function Translate(t: Translator, text: string, chat: seq<Message> -> Option<string>): (r: string)
    ensures !t.client.useAi ==> r == text
    ensures chat(TranslateRequest(t, text)).None? ==> r == text
    ensures t.client.useAi && chat(TranslateRequest(t, text)).Some? ==>
              r == Strip(chat(TranslateRequest(t, text)).value)
  {
    var result := GenerateResponse(t.client, text, None, None, false, chat, (s: string) => None);
    if result.Str? then result.s else text
  }

  /** Two services that answer the translator's request alike give the same translation. */
  lemma TranslateDependsOnRequestOnly(t: Translator, text: string,
                                      chat1: seq<Message> -> Option<string>,
                                      chat2: seq<Message> -> Option<string>)
    requires chat1(TranslateRequest(t, text)) == chat2(TranslateRequest(t, text))
    ensures Translate(t, text, chat1) == Translate(t, text, chat2)
  {
    ResponseDependsOnSentMessages(t.client, text, false, chat1, chat2, (s: string) => None);
  }
}
