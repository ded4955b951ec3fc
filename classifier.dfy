/**
 * The paper classifier, in its three variants:
 * codes/bytedance_ai_tools/bytedance_classifier.py and
 * bytedance_ai_tools/bytedance_classifier.py show an example answer built from the
 * first two configured categories; bytedance_classifier.py shows a fixed example.
 * Apart from that (and from how they bridge to the asynchronous client, which is not
 * modelled) the three behave alike.
 */
module Classifier {
  import opened Wrappers
  import opened Text
  import opened Values
  import opened AiClient

  /** How the system prompt's example answer is written. */
  datatype PromptStyle =
    | IndexedExample  // `["{classify_types[0]}","{classify_types[1]}"]`
    | FixedExample    // `["LLM","Efficiency"]`

  /** What the constructor can raise. */
  datatype InitError = AssertionError | IndexError

  datatype Classifier = Classifier(client: Client)

  /** The answer used when AI is disabled or the service gives nothing. */
  const Fallback := "Global"

  /** `prompt_template`: the user message sent for one paper. */
  function PromptTemplate(title: string, abstractText: string): string {
    "Title: " + title + "\nAbstract: " + abstractText
  }

  /** A title and an abstract without line breaks come back as the two lines of the prompt. */
  lemma PromptTemplateLines(title: string, abstractText: string)
    requires '\n' !in title && '\n' !in abstractText
    ensures SplitOn(PromptTemplate(title, abstractText), '\n') == ["Title: " + title, "Abstract: " + abstractText]
  {
    assert PromptTemplate(title, abstractText) == ("Title: " + title) + ['\n'] + ("Abstract: " + abstractText);
    SplitOnAfterPiece("Title: " + title, "Abstract: " + abstractText, '\n');
    SplitOnWithoutSeparator("Abstract: " + abstractText, '\n');
  }

  /** Python's `str(list)` of the category names, without quote escaping. */
  function ListRepr(types: seq<string>): string {
    "[" + Join(", ", seq(|types|, i requires 0 <= i < |types| => "'" + types[i] + "'")) + "]"
  }

  /**
   * `system_prompt(classify_types)`. In the indexed style, fewer than two categories
   * make `classify_types[1]` raise an IndexError.
   */
  function SystemPrompt(types: seq<string>, style: PromptStyle): (r: Result<string, InitError>)
    ensures r.Err? <==> style == IndexedExample && |types| < 2
    ensures r.Err? ==> r.error == IndexError
    ensures r.Ok? ==> r.value != []
  {
    var head := "你是一个论文分类助手。请将论文分类为以下类别的一个或多个：" + ListRepr(types)
      + "。\n    只需返回分类结果，不需要解释。\n    如果论文不属于上述任何一个类别，分类为Unknown。\n    返回格式为：";
    match style
    case FixedExample => Ok(head + "[\"LLM\",\"Efficiency\"]")
    case IndexedExample =>
      if |types| < 2 then Err(IndexError)
      else Ok(head + "[\"" + types[0] + "\",\"" + types[1] + "\"]")
  }

  /**
   * `BytedanceClassifier.__init__`: an empty category list fails the assertion; a
   * one-element list passes it but the indexed prompt then raises IndexError.
   */
  function NewClassifier(useAi: bool, baseUrl: Option<string>, modelId: Option<string>,
                         types: seq<string>, style: PromptStyle): (r: Result<Classifier, InitError>)
    ensures r == Err(AssertionError) <==> types == []
    ensures r == Err(IndexError) <==> style == IndexedExample && |types| == 1
    ensures r.Ok? <==> |types| >= 2 || (|types| == 1 && style == FixedExample)
    ensures r.Ok? ==>
              && r.value.client.useAi == useAi
              && (r.value.client.endpoint.Some? <==> useAi)
              && SystemPrompt(types, style) == Ok(r.value.client.defaultSystemPrompt)
  {
    if |types| == 0 then Err(AssertionError)
    else
      match SystemPrompt(types, style)
      case Err(e) => Err(e)
      case Ok(prompt) => Ok(Classifier(NewClient(useAi, baseUrl, modelId, Some(prompt))))
  }

  /** The message list the classifier sends for one paper. */
  function ClassifyRequest(cl: Classifier, title: string, abstractText: string): seq<Message> {
    [Message(SystemRole, cl.client.defaultSystemPrompt), Message(UserRole, PromptTemplate(title, abstractText))]
  }

  /**
   * `classify_paper`: the decoded answer of the service to the templated prompt, or
   * the string "Global" when AI is disabled, the call fails, or the answer decodes to
   * nothing.
   */
  function ClassifyPaper(cl: Classifier, title: string, abstractText: string,
                         chat: seq<Message> -> Option<string>, parse: string -> Option<Value>): (r: Value)
    ensures r != Null
    ensures !cl.client.useAi ==> r == Str(Fallback)
    ensures chat(ClassifyRequest(cl, title, abstractText)).None? ==> r == Str(Fallback)
    ensures cl.client.useAi && chat(ClassifyRequest(cl, title, abstractText)).Some? ==>
              var decoded := parse(Strip(chat(ClassifyRequest(cl, title, abstractText)).value));
              r == if decoded.None? || decoded.value == Null then Str(Fallback) else decoded.value
  {
    if !cl.client.useAi then Str(Fallback)
    else
      var result := GenerateResponse(cl.client, PromptTemplate(title, abstractText), None, None, true, chat, parse);
      if result != Null then result else Str(Fallback)
  }

  /**
   * `classify_paper` with the fallback its callers iterate as a category list: the
   * one-element list `["Global"]` instead of the bare string. It differs from
   * `ClassifyPaper` only where that one falls back.
   */
  function ClassifyPaperListed(cl: Classifier, title: string, abstractText: string,
                               chat: seq<Message> -> Option<string>, parse: string -> Option<Value>): (r: Value)
    ensures r != Null
    ensures !cl.client.useAi || chat(ClassifyRequest(cl, title, abstractText)).None? ==> r == StrList([Fallback])
    ensures r != ClassifyPaper(cl, title, abstractText, chat, parse) ==>
              ClassifyPaper(cl, title, abstractText, chat, parse) == Str(Fallback) && r == StrList([Fallback])
  {
    if !cl.client.useAi then StrList([Fallback])
    else
      var result := GenerateResponse(cl.client, PromptTemplate(title, abstractText), None, None, true, chat, parse);
      if result != Null then result else StrList([Fallback])
  }

  /** Two services that answer the classifier's request alike give the same classification. */
  lemma ClassifyDependsOnRequestOnly(cl: Classifier, title: string, abstractText: string,
                                     chat1: seq<Message> -> Option<string>,
                                     chat2: seq<Message> -> Option<string>,
                                     parse: string -> Option<Value>)
    requires chat1(ClassifyRequest(cl, title, abstractText)) == chat2(ClassifyRequest(cl, title, abstractText))
    ensures ClassifyPaper(cl, title, abstractText, chat1, parse) == ClassifyPaper(cl, title, abstractText, chat2, parse)
  {
    ResponseDependsOnSentMessages(cl.client, PromptTemplate(title, abstractText), true, chat1, chat2, parse);
  }
}
