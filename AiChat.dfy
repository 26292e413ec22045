/** The back end's chat assistant: choosing between a language-model
    provider and canned replies at start-up, text chat, voice chat over a
    transcription, and image chat.  The environment is a string map; the
    outcome of creating a provider client, the providers' replies (`None`
    when the call raises), the transcription and the speech synthesiser are
    parameters. */
module AiChat {
  import opened Text

  /** A canned reply, chosen when `keyword` occurs in the text. */
  datatype Rule = Rule(keyword: string, reply: string)

  /** The position of the first rule whose keyword occurs in `text`. */
  function FirstRule(rules: seq<Rule>, text: string): (r: Option<nat>)
    ensures r.None? <==> forall j :: 0 <= j < |rules| ==> !Contains(text, rules[j].keyword)
    ensures r.Some? ==> r.value < |rules| && Contains(text, rules[r.value].keyword)
    ensures r.Some? ==> forall j :: 0 <= j < r.value ==> !Contains(text, rules[j].keyword)
  {
    if rules == [] then None
    else if Contains(text, rules[0].keyword) then Some(0)
    else
      var r := FirstRule(rules[1..], text);
      assert forall j :: 1 <= j < |rules| ==> rules[j] == rules[1..][j - 1];
      if r.Some? then Some(r.value + 1) else None
  }

  /** The reply of the first matching rule, or `default` when none matches. */
  function Reply(rules: seq<Rule>, text: string, default: string): (r: string)
    ensures FirstRule(rules, text).Some? ==> r == rules[FirstRule(rules, text).value].reply
    ensures FirstRule(rules, text).None? ==> r == default
  {
    var first := FirstRule(rules, text);
    if first.Some? then rules[first.value].reply else default
  }

  // ---------------------------------------------------------------------------
  // Canned replies

  /** The keyword replies of text chat, in the order they are tried (the
      "default" entry of the table is never used as a keyword). */
  const ChatRules: seq<Rule> := [
    Rule("存款", "当前活期存款利率为 0.3%，定期存款利率根据期限不同而有所差异：1年期 1.5%，2年期 2.1%，3年期 2.75%。"),
    Rule("贷款", "我们提供多种贷款产品：个人消费贷款利率 4.35% 起，住房贷款利率 3.85% 起，经营贷款利率 3.65% 起。"),
    Rule("投资", "对于新手投资者，建议从低风险产品开始，如货币基金、定期存款等。逐步了解后再尝试债券基金、指数基金等。"),
    Rule("信用卡", "申请信用卡需要年满 18 周岁，有稳定的收入来源，良好的信用记录。您可以在线申请或到柜台办理。"),
    Rule("转账", "单笔转账限额为 5 万元，日累计限额为 20 万元。如需提高限额，请到柜台办理。"),
    Rule("余额", "请登录网银或手机银行查看您的账户余额。"),
    Rule("你好", "您好！有什么我可以帮您的吗？"),
    Rule("hello", "Hello! How can I help you today?"),
    Rule("汇率", "当前美元兑人民币汇率为 7.24，欧元兑人民币汇率为 7.89。汇率实时波动，请以实际交易为准。")
  ]

  const ChatDefaultHead: string := "您好！我是您的 AI 银行助手。您的问题是："
  const ChatDefaultTail: string := "。我可以帮您解答关于银行业务、理财投资、贷款等方面的问题。"

  /** The default text reply, which quotes the message back. */
  function ChatDefault(message: string): (r: string)
    ensures Contains(r, message)
  {
    var r := ChatDefaultHead + message + ChatDefaultTail;
    assert OccursAt(r, message, |ChatDefaultHead|) by {
      assert r[|ChatDefaultHead|..|ChatDefaultHead| + |message|] == message;
    }
    r
  }

  /** `_get_mock_response`: the reply of the first keyword occurring in the
      message (compared case-sensitively), else the default reply. */
  function MockResponse(message: string): (r: string)
    ensures (forall j :: 0 <= j < |ChatRules| ==> !Contains(message, ChatRules[j].keyword)) ==>
              r == ChatDefault(message) && Contains(r, message)
    ensures FirstRule(ChatRules, message).Some? ==> r == ChatRules[FirstRule(ChatRules, message).value].reply
  {
    Reply(ChatRules, message, ChatDefault(message))
  }

  /** The keyword replies of voice chat, tried on the lower-cased text. */
  const VoiceRules: seq<Rule> := [
    Rule("deposit", "Current savings interest rate is 0.3%. Fixed deposit rates vary by term: 1-year 1.5%, 2-year 2.1%, 3-year 2.75%."),
    Rule("loan", "We offer various loan products: personal loans from 4.35%, mortgage loans from 3.85%, business loans from 3.65%."),
    Rule("investment", "For beginner investors, start with low-risk products like money market funds and fixed deposits."),
    Rule("credit", "To apply for a credit card, you must be at least 18 with stable income and good credit history."),
    Rule("card", "To apply for a credit card, you must be at least 18 with stable income and good credit history."),
    Rule("transfer", "Single transfer limit is 50,000, daily limit is 200,000."),
    Rule("balance", "Please log in to online banking or mobile banking to check your account balance."),
    Rule("hello", "Hello! How can I help you today?"),
    Rule("hi", "Hi there! How can I assist you today?"),
    Rule("rate", "Current USD/CNY rate is 7.24, EUR/CNY rate is 7.89."),
    Rule("interest", "Current savings interest rate is 0.3%.")
  ]

  const VoiceDefaultHead: string := "Hello! I am your AI banking assistant. Your question is: "
  const VoiceDefaultTail: string := ". I can help you with banking services, investments, loans, and more."

  /** The default voice reply, which quotes the transcription back as heard
      (not lower-cased). */
  function VoiceDefault(text: string): (r: string)
    ensures Contains(r, text)
  {
    var r := VoiceDefaultHead + text + VoiceDefaultTail;
    assert OccursAt(r, text, |VoiceDefaultHead|) by {
      assert r[|VoiceDefaultHead|..|VoiceDefaultHead| + |text|] == text;
    }
    r
  }

  const UnrecognisedSpeech: string := "Unable to recognize speech. Please try again."

  // ---------------------------------------------------------------------------
  // Providers

  /** `os.getenv(key, default)`. */
  function EnvGet(env: map<string, string>, key: string, default: string): string {
    if key in env then env[key] else default
  }

  /** `_chat_with_gemini` and `_chat_with_openai`: the provider's text, or the
      canned reply when there is no client or the call raises. */
  function ChatWithProvider(message: string, hasClient: bool, call: string -> Option<string>): (r: string)
    ensures hasClient && call(message).Some? ==> r == call(message).value
    ensures !hasClient || call(message).None? ==> r == MockResponse(message)
  {
    if hasClient && call(message).Some? then call(message).value else MockResponse(message)
  }

  /** Whether start-up ends with a live provider: canned replies were not
      forced, the provider is gemini or openai with a non-empty key, and its
      client was created. */
  predicate LiveConfigured(env: map<string, string>, clientCreated: bool) {
    var provider := EnvGet(env, "AI_PROVIDER", "mock");
    && ToLower(EnvGet(env, "MOCK_AI_RESPONSES", "False")) != "true"
    && ((provider == "gemini" && EnvGet(env, "GEMINI_API_KEY", "") != "")
        || (provider == "openai" && EnvGet(env, "OPENAI_API_KEY", "") != ""))
    && clientCreated
  }

  datatype VoiceReply = VoiceReply(transcribedText: string, response: string, audioResponse: Option<seq<bv8>>)

  datatype ImageReply = ImageReply(analysis: string, response: string)

  const ImageAnalysis: string := "这是一张银行相关的图像（模拟分析）"

  const ImagePromptHead: string := "图像分析：" + ImageAnalysis + "。"

  /** The message image chat sends on: the analysis, then the user's text
      unchanged, so different texts give different prompts. */
  function ImagePrompt(message: string): (r: string)
    ensures |r| == |ImagePromptHead| + |message|
    ensures r[..|ImagePromptHead|] == ImagePromptHead
    ensures r[|ImagePromptHead|..] == message
  {
    ImagePromptHead + message
  }

  /** The keyword scan of a voice request: the reply of the first rule whose
      keyword occurs in the lower-cased text, else the default reply. */
  method VoiceFallback(text: string) returns (response: string)
    ensures response == Reply(VoiceRules, ToLower(text), VoiceDefault(text))
  {
    var lower := ToLower(text);
    response := VoiceDefault(text);
    var i := 0;
    while i < |VoiceRules|
      invariant 0 <= i <= |VoiceRules|
      invariant forall j :: 0 <= j < i ==> !Contains(lower, VoiceRules[j].keyword)
      invariant response == VoiceDefault(text)
    {
      if Contains(lower, VoiceRules[i].keyword) {
        response := VoiceRules[i].reply;
        break;
      }
      i := i + 1;
    }
    var first := FirstRule(VoiceRules, lower);
    if first.Some? {
      assert first.value == i;
    }
  }

  class AIService {
    var aiProvider: string
    var mockResponses: bool
    var geminiApiKey: string
    var openaiApiKey: string
    var hasGeminiClient: bool
    var hasOpenaiClient: bool

    /** Live mode always has the chosen provider's client. */
    predicate Valid()
      reads this
    {
      !mockResponses ==> (aiProvider == "gemini" && hasGeminiClient) || (aiProvider == "openai" && hasOpenaiClient)
    }

    /** Reads the configuration and sets up the client; `clientCreated` is
        whether importing and creating the provider's client succeeds. */
    constructor (env: map<string, string>, clientCreated: bool)
      ensures Valid()
      ensures aiProvider == EnvGet(env, "AI_PROVIDER", "mock")
      ensures !mockResponses <==> LiveConfigured(env, clientCreated)
    {
      aiProvider := EnvGet(env, "AI_PROVIDER", "mock");
      mockResponses := ToLower(EnvGet(env, "MOCK_AI_RESPONSES", "False")) == "true";
      geminiApiKey := EnvGet(env, "GEMINI_API_KEY", "");
      openaiApiKey := EnvGet(env, "OPENAI_API_KEY", "");
      hasGeminiClient := false;
      hasOpenaiClient := false;
      new;
      InitAiClient(clientCreated);
    }

    /** `_init_ai_client`: in forced mock mode nothing happens; otherwise the
        configured provider's client is created, and any missing key,
        unknown provider or failed creation falls back to canned replies. */
    method InitAiClient(clientCreated: bool)
      modifies this
      ensures Valid()
      ensures aiProvider == old(aiProvider) && geminiApiKey == old(geminiApiKey) && openaiApiKey == old(openaiApiKey)
      ensures old(mockResponses) ==> mockResponses && hasGeminiClient == old(hasGeminiClient)
                                     && hasOpenaiClient == old(hasOpenaiClient)
      ensures !old(mockResponses) ==>
                (!mockResponses <==>
                   && clientCreated
                   && ((aiProvider == "gemini" && geminiApiKey != "") || (aiProvider == "openai" && openaiApiKey != "")))
      ensures !old(mockResponses) ==>
                && hasGeminiClient == (old(hasGeminiClient) || (!mockResponses && aiProvider == "gemini"))
                && hasOpenaiClient == (old(hasOpenaiClient) || (!mockResponses && aiProvider == "openai"))
    {
      if mockResponses {
        return;
      }
      if aiProvider == "gemini" && geminiApiKey != "" {
        if clientCreated {
          hasGeminiClient := true;
        } else {
          mockResponses := true;
        }
      } else if aiProvider == "openai" && openaiApiKey != "" {
        if clientCreated {
          hasOpenaiClient := true;
        } else {
          mockResponses := true;
        }
      } else {
        mockResponses := true;
      }
    }

    /** `chat`: canned replies in mock mode or for an unknown provider;
        otherwise the provider's text, falling back to the canned reply when
        the call fails.  The text never comes from the provider that is not
        configured. */
    function Chat(message: string, gemini: string -> Option<string>, openai: string -> Option<string>): (r: string)
      reads this
      ensures mockResponses || aiProvider !in {"gemini", "openai"} ==> r == MockResponse(message)
      ensures !mockResponses && aiProvider == "gemini" ==> r == ChatWithProvider(message, hasGeminiClient, gemini)
      ensures !mockResponses && aiProvider == "openai" ==> r == ChatWithProvider(message, hasOpenaiClient, openai)
      ensures r == MockResponse(message)
              || (!mockResponses && aiProvider == "gemini" && gemini(message) == Some(r))
              || (!mockResponses && aiProvider == "openai" && openai(message) == Some(r))
    {
      if mockResponses then MockResponse(message)
      else if aiProvider == "gemini" then ChatWithProvider(message, hasGeminiClient, gemini)
      else if aiProvider == "openai" then ChatWithProvider(message, hasOpenaiClient, openai)
      else MockResponse(message)
    }

    /** In live mode a successful provider call is what the user sees. */
    lemma LiveChatUsesProvider(message: string, gemini: string -> Option<string>, openai: string -> Option<string>)
      requires Valid() && !mockResponses
      ensures aiProvider == "gemini" && gemini(message).Some? ==> Chat(message, gemini, openai) == gemini(message).value
      ensures aiProvider == "openai" && openai(message).Some? ==> Chat(message, gemini, openai) == openai(message).value
    {
    }

    /** `chat_voice` over the transcription (`None` when none came back):
        an empty one gives the fixed reply with no audio; otherwise a
        provider with a client answers, or the first keyword occurring in the
        lower-cased text does, or the default reply.  Speech is synthesised
        only when asked for. */
    method ChatVoice(transcribed: Option<string>, generateAudio: bool,
                     gemini: string -> Option<string>, openai: string -> Option<string>,
                     speak: string -> Option<seq<bv8>>)
      returns (r: VoiceReply)
      ensures transcribed.None? || transcribed.value == "" ==> r == VoiceReply("", UnrecognisedSpeech, None)
      ensures transcribed.Some? && transcribed.value != "" ==>
                && r.transcribedText == transcribed.value
                && r.audioResponse == (if generateAudio then speak(r.response) else None)
      ensures transcribed.Some? && transcribed.value != "" ==>
                var text := transcribed.value;
                if aiProvider == "gemini" && hasGeminiClient then r.response == ChatWithProvider(text, true, gemini)
                else if aiProvider == "openai" && hasOpenaiClient then r.response == ChatWithProvider(text, true, openai)
                else r.response == Reply(VoiceRules, ToLower(text), VoiceDefault(text))
    {
      if transcribed.None? || transcribed.value == "" {
        return VoiceReply("", UnrecognisedSpeech, None);
      }
      var text := transcribed.value;
      var response: string;
      if aiProvider == "gemini" && hasGeminiClient {
        response := ChatWithProvider(text, true, gemini);
      } else if aiProvider == "openai" && hasOpenaiClient {
        response := ChatWithProvider(text, true, openai);
      } else {
        response := VoiceFallback(text);
      }
      var audio := if generateAudio then speak(response) else None;
      r := VoiceReply(text, response, audio);
    }

    /** `chat_image`: the fixed analysis, and the chat reply to the prompt
        built from it and the user's text. */
    function ChatImage(message: string, gemini: string -> Option<string>, openai: string -> Option<string>): (r: ImageReply)
      reads this
      ensures r.analysis == ImageAnalysis
      ensures r.response == Chat(ImagePrompt(message), gemini, openai)
    {
      ImageReply(ImageAnalysis, Chat(ImagePrompt(message), gemini, openai))
    }
  }
}
