/**
 * The trainer chat: the prompt built from the question and the conversation so far, and
 * the checks made before the request (a key must be present, and only Gemini is served).
 */
module AITrainer {
  import opened Wrappers
  import opened JsStrings
  import AIRoutineGenerator

  datatype Role = User | Assistant

  datatype TrainerMessage = TrainerMessage(role: Role, content: string)

  /** The speaker a role is shown as. */
  function Speaker(role: Role): string {
    match role
    case User => "사용자"
    case Assistant => "트레이너"
  }

  /** One message of the history as a line `{speaker}: {content}`. */
  function MessageLine(m: TrainerMessage): string {
    Speaker(m.role) + ": " + m.content
  }

  function MessageLines(history: seq<TrainerMessage>): (lines: seq<string>)
    ensures |lines| == |history|
    ensures forall k :: 0 <= k < |history| ==> lines[k] == MessageLine(history[k])
  {
    seq(|history|, k requires 0 <= k < |history| => MessageLine(history[k]))
  }

  /** The history block: empty for no history, otherwise the lines joined by newlines and a blank line after. */
  function HistoryText(history: seq<TrainerMessage>): (text: string)
    ensures text == "" <==> history == []
  {
    if |history| == 0 then "" else Join(MessageLines(history), "\n") + "\n\n"
  }

  const Instructions :=
    "당신은 한국어로 답변하는 최고 수준의 헬스 트레이너입니다.\n" +
    "다음 원칙을 지켜서 **짧고 간결하게**, 그리고 **마크다운 기호 없이 평문으로만** 답변하세요:\n" +
    "- 답변은 최대 3줄 이내로, 각 줄은 한두 문장만 사용합니다.\n" +
    "- 줄 앞에 *, -, 숫자. 같은 마크다운 기호를 절대 사용하지 않습니다.\n" +
    "- 불필요한 장황한 설명은 피하고, 사용자가 바로 적용할 수 있는 실전 팁 위주로 답합니다.\n" +
    "- 의학적 진단은 하지 말고, 통증이 심하거나 오래가면 전문의 상담을 권유합니다.\n" +
    "- 예시 형식: \"첫째, ~입니다. 둘째, ~하세요. 셋째, ~을 주의하세요.\" 와 같이 자연스러운 문장으로만 작성합니다.\n\n"

  const HistoryHeading := "지금까지의 대화:\n"

  const Closing := "위 질문에 대해 한국어로 친절하게 답변하세요."

  /** The question section. */
  function QuestionText(question: string): string {
    "사용자 질문: " + question + "\n\n"
  }

  /** The prompt after a fixed preamble: the history section when there is history, then the question and the closing line. */
  function ChatPrompt(preamble: string, question: string, history: seq<TrainerMessage>): (prompt: string)
    ensures StartsWith(prompt, preamble)
    ensures var tail := QuestionText(question) + Closing; |tail| <= |prompt| && prompt[|prompt| - |tail|..] == tail
  {
    var historyText := HistoryText(history);
    preamble + (if historyText != "" then HistoryHeading + historyText else "") + QuestionText(question) + Closing
  }

  /** `buildChatPrompt(question, history)`. */
  function BuildChatPrompt(question: string, history: seq<TrainerMessage>): (prompt: string)
    ensures StartsWith(prompt, Instructions)
    ensures var tail := QuestionText(question) + Closing; |tail| <= |prompt| && prompt[|prompt| - |tail|..] == tail
  {
    ChatPrompt(Instructions, question, history)
  }

  /** Without history the prompt goes straight from the instructions to the question. */
  lemma PromptWithoutHistory(preamble: string, question: string)
    ensures ChatPrompt(preamble, question, []) == preamble + QuestionText(question) + Closing
  {
    assert preamble + "" == preamble;
  }

  /** With history the prompt holds the heading, the message lines and a blank line, between the instructions and the question. */
  lemma PromptWithHistory(preamble: string, question: string, history: seq<TrainerMessage>)
    requires history != []
    ensures ChatPrompt(preamble, question, history)
         == preamble + HistoryHeading + Join(MessageLines(history), "\n") + "\n\n" + QuestionText(question) + Closing
  {
    var lines, block := Join(MessageLines(history), "\n"), HistoryText(history);
    assert block == lines + "\n\n" && block != "";
  }

  /** A line shows who spoke: it starts with the speaker and a colon. */
  lemma LineShowsSpeaker(m: TrainerMessage)
    ensures StartsWith(MessageLine(m), Speaker(m.role) + ": ")
    ensures Speaker(m.role) == "사용자" <==> m.role == User
  {
    var prefix := Speaker(m.role) + ": ";
    assert MessageLine(m)[..|prefix|] == prefix;
  }

  /** When no message holds a line break, the history block splits back into one line per message, in order. */
  lemma HistoryLinesRecovered(history: seq<TrainerMessage>)
    requires history != []
    requires forall k :: 0 <= k < |history| ==> '\n' !in history[k].content
    ensures Split(Join(MessageLines(history), "\n"), '\n') == MessageLines(history)
  {
    var lines := MessageLines(history);
    forall k | 0 <= k < |lines| ensures '\n' !in lines[k] {
      var m := history[k];
      assert lines[k] == Speaker(m.role) + ": " + m.content;
      assert '\n' !in Speaker(m.role) + ": ";
    }
    SplitJoin(lines, '\n');
  }

  const MissingKey := "AI API 키가 설정되지 않았습니다. VITE_AI_API_KEY를 설정하세요."
  const GeminiOnly := "현재 AI 트레이너 챗봇은 Gemini provider에서만 동작하도록 설정되어 있습니다."

  /**
   * `askTrainerWithAI` up to the request: the prompt it would send to Gemini, or the error
   * it throws first (no key; then a provider other than Gemini, which is the default).
   */
  function PrepareRequest(question: string, history: seq<TrainerMessage>, settings: AIRoutineGenerator.AISettings): (r: Result<string>)
    ensures AIRoutineGenerator.ApiKey(settings) == "" ==> r == Failure(MissingKey)
    ensures r.Success? <==> (AIRoutineGenerator.ApiKey(settings) != ""
      && AIRoutineGenerator.FirstSet(settings.configProvider, settings.envProvider, "gemini") == "gemini")
    ensures r.Success? ==> r.value == BuildChatPrompt(question, history)
  {
    var provider := AIRoutineGenerator.FirstSet(settings.configProvider, settings.envProvider, "gemini");
    if AIRoutineGenerator.ApiKey(settings) == "" then Failure(MissingKey)
    else if provider != "gemini" then Failure(GeminiOnly)
    else Success(BuildChatPrompt(question, history))
  }

  /** With a key and no provider chosen, the chat goes to Gemini; choosing another provider is refused. */
  lemma GeminiByDefault(question: string, history: seq<TrainerMessage>, key: string, other: string)
    requires key != "" && other != "" && other != "gemini"
    ensures PrepareRequest(question, history, AIRoutineGenerator.AISettings(None, None, Some(key), None)).Success?
    ensures PrepareRequest(question, history, AIRoutineGenerator.AISettings(Some(other), None, Some(key), None)) == Failure(GeminiOnly)
  {
  }
}
