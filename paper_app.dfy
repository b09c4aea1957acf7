/** The paper analyser's window (`PaperAnalyzerApp`): the address and PDF
    buttons route extracted text either to an error display or to the
    three-stage analysis (summary, persona debate, mediator verdict), and the
    chat box talks to the mediator once an analysis has completed.  The
    language model and the prompt builders are oracles: a prompt is recorded
    by what it is built from.  The model's handler answers a generation call
    with text, and turns a missing model or an engine failure into an "❌"
    text of its own; `Raised` stands for an exception escaping the step
    anyway, such as one from a prompt builder.  Fetching a web page, the
    file dialog and the clock are parameters. */
module PaperApp {
  import opened Basics
  import opened Text
  import Conversation
  import Jargon
  import PdfText

  const URL_MISSING := "URL을 입력해주세요."
  const LLM_NOT_READY := "LLM 모델이 준비되지 않았습니다."
  const ANALYSIS_ERROR := "분석 중 오류 발생: "
  const NOT_ACTIVE := "❌ 먼저 논문 분석을 실행해주세요."
  const CHAT_ERROR := "❌ 대화 처리 중 오류: "
  const ERROR_HEADING := "❌ 오류\n\n"
  const CHAT_PLACEHOLDER := "💡 논문의 전문용어나 내용에 대해 자유롭게 질문해보세요!\n\n"
  const DONE_MESSAGE := "✅ 분석 완료! 우측 대화창에서 중재자와 대화할 수 있습니다."
  const SUMMARY_HEADING := "## 📋 논문 요약\n\n"
  const DEBATE_HEADING := "## 💬 페르소나 토론\n\n"
  const MEDIATOR_HEADING := "## ⚖️ 중재자 종합 평가\n\n"

  const SUMMARY_TOKENS := 1500
  const DEBATE_TOKENS := 2000
  const MEDIATOR_TOKENS := 1000
  const CHAT_TOKENS := 800
  const CHAT_CONTEXT_HITS := 2
  const CHAT_HISTORY_TURNS := 3

  /** A prompt, by what the prompt builder made it from. */
  datatype Prompt =
    | SummaryPrompt(paper: string)
    | DebatePrompt(summary: string)
    | MediatorPrompt(debate: string)
    | JargonQaPrompt(question: string, context: string, history: string)

  /** The language model: whether it loaded, and what a generation step with
      a prompt and a token budget does: `Ok` with the handler's text (its
      own error texts included), or `Raised` when an exception escapes. */
  datatype Llm = Llm(ready: bool, generate: (Prompt, nat) -> Attempt<string>)

  /** The token budget the window asks for with each kind of prompt. */
  function Budget(p: Prompt): nat {
    match p
    case SummaryPrompt(_) => SUMMARY_TOKENS
    case DebatePrompt(_) => DEBATE_TOKENS
    case MediatorPrompt(_) => MEDIATOR_TOKENS
    case JargonQaPrompt(_, _, _) => CHAT_TOKENS
  }

  /** The text a prompt was built from. */
  function Source(p: Prompt): string {
    match p
    case SummaryPrompt(paper) => paper
    case DebatePrompt(summary) => summary
    case MediatorPrompt(debate) => debate
    case JargonQaPrompt(question, _, _) => question
  }

  // ---------------------------------------------------------------------
  // Address normalisation and routing

  /** The address the URL button fetches: the stripped input, with
      "https://" put in front unless it already names http or https; none
      when the input is blank. */
  function NormalizeUrl(input: string): Option<string> {
    var u := Strip(input);
    if u == [] then None
    else if StartsWith(u, "http://") || StartsWith(u, "https://") then Some(u)
    else Some("https://" + u)
  }

  predicate HasScheme(url: string) {
    StartsWith(url, "http://") || StartsWith(url, "https://")
  }

  /** A blank input gives no address; any other gives an address with a
      scheme that ends with the stripped input, and one that already had a
      scheme is kept as it was. */
  lemma NormalizedUrlHasScheme(input: string)
    ensures NormalizeUrl(input).None? <==> IsBlank(input)
    ensures NormalizeUrl(input).Some? ==>
      var url := NormalizeUrl(input).value;
      && HasScheme(url)
      && |Strip(input)| <= |url| && url[|url| - |Strip(input)|..] == Strip(input)
      && (HasScheme(Strip(input)) ==> url == Strip(input))
  {
    var u := Strip(input);
    if u != [] && !HasScheme(u) {
      var url := "https://" + u;
      assert url[..8] == "https://";
      assert url[|url| - |u|..] == u;
    }
  }

  /** Normalising a normalised address changes nothing. */
  lemma NormalizeUrlIdempotent(input: string)
    requires NormalizeUrl(input).Some?
    ensures NormalizeUrl(NormalizeUrl(input).value) == NormalizeUrl(input)
  {
    var u := Strip(input);
    var url := NormalizeUrl(input).value;
    NormalizedUrlHasScheme(input);
    if url == u {
      StripIdempotent(input);
    } else {
      assert url == "https://" + u;
      assert url[..8] == "https://";
      assert !IsSpace(url[0]) && !IsSpace(url[|url| - 1]);
      assert Strip(url) == url;
    }
  }

  /** What pressing a button leads to: an error shown in the output pane,
      or a completed analysis report. */
  datatype AnalysisOutcome = Refused(message: string) | Completed(report: string)

  /** The output pane after an outcome. */
  function Shown(outcome: AnalysisOutcome): string {
    match outcome
    case Refused(message) => ERROR_HEADING + message
    case Completed(report) => report
  }

  // ---------------------------------------------------------------------
  // The three-stage analysis

  function Section(heading: string, body: string): string {
    heading + body + "\n\n"
  }

  /** The final report: the three sections, a rule of 60 "=" and the
      completion notice. */
  function AnalysisReport(summary: string, debate: string, verdict: string): string {
    Section(SUMMARY_HEADING, summary) + Section(DEBATE_HEADING, debate) + Section(MEDIATOR_HEADING, verdict)
    + Repeat('=', 60) + "\n" + DONE_MESSAGE
  }

  /** The analysis of a paper's text: refused when the model is not ready,
      otherwise the summary, then a debate generated from the summary, then
      a verdict generated from the debate; the first step that raises ends
      it with the analysis-error message. */
  function FullAnalysis(paper: string, llm: Llm): AnalysisOutcome {
    if !llm.ready then Refused(LLM_NOT_READY)
    else match llm.generate(SummaryPrompt(paper), SUMMARY_TOKENS)
      case Raised(e) => Refused(ANALYSIS_ERROR + e)
      case Ok(summary) =>
        match llm.generate(DebatePrompt(summary), DEBATE_TOKENS)
        case Raised(e) => Refused(ANALYSIS_ERROR + e)
        case Ok(debate) =>
          match llm.generate(MediatorPrompt(debate), MEDIATOR_TOKENS)
          case Raised(e) => Refused(ANALYSIS_ERROR + e)
          case Ok(verdict) => Completed(AnalysisReport(summary, debate, verdict))
  }

  /** The prompts the analysis hands to the model, in order. */
  function PromptsIssued(paper: string, llm: Llm): seq<Prompt> {
    if !llm.ready then []
    else
      var summary := llm.generate(SummaryPrompt(paper), SUMMARY_TOKENS);
      [SummaryPrompt(paper)] +
      if summary.Raised? then []
      else
        var debate := llm.generate(DebatePrompt(summary.value), DEBATE_TOKENS);
        [DebatePrompt(summary.value)] + if debate.Raised? then [] else [MediatorPrompt(debate.value)]
  }

  /** No prompt reaches a model that is not ready; the first prompt is built
      from the paper and every later one from what the model returned for
      the one before it, with that prompt's budget; the analysis completes
      exactly when all three prompts were issued and the last one answered. */
  lemma PromptsChainThroughAnswers(paper: string, llm: Llm)
    ensures var prompts := PromptsIssued(paper, llm);
      && (prompts == [] <==> !llm.ready)
      && |prompts| <= 3
      && (prompts != [] ==> prompts[0] == SummaryPrompt(paper))
      && (forall i :: 0 < i < |prompts| ==> llm.generate(prompts[i - 1], Budget(prompts[i - 1])) == Ok(Source(prompts[i])))
      && (FullAnalysis(paper, llm).Completed? <==>
            |prompts| == 3 && llm.generate(prompts[2], Budget(prompts[2])).Ok?)
  {
    var prompts := PromptsIssued(paper, llm);
    if llm.ready {
      var summary := llm.generate(SummaryPrompt(paper), SUMMARY_TOKENS);
      if summary.Ok? {
        var debate := llm.generate(DebatePrompt(summary.value), DEBATE_TOKENS);
        assert prompts[1] == DebatePrompt(summary.value);
        if debate.Ok? {
          assert prompts[2] == MediatorPrompt(debate.value);
        }
      }
    }
  }

  /** With a ready model whose handler answers every call with text, as the
      handler does, the analysis always completes, and whatever the handler
      answered, an error text included, becomes a report section. */
  lemma AnalysisCompletesWhenHandlerAnswers(paper: string, llm: Llm)
    requires llm.ready
    requires forall p: Prompt, n: nat :: llm.generate(p, n).Ok?
    ensures var summary := llm.generate(SummaryPrompt(paper), SUMMARY_TOKENS).value;
      var debate := llm.generate(DebatePrompt(summary), DEBATE_TOKENS).value;
      var verdict := llm.generate(MediatorPrompt(debate), MEDIATOR_TOKENS).value;
      FullAnalysis(paper, llm) == Completed(AnalysisReport(summary, debate, verdict))
  {
  }

  /** A completed report holds the summary, the debate and the verdict
      sections in that order, back to back, and ends with the completion
      notice. */
  lemma ReportSectionsInOrder(summary: string, debate: string, verdict: string)
    ensures var report := AnalysisReport(summary, debate, verdict);
      var a := |Section(SUMMARY_HEADING, summary)|;
      var b := a + |Section(DEBATE_HEADING, debate)|;
      var c := b + |Section(MEDIATOR_HEADING, verdict)|;
      && c <= |report|
      && report[..a] == Section(SUMMARY_HEADING, summary)
      && report[a..b] == Section(DEBATE_HEADING, debate)
      && report[b..c] == Section(MEDIATOR_HEADING, verdict)
      && report[|report| - |DONE_MESSAGE|..] == DONE_MESSAGE
  {
    var s1 := Section(SUMMARY_HEADING, summary);
    var s2 := Section(DEBATE_HEADING, debate);
    var s3 := Section(MEDIATOR_HEADING, verdict);
    var tail := Repeat('=', 60) + "\n" + DONE_MESSAGE;
    var report := AnalysisReport(summary, debate, verdict);
    assert report == s1 + s2 + s3 + tail;
    assert report[..|s1|] == s1;
    assert report[|s1|..|s1| + |s2|] == s2;
    assert report[|s1| + |s2|..|s1| + |s2| + |s3|] == s3;
  }

  /** Where extracted text goes: text beginning with "❌" is shown as an
      error, anything else is analysed. */
  function Route(text: string, llm: Llm): AnalysisOutcome {
    if StartsWith(text, PdfText.ERROR_MARK) then Refused(text) else FullAnalysis(text, llm)
  }

  /** The URL button: a blank address is refused before anything is fetched;
      otherwise the normalised address is fetched and the text routed. */
  function UrlOutcome(urlInput: string, fetch: string -> string, llm: Llm): AnalysisOutcome {
    match NormalizeUrl(urlInput)
    case None => Refused(URL_MISSING)
    case Some(url) => Route(fetch(url), llm)
  }

  /** The PDF button: nothing when the file dialog is cancelled, otherwise
      the extracted text routed. */
  function PdfOutcome(filePath: string, reader: Attempt<seq<PdfText.PageExtraction>>, llm: Llm): Option<AnalysisOutcome> {
    if filePath == "" then None else Some(Route(PdfText.PdfText(reader), llm))
  }

  /** An unreadable PDF, or one without text, is shown as an error and never
      analysed; otherwise the analysis gets the assembled page text. */
  lemma PdfFailuresNeverReachAnalysis(reader: Attempt<seq<PdfText.PageExtraction>>, llm: Llm)
    ensures reader.Raised? || PdfText.NoPageContributes(reader.value) ==>
      Route(PdfText.PdfText(reader), llm) == Refused(PdfText.PdfText(reader))
    ensures reader.Ok? && !PdfText.NoPageContributes(reader.value) ==>
      Route(PdfText.PdfText(reader), llm) == FullAnalysis(PdfText.Assembled(reader.value), llm)
  {
    PdfText.ErrorMarkExactlyOnFailure(reader);
    if reader.Ok? {
      PdfText.NoTextExactlyWhenNoPageContributes(reader.value);
    }
  }

  // ---------------------------------------------------------------------
  // The chat

  /** The chat pane for a log: the formatted log, or the invitation to ask
      when the log is empty. */
  function ChatPane(log: seq<Conversation.Exchange>): string {
    var content := Conversation.DisplayText(log);
    if content == "" then CHAT_PLACEHOLDER else content
  }

  /** The chat pane with a one-line notice appended below what it shows. */
  function WithMessage(pane: string, message: string): string {
    pane + "\n" + message + "\n"
  }

  /** The invitation is shown exactly when the log is empty; otherwise the
      pane opens with the oldest exchange's time. */
  lemma ChatPanePlaceholderExactlyWhenEmpty(log: seq<Conversation.Exchange>)
    ensures ChatPane(log) == CHAT_PLACEHOLDER <==> log == []
    ensures log != [] ==> StartsWith(ChatPane(log), "🕒 " + log[0].timestamp + "\n")
  {
    Conversation.DisplayTextLength(log);
    if log != [] {
      Conversation.DisplayTextStartsWithTime(log);
      assert ChatPane(log)[0] == '🕒' && CHAT_PLACEHOLDER[0] == '💡';
    }
  }

  /** The prompt a chat question becomes: the question, the jargon search
      result for it and the history of the last three exchanges. */
  function ChatPrompt(question: string, dbReady: bool, hits: Attempt<seq<Jargon.Document>>, log: seq<Conversation.Exchange>): Prompt {
    JargonQaPrompt(question, Jargon.SearchResult(dbReady, hits),
                   Strip(Conversation.HistoryText(Conversation.Recent(log, CHAT_HISTORY_TURNS))))
  }

  /** What the model answers to a chat question. */
  function ChatAnswer(llm: Llm, question: string, dbReady: bool, hits: Attempt<seq<Jargon.Document>>,
                      log: seq<Conversation.Exchange>): Attempt<string> {
    llm.generate(ChatPrompt(question, dbReady, hits, log), CHAT_TOKENS)
  }

  /** The log after a chat turn: one exchange with the stripped question and
      the answer is added when the mediator is active, the question is not
      blank and the model answered; otherwise the log is as it was. */
  function ChatLog(active: bool, input: string, log: seq<Conversation.Exchange>, maxHistory: int,
                   answer: Attempt<string>, timestamp: string): seq<Conversation.Exchange> {
    if !active || Strip(input) == [] || answer.Raised? then log
    else Conversation.Appended(log, maxHistory, Conversation.Exchange(timestamp, Strip(input), answer.value))
  }

  /** A chat turn keeps the log within its bound and adds at most one
      exchange, last, holding the stripped question, keeping the others in
      order. */
  lemma ChatAddsAtMostOneExchange(active: bool, input: string, log: seq<Conversation.Exchange>, maxHistory: int,
                                  answer: Attempt<string>, timestamp: string)
    requires |log| <= Conversation.Capacity(maxHistory)
    ensures var next := ChatLog(active, input, log, maxHistory, answer, timestamp);
      && |next| <= Conversation.Capacity(maxHistory)
      && (!active || IsBlank(input) || answer.Raised? ==> next == log)
      && (active && !IsBlank(input) && answer.Ok? && maxHistory >= 1 ==>
            && next != []
            && next[|next| - 1] == Conversation.Exchange(timestamp, Strip(input), answer.value)
            && (next[..|next| - 1] == log || next[..|next| - 1] == log[1..]))
  {
    if active && Strip(input) != [] && answer.Ok? {
      Conversation.AddExchangeKeepsOrder(log, maxHistory, Conversation.Exchange(timestamp, Strip(input), answer.value));
    }
  }

  // ---------------------------------------------------------------------
  // The window

  class PaperAnalyzerApp {
    const conversation: Conversation.ConversationManager
    const jargonDb: Jargon.JargonDatabase
    var urlInput: string
    var chatInput: string
    var outputDisplay: string
    var chatDisplay: string
    var mediatorActive: bool

    predicate Valid()
      reads this, conversation
    {
      conversation.Valid()
    }

    constructor(conversation: Conversation.ConversationManager, jargonDb: Jargon.JargonDatabase)
      requires conversation.Valid()
      ensures this.conversation == conversation && this.jargonDb == jargonDb
      ensures urlInput == "" && chatInput == "" && outputDisplay == "" && chatDisplay == ""
      ensures !mediatorActive && Valid()
    {
      this.conversation := conversation;
      this.jargonDb := jargonDb;
      urlInput := "";
      chatInput := "";
      outputDisplay := "";
      chatDisplay := "";
      mediatorActive := false;
    }

    /** The window after an outcome: the output pane shows it; a completed
        analysis activates the mediator, clears the log and resets the chat
        pane; the inputs are untouched. */
    twostate predicate Shows(outcome: AnalysisOutcome)
      reads this, conversation
    {
      && outputDisplay == Shown(outcome)
      && mediatorActive == (old(mediatorActive) || outcome.Completed?)
      && conversation.log == (if outcome.Completed? then [] else old(conversation.log))
      && chatDisplay == (if outcome.Completed? then CHAT_PLACEHOLDER else old(chatDisplay))
      && urlInput == old(urlInput) && chatInput == old(chatInput)
    }

    method ShowError(errorMessage: string)
      modifies this
      ensures outputDisplay == ERROR_HEADING + errorMessage
      ensures urlInput == old(urlInput) && chatInput == old(chatInput)
      ensures chatDisplay == old(chatDisplay) && mediatorActive == old(mediatorActive)
    {
      outputDisplay := ERROR_HEADING + errorMessage;
    }

    method ShowChatMessage(message: string)
      modifies this
      ensures chatDisplay == WithMessage(old(chatDisplay), message)
      ensures urlInput == old(urlInput) && chatInput == old(chatInput)
      ensures outputDisplay == old(outputDisplay) && mediatorActive == old(mediatorActive)
    {
      chatDisplay := chatDisplay + "\n" + message + "\n";
    }

    method UpdateChatDisplay()
      modifies this
      ensures chatDisplay == ChatPane(conversation.log)
      ensures urlInput == old(urlInput) && chatInput == old(chatInput)
      ensures outputDisplay == old(outputDisplay) && mediatorActive == old(mediatorActive)
    {
      var chatContent := conversation.GetFormattedChatDisplay();
      if chatContent == "" {
        chatContent := CHAT_PLACEHOLDER;
      }
      chatDisplay := chatContent;
    }

    /** The analysis, proved against `FullAnalysis`; the ghost result lists
        the prompts handed to the model. */
    method RunFullAnalysis(paperText: string, llm: Llm) returns (ghost prompts: seq<Prompt>)
      requires Valid()
      modifies this, conversation
      ensures Valid()
      ensures Shows(FullAnalysis(paperText, llm))
      ensures prompts == PromptsIssued(paperText, llm)
    {
      if !llm.ready {
        ShowError(LLM_NOT_READY);
        return [];
      }
      prompts := [SummaryPrompt(paperText)];
      var summary := llm.generate(SummaryPrompt(paperText), SUMMARY_TOKENS);
      if summary.Raised? {
        ShowError(ANALYSIS_ERROR + summary.reason);
        return;
      }
      var result := "## 📋 논문 요약\n\n" + summary.value + "\n\n";
      outputDisplay := result;

      prompts := prompts + [DebatePrompt(summary.value)];
      var debate := llm.generate(DebatePrompt(summary.value), DEBATE_TOKENS);
      if debate.Raised? {
        ShowError(ANALYSIS_ERROR + debate.reason);
        return;
      }
      result := result + "## 💬 페르소나 토론\n\n" + debate.value + "\n\n";
      outputDisplay := result;

      prompts := prompts + [MediatorPrompt(debate.value)];
      var verdict := llm.generate(MediatorPrompt(debate.value), MEDIATOR_TOKENS);
      if verdict.Raised? {
        ShowError(ANALYSIS_ERROR + verdict.reason);
        return;
      }
      result := result + "## ⚖️ 중재자 종합 평가\n\n" + verdict.value + "\n\n";
      result := result + Repeat('=', 60) + "\n";
      result := result + DONE_MESSAGE;
      assert result == AnalysisReport(summary.value, debate.value, verdict.value);

      outputDisplay := result;
      mediatorActive := true;
      conversation.ClearMemory();
      UpdateChatDisplay();
    }

    /** The URL button, proved against `UrlOutcome`. */
    method AnalyzeUrl(fetch: string -> string, llm: Llm)
      requires Valid()
      modifies this, conversation
      ensures Valid()
      ensures Shows(UrlOutcome(old(urlInput), fetch, llm))
    {
      var url := Strip(urlInput);
      if url == "" {
        ShowError(URL_MISSING);
        return;
      }
      if !(StartsWith(url, "http://") || StartsWith(url, "https://")) {
        url := "https://" + url;
      }
      var text := fetch(url);
      if StartsWith(text, PdfText.ERROR_MARK) {
        ShowError(text);
      } else {
        ghost var prompts := RunFullAnalysis(text, llm);
      }
    }

    /** The PDF button, proved against `PdfOutcome`; an empty path is the
        cancelled file dialog. */
    method AnalyzePdf(filePath: string, reader: Attempt<seq<PdfText.PageExtraction>>, llm: Llm)
      requires Valid()
      modifies this, conversation
      ensures Valid()
      ensures PdfOutcome(filePath, reader, llm).None? ==> unchanged(this) && conversation.log == old(conversation.log)
      ensures PdfOutcome(filePath, reader, llm).Some? ==> Shows(PdfOutcome(filePath, reader, llm).value)
    {
      if filePath != "" {
        var text := PdfText.ExtractTextFromPdf(reader);
        if StartsWith(text, PdfText.ERROR_MARK) {
          ShowError(text);
        } else {
          ghost var prompts := RunFullAnalysis(text, llm);
        }
      }
    }

    /** One chat turn: refused with a notice before an analysis has
        completed, ignored for a blank question, otherwise the question is
        put to the mediator. */
    method HandleChat(llm: Llm, hits: Attempt<seq<Jargon.Document>>, timestamp: string)
      requires Valid()
      modifies this, conversation
      ensures Valid()
      ensures var question := Strip(old(chatInput));
        var answer := old(ChatAnswer(llm, Strip(chatInput), jargonDb.vectorDb.Some?, hits, conversation.log));
        && conversation.log == ChatLog(old(mediatorActive), old(chatInput), old(conversation.log), conversation.maxHistory, answer, timestamp)
        && (!old(mediatorActive) ==> chatDisplay == WithMessage(old(chatDisplay), NOT_ACTIVE) && chatInput == old(chatInput))
        && (old(mediatorActive) && question == [] ==> chatDisplay == old(chatDisplay) && chatInput == old(chatInput))
        && (old(mediatorActive) && question != [] && answer.Ok? ==> chatDisplay == ChatPane(conversation.log) && chatInput == "")
        && (old(mediatorActive) && question != [] && answer.Raised? ==>
              chatDisplay == WithMessage(old(chatDisplay), CHAT_ERROR + answer.reason) && chatInput == old(chatInput))
      ensures mediatorActive == old(mediatorActive) && outputDisplay == old(outputDisplay) && urlInput == old(urlInput)
    {
      if !mediatorActive {
        ShowChatMessage(NOT_ACTIVE);
        return;
      }
      var userInput := Strip(chatInput);
      if userInput == "" {
        return;
      }
      AskMediator(userInput, llm, hits, timestamp);
    }

    /** The chat prompt for a question: the jargon search for it and the
        history of the last three exchanges. */
    method BuildChatPrompt(userInput: string, hits: Attempt<seq<Jargon.Document>>) returns (qaPrompt: Prompt)
      ensures qaPrompt == ChatPrompt(userInput, jargonDb.vectorDb.Some?, hits, conversation.log)
    {
      var retrievedContext := jargonDb.SearchJargon(userInput, CHAT_CONTEXT_HITS, hits);
      var conversationHistory := conversation.GetConversationHistory(CHAT_HISTORY_TURNS);
      qaPrompt := JargonQaPrompt(userInput, retrievedContext, conversationHistory);
    }

    /** Logs an answer and shows the log. */
    method RecordAnswer(userInput: string, answer: string, timestamp: string)
      requires Valid()
      modifies this, conversation
      ensures Valid()
      ensures conversation.log == Conversation.Appended(old(conversation.log), conversation.maxHistory,
                                                         Conversation.Exchange(timestamp, userInput, answer))
      ensures chatDisplay == ChatPane(conversation.log) && chatInput == ""
      ensures mediatorActive == old(mediatorActive) && outputDisplay == old(outputDisplay) && urlInput == old(urlInput)
    {
      conversation.AddExchange(userInput, answer, timestamp);
      UpdateChatDisplay();
      chatInput := "";
    }

    /** A question put to the mediator: the jargon search and the recent
        history go into the prompt, and the answer is logged and shown, or
        the error is shown and nothing is logged. */
    method AskMediator(userInput: string, llm: Llm, hits: Attempt<seq<Jargon.Document>>, timestamp: string)
      requires Valid() && userInput != []
      modifies this, conversation
      ensures mediatorActive == old(mediatorActive) && outputDisplay == old(outputDisplay) && urlInput == old(urlInput)
      ensures Valid()
      ensures var answer := old(ChatAnswer(llm, userInput, jargonDb.vectorDb.Some?, hits, conversation.log));
        && conversation.log == (if answer.Ok? then Conversation.Appended(old(conversation.log), conversation.maxHistory,
                                                      Conversation.Exchange(timestamp, userInput, answer.value))
                                else old(conversation.log))
        && (answer.Ok? ==> chatDisplay == ChatPane(conversation.log) && chatInput == "")
        && (answer.Raised? ==> chatDisplay == WithMessage(old(chatDisplay), CHAT_ERROR + answer.reason) && chatInput == old(chatInput))
    {
      var qaPrompt := BuildChatPrompt(userInput, hits);
      var assistantResponse := llm.generate(qaPrompt, CHAT_TOKENS);
      if assistantResponse.Raised? {
        ShowChatMessage(CHAT_ERROR + assistantResponse.reason);
        return;
      }
      RecordAnswer(userInput, assistantResponse.value, timestamp);
    }
  }
}
