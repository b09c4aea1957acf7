# A model of two desktop assistants: image OCR with LLM correction, and paper analysis with a mediator chat

This project models the core of two small PyQt applications.

**The image-analysis window** (`project2_ocr/main.py`) has three parts.

- **The background worker** (`OCRLLMWorker.run`) recognises the text in an
  image, has a local language model correct it, or explains a given text.
  It reports what it did as an ordered list of signals: `progress`, `result`,
  `error` and `finished`.
- **The main window** (`MainWindow`) owns a single worker slot guarded by a
  stop flag. It also holds the texts the worker's signals fill and the
  enabled state of its buttons.
- **The review dialog** (`ComparisonDialog`) lets the user redo the
  recognition, accept the corrected text (which starts an explanation) or
  start over.

**The paper analyser** (`project1_pdf`) has four parts.

- **Page-text extraction** (`extract_text_from_pdf`) joins the pages of a PDF
  into numbered blocks.
- **The jargon database** (`JargonDatabase`) turns six built-in term entries
  into searchable documents and formats what a search returns.
- **The conversation log** (`ConversationManager`) is a bounded list of
  question/answer exchanges. It is rendered both as a prompt history and as
  the chat pane.
- **The window** (`PaperAnalyzerApp`) guards its buttons and routes text.
  The URL and PDF buttons send extracted text either to an error display or
  to a three-stage analysis: summary, persona debate and mediator verdict.
  The chat box puts questions to the mediator once an analysis has
  completed.

**What is an input to the model.** Everything outside the code is a
parameter:

- the OCR engine, the image loader and the file system;
- which libraries are installed;
- the language models. The OCR window's engine either returns text or raises. The paper analyser's handler always answers with text, turning a missing model or an engine failure into an "❌" text of its own;
- the web fetch and the file dialog's answer;
- the clock;
- the value of the worker's stop flag at each place the worker polls it.

Prompt templates are recorded by the text each prompt is built from.

**How the model is shaped.** State that the source updates in place is a
class: `MainWindow`, `ComparisonDialog`, `StopFlag`, `ConversationManager`,
`JargonDatabase` and `PaperAnalyzerApp`. Their methods are proved against
specification functions. The worker's run is a method that appends one
signal at a time. It is proved equal to `OcrWorker.Trace`, a function of
the inputs, and the lemmas state the worker's promises about that trace.

Files:

| File | Contents |
|---|---|
| `basics.dfy` | Shared datatypes (`Option`, `Attempt`) and Python truthiness. |
| `text.dfy` | Python string helpers: `strip`, `startswith`, `join`, repetition, decimal digits. |
| `ocr_worker.dfy` | The worker. |
| `ocr_controller.dfy` | The main window and the review dialog. |
| `pdf_text.dfy` | Page-text extraction. |
| `jargon.dfy` | The jargon database. |
| `conversation.dfy` | The conversation log. |
| `paper_app.dfy` | The paper analyser's window. |

## Model

| member | source | states |
|---|---|---|
| OcrWorker.Run | project2_ocr/main.py:76-193 | One run emits exactly `Trace(job, env, stop)`: the task's stage signals up to where the `try` block stopped, then an `error` if it raised, then `finished`. |
| OcrWorker.OcrCorrectSteps | project2_ocr/main.py:78-151 | The recognition-and-correction branch emits the prefix of the recognition stage signals that its exit reached. It raises exactly the failure that `OcrCorrectExit` names. |
| OcrWorker.ExplainSteps | project2_ocr/main.py:153-187 | The explanation branch emits the prefix of its stage signals that it reached. It raises exactly the failure that `ExplainExit` names. |
| OcrWorker.OcrStagesPrefixes | project2_ocr/main.py:87-151 | Gives the signals emitted by the time of each poll in the recognition branch: none, `progress 5`, then `progress 5, 10`, and so on. |
| OcrWorker.ExitIsWellFormed | project2_ocr/main.py:104-193 | A run never reaches past its task's stage list. A run that stopped at a poll returned normally; it did not raise. |
| OcrWorker.FinishedCountConcat | project2_ocr/main.py:192-193 | The number of `finished` signals in a concatenation is the sum of the counts of its parts. |
| OcrWorker.NoFinishedCountsZero | project2_ocr/main.py:192-193 | A list without `finished` counts zero `finished` signals. |
| OcrWorker.OcrStagesShaped | project2_ocr/main.py:87-151 | The recognition stages are only progress and result signals, and progress never goes down (5, 10, 50, 55, 100). |
| OcrWorker.ExplainStagesShaped | project2_ocr/main.py:157-187 | The explanation stages are only progress and result signals, and progress never goes down (10, 100). |
| OcrWorker.StagesShaped | project2_ocr/main.py:76-187 | Every task's stage list is made only of progress and result signals, with progress non-decreasing. |
| OcrWorker.StageResults | project2_ocr/main.py:115-187 | Gives where each kind of result sits in a stage list: the raw text third and the corrected text sixth of a recognition run, and the explanation second of an explanation run. |
| OcrWorker.RaisesExactlyWhenFails | project2_ocr/main.py:78-191 | The `try` block raises if and only if one of its steps fails: a missing library, a bad path, an unreadable image, a failed load, recognition or generation, or no text to explain. |
| OcrWorker.StopsAtPollExactlyWhenStoppedEarly | project2_ocr/main.py:104-168 | The `try` block returns at a poll if and only if the stop flag was set at a poll that the run reached. |
| OcrWorker.ReachedMeansStepsSucceeded | project2_ocr/main.py:78-168 | Reaching a stage signal means that every check and engine call before it succeeded. |
| OcrWorker.SignalAt | project2_ocr/main.py:76-193 | Each signal of a run is a reached stage signal, the `error` just before the last signal, or `finished`. |
| OcrWorker.SignalsErrorOnlyBeforeLast | project2_ocr/main.py:189-193 | An `error` appears only second to last. It appears if and only if the body raised. |
| OcrWorker.SignalsFinishedCount | project2_ocr/main.py:104-193 | The signal list holds `finished` twice when the body returned at a poll, and once otherwise. |
| OcrWorker.SignalsProgressMonotone | project2_ocr/main.py:87-193 | Progress values in the signal list never decrease. |
| OcrWorker.FinishedIsLast | project2_ocr/main.py:192-193 | `finished` is the last signal of every run. |
| OcrWorker.ErrorIsFollowedOnlyByFinished | project2_ocr/main.py:189-193 | A run emits at most one `error`, and only the final `finished` follows it. |
| OcrWorker.ErrorExactlyWhenFails | project2_ocr/main.py:78-191 | A run emits an `error` if and only if one of its steps fails. |
| OcrWorker.FinishedOnceOrTwiceWhenStopped | project2_ocr/main.py:104-193 | `finished` is emitted twice when the stop flag ended the run (once at the poll, once in `finally`), and once otherwise. |
| OcrWorker.ProgressIsMonotone | project2_ocr/main.py:87-187 | Progress never goes backwards within a run. |
| OcrWorker.ResultIsReachedStage | project2_ocr/main.py:115-187 | A result signal in a run is the stage signal at the same position, and the run reached that position. |
| OcrWorker.ReachedStageIsEmitted | project2_ocr/main.py:87-187 | Every stage signal before the point where the run stopped is emitted, at its own position. |
| OcrWorker.CorrectionFollowsRecognition | project2_ocr/main.py:112-151 | A corrected-text result comes only after the raw-text result and after `progress 50`. |
| OcrWorker.RawTextIsJoinedFragments | project2_ocr/main.py:112-115 | The raw-text result is the recognised fragments joined by newlines, and is reported only when recognition succeeded. |
| OcrWorker.CorrectedTextIsStrippedGeneration | project2_ocr/main.py:137-150 | The corrected-text result is the stripped generation for a prompt on the raw text. That generation uses a budget of twice the raw length plus 300 tokens, and happens only after the last poll saw no stop. |
| OcrWorker.ExplanationIsStrippedGeneration | project2_ocr/main.py:166-186 | The explanation result is the stripped generation for a prompt on the input text. That generation uses a budget of the text's length plus 500 tokens, and happens only after the poll saw no stop. |
| OcrWorker.StopFlagSuppressesResults | project2_ocr/main.py:104-141 | A stop flag seen before recognition suppresses every result. One seen after recognition or before correction suppresses the corrected text. |
| OcrWorker.UnknownTaskOnlyFinishes | project2_ocr/main.py:76-193 | A task type other than the two known ones emits only `finished`. |
| OcrWorker.OcrCorrectSuccess | project2_ocr/main.py:78-151 | A recognition run that never fails and is never stopped emits exactly: progress 5, 10, the raw text, progress 50, 55, the corrected text, progress 100, finished. |
| OcrWorker.ExplainSuccess | project2_ocr/main.py:153-187 | An explanation run that never fails and is never stopped emits exactly: progress 10, the explanation, progress 100, finished. |
| OcrController.StopFlag.constructor | project2_ocr/main.py:454 | A new stop flag starts unset. |
| OcrController.StopFlag.Set | project2_ocr/main.py:572 | Setting the flag makes it set. |
| OcrController.ComparisonDialog.constructor | project2_ocr/main.py:199-208 | An empty recognised or corrected text is shown, and offered for editing, as a placeholder. |
| OcrController.ComparisonDialog.Edit | project2_ocr/main.py:246-247 | Editing changes only the edit box. The text to be returned stays unchanged until Accept. |
| OcrController.ComparisonDialog.OnRedo | project2_ocr/main.py:273-274 | Redo closes the dialog with code 1. |
| OcrController.ComparisonDialog.OnAccept | project2_ocr/main.py:276-278 | Accept makes the edited text the returned text and closes the dialog with code 2. |
| OcrController.ComparisonDialog.OnReject | project2_ocr/main.py:271 | Cancel closes the dialog with code 0. |
| OcrController.MainWindow.constructor | project2_ocr/main.py:311-358 | At start-up a preloaded engine exists only when its library is installed and its load did not raise. The window starts idle, with no image and analysis disabled. |
| OcrController.MainWindow.SetButtonsForTaskRunningState | project2_ocr/main.py:534-537 | Analysis is enabled only when no task runs and an image is chosen. Select follows the running state. Cancel is always enabled. Nothing else changes. |
| OcrController.MainWindow.CancelCurrentWorkerIfRunning | project2_ocr/main.py:569-578 | Returns true if and only if a worker held the slot. In that case its flag is set, the slot is freed and progress is 0. Otherwise nothing changes. |
| OcrController.MainWindow.ResetUiAfterTask | project2_ocr/main.py:587-603 | The texts and progress are cleared. A full reset also forgets the image and disables analysis. A partial reset keeps the image and enables analysis if there is one. |
| OcrController.MainWindow.LoadImageAndPrepareAnalysis | project2_ocr/main.py:432-446 | A new image stops any running worker, becomes the current image and clears the texts and progress. Analysis is enabled and the slot is idle. The select button is enabled again only if a worker was cancelled, and is otherwise kept. |
| OcrController.MainWindow.StartBackgroundWorker | project2_ocr/main.py:448-472 | A held slot refuses the request and changes nothing. Otherwise the slot gets a runnable for the job with a fresh unset flag, and the preloaded engines are handed over. |
| OcrController.MainWindow.RunOcrCorrectionTask | project2_ocr/main.py:474-490 | Refuses with no image, or when a library is missing with no preloaded engine, changing nothing. Otherwise it clears the texts and starts a recognition job on the current image, unless the slot is busy. |
| OcrController.MainWindow.RunExplanationTask | project2_ocr/main.py:492-499 | Refuses an empty text, or a missing generation library with no preloaded model. Otherwise it starts an explanation job on that text, unless the slot is busy. |
| OcrController.MainWindow.HandleWorkerProgress | project2_ocr/main.py:513-514 | The progress bar takes the signalled value. Nothing else changes. |
| OcrController.MainWindow.HandleWorkerFinished | project2_ocr/main.py:516-522 | Progress becomes 100 if the slot was held. The slot and flag are freed, and the buttons return to their idle state. |
| OcrController.MainWindow.HandleWorkerError | project2_ocr/main.py:524-531 | The slot is freed and the window is fully reset. |
| OcrController.MainWindow.ShowComparisonDialog | project2_ocr/main.py:540-547 | With an image, the dialog opens on the image, the raw text and the corrected text, with placeholders for empty texts. The window's texts, progress and buttons are kept. Without an image, the window is fully reset: no image, empty texts, progress 0, analysis disabled, select enabled, and no dialog opens. |
| OcrController.MainWindow.ShowExplanationDialog | project2_ocr/main.py:564-567 | After the explanation is shown, the window is fully reset: no image, empty texts, progress 0, analysis disabled, select enabled. The worker slot is kept. |
| OcrController.MainWindow.HandleWorkerResult | project2_ocr/main.py:501-511 | A raw-text result is stored and nothing else changes. A corrected text is stored and opens the review on the current image, the stored raw text and the corrected text, keeping everything else. Without an image it fully resets instead. An explanation is shown and fully resets the window. Any other kind changes nothing. |
| OcrController.MainWindow.ResolveComparison | project2_ocr/main.py:546-562 | The pressed button closes the dialog with its code, and Accept first takes the edited text. Redo re-runs recognition on the same image; a refused re-run keeps the worker, progress and buttons, and with no image or a missing library also the texts. Accept with a non-blank edited text keeps the image and texts and starts its explanation, unless the slot is busy or the library is missing. Accept with a blank text resets but keeps the image. Cancel resets fully. |
| OcrController.MainWindow.Redo | project2_ocr/main.py:549-551 | Redo gives the same request as a new recognition of the current image (refused with no image, a missing library or a held slot) and keeps the image and the accepted text. When refused it keeps the worker, progress and buttons; with no image or a missing library it also keeps both texts. |
| OcrController.MainWindow.Accept | project2_ocr/main.py:552-559 | A non-blank accepted text is kept and explained, keeping the image and texts. The slot and buttons are unchanged when the request is refused. A blank one resets the texts and progress but keeps the image. |
| OcrController.MainWindow.AcceptEditedText | project2_ocr/main.py:276-278 | Editing the correction and pressing Accept explains exactly the edited text. A worker for it starts if and only if the slot was free and the generation library or a preloaded model is there. |
| OcrController.MainWindow.StaleFinishedFreesReplacementSlot | project2_ocr/main.py:516-522 | After a cancel and a new start, the cancelled worker's late `finished` frees the new worker's slot. The new worker's flag stays unset, so it keeps running unguarded. |
| OcrController.MainWindow.CancelOrResetAllProcesses | project2_ocr/main.py:580-585 | A running worker's flag is set. The window is then fully reset and idle. |
| PdfText.ExtractTextFromPdf | project1_pdf/text_extractor.py:41-60 | The result of the page loop equals `PdfText(reader)`. A page whose extraction raised or returned nothing adds no block. |
| PdfText.AssembledShape | project1_pdf/text_extractor.py:47-52 | The assembled text is empty if and only if no page contributes. When it is not empty, it starts with a newline. |
| PdfText.PageBlockDash | project1_pdf/text_extractor.py:51-52 | The second character of a page block is the dash of its header. |
| PdfText.AssembledNotBlank | project1_pdf/text_extractor.py:51-57 | A non-empty assembled text has the header's dash as its second character, so it is never blank after stripping. |
| PdfText.NoTextExactlyWhenNoPageContributes | project1_pdf/text_extractor.py:47-57 | A readable PDF gives the no-text message if and only if no page contributed text. |
| PdfText.ErrorMarkExactlyOnFailure | project1_pdf/text_extractor.py:41-60 | The result starts with "❌" if and only if the reader raised or no page contributed. |
| PdfText.AssembledPrefix | project1_pdf/text_extractor.py:47-55 | The text of the first k pages is a prefix of the text of all pages. |
| PdfText.PageTextAppearsInOrder | project1_pdf/text_extractor.py:47-55 | A contributing page's numbered header and its text appear verbatim, at the offset where the earlier pages' text ends. |
| Jargon.GetJargonData | project1_pdf/jargon_db.py:27-60 | There are six built-in entries. |
| Jargon.EntryDocuments | project1_pdf/jargon_db.py:72-83 | Produces one document per entry, in entry order. |
| Jargon.ExamplesLineExactlyWhenExamples | project1_pdf/jargon_db.py:104-111 | A result block starts with the bold term and its definition. It has an examples line if and only if the examples are non-empty. |
| Jargon.EntryDocumentShowsEntry | project1_pdf/jargon_db.py:72-111 | Formatting the document built from an entry shows that entry's term, definition and examples. |
| Jargon.FoundResultsStartWithFirstTerm | project1_pdf/jargon_db.py:102-113 | A successful search with hits starts with the first hit's term in bold, so it is never one of the fixed messages. |
| Jargon.JargonDatabase.constructor | project1_pdf/jargon_db.py:9-25 | The index exists if and only if the embedding model loaded and the build did not raise. It then holds the six entry documents. |
| Jargon.JargonDatabase.BuildDatabase | project1_pdf/jargon_db.py:62-89 | Without embeddings, or when the build raises, the index is left as it was. Otherwise it becomes the entry documents, in order. |
| Jargon.JargonDatabase.SearchJargon | project1_pdf/jargon_db.py:91-116 | Returns "not ready" without an index, the error text when the search raised, and "not found" for no hits. Otherwise it returns the formatted hits in order, separated by blank lines. |
| Conversation.Recent | project1_pdf/conversation_manager.py:38 | Follows Python's `log[-n:]`: the last n exchanges for positive n, the whole log for 0, and a suffix that drops the first -n for negative n. The result is always a suffix of the log. |
| Conversation.HistoryTextAppend | project1_pdf/conversation_manager.py:40-43 | The history of a concatenation is the concatenation of the histories. |
| Conversation.HistoryTextStartsWithUser | project1_pdf/conversation_manager.py:41-43 | A non-empty history starts with the first exchange's user line. |
| Conversation.HistoryEmptyIffNoExchanges | project1_pdf/conversation_manager.py:36-45 | The stripped history is empty if and only if there are no exchanges. |
| Conversation.DisplayTextStartsWithTime | project1_pdf/conversation_manager.py:61-70 | A non-empty chat display starts with the first exchange's time line. |
| Conversation.DisplayBlockLength | project1_pdf/conversation_manager.py:64-67 | One exchange's block is exactly 79 fixed characters (clock, the two labels, the 50-dash rule and the line breaks) plus its time, question and answer. |
| Conversation.DisplayTextLength | project1_pdf/conversation_manager.py:61-70 | Each exchange adds at least its 79 fixed characters. The display is empty if and only if the log is. |
| Conversation.ConversationManager.constructor | project1_pdf/conversation_manager.py:6-12 | A new manager has the given bound and an empty log. |
| Conversation.ConversationManager.AddExchange | project1_pdf/conversation_manager.py:14-31 | The exchange is appended at the end. The oldest exchange is dropped when the log then exceeds the bound. |
| Conversation.ConversationManager.GetConversationHistory | project1_pdf/conversation_manager.py:36-45 | Returns the stripped history of the last n exchanges. |
| Conversation.ConversationManager.ClearMemory | project1_pdf/conversation_manager.py:55-59 | The log becomes empty. |
| Conversation.ConversationManager.GetFormattedChatDisplay | project1_pdf/conversation_manager.py:61-70 | Returns the display blocks of the whole log, oldest first. |
| Conversation.AddExchangeKeepsOrder | project1_pdf/conversation_manager.py:27-31 | Adding an exchange keeps the log within its bound, puts the new exchange last, and keeps the others in order, minus the oldest when the log overflowed. |
| PaperApp.NormalizedUrlHasScheme | project1_pdf/main_app.py:99-105 | A blank input gives no address. Any other input gives an address with an http(s) scheme that ends with the stripped input, unchanged if it already had a scheme. |
| PaperApp.NormalizeUrlIdempotent | project1_pdf/main_app.py:99-105 | Normalising a normalised address changes nothing. |
| PaperApp.PromptsChainThroughAnswers | project1_pdf/main_app.py:130-173 | No prompt reaches a model that is not ready. The first prompt is built from the paper, and each later one from the model's answer to the one before, with that prompt's budget. The analysis completes if and only if all three prompts were answered. |
| PaperApp.AnalysisCompletesWhenHandlerAnswers | project1_pdf/main_app.py:136-170 | With a ready model whose handler answers every call with text, the analysis always completes, and the three answers, error texts included, are the report's sections. |
| PaperApp.ReportSectionsInOrder | project1_pdf/main_app.py:142-162 | A completed report is the summary, debate and verdict sections back to back, ending with the completion notice. |
| PaperApp.PdfFailuresNeverReachAnalysis | project1_pdf/main_app.py:123-128 | An unreadable PDF, or one without text, is shown as an error and never analysed. Otherwise the analysis gets the assembled page text. |
| PaperApp.ChatPanePlaceholderExactlyWhenEmpty | project1_pdf/main_app.py:206-212 | The invitation is shown if and only if the log is empty. Otherwise the pane starts with the first exchange's time line. |
| PaperApp.ChatAddsAtMostOneExchange | project1_pdf/main_app.py:175-204 | A chat turn keeps the log within its bound. It adds at most one exchange, last, holding the stripped question, and only when the mediator is active, the question is not blank and no exception escaped the step. |
| PaperApp.PaperAnalyzerApp.constructor | project1_pdf/main_app.py:20-25 | The window starts with empty panes and the mediator inactive. |
| PaperApp.PaperAnalyzerApp.ShowError | project1_pdf/main_app.py:228-231 | The output pane shows the error heading and the message. Nothing else changes. |
| PaperApp.PaperAnalyzerApp.ShowChatMessage | project1_pdf/main_app.py:218-221 | The message is appended, on its own line, below what the chat pane shows. |
| PaperApp.PaperAnalyzerApp.UpdateChatDisplay | project1_pdf/main_app.py:206-212 | The chat pane shows the formatted log, or the invitation when the log is empty. |
| PaperApp.PaperAnalyzerApp.RunFullAnalysis | project1_pdf/main_app.py:130-173 | The window shows `FullAnalysis`, which issues the prompts `PromptsIssued`. A model that is not ready is refused. Otherwise whatever the handler answers, its own "❌" texts included, becomes the three sections; completion activates the mediator and clears the log. An exception escaping a step shows the analysis error and changes nothing else. |
| PaperApp.PaperAnalyzerApp.AnalyzeUrl | project1_pdf/main_app.py:97-113 | A blank address is refused before anything is fetched. Otherwise the fetched text is routed: the error is shown if it starts with "❌", and is analysed if not. |
| PaperApp.PaperAnalyzerApp.AnalyzePdf | project1_pdf/main_app.py:115-128 | A cancelled file dialog changes nothing. Otherwise the extracted text is routed like a fetched page. |
| PaperApp.PaperAnalyzerApp.HandleChat | project1_pdf/main_app.py:175-204 | Before an analysis, the turn is refused with a notice. A blank question is ignored. Otherwise the handler's answer, even an "❌" text, is logged and shown and the input cleared. An exception escaping the step appends the error notice and logs nothing. |
| PaperApp.PaperAnalyzerApp.BuildChatPrompt | project1_pdf/main_app.py:186-193 | The prompt holds the question, the jargon search result for it and the history of the last three exchanges. |
| PaperApp.PaperAnalyzerApp.RecordAnswer | project1_pdf/main_app.py:196-201 | The exchange is added to the bounded log, the chat pane shows the log and the input is cleared. |
| PaperApp.PaperAnalyzerApp.AskMediator | project1_pdf/main_app.py:185-204 | The handler's answer, even an "❌" text, is logged and shown. An exception escaping the step appends the error notice and leaves the log unchanged. |

## Left out

- Widgets, layouts, status and title text, message boxes and the image preview are not modelled. This covers the drag-and-drop handlers, the open-file dialog, the `ExplanationDialog` display and `closeEvent`'s wait for the thread pool. A message box is only a notification.
- The paper analyser's handlers (`run_full_analysis`, `analyze_url`, `analyze_pdf`, `handle_chat`) are modelled as atomic steps. The source calls `QApplication.processEvents()` while a handler runs (project1_pdf/main_app.py:144, :153 and inside `set_status` at :226), so queued clicks can run in the middle of it: a second analysis, or a chat whose exchange a later memory clear removes. These interleavings are not captured.
- Threads and the thread pool are not modelled. A worker's run is one call, its signals are a list delivered to the window in order, and the stop flag is sampled once at each of the worker's four polls.
- The OCR engine, the language models, image loading, `os.path.exists`, library imports, the web fetch (`extract_text_from_url`), the PDF reader and the clock are inputs. `project1_pdf/llm_handler.py` and `project1_pdf/requirements_run.py` are not part of this model, and neither are the prompt templates' wording. Prompts are recorded by the text they are built from.
- Sampling parameters (temperature and the like) are not modelled. Only the token budgets are.
- The `llm model missing` guards at `project2_ocr/main.py:143-144` and `:180-181` cannot fire: the model is either constructed or has raised by then. They are not modelled as branches.
- The worker's `error` signal carries a `Failure` value rather than the formatted message and traceback.
- LangChain's `ConversationBufferMemory` is not modelled, and neither is `get_memory_variables`. The log is modelled; the memory only mirrors it for prompts the window never reads.
- Conversation.ConversationManager.AddExchange: always appends. In the source, an exception from the LangChain memory (`project1_pdf/conversation_manager.py:16-34`) skips the log append and the bound check as well; the memory is not modelled, so that path is not.
- In the paper analyser, the model's handler (`project1_pdf/llm_handler.py:27-43`) never raises: it returns an "❌" text when no model is loaded or generation fails. The `generate` oracle's `Ok` results cover those texts, so a failed generation completes the analysis and is logged as a chat answer, as in the source. `Raised` stands only for an exception escaping a step in some other way, such as from a prompt builder, which is not part of this model.
- Conversation.ConversationManager.AddExchange: the timestamp is a parameter rather than `datetime.now()`.
- Jargon.JargonDatabase.SearchJargon: the similarity ranking and the hit limit `k` are not modelled. The documents the index returns are an input.
- Jargon.GetJargonData: states only the number of entries. The entry values are the constants beside it.
- OcrController.MainWindow.LoadImageAndPrepareAnalysis: requires a non-empty path. Its callers pass either a file the dialog returned or a dropped local file, and both are non-empty.
- OcrController.MainWindow.HandleWorkerFinished: `project2_ocr/main.py:517` compares the runnable's task type with `"corrected_text_result"`, which no task type equals. The model keeps the condition as written, so progress becomes 100 whenever the slot is held.
- The chat pane's scrolling is not modelled.
