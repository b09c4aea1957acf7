/** The background worker of the image-analysis window (`OCRLLMWorker.run`).
    One run executes one task attempt and reports it as an ordered list of
    signals: `progress(task, percent)`, `result(kind, data)`, `error(message)`
    and `finished()`.  The recognition engine, the generation engine, the
    image loader, the file system and the installed libraries are inputs
    (an `Environment`), and so is the value of the stop flag at each of the
    four places where the worker polls it. */
module OcrWorker {
  import opened Basics
  import opened Text

  // Task types the window starts.
  const OCR_CORRECT := "ocr_correct"
  const EXPLAIN := "explain"

  // Kinds carried by the `result` signal.
  const OCR_RESULT := "ocr_result"
  const CORRECTED_RESULT := "corrected_text_result"
  const EXPLANATION_RESULT := "explanation_result"

  datatype Library = EasyOcr | Gpt4All | OpenCv

  /** Why the body of a run raised; the `error` signal reports it. */
  datatype Failure =
    | MissingLibrary(library: Library)
    | InvalidImagePath
    | ImageNotLoadable
    | ReaderLoadFailed(reason: string)
    | RecognitionFailed(reason: string)
    | ModelLoadFailed(reason: string)
    | GenerationFailed(reason: string)
    | NoTextToExplain

  /** One emitted signal. `Error` keeps the task type that its message names. */
  datatype Event =
    | Progress(task: string, percent: int)
    | Result(kind: string, data: string)
    | Error(task: string, failure: Failure)
    | Finished

  /** The two prompts; their template wording is not modelled, only the text
      each one embeds. */
  datatype Prompt = CorrectionPrompt(ocrText: string) | ExplanationPrompt(document: string)

  /** Everything outside the worker that decides how a run goes. */
  datatype Environment = Environment(
    easyocrInstalled: bool,
    gpt4allInstalled: bool,
    cv2Installed: bool,
    pathExists: string -> bool,                  // os.path.exists
    imageLoads: string -> bool,                  // cv2.imread(path) is not None
    readerPreloaded: bool,                       // a preloaded recognition reader was handed over
    readerLoad: Attempt<()>,                     // constructing a reader inside the worker
    readText: string -> Attempt<seq<string>>,    // reader.readtext(path, detail=0, paragraph=True)
    modelPreloaded: bool,                        // a preloaded generation model was handed over
    modelLoad: Attempt<()>,                      // constructing the model inside the worker
    generate: (Prompt, int) -> Attempt<string>)  // model.generate(prompt, max_tokens)

  /** The stop flag as seen at the polls before recognition, after
      recognition, before correction and before explanation. */
  datatype StopSamples = StopSamples(beforeRecognize: bool, afterRecognize: bool, beforeCorrect: bool, beforeExplain: bool)

  /** What the window hands to a worker: the task type and its keyword payload. */
  datatype Job = Job(taskType: string, imagePath: Option<string>, textInput: Option<string>)

  // ---------------------------------------------------------------------------
  // Conditions on the inputs

  predicate OcrLibrariesInstalled(env: Environment) {
    env.easyocrInstalled && env.gpt4allInstalled && env.cv2Installed
  }

  /** The image path is set and names an existing file. */
  predicate PathValid(job: Job, env: Environment) {
    Truthy(job.imagePath) && env.pathExists(job.imagePath.value)
  }

  predicate ImageUsable(job: Job, env: Environment) {
    PathValid(job, env) && env.imageLoads(job.imagePath.value)
  }

  predicate ReaderReady(env: Environment) {
    env.readerPreloaded || env.readerLoad.Ok?
  }

  predicate ModelReady(env: Environment) {
    env.modelPreloaded || env.modelLoad.Ok?
  }

  /** The recognition run reaches the stop-flag poll before recognising. */
  predicate ReachesPollBeforeRecognize(job: Job, env: Environment) {
    job.taskType == OCR_CORRECT && OcrLibrariesInstalled(env) && ImageUsable(job, env) && ReaderReady(env)
  }

  /** ... and recognition returned, so the poll after recognition is reached. */
  predicate ReachesPollAfterRecognize(job: Job, env: Environment, stop: StopSamples) {
    ReachesPollBeforeRecognize(job, env) && !stop.beforeRecognize && env.readText(job.imagePath.value).Ok?
  }

  predicate ReachesPollBeforeCorrect(job: Job, env: Environment, stop: StopSamples) {
    ReachesPollAfterRecognize(job, env, stop) && !stop.afterRecognize && ModelReady(env)
  }

  predicate ReachesPollBeforeExplain(job: Job, env: Environment) {
    job.taskType == EXPLAIN && env.gpt4allInstalled && Truthy(job.textInput) && ModelReady(env)
  }

  /** The stop flag was seen set at a poll the run reached. */
  predicate StoppedEarly(job: Job, env: Environment, stop: StopSamples) {
    || (ReachesPollBeforeRecognize(job, env) && stop.beforeRecognize)
    || (ReachesPollAfterRecognize(job, env, stop) && stop.afterRecognize)
    || (ReachesPollBeforeCorrect(job, env, stop) && stop.beforeCorrect)
    || (ReachesPollBeforeExplain(job, env) && stop.beforeExplain)
  }

  /** The recognised fragments joined by newlines. */
  function RawText(job: Job, env: Environment, stop: StopSamples): string
    requires ReachesPollAfterRecognize(job, env, stop)
  {
    Join(env.readText(job.imagePath.value).value, "\n")
  }

  /** The `max_tokens` passed to the generator: twice the length of the OCR
      text plus 300 when correcting, the length of the document plus 500 when
      explaining. */
  function CorrectionBudget(raw: string): int { |raw| * 2 + 300 }
  function ExplanationBudget(document: string): int { |document| + 500 }

  /** Some step of the run raised. */
  predicate Fails(job: Job, env: Environment, stop: StopSamples) {
    || (job.taskType == OCR_CORRECT && !OcrLibrariesInstalled(env))
    || (job.taskType == OCR_CORRECT && OcrLibrariesInstalled(env) && !ImageUsable(job, env))
    || (job.taskType == OCR_CORRECT && OcrLibrariesInstalled(env) && ImageUsable(job, env) && !ReaderReady(env))
    || (ReachesPollBeforeRecognize(job, env) && !stop.beforeRecognize && env.readText(job.imagePath.value).Raised?)
    || (ReachesPollAfterRecognize(job, env, stop) && !stop.afterRecognize && !ModelReady(env))
    || (ReachesPollBeforeCorrect(job, env, stop) && !stop.beforeCorrect
        && env.generate(CorrectionPrompt(RawText(job, env, stop)), CorrectionBudget(RawText(job, env, stop))).Raised?)
    || (job.taskType == EXPLAIN && !env.gpt4allInstalled)
    || (job.taskType == EXPLAIN && env.gpt4allInstalled && !Truthy(job.textInput))
    || (job.taskType == EXPLAIN && env.gpt4allInstalled && Truthy(job.textInput) && !ModelReady(env))
    || (ReachesPollBeforeExplain(job, env) && !stop.beforeExplain
        && env.generate(ExplanationPrompt(job.textInput.value), ExplanationBudget(job.textInput.value)).Raised?)
  }

  // ---------------------------------------------------------------------------
  // Properties of an emitted signal list

  predicate EndsWithFinished(events: seq<Event>) {
    |events| > 0 && events[|events| - 1] == Finished
  }

  /** An error, if any, is the second-to-last signal: so there is at most one,
      and nothing but the final `finished` follows it. */
  predicate ErrorOnlyBeforeLast(events: seq<Event>) {
    forall i :: 0 <= i < |events| && events[i].Error? ==> i == |events| - 2
  }

  predicate HasError(events: seq<Event>) {
    exists i :: 0 <= i < |events| && events[i].Error?
  }

  predicate ProgressNonDecreasing(events: seq<Event>) {
    forall i, j :: 0 <= i < j < |events| && events[i].Progress? && events[j].Progress? ==>
      events[i].percent <= events[j].percent
  }

  predicate IsResult(e: Event, kind: string) {
    e.Result? && e.kind == kind
  }

  predicate NoResults(events: seq<Event>) {
    forall i :: 0 <= i < |events| ==> !events[i].Result?
  }

  predicate NoResultOfKind(events: seq<Event>, kind: string) {
    forall i :: 0 <= i < |events| ==> !IsResult(events[i], kind)
  }

  /** Every corrected-text result is preceded by a raw-text result and then by
      progress 50 of the recognition task. */
  predicate CorrectedFollowsRaw(events: seq<Event>) {
    forall j :: 0 <= j < |events| && IsResult(events[j], CORRECTED_RESULT) ==>
      exists i, k :: 0 <= i < k < j && IsResult(events[i], OCR_RESULT) && events[k] == Progress(OCR_CORRECT, 50)
  }

  /** How many `finished` signals the list holds. */
  function FinishedCount(events: seq<Event>): nat {
    if events == [] then 0
    else (if events[0] == Finished then 1 else 0) + FinishedCount(events[1..])
  }

  lemma {:induction false} FinishedCountConcat(a: seq<Event>, b: seq<Event>)
    ensures FinishedCount(a + b) == FinishedCount(a) + FinishedCount(b)
  {
    if a == [] {
      assert a + b == b;
    } else {
      assert (a + b)[1..] == a[1..] + b;
      FinishedCountConcat(a[1..], b);
    }
  }

  lemma {:induction false} NoFinishedCountsZero(events: seq<Event>)
    requires Finished !in events
    ensures FinishedCount(events) == 0
  {
    if events != [] {
      NoFinishedCountsZero(events[1..]);
    }
  }

  // ---------------------------------------------------------------------------
  // What a run emits

  /** `opt or default` for an optional string. */
  function ValueOr(o: Option<string>, default: string): string {
    if o.Some? then o.value else default
  }

  /** The recognised text: the fragments `readtext` returns for the image
      path, joined by newlines. */
  function RecognisedText(job: Job, env: Environment): Option<string> {
    if job.imagePath.None? then None
    else match env.readText(job.imagePath.value)
      case Ok(fragments) => Some(Join(fragments, "\n"))
      case Raised(_) => None
  }

  /** The generator's correction of the recognised text, stripped. */
  function CorrectedText(job: Job, env: Environment): Option<string> {
    match RecognisedText(job, env)
    case None => None
    case Some(raw) =>
      match env.generate(CorrectionPrompt(raw), CorrectionBudget(raw))
      case Ok(text) => Some(Strip(text))
      case Raised(_) => None
  }

  /** The generator's explanation of the text input, stripped. */
  function ExplanationText(job: Job, env: Environment): Option<string> {
    if job.textInput.None? then None
    else
      var document := job.textInput.value;
      match env.generate(ExplanationPrompt(document), ExplanationBudget(document))
      case Ok(text) => Some(Strip(text))
      case Raised(_) => None
  }

  /** The signals of an `ocr_correct` run in which every step succeeds. */
  function OcrStages(raw: string, corrected: string): seq<Event> {
    [Progress(OCR_CORRECT, 5), Progress(OCR_CORRECT, 10), Result(OCR_RESULT, raw), Progress(OCR_CORRECT, 50),
     Progress(OCR_CORRECT, 55), Result(CORRECTED_RESULT, corrected), Progress(OCR_CORRECT, 100)]
  }

  /** The signals of an `explain` run in which every step succeeds. */
  function ExplainStages(explanation: string): seq<Event> {
    [Progress(EXPLAIN, 10), Result(EXPLANATION_RESULT, explanation), Progress(EXPLAIN, 100)]
  }

  /** The stage signals of the job's task; an unknown task type has none. */
  function Stages(job: Job, env: Environment): seq<Event> {
    if job.taskType == OCR_CORRECT then OcrStages(ValueOr(RecognisedText(job, env), ""), ValueOr(CorrectedText(job, env), ""))
    else if job.taskType == EXPLAIN then ExplainStages(ValueOr(ExplanationText(job, env), ""))
    else []
  }

  /** How the `try` block ends: it returns (normally, or at a stop-flag poll
      after emitting `finished` itself) or it raises. */
  datatype Outcome = Returned | Raises(failure: Failure)

  /** How far the `try` block got: it emitted the first `reached` stage
      signals of its task, then `finished` if it returned at a stop-flag poll,
      and it ended with `outcome`. */
  datatype BodyExit = BodyExit(reached: nat, stoppedAtPoll: bool, outcome: Outcome)

  /** Where the `try` block of an `ocr_correct` task stops: the library
      checks, the path and image checks (after progress 5), the reader
      construction and the first poll (after progress 10), recognition, the
      second poll (after the raw text and progress 50), the model
      construction and the third poll (after progress 55), generation. */
  function OcrCorrectExit(job: Job, env: Environment, stop: StopSamples): BodyExit {
    if !env.easyocrInstalled then BodyExit(0, false, Raises(MissingLibrary(EasyOcr)))
    else if !env.gpt4allInstalled then BodyExit(0, false, Raises(MissingLibrary(Gpt4All)))
    else if !env.cv2Installed then BodyExit(0, false, Raises(MissingLibrary(OpenCv)))
    else if !PathValid(job, env) then BodyExit(1, false, Raises(InvalidImagePath))
    else if !env.imageLoads(job.imagePath.value) then BodyExit(1, false, Raises(ImageNotLoadable))
    else if !ReaderReady(env) then BodyExit(2, false, Raises(ReaderLoadFailed(env.readerLoad.reason)))
    else if stop.beforeRecognize then BodyExit(2, true, Returned)
    else match env.readText(job.imagePath.value)
      case Raised(reason) => BodyExit(2, false, Raises(RecognitionFailed(reason)))
      case Ok(fragments) =>
        var raw := Join(fragments, "\n");
        if stop.afterRecognize then BodyExit(4, true, Returned)
        else if !ModelReady(env) then BodyExit(5, false, Raises(ModelLoadFailed(env.modelLoad.reason)))
        else if stop.beforeCorrect then BodyExit(5, true, Returned)
        else match env.generate(CorrectionPrompt(raw), CorrectionBudget(raw))
          case Raised(reason) => BodyExit(5, false, Raises(GenerationFailed(reason)))
          case Ok(_) => BodyExit(7, false, Returned)
  }

  /** Where the `try` block of an `explain` task stops: the library check,
      the text check and the model construction (after progress 10), the
      poll, generation. */
  function ExplainExit(job: Job, env: Environment, stop: StopSamples): BodyExit {
    if !env.gpt4allInstalled then BodyExit(0, false, Raises(MissingLibrary(Gpt4All)))
    else if !Truthy(job.textInput) then BodyExit(1, false, Raises(NoTextToExplain))
    else if !ModelReady(env) then BodyExit(1, false, Raises(ModelLoadFailed(env.modelLoad.reason)))
    else if stop.beforeExplain then BodyExit(1, true, Returned)
    else
      var document := job.textInput.value;
      match env.generate(ExplanationPrompt(document), ExplanationBudget(document))
      case Raised(reason) => BodyExit(1, false, Raises(GenerationFailed(reason)))
      case Ok(_) => BodyExit(3, false, Returned)
  }

  function TryBlockExit(job: Job, env: Environment, stop: StopSamples): BodyExit {
    if job.taskType == OCR_CORRECT then OcrCorrectExit(job, env, stop)
    else if job.taskType == EXPLAIN then ExplainExit(job, env, stop)
    else BodyExit(0, false, Returned)
  }

  /** The exit is well formed: it never reaches past the task's stage
      signals, and a return at a poll is not a raise. */
  lemma ExitIsWellFormed(job: Job, env: Environment, stop: StopSamples)
    ensures TryBlockExit(job, env, stop).reached <= |Stages(job, env)|
    ensures TryBlockExit(job, env, stop).stoppedAtPoll ==> TryBlockExit(job, env, stop).outcome == Returned
  {
  }

  /** The signals of a run that stopped at `exit`, given its task's stage
      signals: the stage signals it reached, `finished` if it returned at a
      poll (both from the `try` block), one `error` if it raised (the
      `except` block), then `finished` (the `finally` block). */
  function Signals(stages: seq<Event>, exit: BodyExit, task: string): seq<Event>
    requires exit.reached <= |stages|
  {
    stages[..exit.reached]
    + (if exit.stoppedAtPoll then [Finished] else [])
    + (if exit.outcome.Raises? then [Error(task, exit.outcome.failure)] else [])
    + [Finished]
  }

  /** The whole signal list of one run. */
  function Trace(job: Job, env: Environment, stop: StopSamples): seq<Event> {
    ExitIsWellFormed(job, env, stop);
    Signals(Stages(job, env), TryBlockExit(job, env, stop), job.taskType)
  }

  // ---------------------------------------------------------------------------
  // The stage signals

  /** Stage signals are only `progress` and `result`, with progress rising. */
  predicate StageShaped(stages: seq<Event>) {
    && (forall i :: 0 <= i < |stages| ==> stages[i].Progress? || stages[i].Result?)
    && ProgressNonDecreasing(stages)
  }

  lemma OcrStagesShaped(raw: string, corrected: string)
    ensures StageShaped(OcrStages(raw, corrected))
  {
    var s := OcrStages(raw, corrected);
    forall i, j | 0 <= i < j < |s| && s[i].Progress? && s[j].Progress?
      ensures s[i].percent <= s[j].percent
    {
    }
  }

  lemma ExplainStagesShaped(explanation: string)
    ensures StageShaped(ExplainStages(explanation))
  {
  }

  lemma StagesShaped(job: Job, env: Environment)
    ensures StageShaped(Stages(job, env))
  {
    if job.taskType == OCR_CORRECT {
      OcrStagesShaped(ValueOr(RecognisedText(job, env), ""), ValueOr(CorrectedText(job, env), ""));
    } else if job.taskType == EXPLAIN {
      ExplainStagesShaped(ValueOr(ExplanationText(job, env), ""));
    }
  }

  /** Where each result sits among the stage signals: the raw text third and
      the corrected text sixth in a recognition task, the explanation second
      in an explanation task. */
  lemma StageResults(job: Job, env: Environment, i: int)
    requires 0 <= i < |Stages(job, env)| && Stages(job, env)[i].Result?
    ensures IsResult(Stages(job, env)[i], OCR_RESULT) ==>
      job.taskType == OCR_CORRECT && i == 2 && Stages(job, env)[i].data == ValueOr(RecognisedText(job, env), "")
    ensures IsResult(Stages(job, env)[i], CORRECTED_RESULT) ==>
      job.taskType == OCR_CORRECT && i == 5 && Stages(job, env)[i].data == ValueOr(CorrectedText(job, env), "")
    ensures IsResult(Stages(job, env)[i], EXPLANATION_RESULT) ==>
      job.taskType == EXPLAIN && i == 1 && Stages(job, env)[i].data == ValueOr(ExplanationText(job, env), "")
  {
  }

  // ---------------------------------------------------------------------------
  // Where the try block stops

  /** The `try` block raises exactly when one of its steps fails. */
  lemma RaisesExactlyWhenFails(job: Job, env: Environment, stop: StopSamples)
    ensures TryBlockExit(job, env, stop).outcome.Raises? <==> Fails(job, env, stop)
  {
  }

  /** The `try` block returns at a poll exactly when the stop flag was seen
      set at a poll it reached. */
  lemma StopsAtPollExactlyWhenStoppedEarly(job: Job, env: Environment, stop: StopSamples)
    ensures TryBlockExit(job, env, stop).stoppedAtPoll <==> StoppedEarly(job, env, stop)
  {
  }

  /** Reaching a stage signal means every step before it succeeded. */
  lemma ReachedMeansStepsSucceeded(job: Job, env: Environment, stop: StopSamples)
    ensures job.taskType == OCR_CORRECT && TryBlockExit(job, env, stop).reached > 2 ==>
      ReachesPollAfterRecognize(job, env, stop) && RecognisedText(job, env) == Some(RawText(job, env, stop))
    ensures job.taskType == OCR_CORRECT && TryBlockExit(job, env, stop).reached > 5 ==>
      ReachesPollBeforeCorrect(job, env, stop) && !stop.beforeCorrect && CorrectedText(job, env).Some?
    ensures job.taskType == EXPLAIN && TryBlockExit(job, env, stop).reached > 1 ==>
      ReachesPollBeforeExplain(job, env) && !stop.beforeExplain && ExplanationText(job, env).Some?
  {
  }

  // ---------------------------------------------------------------------------
  // The signal list of any exit

  /** Each signal is a reached stage signal, a `finished`, or the `error`
      second to last. */
  lemma SignalAt(stages: seq<Event>, exit: BodyExit, task: string, i: int)
    requires exit.reached <= |stages| && (exit.stoppedAtPoll ==> exit.outcome == Returned)
    requires 0 <= i < |Signals(stages, exit, task)|
    ensures var t := Signals(stages, exit, task);
      || (i < exit.reached && t[i] == stages[i])
      || t[i] == Finished
      || (t[i].Error? && exit.outcome.Raises? && i == |t| - 2)
  {
  }

  lemma SignalsErrorOnlyBeforeLast(stages: seq<Event>, exit: BodyExit, task: string)
    requires exit.reached <= |stages| && (exit.stoppedAtPoll ==> exit.outcome == Returned)
    requires StageShaped(stages)
    ensures ErrorOnlyBeforeLast(Signals(stages, exit, task))
    ensures HasError(Signals(stages, exit, task)) <==> exit.outcome.Raises?
  {
    var t := Signals(stages, exit, task);
    forall i | 0 <= i < |t| && t[i].Error?
      ensures i == |t| - 2 && exit.outcome.Raises?
    {
      SignalAt(stages, exit, task, i);
    }
    if exit.outcome.Raises? {
      assert t[|t| - 2].Error?;
    }
  }

  lemma SignalsFinishedCount(stages: seq<Event>, exit: BodyExit, task: string)
    requires exit.reached <= |stages| && (exit.stoppedAtPoll ==> exit.outcome == Returned)
    requires StageShaped(stages)
    ensures FinishedCount(Signals(stages, exit, task)) == if exit.stoppedAtPoll then 2 else 1
  {
    var prefix := stages[..exit.reached];
    assert Finished !in prefix by {
      forall i | 0 <= i < |prefix| ensures prefix[i] != Finished {
        assert prefix[i] == stages[i];
      }
    }
    var inline := if exit.stoppedAtPoll then [Finished] else [];
    var error := if exit.outcome.Raises? then [Error(task, exit.outcome.failure)] else [];
    NoFinishedCountsZero(prefix);
    NoFinishedCountsZero(error);
    assert FinishedCount(inline) == if exit.stoppedAtPoll then 1 else 0;
    assert FinishedCount([Finished]) == 1;
    FinishedCountConcat(prefix, inline);
    FinishedCountConcat(prefix + inline, error);
    FinishedCountConcat(prefix + inline + error, [Finished]);
  }

  lemma SignalsProgressMonotone(stages: seq<Event>, exit: BodyExit, task: string)
    requires exit.reached <= |stages| && (exit.stoppedAtPoll ==> exit.outcome == Returned)
    requires StageShaped(stages)
    ensures ProgressNonDecreasing(Signals(stages, exit, task))
  {
    var t := Signals(stages, exit, task);
    forall i, j | 0 <= i < j < |t| && t[i].Progress? && t[j].Progress?
      ensures t[i].percent <= t[j].percent
    {
      SignalAt(stages, exit, task, i);
      SignalAt(stages, exit, task, j);
    }
  }

  // ---------------------------------------------------------------------------
  // Properties of every run

  /** `finished` is the last signal of every run. */
  lemma FinishedIsLast(job: Job, env: Environment, stop: StopSamples)
    ensures EndsWithFinished(Trace(job, env, stop))
  {
  }

  /** A run emits at most one `error`, and only the final `finished` follows
      it: no `result` or `progress` comes after a failure. */
  lemma ErrorIsFollowedOnlyByFinished(job: Job, env: Environment, stop: StopSamples)
    ensures ErrorOnlyBeforeLast(Trace(job, env, stop))
  {
    ExitIsWellFormed(job, env, stop);
    StagesShaped(job, env);
    SignalsErrorOnlyBeforeLast(Stages(job, env), TryBlockExit(job, env, stop), job.taskType);
  }

  /** A run emits an `error` exactly when one of its steps raised: a missing
      library, a bad path, an unloadable image, an empty text to explain, a
      model or reader that could not be constructed, or an engine call. */
  lemma ErrorExactlyWhenFails(job: Job, env: Environment, stop: StopSamples)
    ensures HasError(Trace(job, env, stop)) <==> Fails(job, env, stop)
  {
    ExitIsWellFormed(job, env, stop);
    StagesShaped(job, env);
    SignalsErrorOnlyBeforeLast(Stages(job, env), TryBlockExit(job, env, stop), job.taskType);
    RaisesExactlyWhenFails(job, env, stop);
  }

  /** `finished` is emitted once, or twice when the stop flag ended the run
      early (once inline, once by the `finally` block). */
  lemma FinishedOnceOrTwiceWhenStopped(job: Job, env: Environment, stop: StopSamples)
    ensures FinishedCount(Trace(job, env, stop)) == if StoppedEarly(job, env, stop) then 2 else 1
  {
    ExitIsWellFormed(job, env, stop);
    StagesShaped(job, env);
    SignalsFinishedCount(Stages(job, env), TryBlockExit(job, env, stop), job.taskType);
    StopsAtPollExactlyWhenStoppedEarly(job, env, stop);
  }

  /** Progress never goes backwards within a run. */
  lemma ProgressIsMonotone(job: Job, env: Environment, stop: StopSamples)
    ensures ProgressNonDecreasing(Trace(job, env, stop))
  {
    ExitIsWellFormed(job, env, stop);
    StagesShaped(job, env);
    SignalsProgressMonotone(Stages(job, env), TryBlockExit(job, env, stop), job.taskType);
  }

  /** A result in a run is a stage result the `try` block reached. */
  lemma ResultIsReachedStage(job: Job, env: Environment, stop: StopSamples, i: int)
    requires 0 <= i < |Trace(job, env, stop)| && Trace(job, env, stop)[i].Result?
    ensures i < TryBlockExit(job, env, stop).reached
    ensures Trace(job, env, stop)[i] == Stages(job, env)[i]
  {
    ExitIsWellFormed(job, env, stop);
    SignalAt(Stages(job, env), TryBlockExit(job, env, stop), job.taskType, i);
  }

  lemma ReachedStageIsEmitted(job: Job, env: Environment, stop: StopSamples, i: int)
    requires 0 <= i < TryBlockExit(job, env, stop).reached
    ensures i < |Trace(job, env, stop)| && i < |Stages(job, env)|
    ensures Trace(job, env, stop)[i] == Stages(job, env)[i]
  {
    ExitIsWellFormed(job, env, stop);
  }

  /** A corrected text is only reported after the raw text and progress 50. */
  lemma CorrectionFollowsRecognition(job: Job, env: Environment, stop: StopSamples)
    ensures CorrectedFollowsRaw(Trace(job, env, stop))
  {
    var t := Trace(job, env, stop);
    forall j | 0 <= j < |t| && IsResult(t[j], CORRECTED_RESULT)
      ensures exists i, k :: 0 <= i < k < j && IsResult(t[i], OCR_RESULT) && t[k] == Progress(OCR_CORRECT, 50)
    {
      ResultIsReachedStage(job, env, stop, j);
      StageResults(job, env, j);
      ReachedStageIsEmitted(job, env, stop, 2);
      ReachedStageIsEmitted(job, env, stop, 3);
      assert IsResult(t[2], OCR_RESULT) && t[3] == Progress(OCR_CORRECT, 50);
    }
  }

  /** The raw-text result is the recognised fragments joined by newlines. */
  lemma RawTextIsJoinedFragments(job: Job, env: Environment, stop: StopSamples, i: int)
    requires 0 <= i < |Trace(job, env, stop)| && IsResult(Trace(job, env, stop)[i], OCR_RESULT)
    ensures ReachesPollAfterRecognize(job, env, stop)
    ensures Trace(job, env, stop)[i].data == Join(env.readText(job.imagePath.value).value, "\n")
  {
    ResultIsReachedStage(job, env, stop, i);
    StageResults(job, env, i);
    ReachedMeansStepsSucceeded(job, env, stop);
  }

  /** The corrected-text result is the stripped generation for a prompt that
      embeds the raw text, with a budget of twice its length plus 300. */
  lemma CorrectedTextIsStrippedGeneration(job: Job, env: Environment, stop: StopSamples, i: int)
    requires 0 <= i < |Trace(job, env, stop)| && IsResult(Trace(job, env, stop)[i], CORRECTED_RESULT)
    ensures ReachesPollBeforeCorrect(job, env, stop) && !stop.beforeCorrect
    ensures var raw := RawText(job, env, stop);
      var generated := env.generate(CorrectionPrompt(raw), CorrectionBudget(raw));
      generated.Ok? && Trace(job, env, stop)[i].data == Strip(generated.value)
  {
    ResultIsReachedStage(job, env, stop, i);
    StageResults(job, env, i);
    ReachedMeansStepsSucceeded(job, env, stop);
  }

  /** The explanation result is the stripped generation for a prompt that
      embeds the text input, with a budget of its length plus 500. */
  lemma ExplanationIsStrippedGeneration(job: Job, env: Environment, stop: StopSamples, i: int)
    requires 0 <= i < |Trace(job, env, stop)| && IsResult(Trace(job, env, stop)[i], EXPLANATION_RESULT)
    ensures ReachesPollBeforeExplain(job, env) && !stop.beforeExplain
    ensures var document := job.textInput.value;
      var generated := env.generate(ExplanationPrompt(document), ExplanationBudget(document));
      generated.Ok? && Trace(job, env, stop)[i].data == Strip(generated.value)
  {
    ResultIsReachedStage(job, env, stop, i);
    StageResults(job, env, i);
    ReachedMeansStepsSucceeded(job, env, stop);
  }

  /** A stop flag seen before recognition suppresses every result; one seen
      after recognition or before correction suppresses the corrected text. */
  lemma StopFlagSuppressesResults(job: Job, env: Environment, stop: StopSamples)
    requires job.taskType == OCR_CORRECT
    ensures stop.beforeRecognize ==> NoResults(Trace(job, env, stop))
    ensures stop.afterRecognize || stop.beforeCorrect ==> NoResultOfKind(Trace(job, env, stop), CORRECTED_RESULT)
  {
    var t := Trace(job, env, stop);
    forall i | 0 <= i < |t| && t[i].Result?
      ensures !stop.beforeRecognize
      ensures !IsResult(t[i], CORRECTED_RESULT) || (!stop.afterRecognize && !stop.beforeCorrect)
    {
      ResultIsReachedStage(job, env, stop, i);
      StageResults(job, env, i);
    }
  }

  /** A task type other than the two known ones only emits `finished`. */
  lemma UnknownTaskOnlyFinishes(job: Job, env: Environment, stop: StopSamples)
    requires job.taskType != OCR_CORRECT && job.taskType != EXPLAIN
    ensures Trace(job, env, stop) == [Finished]
  {
  }

  /** A successful recognition-and-correction run emits progress 5, 10, 50,
      55, 100 with the two results in between. */
  lemma OcrCorrectSuccess(job: Job, env: Environment, stop: StopSamples)
    requires ReachesPollBeforeCorrect(job, env, stop) && !stop.beforeCorrect && !Fails(job, env, stop)
    ensures var raw := RawText(job, env, stop);
      var corrected := Strip(env.generate(CorrectionPrompt(raw), CorrectionBudget(raw)).value);
      Trace(job, env, stop) ==
        [Progress(OCR_CORRECT, 5), Progress(OCR_CORRECT, 10), Result(OCR_RESULT, raw),
         Progress(OCR_CORRECT, 50), Progress(OCR_CORRECT, 55), Result(CORRECTED_RESULT, corrected),
         Progress(OCR_CORRECT, 100), Finished]
  {
    var raw := RawText(job, env, stop);
    var generated := env.generate(CorrectionPrompt(raw), CorrectionBudget(raw));
    assert generated.Raised? ==> Fails(job, env, stop);
    assert TryBlockExit(job, env, stop) == BodyExit(7, false, Returned);
    assert RecognisedText(job, env) == Some(raw);
    assert CorrectedText(job, env) == Some(Strip(generated.value));
  }

  /** A successful explanation run emits progress 10 and 100 around its result. */
  lemma ExplainSuccess(job: Job, env: Environment, stop: StopSamples)
    requires ReachesPollBeforeExplain(job, env) && !stop.beforeExplain && !Fails(job, env, stop)
    ensures var document := job.textInput.value;
      var explanation := Strip(env.generate(ExplanationPrompt(document), ExplanationBudget(document)).value);
      Trace(job, env, stop) == [Progress(EXPLAIN, 10), Result(EXPLANATION_RESULT, explanation), Progress(EXPLAIN, 100), Finished]
  {
    var document := job.textInput.value;
    var generated := env.generate(ExplanationPrompt(document), ExplanationBudget(document));
    assert generated.Raised? ==> Fails(job, env, stop);
    assert TryBlockExit(job, env, stop) == BodyExit(3, false, Returned);
    assert ExplanationText(job, env) == Some(Strip(generated.value));
  }

  // ---------------------------------------------------------------------------
  // The run

  function OutcomeOf(raised: Option<Failure>): Outcome {
    if raised.Some? then Raises(raised.value) else Returned
  }

  /** What a branch of the `try` block emitted and how it ended, compared with
      the exit `exit` over the stage signals `stages`. */
  predicate EmittedAs(events: seq<Event>, raised: Option<Failure>, stages: seq<Event>, exit: BodyExit) {
    && exit.reached <= |stages|
    && events == stages[..exit.reached] + (if exit.stoppedAtPoll then [Finished] else [])
    && OutcomeOf(raised) == exit.outcome
  }

  /** The prefixes of the recognition stage signals at the points where the
      `try` block can stop. */
  lemma OcrStagesPrefixes(raw: string, corrected: string)
    ensures OcrStages(raw, corrected)[..0] == []
    ensures OcrStages(raw, corrected)[..1] == [Progress(OCR_CORRECT, 5)]
    ensures OcrStages(raw, corrected)[..2] == [Progress(OCR_CORRECT, 5), Progress(OCR_CORRECT, 10)]
    ensures OcrStages(raw, corrected)[..4] ==
      [Progress(OCR_CORRECT, 5), Progress(OCR_CORRECT, 10), Result(OCR_RESULT, raw), Progress(OCR_CORRECT, 50)]
    ensures OcrStages(raw, corrected)[..5] ==
      [Progress(OCR_CORRECT, 5), Progress(OCR_CORRECT, 10), Result(OCR_RESULT, raw), Progress(OCR_CORRECT, 50),
       Progress(OCR_CORRECT, 55)]
  {
  }

  /** The `ocr_correct` branch of the `try` block, emitting one signal at a
      time; `return` leaves the block, with `raised` set when it raised. */
  method OcrCorrectSteps(job: Job, env: Environment, stop: StopSamples) returns (events: seq<Event>, raised: Option<Failure>)
    requires job.taskType == OCR_CORRECT
    ensures EmittedAs(events, raised, Stages(job, env), OcrCorrectExit(job, env, stop))
  {
    ghost var exit := OcrCorrectExit(job, env, stop);
    ghost var stages := OcrStages(ValueOr(RecognisedText(job, env), ""), ValueOr(CorrectedText(job, env), ""));
    assert Stages(job, env) == stages;
    OcrStagesPrefixes(stages[2].data, stages[5].data);
    var task := job.taskType;
    events, raised := [], None;
    if !env.easyocrInstalled { raised := Some(MissingLibrary(EasyOcr)); return; }
    if !env.gpt4allInstalled { raised := Some(MissingLibrary(Gpt4All)); return; }
    if !env.cv2Installed { raised := Some(MissingLibrary(OpenCv)); return; }
    events := events + [Progress(task, 5)];
    if !Truthy(job.imagePath) || !env.pathExists(job.imagePath.value) {
      raised := Some(InvalidImagePath);
      return;
    }
    var path := job.imagePath.value;
    if !env.imageLoads(path) { raised := Some(ImageNotLoadable); return; }
    events := events + [Progress(task, 10)];
    if !env.readerPreloaded && env.readerLoad.Raised? {
      raised := Some(ReaderLoadFailed(env.readerLoad.reason));
      return;
    }
    if stop.beforeRecognize { events := events + [Finished]; return; }
    var fragments := env.readText(path);
    if fragments.Raised? { raised := Some(RecognitionFailed(fragments.reason)); return; }
    var raw := Join(fragments.value, "\n");
    assert stages[2].data == raw;
    events := events + [Result(OCR_RESULT, raw)];
    events := events + [Progress(task, 50)];
    if stop.afterRecognize { events := events + [Finished]; return; }
    events := events + [Progress(task, 55)];
    if !env.modelPreloaded && env.modelLoad.Raised? {
      raised := Some(ModelLoadFailed(env.modelLoad.reason));
      return;
    }
    var prompt := CorrectionPrompt(raw);
    if stop.beforeCorrect { events := events + [Finished]; return; }
    var corrected := env.generate(prompt, CorrectionBudget(raw));
    if corrected.Raised? { raised := Some(GenerationFailed(corrected.reason)); return; }
    assert exit.reached == 7 && stages[5].data == Strip(corrected.value);
    events := events + [Result(CORRECTED_RESULT, Strip(corrected.value))];
    events := events + [Progress(task, 100)];
  }

  /** The `explain` branch of the `try` block. */
  method ExplainSteps(job: Job, env: Environment, stop: StopSamples) returns (events: seq<Event>, raised: Option<Failure>)
    requires job.taskType == EXPLAIN
    ensures EmittedAs(events, raised, Stages(job, env), ExplainExit(job, env, stop))
  {
    ghost var stages := ExplainStages(ValueOr(ExplanationText(job, env), ""));
    assert Stages(job, env) == stages;
    assert stages[..1] == [Progress(EXPLAIN, 10)];
    var task := job.taskType;
    events, raised := [], None;
    if !env.gpt4allInstalled { raised := Some(MissingLibrary(Gpt4All)); return; }
    events := events + [Progress(task, 10)];
    if !Truthy(job.textInput) { raised := Some(NoTextToExplain); return; }
    var document := job.textInput.value;
    if !env.modelPreloaded && env.modelLoad.Raised? {
      raised := Some(ModelLoadFailed(env.modelLoad.reason));
      return;
    }
    if stop.beforeExplain { events := events + [Finished]; return; }
    var prompt := ExplanationPrompt(document);
    var explanation := env.generate(prompt, ExplanationBudget(document));
    if explanation.Raised? { raised := Some(GenerationFailed(explanation.reason)); return; }
    assert ExplainExit(job, env, stop).reached == 3 && stages[1].data == Strip(explanation.value);
    events := events + [Result(EXPLANATION_RESULT, Strip(explanation.value))];
    events := events + [Progress(task, 100)];
  }

  /** One run of the worker.  The `try` block dispatches on the task type; a
      raised exception becomes one `error` signal, and `finished` is emitted
      by the `finally` block in every case, so a stop-flag return that
      already emitted `finished` emits it a second time. */
  method Run(job: Job, env: Environment, stop: StopSamples) returns (events: seq<Event>)
    ensures events == Trace(job, env, stop)
  {
    var raised: Option<Failure> := None;
    events := [];
    if job.taskType == OCR_CORRECT {
      events, raised := OcrCorrectSteps(job, env, stop);
    } else if job.taskType == EXPLAIN {
      events, raised := ExplainSteps(job, env, stop);
    }
    if raised.Some? {
      events := events + [Error(job.taskType, raised.value)];
    }
    events := events + [Finished];
  }
}
