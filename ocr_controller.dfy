/** The image-analysis window (`MainWindow`) and its review dialog
    (`ComparisonDialog`): one worker slot guarded by a stop flag, the text
    fields the worker's signals fill, the enabled state of the buttons, and
    the review step that chooses between re-running recognition, explaining
    the accepted text, and starting over.  Signals from a worker arrive as
    calls of the four `HandleWorker…` methods, in the order the worker emitted
    them; the dialog's modal loop is split into opening it and deciding. */
module OcrController {
  import opened Basics
  import opened Text
  import opened OcrWorker

  // Return codes of the review dialog.
  const REDO_CODE := 1
  const ACCEPT_CODE := 2
  const REJECT_CODE := 0

  // What the dialog shows in place of an empty text.
  const NO_OCR_TEXT := "OCR 결과가 없습니다."
  const NO_REFINED_TEXT := "LLM 정제 결과가 없습니다."

  /** A `threading.Event` used as the worker's stop flag. */
  class StopFlag {
    var isSet: bool

    constructor()
      ensures !isSet
    {
      isSet := false;
    }

    method Set()
      modifies this
      ensures isSet
    {
      isSet := true;
    }
  }

  /** The runnable in the worker slot: the job it runs, the stop flag it
      polls, and whether the window's preloaded reader and model were handed
      to it. */
  datatype Runnable = Runnable(job: Job, stopFlag: StopFlag, readerHandedOver: bool, modelHandedOver: bool)

  /** The jobs the window starts: recognition of a chosen image, or an
      explanation of a non-empty text. */
  predicate WellFormedJob(job: Job) {
    || (job.taskType == OCR_CORRECT && Truthy(job.imagePath) && job.textInput.None?)
    || (job.taskType == EXPLAIN && job.imagePath.None? && Truthy(job.textInput))
  }

  /** Why a request to start a task did or did not start a worker. */
  datatype Request =
    | Started
    | Busy                              // another worker holds the slot
    | NoImage                           // no image has been chosen
    | NoText                            // nothing to explain
    | LibraryUnavailable(library: Library)

  /** The button that closed the review dialog; closing its window counts
      as Cancel. */
  datatype DialogChoice = PressRedo | PressAccept | PressCancel

  /** What the review step did. */
  datatype Review =
    | Rerun(request: Request)           // Redo: recognition again on the same image
    | Explain(request: Request)         // Accept with a non-blank text
    | NothingToExplain                  // Accept with a blank text
    | Dismissed                         // the dialog was cancelled or closed

  /** The dialog comparing the recognised text with its correction. */
  class ComparisonDialog {
    const imagePath: string
    const ocrTextContent: string
    const refinedTextContent: string
    /** The contents of the editable correction box. */
    var editorText: string
    /** The text handed back on Accept. */
    var finalRefinedText: string

    /** An empty text is shown, and offered for editing, as a placeholder. */
    constructor(imagePath: string, ocrText: string, refinedText: string)
      ensures this.imagePath == imagePath
      ensures ocrTextContent == if ocrText == "" then NO_OCR_TEXT else ocrText
      ensures refinedTextContent == if refinedText == "" then NO_REFINED_TEXT else refinedText
      ensures finalRefinedText == refinedTextContent && editorText == refinedTextContent
    {
      this.imagePath := imagePath;
      ocrTextContent := if ocrText != "" then ocrText else NO_OCR_TEXT;
      refinedTextContent := if refinedText != "" then refinedText else NO_REFINED_TEXT;
      finalRefinedText := if refinedText != "" then refinedText else NO_REFINED_TEXT;
      editorText := if refinedText != "" then refinedText else NO_REFINED_TEXT;
    }

    /** The user edits the correction box. */
    method Edit(text: string)
      modifies this
      ensures editorText == text && finalRefinedText == old(finalRefinedText)
    {
      editorText := text;
    }

    /** Redo closes the dialog with code 1 and keeps no text. */
    method OnRedo() returns (code: int)
      ensures code == REDO_CODE
    {
      code := 1;
    }

    /** Accept takes the edited text and closes the dialog with code 2. */
    method OnAccept() returns (code: int)
      modifies this
      ensures code == ACCEPT_CODE
      ensures finalRefinedText == editorText && editorText == old(editorText)
    {
      finalRefinedText := editorText;
      code := 2;
    }

    /** Cancel (or closing the window) rejects the dialog with code 0. */
    method OnReject() returns (code: int)
      ensures code == REJECT_CODE
    {
      code := 0;
    }

    function GetAcceptedText(): string
      reads this
    {
      finalRefinedText
    }
  }

  /** The main window's state. */
  class MainWindow {
    // Which libraries imported, and which engines were preloaded at start-up.
    const easyocrInstalled: bool
    const gpt4allInstalled: bool
    const cv2Installed: bool
    const ocrReaderInstance: bool
    const llmModelInstance: bool

    var currentImagePath: Option<string>
    var rawOcrText: string
    var currentCorrectedText: string
    var finalAcceptedText: string
    /** The single worker slot and the stop flag of the worker in it. */
    var currentWorker: Option<Runnable>
    var stopEvent: StopFlag?
    var progress: int
    var analyzeEnabled: bool
    var selectEnabled: bool
    var cancelEnabled: bool
    /** The review dialog while it is open. */
    var reviewDialog: ComparisonDialog?

    /** The slot and the stop flag are held or empty together; the flag of a
        held slot is the runnable's own and is not set; the runnable's job is
        one the window starts; analysis is only offered for a chosen image;
        the cancel button is always enabled. */
    predicate Valid()
      reads this, stopEvent
    {
      && (currentWorker.Some? <==> stopEvent != null)
      && (currentWorker.Some? ==> currentWorker.value.stopFlag == stopEvent && WellFormedJob(currentWorker.value.job))
      && (stopEvent != null ==> !stopEvent.isSet)
      && (analyzeEnabled ==> Truthy(currentImagePath))
      && cancelEnabled
    }

    predicate Idle()
      reads this
    {
      currentWorker.None? && stopEvent == null
    }

    /** The window at start-up: a preload that raises leaves no instance. */
    constructor(easyocrInstalled: bool, gpt4allInstalled: bool, cv2Installed: bool,
                readerPreload: Attempt<()>, modelPreload: Attempt<()>)
      ensures Valid() && Idle()
      ensures this.easyocrInstalled == easyocrInstalled && this.gpt4allInstalled == gpt4allInstalled
      ensures this.cv2Installed == cv2Installed
      ensures ocrReaderInstance == (easyocrInstalled && readerPreload.Ok?)
      ensures llmModelInstance == (gpt4allInstalled && modelPreload.Ok?)
      ensures currentImagePath.None? && rawOcrText == "" && currentCorrectedText == "" && finalAcceptedText == ""
      ensures progress == 0 && !analyzeEnabled && selectEnabled && cancelEnabled && reviewDialog == null
    {
      this.easyocrInstalled := easyocrInstalled;
      this.gpt4allInstalled := gpt4allInstalled;
      this.cv2Installed := cv2Installed;
      ocrReaderInstance := easyocrInstalled && readerPreload.Ok?;
      llmModelInstance := gpt4allInstalled && modelPreload.Ok?;
      currentImagePath := None;
      rawOcrText, currentCorrectedText, finalAcceptedText := "", "", "";
      currentWorker, stopEvent := None, null;
      progress := 0;
      analyzeEnabled, selectEnabled, cancelEnabled := false, true, true;
      reviewDialog := null;
    }

    /** Analysis is offered only when no task runs and an image is chosen;
        the image can be changed only when no task runs. */
    method SetButtonsForTaskRunningState(isRunning: bool)
      modifies this
      ensures analyzeEnabled == (!isRunning && Truthy(currentImagePath))
      ensures selectEnabled == !isRunning && cancelEnabled
      ensures currentImagePath == old(currentImagePath) && rawOcrText == old(rawOcrText)
      ensures currentCorrectedText == old(currentCorrectedText) && finalAcceptedText == old(finalAcceptedText)
      ensures currentWorker == old(currentWorker) && stopEvent == old(stopEvent)
      ensures progress == old(progress) && reviewDialog == old(reviewDialog)
    {
      analyzeEnabled := !isRunning && Truthy(currentImagePath);
      cancelEnabled := true;
      selectEnabled := !isRunning;
    }

    /** Stops the worker in the slot, if any: its flag is set and the slot
        and flag are freed at once, without waiting for its `finished`. */
    method CancelCurrentWorkerIfRunning() returns (cancelled: bool)
      requires Valid()
      modifies this, stopEvent
      ensures Valid() && Idle()
      ensures cancelled == old(currentWorker).Some?
      ensures cancelled ==> old(stopEvent).isSet && progress == 0 && !analyzeEnabled == !Truthy(currentImagePath) && selectEnabled
      ensures !cancelled ==> progress == old(progress) && analyzeEnabled == old(analyzeEnabled) && selectEnabled == old(selectEnabled)
      ensures currentImagePath == old(currentImagePath) && rawOcrText == old(rawOcrText)
      ensures currentCorrectedText == old(currentCorrectedText) && finalAcceptedText == old(finalAcceptedText)
      ensures reviewDialog == old(reviewDialog)
    {
      if currentWorker.Some? && stopEvent != null {
        stopEvent.Set();
        currentWorker := None;
        stopEvent := null;
        SetButtonsForTaskRunningState(false);
        progress := 0;
        return true;
      }
      return false;
    }

    /** Clears the three texts and the progress; a full reset also forgets
        the image, so analysis is no longer offered. */
    method ResetUiAfterTask(fullReset: bool)
      requires Valid()
      modifies this
      ensures Valid()
      ensures progress == 0 && rawOcrText == "" && currentCorrectedText == "" && finalAcceptedText == ""
      ensures currentImagePath == if fullReset then None else old(currentImagePath)
      ensures analyzeEnabled == Truthy(currentImagePath) && selectEnabled
      ensures fullReset ==> !analyzeEnabled
      ensures currentWorker == old(currentWorker) && stopEvent == old(stopEvent) && reviewDialog == old(reviewDialog)
    {
      progress := 0;
      rawOcrText, currentCorrectedText, finalAcceptedText := "", "", "";
      if fullReset {
        currentImagePath := None;
        analyzeEnabled := false;
      } else {
        analyzeEnabled := Truthy(currentImagePath);
      }
      SetButtonsForTaskRunningState(false);
    }

    /** A new image stops the running worker, clears the texts and the
        progress, and offers analysis. */
    method LoadImageAndPrepareAnalysis(imagePath: string)
      requires Valid() && imagePath != ""
      modifies this, stopEvent
      ensures Valid() && Idle()
      ensures old(currentWorker).Some? ==> old(stopEvent).isSet
      ensures currentImagePath == Some(imagePath)
      ensures rawOcrText == "" && currentCorrectedText == "" && finalAcceptedText == ""
      ensures progress == 0 && analyzeEnabled
      ensures selectEnabled == (old(currentWorker).Some? || old(selectEnabled))
      ensures reviewDialog == old(reviewDialog)
    {
      var _ := CancelCurrentWorkerIfRunning();
      currentImagePath := Some(imagePath);
      rawOcrText, currentCorrectedText, finalAcceptedText := "", "", "";
      progress := 0;
      analyzeEnabled := true;
    }

    /** Starts a worker for `job` unless the slot is held: a fresh, unset stop
        flag, the preloaded engines handed over, progress back to 0, and the
        buttons in their running state. */
    method StartBackgroundWorker(job: Job) returns (request: Request)
      requires Valid() && WellFormedJob(job)
      modifies this
      ensures Valid()
      ensures request == (if old(currentWorker).Some? then Busy else Started)
      ensures request == Busy ==>
        currentWorker == old(currentWorker) && stopEvent == old(stopEvent) && progress == old(progress)
        && analyzeEnabled == old(analyzeEnabled) && selectEnabled == old(selectEnabled)
      ensures request == Started ==>
        && fresh(stopEvent)
        && currentWorker == Some(Runnable(job, stopEvent, ocrReaderInstance, llmModelInstance))
        && progress == 0 && !analyzeEnabled && !selectEnabled
      ensures currentImagePath == old(currentImagePath) && rawOcrText == old(rawOcrText)
      ensures currentCorrectedText == old(currentCorrectedText) && finalAcceptedText == old(finalAcceptedText)
      ensures reviewDialog == old(reviewDialog)
    {
      if currentWorker.Some? {
        return Busy;
      }
      progress := 0;
      var flag := new StopFlag();
      stopEvent := flag;
      currentWorker := Some(Runnable(job, flag, ocrReaderInstance, llmModelInstance));
      SetButtonsForTaskRunningState(true);
      return Started;
    }

    /** Analysis needs a chosen image and the three libraries (or a preloaded
        engine); it clears the raw and corrected texts, even when the slot
        then turns out to be held, and starts recognition of the image. */
    method RunOcrCorrectionTask() returns (request: Request)
      requires Valid()
      modifies this
      ensures Valid()
      ensures request == (
        if !Truthy(currentImagePath) then NoImage
        else if !ocrReaderInstance && !easyocrInstalled then LibraryUnavailable(EasyOcr)
        else if !llmModelInstance && !gpt4allInstalled then LibraryUnavailable(Gpt4All)
        else if !cv2Installed then LibraryUnavailable(OpenCv)
        else if old(currentWorker).Some? then Busy
        else Started)
      ensures request.LibraryUnavailable? || request == NoImage ==> unchanged(this)
      ensures request == Busy || request == Started ==> rawOcrText == "" && currentCorrectedText == ""
      ensures request == Busy ==> currentWorker == old(currentWorker) && stopEvent == old(stopEvent)
      ensures request == Started ==>
        && fresh(stopEvent)
        && currentWorker == Some(Runnable(Job(OCR_CORRECT, currentImagePath, None), stopEvent, ocrReaderInstance, llmModelInstance))
        && progress == 0 && !analyzeEnabled && !selectEnabled
      ensures request == Busy ==>
        progress == old(progress) && analyzeEnabled == old(analyzeEnabled) && selectEnabled == old(selectEnabled)
      ensures currentImagePath == old(currentImagePath) && finalAcceptedText == old(finalAcceptedText)
      ensures reviewDialog == old(reviewDialog)
    {
      if !Truthy(currentImagePath) {
        return NoImage;
      }
      if !ocrReaderInstance && !easyocrInstalled {
        return LibraryUnavailable(EasyOcr);
      }
      if !llmModelInstance && !gpt4allInstalled {
        return LibraryUnavailable(Gpt4All);
      }
      if !cv2Installed {
        return LibraryUnavailable(OpenCv);
      }
      rawOcrText := "";
      currentCorrectedText := "";
      request := StartBackgroundWorker(Job(OCR_CORRECT, currentImagePath, None));
    }

    /** An explanation needs a non-empty text and the generation library (or
        a preloaded model). */
    method RunExplanationTask(textForExplanation: string) returns (request: Request)
      requires Valid()
      modifies this
      ensures Valid()
      ensures request == (
        if textForExplanation == "" then NoText
        else if !llmModelInstance && !gpt4allInstalled then LibraryUnavailable(Gpt4All)
        else if old(currentWorker).Some? then Busy
        else Started)
      ensures request != Started ==>
        currentWorker == old(currentWorker) && stopEvent == old(stopEvent) && progress == old(progress)
        && analyzeEnabled == old(analyzeEnabled) && selectEnabled == old(selectEnabled)
      ensures request == Started ==>
        && fresh(stopEvent)
        && currentWorker == Some(Runnable(Job(EXPLAIN, None, Some(textForExplanation)), stopEvent, ocrReaderInstance, llmModelInstance))
        && progress == 0 && !analyzeEnabled && !selectEnabled
      ensures currentImagePath == old(currentImagePath) && rawOcrText == old(rawOcrText)
      ensures currentCorrectedText == old(currentCorrectedText) && finalAcceptedText == old(finalAcceptedText)
      ensures reviewDialog == old(reviewDialog)
    {
      if textForExplanation == "" {
        return NoText;
      }
      if !llmModelInstance && !gpt4allInstalled {
        return LibraryUnavailable(Gpt4All);
      }
      request := StartBackgroundWorker(Job(EXPLAIN, None, Some(textForExplanation)));
    }

    /** The worker's `progress` signal. */
    method HandleWorkerProgress(taskType: string, value: int)
      requires Valid()
      modifies this
      ensures Valid() && progress == value
      ensures currentImagePath == old(currentImagePath) && rawOcrText == old(rawOcrText)
      ensures currentCorrectedText == old(currentCorrectedText) && finalAcceptedText == old(finalAcceptedText)
      ensures currentWorker == old(currentWorker) && stopEvent == old(stopEvent) && reviewDialog == old(reviewDialog)
      ensures analyzeEnabled == old(analyzeEnabled) && selectEnabled == old(selectEnabled)
    {
      progress := value;
    }

    /** The worker's `finished` signal, from whichever worker sends it: the
        slot and the flag are freed.  The task type of a held slot is compared
        with a result kind, which never matches, so the progress becomes 100
        whenever the slot was held. */
    method HandleWorkerFinished()
      requires Valid()
      modifies this
      ensures Valid() && Idle()
      ensures progress == if old(currentWorker).Some? then 100 else old(progress)
      ensures analyzeEnabled == Truthy(currentImagePath) && selectEnabled
      ensures currentImagePath == old(currentImagePath) && rawOcrText == old(rawOcrText)
      ensures currentCorrectedText == old(currentCorrectedText) && finalAcceptedText == old(finalAcceptedText)
      ensures reviewDialog == old(reviewDialog)
    {
      if currentWorker.Some? && currentWorker.value.job.taskType != CORRECTED_RESULT {
        progress := 100;
      }
      SetButtonsForTaskRunningState(false);
      currentWorker := None;
      stopEvent := null;
    }

    /** The worker's `error` signal: the slot and flag are freed and the
        window is fully reset. */
    method HandleWorkerError(errorMessage: string)
      requires Valid()
      modifies this
      ensures Valid() && Idle()
      ensures currentImagePath.None? && rawOcrText == "" && currentCorrectedText == "" && finalAcceptedText == ""
      ensures progress == 0 && !analyzeEnabled && selectEnabled
      ensures reviewDialog == old(reviewDialog)
    {
      progress := 0;
      SetButtonsForTaskRunningState(false);
      currentWorker := None;
      stopEvent := null;
      ResetUiAfterTask(true);
    }

    /** Opening the review dialog on the recognised and corrected texts; with
        no image chosen the window is fully reset instead. */
    method ShowComparisonDialog()
      requires Valid()
      modifies this
      ensures Valid()
      ensures Truthy(old(currentImagePath)) ==>
        && currentImagePath == old(currentImagePath)
        && fresh(reviewDialog)
        && reviewDialog.imagePath == currentImagePath.value
        && reviewDialog.ocrTextContent == (if rawOcrText == "" then NO_OCR_TEXT else rawOcrText)
        && reviewDialog.finalRefinedText == reviewDialog.refinedTextContent == reviewDialog.editorText
        && reviewDialog.refinedTextContent == (if currentCorrectedText == "" then NO_REFINED_TEXT else currentCorrectedText)
        && rawOcrText == old(rawOcrText) && currentCorrectedText == old(currentCorrectedText)
        && finalAcceptedText == old(finalAcceptedText) && progress == old(progress)
        && analyzeEnabled == old(analyzeEnabled) && selectEnabled == old(selectEnabled)
      ensures !Truthy(old(currentImagePath)) ==>
        currentImagePath.None? && rawOcrText == "" && currentCorrectedText == "" && finalAcceptedText == ""
        && progress == 0 && !analyzeEnabled && selectEnabled && reviewDialog == old(reviewDialog)
      ensures currentWorker == old(currentWorker) && stopEvent == old(stopEvent)
    {
      if !Truthy(currentImagePath) {
        ResetUiAfterTask(true);
        return;
      }
      reviewDialog := new ComparisonDialog(currentImagePath.value, rawOcrText, currentCorrectedText);
    }

    /** After the explanation is shown the window is fully reset. */
    method ShowExplanationDialog(explanationText: string)
      requires Valid()
      modifies this
      ensures Valid()
      ensures currentImagePath.None? && rawOcrText == "" && currentCorrectedText == "" && finalAcceptedText == ""
      ensures progress == 0 && !analyzeEnabled && selectEnabled
      ensures currentWorker == old(currentWorker) && stopEvent == old(stopEvent) && reviewDialog == old(reviewDialog)
    {
      ResetUiAfterTask(true);
    }

    /** The worker's `result` signal: the raw text is kept, the corrected
        text is kept and opens the review dialog, an explanation is shown. */
    method HandleWorkerResult(kind: string, data: string)
      requires Valid()
      modifies this
      ensures Valid()
      ensures currentWorker == old(currentWorker) && stopEvent == old(stopEvent)
      ensures kind == OCR_RESULT ==>
        && rawOcrText == data && currentImagePath == old(currentImagePath)
        && currentCorrectedText == old(currentCorrectedText) && finalAcceptedText == old(finalAcceptedText)
        && progress == old(progress) && analyzeEnabled == old(analyzeEnabled) && selectEnabled == old(selectEnabled)
        && reviewDialog == old(reviewDialog)
      ensures kind == CORRECTED_RESULT && Truthy(old(currentImagePath)) ==>
        && currentCorrectedText == data && fresh(reviewDialog)
        && reviewDialog.imagePath == old(currentImagePath).value
        && reviewDialog.ocrTextContent == (if old(rawOcrText) == "" then NO_OCR_TEXT else old(rawOcrText))
        && reviewDialog.refinedTextContent == (if data == "" then NO_REFINED_TEXT else data)
        && reviewDialog.editorText == reviewDialog.refinedTextContent
        && reviewDialog.finalRefinedText == reviewDialog.refinedTextContent
        && currentImagePath == old(currentImagePath) && rawOcrText == old(rawOcrText)
        && finalAcceptedText == old(finalAcceptedText) && progress == old(progress)
        && analyzeEnabled == old(analyzeEnabled) && selectEnabled == old(selectEnabled)
      ensures kind == CORRECTED_RESULT && !Truthy(old(currentImagePath)) ==>
        && currentImagePath.None? && rawOcrText == "" && currentCorrectedText == "" && finalAcceptedText == ""
        && progress == 0 && !analyzeEnabled && selectEnabled && reviewDialog == old(reviewDialog)
      ensures kind == EXPLANATION_RESULT ==>
        && currentImagePath.None? && rawOcrText == "" && currentCorrectedText == "" && finalAcceptedText == ""
        && progress == 0 && !analyzeEnabled && selectEnabled && reviewDialog == old(reviewDialog)
      ensures kind != OCR_RESULT && kind != CORRECTED_RESULT && kind != EXPLANATION_RESULT ==> unchanged(this)
    {
      if kind == OCR_RESULT {
        rawOcrText := data;
      } else if kind == CORRECTED_RESULT {
        currentCorrectedText := data;
        ShowComparisonDialog();
      } else if kind == EXPLANATION_RESULT {
        ShowExplanationDialog(data);
      }
    }

    /** The review decision.  The pressed button closes the dialog with its
        return code (Accept first takes the edited text); Redo re-runs
        recognition on the same image; Accept explains the edited text when
        it is not blank and otherwise resets without forgetting the image;
        anything else resets fully. */
    method ResolveComparison(choice: DialogChoice) returns (code: int, review: Review)
      requires Valid() && reviewDialog != null
      modifies this, reviewDialog
      ensures Valid() && reviewDialog == null
      ensures code == match choice
        case PressRedo => REDO_CODE
        case PressAccept => ACCEPT_CODE
        case PressCancel => REJECT_CODE
      ensures code == REDO_CODE ==>
        && review == Rerun(
             if !Truthy(currentImagePath) then NoImage
             else if !ocrReaderInstance && !easyocrInstalled then LibraryUnavailable(EasyOcr)
             else if !llmModelInstance && !gpt4allInstalled then LibraryUnavailable(Gpt4All)
             else if !cv2Installed then LibraryUnavailable(OpenCv)
             else if old(currentWorker).Some? then Busy
             else Started)
        && currentImagePath == old(currentImagePath) && finalAcceptedText == old(finalAcceptedText)
        && (review.request == Busy || review.request == Started ==> rawOcrText == "" && currentCorrectedText == "")
        && (review.request != Started ==>
              && currentWorker == old(currentWorker) && stopEvent == old(stopEvent) && progress == old(progress)
              && analyzeEnabled == old(analyzeEnabled) && selectEnabled == old(selectEnabled))
        && (review.request == NoImage || review.request.LibraryUnavailable? ==>
              rawOcrText == old(rawOcrText) && currentCorrectedText == old(currentCorrectedText))
        && (review.request == Started ==>
              && fresh(stopEvent)
              && currentWorker == Some(Runnable(Job(OCR_CORRECT, currentImagePath, None), stopEvent, ocrReaderInstance, llmModelInstance))
              && progress == 0 && !analyzeEnabled && !selectEnabled)
      ensures code == ACCEPT_CODE ==>
        var accepted := old(reviewDialog.editorText);
        && (!IsBlank(accepted) ==>
              && review == Explain(
                   if !llmModelInstance && !gpt4allInstalled then LibraryUnavailable(Gpt4All)
                   else if old(currentWorker).Some? then Busy
                   else Started)
              && finalAcceptedText == accepted && currentImagePath == old(currentImagePath)
              && rawOcrText == old(rawOcrText) && currentCorrectedText == old(currentCorrectedText)
              && (review.request != Started ==>
                    && currentWorker == old(currentWorker) && stopEvent == old(stopEvent) && progress == old(progress)
                    && analyzeEnabled == old(analyzeEnabled) && selectEnabled == old(selectEnabled))
              && (review.request == Started ==>
                    && fresh(stopEvent)
                    && currentWorker == Some(Runnable(Job(EXPLAIN, None, Some(accepted)), stopEvent, ocrReaderInstance, llmModelInstance))
                    && progress == 0 && !analyzeEnabled && !selectEnabled))
        && (IsBlank(accepted) ==>
              && review == NothingToExplain && currentImagePath == old(currentImagePath) && progress == 0
              && rawOcrText == "" && currentCorrectedText == "" && finalAcceptedText == ""
              && analyzeEnabled == Truthy(currentImagePath) && selectEnabled
              && currentWorker == old(currentWorker) && stopEvent == old(stopEvent))
      ensures code == REJECT_CODE ==>
        && review == Dismissed && currentImagePath.None? && rawOcrText == "" && currentCorrectedText == ""
        && finalAcceptedText == "" && progress == 0 && !analyzeEnabled && selectEnabled
        && currentWorker == old(currentWorker) && stopEvent == old(stopEvent)
    {
      var dialog := reviewDialog;
      match choice {
        case PressRedo => code := dialog.OnRedo();
        case PressAccept => code := dialog.OnAccept();
        case PressCancel => code := dialog.OnReject();
      }
      reviewDialog := null;
      if code == 1 {
        review := Redo();
      } else if code == 2 {
        review := Accept(dialog.GetAcceptedText());
      } else {
        ResetUiAfterTask(true);
        review := Dismissed;
      }
    }

    /** Redo: recognition again on the same image. */
    method Redo() returns (review: Review)
      requires Valid()
      modifies this
      ensures Valid() && reviewDialog == old(reviewDialog)
      ensures
        && review == Rerun(
             if !Truthy(currentImagePath) then NoImage
             else if !ocrReaderInstance && !easyocrInstalled then LibraryUnavailable(EasyOcr)
             else if !llmModelInstance && !gpt4allInstalled then LibraryUnavailable(Gpt4All)
             else if !cv2Installed then LibraryUnavailable(OpenCv)
             else if old(currentWorker).Some? then Busy
             else Started)
        && currentImagePath == old(currentImagePath) && finalAcceptedText == old(finalAcceptedText)
        && (review.request == Busy || review.request == Started ==> rawOcrText == "" && currentCorrectedText == "")
        && (review.request != Started ==>
              && currentWorker == old(currentWorker) && stopEvent == old(stopEvent) && progress == old(progress)
              && analyzeEnabled == old(analyzeEnabled) && selectEnabled == old(selectEnabled))
        && (review.request == NoImage || review.request.LibraryUnavailable? ==>
              rawOcrText == old(rawOcrText) && currentCorrectedText == old(currentCorrectedText))
        && (review.request == Started ==>
              && fresh(stopEvent)
              && currentWorker == Some(Runnable(Job(OCR_CORRECT, currentImagePath, None), stopEvent, ocrReaderInstance, llmModelInstance))
              && progress == 0 && !analyzeEnabled && !selectEnabled)
    {
      var request := RunOcrCorrectionTask();
      review := Rerun(request);
    }

    /** Accept: the accepted text is kept and explained when it is not
        blank; a blank one resets the texts but keeps the image. */
    method Accept(accepted: string) returns (review: Review)
      requires Valid()
      modifies this
      ensures Valid() && reviewDialog == old(reviewDialog)
      ensures !IsBlank(accepted) ==>
        && review == Explain(
             if !llmModelInstance && !gpt4allInstalled then LibraryUnavailable(Gpt4All)
             else if old(currentWorker).Some? then Busy
             else Started)
        && finalAcceptedText == accepted && currentImagePath == old(currentImagePath)
        && rawOcrText == old(rawOcrText) && currentCorrectedText == old(currentCorrectedText)
        && (review.request != Started ==>
              && currentWorker == old(currentWorker) && stopEvent == old(stopEvent) && progress == old(progress)
              && analyzeEnabled == old(analyzeEnabled) && selectEnabled == old(selectEnabled))
        && (review.request == Started ==>
              && fresh(stopEvent)
              && currentWorker == Some(Runnable(Job(EXPLAIN, None, Some(accepted)), stopEvent, ocrReaderInstance, llmModelInstance))
              && progress == 0 && !analyzeEnabled && !selectEnabled)
      ensures IsBlank(accepted) ==>
        && review == NothingToExplain && currentImagePath == old(currentImagePath) && progress == 0
        && rawOcrText == "" && currentCorrectedText == "" && finalAcceptedText == ""
        && analyzeEnabled == Truthy(currentImagePath) && selectEnabled
        && currentWorker == old(currentWorker) && stopEvent == old(stopEvent)
    {
      finalAcceptedText := accepted;
      if finalAcceptedText != "" && Strip(finalAcceptedText) != "" {
        var request := RunExplanationTask(finalAcceptedText);
        review := Explain(request);
      } else {
        ResetUiAfterTask(false);
        review := NothingToExplain;
      }
    }

    /** Editing the correction and pressing Accept explains exactly the
        edited text: a worker for it starts unless the slot is held or the
        generation library is missing. */
    method AcceptEditedText(text: string) returns (review: Review)
      requires Valid() && reviewDialog != null
      modifies this, reviewDialog
      ensures Valid() && reviewDialog == null
      ensures !IsBlank(text) ==>
        && review.Explain? && finalAcceptedText == text
        && (review.request == Started <==> old(currentWorker).None? && (llmModelInstance || gpt4allInstalled))
        && (review.request == Started ==> currentWorker.Some? && currentWorker.value.job == Job(EXPLAIN, None, Some(text)))
      ensures IsBlank(text) ==>
        review == NothingToExplain && currentImagePath == old(currentImagePath) && finalAcceptedText == ""
    {
      reviewDialog.Edit(text);
      var code;
      code, review := ResolveComparison(PressAccept);
    }

    /** Cancelling frees the slot before the cancelled worker's `finished`
        arrives, and that worker's signals stay connected: when it arrives
        after a new recognition task has started, it frees the new worker's
        slot while the new worker, whose flag is unset, keeps running. */
    method StaleFinishedFreesReplacementSlot() returns (replacement: Runnable)
      requires Valid() && currentWorker.Some? && Truthy(currentImagePath)
      requires (ocrReaderInstance || easyocrInstalled) && (llmModelInstance || gpt4allInstalled) && cv2Installed
      modifies this, stopEvent
      ensures Valid() && Idle()
      ensures old(stopEvent).isSet && fresh(replacement.stopFlag) && !replacement.stopFlag.isSet
      ensures replacement.job == Job(OCR_CORRECT, currentImagePath, None) && currentImagePath == old(currentImagePath)
    {
      var _ := CancelCurrentWorkerIfRunning();
      var request := RunOcrCorrectionTask();
      replacement := currentWorker.value;
      HandleWorkerFinished();
    }

    /** The cancel / reset button: stop the running worker, if any, then
        reset fully. */
    method CancelOrResetAllProcesses() returns (cancelled: bool)
      requires Valid()
      modifies this, stopEvent
      ensures Valid() && Idle()
      ensures cancelled == old(currentWorker).Some?
      ensures cancelled ==> old(stopEvent).isSet
      ensures currentImagePath.None? && rawOcrText == "" && currentCorrectedText == "" && finalAcceptedText == ""
      ensures progress == 0 && !analyzeEnabled && selectEnabled
      ensures reviewDialog == old(reviewDialog)
    {
      cancelled := CancelCurrentWorkerIfRunning();
      ResetUiAfterTask(true);
    }
  }
}
