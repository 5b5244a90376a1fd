/**
 * The dashboard's analysis area (components/Dashboard.tsx): the free-text
 * query and the optional uploaded report, the request built from them, and
 * which panel the area shows. Reading the file and calling the prediction
 * service are outcomes supplied to the handler.
 */
module Dashboard {
  import opened Types
  import opened Text
  import PredictionService

  const MissingInputMessage := "Please provide some input or upload a file to analyze."
  const AnalysisErrorMessage := "Failed to get an analysis from the AI. Please check your API key and try again."

  /** A chosen file: its name and its MIME type (`file.type`). Its bytes are only seen through the reader. */
  datatype File = File(name: string, mimeType: string)

  /** The text FileReader.readAsDataURL produces for a file of the given type and base64 payload. */
  function DataUrl(mimeType: string, payload: string): string
  {
    "data:" + mimeType + ";base64," + payload
  }

  /**
   * fileToBase64's extraction `result.split(',')[1]`: the text between the
   * first and second comma, or `undefined` (None) when there is no comma.
   */
  function FileToBase64(dataUrl: string): (data: Option<string>)
    ensures data.Some? <==> ',' in dataUrl
    ensures data.Some? ==> ',' !in data.value
  {
    var parts := Split(dataUrl, ',');
    SplitCount(dataUrl, ',');
    if |parts| > 1 then Some(parts[1]) else None
  }

  /** Extraction gives back exactly the payload of a data URL whose type and payload have no comma. */
  lemma {:induction false} DataUrlRoundTrip(mimeType: string, payload: string)
    requires ',' !in mimeType && ',' !in payload
    ensures FileToBase64(DataUrl(mimeType, payload)) == Some(payload)
  {
    var header := "data:" + mimeType + ";base64";
    assert ',' !in header by {
      forall k | 0 <= k < |header| ensures header[k] != ',' {
        if k < 5 {
          assert header[k] == "data:"[k];
        } else if k < 5 + |mimeType| {
          assert header[k] == mimeType[k - 5];
        } else {
          assert header[k] == ";base64"[k - 5 - |mimeType|];
        }
      }
    }
    var parts := [header, payload];
    assert Join(parts, ",") == header + "," + payload by {
      assert parts[1..] == [payload];
    }
    assert DataUrl(mimeType, payload) == header + "," + payload;
    SplitJoin(parts, ',');
  }

  /**
   * The file argument handed to the service: none without a selected file;
   * otherwise the file's type and what was extracted from the data URL read
   * from it.
   */
  function RequestFile(file: Option<File>, read: Outcome<string>): (r: Option<PredictionService.FileData>)
    requires file.Some? ==> read.Success?
    ensures r.Some? <==> file.Some?
    ensures r.Some? ==> r.value.mimeType == file.value.mimeType && r.value.data == FileToBase64(read.value)
  {
    if file.Some? then Some(PredictionService.FileData(file.value.mimeType, FileToBase64(read.value))) else None
  }

  /** A file read as a data URL of its own type reaches the service with exactly its payload. */
  lemma RequestFileCarriesPayload(file: File, payload: string)
    requires ',' !in file.mimeType && ',' !in payload
    ensures RequestFile(Some(file), Success(DataUrl(file.mimeType, payload)))
      == Some(PredictionService.FileData(file.mimeType, Some(payload)))
  {
    DataUrlRoundTrip(file.mimeType, payload);
  }

  /** What the analysis area shows, tested in this order: loading, error, result, form. */
  datatype Panel =
    | Analyzing
    | ErrorPanel(message: string)
    | ResultPanel(result: PredictionResult)
    | AnalysisForm(submitDisabled: bool)

  class DashboardPage {
    var analysisResult: Option<PredictionResult>
    var isLoading: bool
    var error: Option<string>
    var manualInput: string
    var selectedFile: Option<File>

    constructor ()
      ensures analysisResult == None && !isLoading && error == None
      ensures manualInput == "" && selectedFile == None
      ensures View() == AnalysisForm(true)
    {
      analysisResult, isLoading, error := None, false, None;
      manualInput, selectedFile := "", None;
    }

    /** The submit button's `disabled`: no query text and no file. */
    predicate NothingToAnalyze()
      reads this
    {
      manualInput == "" && selectedFile.None?
    }

    /** The panel shown: the spinner while loading, else a truthy error, else a result, else the form. */
    function View(): (p: Panel)
      reads this
      ensures p == Analyzing <==> isLoading
      ensures p.ErrorPanel? <==> !isLoading && Truthy(error)
      ensures p.ResultPanel? <==> !isLoading && !Truthy(error) && analysisResult.Some?
      ensures p.AnalysisForm? <==> !isLoading && !Truthy(error) && analysisResult.None?
      ensures p.ErrorPanel? ==> p.message == error.value && p.message != ""
      ensures p.ResultPanel? ==> p.result == analysisResult.value
      ensures p.AnalysisForm? ==> p.submitDisabled == NothingToAnalyze()
    {
      if isLoading then Analyzing
      else if Truthy(error) then ErrorPanel(error.value)
      else if analysisResult.Some? then ResultPanel(analysisResult.value)
      else AnalysisForm(NothingToAnalyze())
    }

    /** handleFileChange: the first chosen file replaces the selection; an empty choice keeps it. */
    method HandleFileChange(files: seq<File>)
      modifies this
      ensures selectedFile == (if files == [] then old(selectedFile) else Some(files[0]))
      ensures manualInput == old(manualInput) && error == old(error)
      ensures isLoading == old(isLoading) && analysisResult == old(analysisResult)
    {
      if files != [] {
        selectedFile := Some(files[0]);
      }
    }

    /** The remove-file button. */
    method ClearFile()
      modifies this
      ensures selectedFile == None
      ensures manualInput == old(manualInput) && error == old(error)
      ensures isLoading == old(isLoading) && analysisResult == old(analysisResult)
    {
      selectedFile := None;
    }

    /** The query box's onChange. */
    method SetManualInput(text: string)
      modifies this
      ensures manualInput == text
      ensures selectedFile == old(selectedFile) && error == old(error)
      ensures isLoading == old(isLoading) && analysisResult == old(analysisResult)
    {
      manualInput := text;
    }

    /**
     * handleAnalysisSubmit up to its first await. With neither query text nor
     * file it only sets the validation message; otherwise loading starts and
     * the previous error and result are cleared.
     */
    method BeginAnalysis() returns (started: bool)
      modifies this
      ensures started <==> !old(NothingToAnalyze())
      ensures !started ==> error == Some(MissingInputMessage)
      ensures !started ==> isLoading == old(isLoading) && analysisResult == old(analysisResult)
      ensures started ==> isLoading && error == None && analysisResult == None && View() == Analyzing
      ensures manualInput == old(manualInput) && selectedFile == old(selectedFile)
    {
      if NothingToAnalyze() {
        error := Some(MissingInputMessage);
        return false;
      }
      isLoading := true;
      error := None;
      analysisResult := None;
      started := true;
    }

    /**
     * handleAnalysisSubmit once the file read and the service call have
     * settled: the result on success, the fixed message when either failed;
     * loading ends.
     */
    method FinishAnalysis(outcome: Outcome<PredictionResult>)
      modifies this
      ensures !isLoading
      ensures outcome.Success? ==> analysisResult == Some(outcome.value) && error == old(error)
      ensures outcome.Failure? ==> error == Some(AnalysisErrorMessage) && analysisResult == old(analysisResult)
      ensures manualInput == old(manualInput) && selectedFile == old(selectedFile)
    {
      match outcome {
        case Success(result) => analysisResult := Some(result);
        case Failure => error := Some(AnalysisErrorMessage);
      }
      isLoading := false;
    }

    /**
     * The whole submit, run to completion. `read` is the data URL the reader
     * settles to (consulted only when a file is selected), `reply` the
     * service's answer. A request is sent exactly when there is something to
     * analyse and the file, if any, was read; it carries the query as it was
     * and the file's extracted payload. The area then shows the analysis
     * exactly when the reply was accepted and the error message otherwise.
     */
    method HandleAnalysisSubmit(patient: Patient, read: Outcome<string>,
                                reply: PredictionService.ServiceReply,
                                parseJson: string -> Option<PredictionService.RawPrediction>,
                                parseDate: string -> PredictionService.Date,
                                today: PredictionService.Date)
      returns (request: Option<seq<PredictionService.Part>>)
      modifies this
      ensures old(NothingToAnalyze()) ==>
        request == None && error == Some(MissingInputMessage)
        && isLoading == old(isLoading) && analysisResult == old(analysisResult)
      ensures request.Some? <==> !old(NothingToAnalyze()) && (old(selectedFile).Some? ==> read.Success?)
      ensures request.Some? ==>
        (old(selectedFile).Some? ==> read.Success?) &&
        PredictionService.IsAnalysisRequest(request.value, patient, old(manualInput),
          RequestFile(old(selectedFile), read), parseDate(patient.dob), today)
      ensures !old(NothingToAnalyze()) && request.Some? && PredictionService.GeneratePrediction(reply, parseJson).Ok? ==>
        && analysisResult == Some(PredictionService.GeneratePrediction(reply, parseJson).value)
        && error == None && !isLoading
      ensures !old(NothingToAnalyze()) && !(request.Some? && PredictionService.GeneratePrediction(reply, parseJson).Ok?) ==>
        error == Some(AnalysisErrorMessage) && analysisResult == None && !isLoading
      ensures !old(NothingToAnalyze()) ==>
        View() == (
          if request.Some? && PredictionService.GeneratePrediction(reply, parseJson).Ok?
          then ResultPanel(PredictionService.GeneratePrediction(reply, parseJson).value)
          else ErrorPanel(AnalysisErrorMessage))
      ensures manualInput == old(manualInput) && selectedFile == old(selectedFile)
    {
      var started := BeginAnalysis();
      if !started {
        return None;
      }
      var file: Option<PredictionService.FileData> := None;
      if selectedFile.Some? {
        match read {
          case Failure =>
            FinishAnalysis(Failure);
            return None;
          case Success(dataUrl) =>
            file := Some(PredictionService.FileData(selectedFile.value.mimeType, FileToBase64(dataUrl)));
        }
      }
      var parts := PredictionService.AnalysisParts(patient, manualInput, file, parseDate, today);
      request := Some(parts);
      var outcome := match PredictionService.GeneratePrediction(reply, parseJson)
        case Ok(result) => Success(result)
        case Err(_) => Failure;
      FinishAnalysis(outcome);
    }

    /**
     * resetAnalysis (the "Try Again" and "Start New Analysis" buttons): result,
     * query, file and error are cleared, so the empty form shows with its
     * button disabled.
     */
    method ResetAnalysis()
      modifies this
      ensures analysisResult == None && manualInput == "" && selectedFile == None && error == None
      ensures isLoading == old(isLoading)
      ensures !isLoading ==> View() == AnalysisForm(true)
    {
      analysisResult := None;
      manualInput := "";
      selectedFile := None;
      error := None;
    }
  }
}
