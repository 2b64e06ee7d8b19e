/**
 * The page's session: the three variables the handlers share (the chosen
 * file, the extraction payload and the active tab) and the handlers that
 * change or read them. DOM updates are left out; the messages the handlers
 * would show are returned instead.
 */
module Session {
  import opened Wrappers
  import opened Payload
  import Digest
  import Csv

  /** What the recognition call ended with: a parsed payload, or an error and its message. */
  datatype ExtractionOutcome = Extracted(payload: Payload) | ExtractionFailed(message: string)

  const UnsupportedFormatMessage := "Unsupported format. Please upload PDF or image files."
  const AnalysisFailedMessage := "Analysis failed. The PDF might be too large or encrypted."

  /** `err.message || fallback`: the error's own message unless it is empty. */
  function FailureMessage(message: string): (r: string)
    ensures r != ""
    ensures message != "" ==> r == message
  {
    if message == "" then AnalysisFailedMessage else message
  }

  class State {
    var currentFile: Option<File>
    var extractionData: Option<Payload>
    var currentView: View

    /**
     * What every handler keeps: a payload is only ever held together with a
     * file, and a held file always has one of the accepted media types.
     */
    ghost predicate Valid()
      reads this
    {
      && (extractionData.Some? ==> currentFile.Some?)
      && (currentFile.Some? ==> IsSupportedType(currentFile.value.mediaType))
    }

    /** Page load: no file, no payload, the page tab. */
    constructor ()
      ensures Valid()
      ensures currentFile == None && extractionData == None && currentView == PageView
    {
      currentFile := None;
      extractionData := None;
      currentView := PageView;
    }

    /**
     * A picked or dropped file: nothing happens without one; an unsupported
     * media type is refused with a message; otherwise the file is taken. The
     * payload and the tab are left as they are in every case.
     */
    method HandleFile(file: Option<File>) returns (error: Option<string>)
      requires Valid()
      modifies this
      ensures Valid()
      ensures extractionData == old(extractionData) && currentView == old(currentView)
      ensures file == None ==> currentFile == old(currentFile) && error == None
      ensures file.Some? && !IsSupportedType(file.value.mediaType) ==>
        currentFile == old(currentFile) && error == Some(UnsupportedFormatMessage)
      ensures file.Some? && IsSupportedType(file.value.mediaType) ==>
        currentFile == file && error == None
    {
      error := None;
      if file == None {
        return;
      }
      if !IsSupportedType(file.value.mediaType) {
        error := Some(UnsupportedFormatMessage);
        return;
      }
      currentFile := file;
    }

    /** Reset: file and payload dropped, back to the page tab. */
    method SoftReset()
      requires Valid()
      modifies this
      ensures Valid()
      ensures currentFile == None && extractionData == None && currentView == PageView
    {
      currentFile := None;
      extractionData := None;
      SwitchTab(PageView);
    }

    /** Selecting a tab changes the active view and nothing else. */
    method SwitchTab(view: View)
      requires Valid()
      modifies this
      ensures Valid()
      ensures currentView == view
      ensures currentFile == old(currentFile) && extractionData == old(extractionData)
    {
      currentView := view;
    }

    /**
     * Extraction, as one atomic step whose outcome the recognition service
     * decides. Without a file or without an API key nothing happens. A
     * payload replaces the held one; a failure keeps the held one and yields
     * the message to show. The file and the tab never change.
     */
    method ProcessOcr(apiKey: string, outcome: ExtractionOutcome) returns (error: Option<string>)
      requires Valid()
      modifies this
      ensures Valid()
      ensures currentFile == old(currentFile) && currentView == old(currentView)
      ensures old(currentFile) == None || apiKey == "" ==>
        extractionData == old(extractionData) && error == None
      ensures old(currentFile).Some? && apiKey != "" && outcome.Extracted? ==>
        extractionData == Some(outcome.payload) && error == None
      ensures old(currentFile).Some? && apiKey != "" && outcome.ExtractionFailed? ==>
        extractionData == old(extractionData) && error == Some(FailureMessage(outcome.message))
    {
      error := None;
      if currentFile == None || apiKey == "" {
        return;
      }
      match outcome
      case Extracted(payload) =>
        extractionData := Some(payload);
      case ExtractionFailed(message) =>
        error := Some(FailureMessage(message));
    }

    /** "Copy all": nothing without a payload, else the digest of the active tab. */
    method CopyAll() returns (text: Option<string>)
      ensures extractionData == None ==> text == None
      ensures extractionData.Some? ==> text == Some(Digest.ForView(currentView, extractionData.value))
    {
      if extractionData == None {
        return None;
      }
      text := Some(Digest.ForView(currentView, extractionData.value));
    }

    /** "Copy JSON": nothing without a payload, else the whole payload, whatever the tab. */
    method CopyJson() returns (snapshot: Option<Payload>)
      ensures extractionData == None ==> snapshot == None
      ensures extractionData.Some? ==> snapshot == extractionData
    {
      if extractionData == None {
        return None;
      }
      snapshot := extractionData;
    }

    /** "Download CSV": nothing without a payload, else the table, whatever the tab. */
    method DownloadCsv() returns (content: Option<string>)
      ensures extractionData == None ==> content == None
      ensures extractionData.Some? ==> content == Some(Csv.Document(extractionData.value))
    {
      if extractionData == None {
        return None;
      }
      var table := Csv.Build(extractionData.value);
      content := Some(table);
    }
  }

  /** An unsupported document is refused and leaves the empty session empty. */
  method RejectsPlainText()
  {
    var s := new State();
    var error := s.HandleFile(Some(File("notes.txt", "text/plain", 10)));
    assert error == Some(UnsupportedFormatMessage);
    assert s.currentFile == None && s.extractionData == None;
  }

  /** A failed extraction keeps the file for a retry and reports the service's message. */
  method FailureKeepsFile(payload: Payload)
  {
    var s := new State();
    var doc := File("scan.pdf", "application/pdf", 2048);
    var error := s.HandleFile(Some(doc));
    assert error == None && s.currentFile == Some(doc);
    error := s.ProcessOcr("key", ExtractionFailed("timeout"));
    assert error == Some("timeout") && s.currentFile == Some(doc) && s.extractionData == None;
    error := s.ProcessOcr("key", Extracted(payload));
    assert s.extractionData == Some(payload);
    s.SwitchTab(SetView);
    var text := s.CopyAll();
    assert text == Some(Digest.SetDigest(payload.aggregatedSet));
    s.SoftReset();
    text := s.CopyAll();
    assert text == None;
  }
}
