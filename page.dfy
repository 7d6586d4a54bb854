/**
 * The page script's state, with the DOM reduced to plain fields: the textarea and its character
 * counter, the two file inputs and their info elements, the generate button's disabled flag
 * (loading), the results and error sections, the badge, the chosen download format, the file
 * read a submission is waiting for, and the data handed to the QR renderer so far.
 */
module Page {
  import opened Wrappers
  import opened JsStrings
  import opened Sources
  import opened Pipeline

  /** An info element: the file its content names (none when the content is empty) and its has-file class. */
  datatype Info = Info(shown: Option<FileRef>, hasFile: bool)

  /** What handleFileSelection leaves in an info element: the file, marked exactly when there is one. */
  function InfoFor(f: Option<FileRef>): Info
  {
    Info(f, f.Some?)
  }

  const EmptyInfo := Info(None, false)

  /** A FileReader started by a submission whose onload or onerror has not yet run. */
  datatype PendingRead = PendingRead(kind: FileKind, file: FileRef)

  class QrForm {
    /** JSON.parse succeeding on a string; the parser itself is not modelled. */
    const validJson: string -> bool
    /** The accept attributes of the two file inputs, set by the page markup. */
    const vcfAccept: string
    const jsonAccept: string

    var text: string
    var charCount: nat
    var vcfFile: Option<FileRef>
    var jsonFile: Option<FileRef>
    var vcfInfo: Info
    var jsonInfo: Info

    var loading: bool
    var resultsVisible: bool
    var errorVisible: bool
    var errorText: string
    var badge: string
    var currentFormat: string
    var pending: Option<PendingRead>
    var rendered: seq<string>

    /**
     * The invariant every handler keeps: at most one source is active, each info element shows
     * its input's file and is marked exactly when there is one, the counter is the text length,
     * and the button is disabled exactly while a file read is outstanding, during which no
     * results are shown.
     */
    ghost predicate Valid()
      reads this
    {
      InputsValid() && PipelineValid()
    }

    ghost predicate InputsValid()
      reads this`text, this`charCount, this`vcfFile, this`jsonFile, this`vcfInfo, this`jsonInfo
    {
      Exclusive(text, vcfFile, jsonFile)
      && vcfInfo == InfoFor(vcfFile) && jsonInfo == InfoFor(jsonFile)
      && charCount == |text|
    }

    ghost predicate PipelineValid()
      reads this`loading, this`pending, this`resultsVisible
    {
      (loading <==> pending.Some?) && (loading ==> !resultsVisible)
    }

    function FileOf(k: FileKind): Option<FileRef>
      reads this
    {
      if k == Vcf then vcfFile else jsonFile
    }

    function InfoOf(k: FileKind): Info
      reads this
    {
      if k == Vcf then vcfInfo else jsonInfo
    }

    function AcceptOf(k: FileKind): string
    {
      if k == Vcf then vcfAccept else jsonAccept
    }

    /** The page after load: nothing typed or selected, nothing shown, format "png". */
    constructor (validJson: string -> bool, vcfAccept: string, jsonAccept: string)
      ensures Valid()
      ensures this.validJson == validJson && this.vcfAccept == vcfAccept && this.jsonAccept == jsonAccept
      ensures text == "" && vcfFile.None? && jsonFile.None?
      ensures !loading && !resultsVisible && !errorVisible
      ensures currentFormat == "png" && pending.None? && rendered == []
      ensures errorText == "" && badge == ""
    {
      this.validJson := validJson;
      this.vcfAccept := vcfAccept;
      this.jsonAccept := jsonAccept;
      text, charCount := "", 0;
      vcfFile, jsonFile := None, None;
      vcfInfo, jsonInfo := EmptyInfo, EmptyInfo;
      loading, resultsVisible, errorVisible := false, false, false;
      errorText, badge := "", "";
      currentFormat := "png";
      pending := None;
      rendered := [];
    }

    // ---------------------------------------------------------------- input-mode controller

    /** The textarea's input event: the counter follows the text, and any typed character clears both files. */
    method OnTextInput(newText: string)
      requires Valid()
      modifies this`text, this`charCount, this`vcfFile, this`jsonFile, this`vcfInfo, this`jsonInfo
      ensures Valid()
      ensures text == newText && charCount == |newText|
      ensures |newText| > 0 ==>
        vcfFile.None? && jsonFile.None? && vcfInfo == EmptyInfo && jsonInfo == EmptyInfo
      ensures |newText| == 0 ==>
        vcfFile == old(vcfFile) && jsonFile == old(jsonFile) && vcfInfo == old(vcfInfo) && jsonInfo == old(jsonInfo)
    {
      text := newText;
      var count := |text|;
      charCount := count;
      if count > 0 {
        ClearFileInputs();
      }
    }

    /** What a file input's change event leaves behind once the browser has stored `selected` in it. */
    twostate predicate FileChanged(k: FileKind, selected: Option<FileRef>)
      reads this
    {
      FileOf(k) == selected && InfoOf(k) == InfoFor(selected)
      && (selected.Some? ==>
            FileOf(Other(k)).None? && InfoOf(Other(k)) == EmptyInfo && !errorVisible
            && if HasText(old(text)) then text == "" && charCount == 0
               else text == old(text) && charCount == old(charCount))
      && (selected.None? ==>
            FileOf(Other(k)) == old(FileOf(Other(k))) && InfoOf(Other(k)) == old(InfoOf(Other(k)))
            && text == old(text) && charCount == old(charCount) && errorVisible == old(errorVisible))
    }

    /**
     * A file input's change event. Choosing a file clears the other input and any text that is not
     * only white space; choosing none only clears this input's info element.
     */
    method OnFileChange(k: FileKind, selected: Option<FileRef>)
      requires Valid()
      modifies this`vcfFile, this`jsonFile, this`vcfInfo, this`jsonInfo, this`text, this`charCount, this`errorVisible
      ensures Valid()
      ensures FileChanged(k, selected)
    {
      if k == Vcf {
        vcfFile := selected;
      } else {
        jsonFile := selected;
      }
      HandleFileSelection(k);
      if FileOf(k).Some? {
        ClearTextInput();
        ClearOtherFile(Other(k));
      }
    }

    /** handleFileSelection: the info element names the input's file, or is emptied when it holds none. */
    method HandleFileSelection(k: FileKind)
      modifies this`vcfInfo, this`jsonInfo, this`errorVisible
      ensures InfoOf(k) == InfoFor(FileOf(k)) && InfoOf(Other(k)) == old(InfoOf(Other(k)))
      ensures errorVisible == (old(errorVisible) && FileOf(k).None?)
    {
      var f := FileOf(k);
      if k == Vcf {
        vcfInfo := InfoFor(f);
      } else {
        jsonInfo := InfoFor(f);
      }
      if f.Some? {
        HideError();
      }
    }

    /** clearFileInputs: both inputs and both info elements are emptied. */
    method ClearFileInputs()
      modifies this`vcfFile, this`jsonFile, this`vcfInfo, this`jsonInfo
      ensures vcfFile.None? && jsonFile.None? && vcfInfo == EmptyInfo && jsonInfo == EmptyInfo
    {
      vcfFile, jsonFile := None, None;
      vcfInfo, jsonInfo := EmptyInfo, EmptyInfo;
    }

    /** clearTextInput: the text is cleared only when it is not all white space. */
    method ClearTextInput()
      modifies this`text, this`charCount
      ensures if HasText(old(text)) then text == "" && charCount == 0
              else text == old(text) && charCount == old(charCount)
    {
      if HasText(text) {
        text := "";
        charCount := 0;
      }
    }

    /** clearOtherFile: one input and its info element are emptied, the other is untouched. */
    method ClearOtherFile(k: FileKind)
      modifies this`vcfFile, this`jsonFile, this`vcfInfo, this`jsonInfo
      ensures FileOf(k).None? && InfoOf(k) == EmptyInfo
      ensures FileOf(Other(k)) == old(FileOf(Other(k))) && InfoOf(Other(k)) == old(InfoOf(Other(k)))
    {
      if k == Vcf {
        vcfFile, vcfInfo := None, EmptyInfo;
      } else {
        jsonFile, jsonInfo := None, EmptyInfo;
      }
    }

    /**
     * A drop on a file input's label: a first file whose lower-cased name ends with the input's
     * accept string is stored and the change handler runs; any other first file only shows an error.
     */
    method OnDrop(k: FileKind, dropped: Option<FileRef>)
      requires Valid()
      modifies this`vcfFile, this`jsonFile, this`vcfInfo, this`jsonInfo, this`text, this`charCount
      modifies this`errorVisible, this`errorText
      ensures Valid()
      ensures dropped.None? ==> unchanged(this)
      ensures dropped.Some? && AcceptsDrop(dropped.value.name, AcceptOf(k)) ==>
        FileChanged(k, dropped) && errorText == old(errorText)
      ensures dropped.Some? && !AcceptsDrop(dropped.value.name, AcceptOf(k)) ==>
        errorVisible && errorText == DropErrorMessage(AcceptOf(k))
        && vcfFile == old(vcfFile) && jsonFile == old(jsonFile)
        && vcfInfo == old(vcfInfo) && jsonInfo == old(jsonInfo)
        && text == old(text) && charCount == old(charCount)
    {
      if dropped.Some? {
        var accept := AcceptOf(k);
        if AcceptsDrop(dropped.value.name, accept) {
          OnFileChange(k, dropped);
        } else {
          ShowError(DropErrorMessage(accept));
        }
      }
    }

    // ---------------------------------------------------------------- submission and generation

    /** What generateQRCode leaves behind: the renderer got the data, the button is enabled again, and either the result with its badge or the render error is shown. */
    twostate predicate Generated(data: string, provenance: string, renderOk: bool)
      reads this
    {
      !loading && rendered == old(rendered) + [data]
      && if renderOk then
           resultsVisible && !errorVisible && badge == provenance && errorText == old(errorText)
         else
           !resultsVisible && errorVisible && errorText == RenderErrorMessage && badge == old(badge)
    }

    /** What the submit handler leaves behind, by the source it resolves. */
    twostate predicate Submitted(format: string, renderOk: bool)
      reads this
    {
      match Resolve(old(text), old(vcfFile), old(jsonFile))
      case None =>
        errorVisible && errorText == NoInputMessage && !loading && pending.None?
        && resultsVisible == old(resultsVisible) && badge == old(badge)
        && currentFormat == old(currentFormat) && rendered == old(rendered)
      case Some(FileSource(k, f)) =>
        currentFormat == format && loading && pending == Some(PendingRead(k, f))
        && !resultsVisible && !errorVisible && errorText == old(errorText)
        && badge == old(badge) && rendered == old(rendered)
      case Some(TextSource(payload)) =>
        currentFormat == format && pending.None? && Generated(payload, Label(TextSource(payload)), renderOk)
    }

    /**
     * The form's submit handler. The browser dispatches it only while the generate button is
     * enabled, that is, while no file read is outstanding. renderOk says whether the renderer
     * returns normally on this input.
     */
    method Submit(format: string, renderOk: bool)
      requires Valid() && !loading
      modifies this`loading, this`resultsVisible, this`errorVisible, this`errorText, this`badge
      modifies this`currentFormat, this`pending, this`rendered
      ensures Valid()
      ensures Submitted(format, renderOk)
    {
      var hasText := HasText(text);
      var hasVcfFile := vcfFile.Some?;
      var hasJsonFile := jsonFile.Some?;
      if !hasText && !hasVcfFile && !hasJsonFile {
        ShowError(NoInputMessage);
        return;
      }
      currentFormat := format;
      var src := Resolve(text, vcfFile, jsonFile);
      if hasVcfFile {
        assert src == Some(FileSource(Vcf, vcfFile.value));
        ProcessFile(Vcf, vcfFile.value);
      } else if hasJsonFile {
        assert src == Some(FileSource(Json, jsonFile.value));
        ProcessFile(Json, jsonFile.value);
      } else {
        assert src == Some(TextSource(Trim(text)));
        GenerateQRCode(Trim(text), Label(src.value), renderOk);
      }
    }

    /** processFile up to readAsText: the button is disabled, error and results hidden, and the read is outstanding. */
    method ProcessFile(k: FileKind, f: FileRef)
      modifies this`loading, this`errorVisible, this`resultsVisible, this`pending
      ensures loading && !errorVisible && !resultsVisible && pending == Some(PendingRead(k, f))
    {
      ShowLoading(true);
      HideError();
      HideResults();
      pending := Some(PendingRead(k, f));
    }

    /**
     * The outstanding read's onload (with the content) or onerror. A JSON file's content must
     * parse before it is rendered; a VCF file's content is rendered as read.
     */
    method CompleteRead(outcome: ReadOutcome, renderOk: bool)
      requires Valid() && pending.Some?
      modifies this`loading, this`resultsVisible, this`errorVisible, this`errorText, this`badge
      modifies this`pending, this`rendered
      ensures Valid() && pending.None? && !loading
      ensures match ReadVerdict(old(pending).value.kind, outcome, validJson)
        case Success(content) =>
          Generated(content, Label(FileSource(old(pending).value.kind, old(pending).value.file)), renderOk)
        case Failure(fault) =>
          errorVisible && errorText == FaultMessage(fault) && !resultsVisible
          && badge == old(badge) && rendered == old(rendered)
    {
      var read := pending.value;
      pending := None;
      match outcome
      case ReadFault =>
        ShowLoading(false);
        ShowError(ReadErrorMessage);
      case Loaded(content) =>
        if read.kind == Json && !validJson(content) {
          ShowLoading(false);
          ShowError(InvalidJsonMessage);
          return;
        }
        GenerateQRCode(content, Label(FileSource(read.kind, read.file)), renderOk);
    }

    /** generateQRCode: hand the data to the renderer and show the result, or the render error if it throws. */
    method GenerateQRCode(data: string, provenance: string, renderOk: bool)
      modifies this`loading, this`errorVisible, this`resultsVisible, this`rendered, this`badge, this`errorText
      ensures Generated(data, provenance, renderOk)
    {
      ShowLoading(true);
      HideError();
      HideResults();
      rendered := rendered + [data];
      if renderOk {
        badge := provenance;
        ShowLoading(false);
        ShowResults();
      } else {
        ShowLoading(false);
        ShowError(RenderErrorMessage);
      }
    }

    /** Ctrl+Enter or Cmd+Enter submits the form, unless the generate button is disabled. */
    method OnKeyDown(ctrlKey: bool, metaKey: bool, key: string, format: string, renderOk: bool)
      requires Valid()
      modifies this`loading, this`resultsVisible, this`errorVisible, this`errorText, this`badge
      modifies this`currentFormat, this`pending, this`rendered
      ensures Valid()
      ensures (ctrlKey || metaKey) && key == "Enter" && !old(loading) ==> Submitted(format, renderOk)
      ensures !((ctrlKey || metaKey) && key == "Enter") || old(loading) ==> unchanged(this)
    {
      if (ctrlKey || metaKey) && key == "Enter" {
        if !loading {
          Submit(format, renderOk);
        }
      }
    }

    // ---------------------------------------------------------------- display helpers

    /** showLoading: the generate button is disabled exactly when loading. */
    method ShowLoading(isLoading: bool)
      modifies this`loading
      ensures loading == isLoading
    {
      loading := isLoading;
    }

    method ShowResults()
      modifies this`resultsVisible
      ensures resultsVisible
    {
      resultsVisible := true;
    }

    method HideResults()
      modifies this`resultsVisible
      ensures !resultsVisible
    {
      resultsVisible := false;
    }

    /** showError: the message is shown in the error section. */
    method ShowError(message: string)
      modifies this`errorText, this`errorVisible
      ensures errorText == message && errorVisible
    {
      errorText := message;
      errorVisible := true;
    }

    method HideError()
      modifies this`errorVisible
      ensures !errorVisible
    {
      errorVisible := false;
    }
  }
}
