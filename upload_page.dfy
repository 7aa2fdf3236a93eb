/**
 * The stand-alone upload-and-detect page (static/script.js): one module-level `selectedFile`,
 * four sections of which at most one is displayed, and the detect button's short disable.
 */
module UploadPage {
  import opened Wrappers
  import opened Wire
  import opened Client

  /** The page's four sections: `previewSection`, `loadingSection`, `resultsSection`, `errorSection`. */
  datatype Section = Preview | Loading | Results | Error

  /** The keys the page's `keydown` listener tells apart. */
  datatype Key = Enter | Escape | CtrlO | OtherKey

  const NoFileMsg := "Please select an image first."

  class Page {
    /** The module-level `selectedFile` (`null` is `None`). */
    var selectedFile: Option<FileInfo>
    /** The sections whose `style.display` is `'block'`; the others are `'none'`. */
    var displayed: set<Section>
    /** The sections carrying the `fade-in` class. */
    var fadingIn: set<Section>
    var previewImage: ImageSrc
    /** `detectionCount.textContent`, as the number it shows. */
    var detectionCount: int
    /** `confidenceInfo.innerHTML`; the empty sequence is the empty string. */
    var confidenceInfo: seq<Fragment>
    var resultImage: ImageSrc
    var errorText: string
    var detectButtonDisabled: bool

    /**
     * Each `show*` call hides all four sections first, so at most one is ever displayed, and the
     * one displayed is the one fading in. A displayed preview shows some picked file, though not
     * necessarily the selected one: the reader's `onload` does not look at the selection.
     */
    ghost predicate Valid()
      reads this
    {
      && fadingIn == displayed
      && |displayed| <= 1
      && (Preview in displayed ==> previewImage.DataUrlOf?)
    }

    /** The page as loaded: no file, every section hidden, the result fields empty. */
    constructor ()
      ensures Valid()
      ensures selectedFile == None && displayed == {}
      ensures previewImage == Blank && resultImage == Blank
      ensures detectionCount == 0 && confidenceInfo == [] && errorText == ""
      ensures !detectButtonDisabled
    {
      selectedFile := None;
      displayed, fadingIn := {}, {};
      previewImage, resultImage := Blank, Blank;
      detectionCount, confidenceInfo, errorText := 0, [], "";
      detectButtonDisabled := false;
    }

    method HideAllSections()
      modifies this`displayed, this`fadingIn
      ensures displayed == {} && fadingIn == {}
      ensures Valid()
    {
      displayed := {};
      fadingIn := {};
    }

    method ShowPreview()
      requires previewImage.DataUrlOf?
      modifies this`displayed, this`fadingIn
      ensures displayed == {Preview} && Valid()
    {
      HideAllSections();
      displayed := displayed + {Preview};
      fadingIn := fadingIn + {Preview};
    }

    method ShowLoading()
      modifies this`displayed, this`fadingIn
      ensures displayed == {Loading} && Valid()
    {
      HideAllSections();
      displayed := displayed + {Loading};
      fadingIn := fadingIn + {Loading};
    }

    method ShowError(message: string)
      modifies this`displayed, this`fadingIn, this`errorText
      ensures displayed == {Error} && errorText == message && Valid()
    {
      HideAllSections();
      errorText := message;
      displayed := displayed + {Error};
      fadingIn := fadingIn + {Error};
    }

    /** Replaces the list's content; whatever it held before is gone. */
    method UpdateConfidenceInfo(dets: seq<Det>)
      modifies this`confidenceInfo
      ensures confidenceInfo == ConfidenceHtml(dets)
      ensures RenderedDetections(confidenceInfo) == dets
    {
      confidenceInfo := BuildConfidenceHtml(dets);
    }

    method ShowResults(total: int, dets: seq<Det>, annotatedImage: string)
      modifies this`displayed, this`fadingIn, this`detectionCount, this`confidenceInfo, this`resultImage
      ensures displayed == {Results} && Valid()
      ensures detectionCount == total && confidenceInfo == ConfidenceHtml(dets)
      ensures resultImage == Jpeg(annotatedImage)
    {
      HideAllSections();
      detectionCount := total;
      UpdateConfidenceInfo(dets);
      resultImage := Jpeg(annotatedImage);
      displayed := displayed + {Results};
      fadingIn := fadingIn + {Results};
    }

    /**
     * The file becomes the selected one before its size is checked: an oversized image stays
     * selected while the error is shown. A file within the limit is handed to a `FileReader`,
     * returned as `reading`; its `onload` is `PreviewLoaded`, a later step of its own.
     */
    method ProcessFile(file: FileInfo) returns (reading: Option<FileInfo>)
      requires Valid()
      modifies this`selectedFile, this`displayed, this`fadingIn, this`errorText
      ensures Valid() && selectedFile == Some(file)
      ensures TooLarge(file) ==> reading == None && displayed == {Error} && errorText == TooLargeMsg
      ensures !TooLarge(file) ==>
        reading == Some(file) && displayed == old(displayed) && errorText == old(errorText)
    {
      selectedFile := Some(file);
      if TooLarge(file) {
        ShowError(TooLargeMsg);
        return None;
      }
      reading := Some(file);
    }

    /**
     * A `FileReader`'s `onload`: the file it read becomes the preview, whatever is selected by
     * then (a reset, or a later pick, may have come in between).
     */
    method PreviewLoaded(file: FileInfo)
      requires Valid()
      modifies this`previewImage, this`displayed, this`fadingIn
      ensures Valid() && previewImage == DataUrlOf(file) && displayed == {Preview}
    {
      previewImage := DataUrlOf(file);
      ShowPreview();
    }

    /** The file input's `change` handler. */
    method HandleFileSelect(file: Option<FileInfo>) returns (reading: Option<FileInfo>)
      requires Valid()
      modifies this`selectedFile, this`displayed, this`fadingIn, this`errorText
      ensures Valid()
      ensures file.Some? && IsImageType(file.value.mimeType) ==> selectedFile == file
      ensures file.Some? && IsImageType(file.value.mimeType) && TooLarge(file.value) ==>
        reading == None && displayed == {Error} && errorText == TooLargeMsg
      ensures file.Some? && IsImageType(file.value.mimeType) && !TooLarge(file.value) ==>
        reading == file && displayed == old(displayed) && errorText == old(errorText)
      ensures !(file.Some? && IsImageType(file.value.mimeType)) ==>
        && reading == None && selectedFile == old(selectedFile)
        && displayed == {Error} && errorText == SelectInvalidMsg
    {
      if file.Some? && IsImageType(file.value.mimeType) {
        reading := ProcessFile(file.value);
      } else {
        ShowError(SelectInvalidMsg);
        reading := None;
      }
    }

    /** The upload area's `drop` handler: only the first dropped file is looked at. */
    method HandleDrop(files: seq<FileInfo>) returns (reading: Option<FileInfo>)
      requires Valid()
      modifies this`selectedFile, this`displayed, this`fadingIn, this`errorText
      ensures Valid()
      ensures files == [] ==> reading == None && unchanged(this)
      ensures files != [] && IsImageType(files[0].mimeType) ==> selectedFile == Some(files[0])
      ensures files != [] && IsImageType(files[0].mimeType) && TooLarge(files[0]) ==>
        reading == None && displayed == {Error} && errorText == TooLargeMsg
      ensures files != [] && IsImageType(files[0].mimeType) && !TooLarge(files[0]) ==>
        reading == Some(files[0]) && displayed == old(displayed) && errorText == old(errorText)
      ensures files != [] && !IsImageType(files[0].mimeType) ==>
        && reading == None && selectedFile == old(selectedFile)
        && displayed == {Error} && errorText == DropInvalidMsg
    {
      reading := None;
      if |files| > 0 {
        var file := files[0];
        if IsImageType(file.mimeType) {
          reading := ProcessFile(file);
        } else {
          ShowError(DropInvalidMsg);
        }
      }
    }

    /**
     * The synchronous part of `handleDetection`, up to the `fetch`: without a selected file it
     * shows an error and sends nothing; otherwise it shows the loading section and posts the
     * selected file. There is no guard against a detection already under way.
     */
    method HandleDetection() returns (request: Option<FileInfo>)
      requires Valid()
      modifies this`displayed, this`fadingIn, this`errorText
      ensures Valid() && request == selectedFile
      ensures selectedFile.None? ==> displayed == {Error} && errorText == NoFileMsg
      ensures selectedFile.Some? ==> displayed == {Loading} && errorText == old(errorText)
    {
      if selectedFile.None? {
        ShowError(NoFileMsg);
        return None;
      }
      ShowLoading();
      request := selectedFile;
    }

    /**
     * The rest of `handleDetection`, once the reply (or the rejection) is in. It applies to
     * whatever state the page is in by then: nothing ties a reply to the request that caused it.
     */
    method DetectionSettled(reply: PredictReply)
      requires Valid()
      modifies this`displayed, this`fadingIn, this`errorText, this`detectionCount, this`confidenceInfo, this`resultImage
      ensures Valid()
      ensures reply.NetworkFail? ==>
        displayed == {Error} && errorText == NetworkErrorMsg && ResultUnchanged()
      ensures reply.Reply? && reply.success ==>
        && displayed == {Results} && errorText == old(errorText)
        && detectionCount == reply.total
        && confidenceInfo == ConfidenceHtml(reply.detections)
        && resultImage == Jpeg(reply.annotatedImage)
      ensures reply.Reply? && !reply.success ==>
        displayed == {Error} && errorText == FailureMessage(reply.error) && ResultUnchanged()
    {
      if reply.NetworkFail? {
        ShowError(NetworkErrorMsg);
      } else if reply.success {
        ShowResults(reply.total, reply.detections, reply.annotatedImage);
      } else {
        ShowError(FailureMessage(reply.error));
      }
    }

    twostate predicate ResultUnchanged()
      reads this
    {
      && detectionCount == old(detectionCount)
      && confidenceInfo == old(confidenceInfo)
      && resultImage == old(resultImage)
    }

    /** Back to the page as loaded, except that the detect button keeps its state. */
    method ResetDetection()
      requires Valid()
      modifies this`selectedFile, this`displayed, this`fadingIn, this`previewImage, this`detectionCount, this`confidenceInfo, this`resultImage
      ensures Valid()
      ensures selectedFile == None && displayed == {}
      ensures previewImage == Blank && resultImage == Blank
      ensures detectionCount == 0 && confidenceInfo == []
    {
      selectedFile := None;
      HideAllSections();
      previewImage := Blank;
      detectionCount := 0;
      confidenceInfo := [];
      resultImage := Blank;
    }

    /**
     * A click on the detect button. A disabled button takes no clicks. Otherwise both click
     * listeners run in the order they were added: `handleDetection`, then the one that disables
     * the button for ten seconds.
     */
    method ClickDetect() returns (request: Option<FileInfo>)
      requires Valid()
      modifies this`displayed, this`fadingIn, this`errorText, this`detectButtonDisabled
      ensures Valid()
      ensures old(detectButtonDisabled) ==> request == None && unchanged(this)
      ensures !old(detectButtonDisabled) ==>
        && request == selectedFile && detectButtonDisabled
        && displayed == (if selectedFile.Some? then {Loading} else {Error})
        && errorText == (if selectedFile.Some? then old(errorText) else NoFileMsg)
    {
      if detectButtonDisabled {
        return None;
      }
      request := HandleDetection();
      detectButtonDisabled := true;
    }

    /** The ten-second timer that re-enables the detect button. */
    method DetectButtonTimerFired()
      modifies this`detectButtonDisabled
      ensures !detectButtonDisabled
    {
      detectButtonDisabled := false;
    }

    /**
     * The document's `keydown` listener. Enter starts a detection only while the preview is
     * displayed, and does so whether or not the detect button is disabled; Escape always resets;
     * Ctrl/Cmd+O only opens the file dialog, which changes nothing here.
     */
    method KeyDown(key: Key) returns (request: Option<FileInfo>)
      requires Valid()
      modifies this`selectedFile, this`displayed, this`fadingIn, this`errorText, this`previewImage, this`detectionCount, this`confidenceInfo, this`resultImage
      ensures Valid()
      ensures detectButtonDisabled == old(detectButtonDisabled)
      ensures key == Enter && Preview in old(displayed) ==>
        && request == old(selectedFile)
        && (request.Some? ==> displayed == {Loading})
        && (request.None? ==> displayed == {Error} && errorText == NoFileMsg)
      ensures key == Enter && Preview !in old(displayed) ==> request == None && unchanged(this)
      ensures key == Enter ==>
        selectedFile == old(selectedFile) && previewImage == old(previewImage) && ResultUnchanged()
      ensures key == Escape ==>
        && request == None && selectedFile == None && displayed == {} && previewImage == Blank
        && detectionCount == 0 && confidenceInfo == [] && resultImage == Blank
      ensures key == CtrlO || key == OtherKey ==> request == None && unchanged(this)
    {
      request := None;
      if key == Enter && Preview in displayed {
        request := HandleDetection();
      }
      if key == Escape {
        ResetDetection();
      }
    }
  }

  /**
   * A reset that lands between a pick and its reader's `onload`: the preview comes back with no
   * file selected, and Enter on it then asks for an image instead of posting one.
   */
  method PreviewAfterReset(file: FileInfo) returns (page: Page, request: Option<FileInfo>)
    requires IsImageType(file.mimeType) && !TooLarge(file)
    ensures page.selectedFile == None && page.previewImage == DataUrlOf(file)
    ensures request == None && page.displayed == {Error} && page.errorText == NoFileMsg
  {
    page := new Page();
    var reading := page.HandleFileSelect(Some(file));
    var ignored := page.KeyDown(Escape);
    page.PreviewLoaded(reading.value);
    request := page.KeyDown(Enter);
  }
}
