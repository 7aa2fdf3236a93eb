/** Option, for values the source may leave absent (a missing JSON field, an empty session). */
module Wrappers {
  datatype Option<+T> = None | Some(value: T)
}

/** The detection record that travels from the server to the browser: `{class, confidence}`. */
module Wire {
  /** One detected object. The bounding box the server also sends is not read by the pages. */
  datatype Det = Det(objectClass: string, confidence: real)
}

/**
 * What the two upload pages (static/script.js and static/dashboard.js) share: the picked file,
 * the checks on it, the `/predict` reply as the browser sees it, the fixed messages, and the
 * confidence list both pages render with the same code.
 */
module Client {
  import opened Wrappers
  import opened Wire

  /** A picked or dropped file: its declared media type and its size in bytes. */
  datatype FileInfo = FileInfo(mimeType: string, size: nat)

  /** The largest upload either page lets through (16 MiB). */
  const MaxUploadBytes: nat := 16 * 1024 * 1024

  /** `file.type.startsWith('image/')`. */
  predicate IsImageType(mimeType: string) {
    |mimeType| >= 6 && mimeType[..6] == "image/"
  }

  /** `file.size > 16 * 1024 * 1024`. */
  predicate TooLarge(file: FileInfo) {
    file.size > MaxUploadBytes
  }

  /** What an `<img>` element's `src` holds. */
  datatype ImageSrc =
    | Blank                      // src = ''
    | DataUrlOf(file: FileInfo)  // the FileReader's data URL of a picked file
    | Jpeg(base64: string)       // 'data:image/jpeg;base64,' + the server's annotated image

  /** An alert as the `/predict` reply lists it. */
  datatype AlertNote = AlertNote(message: string, severity: string)

  /**
   * The outcome of `fetch('/predict')` followed by `response.json()`: either the promise rejects
   * (no connection, or a body that is not JSON), or a JSON object arrives. A missing or falsy
   * `success` is `false`; a missing `error` is `None`; a missing `alerts` is the empty list.
   */
  datatype PredictReply =
    | NetworkFail
    | Reply(success: bool, error: Option<string>, total: int, detections: seq<Det>,
            annotatedImage: string, alerts: seq<AlertNote>)

  const SelectInvalidMsg := "Please select a valid image file."
  const DropInvalidMsg := "Please drop a valid image file."
  const TooLargeMsg := "File size too large. Please select an image smaller than 16MB."
  const DetectionFailedMsg := "Detection failed. Please try again."
  const NetworkErrorMsg := "Network error. Please check your connection and try again."

  /** `data.error || 'Detection failed. Please try again.'`: an empty string is falsy in JavaScript. */
  function FailureMessage(error: Option<string>): string {
    if error.Some? && error.value != "" then error.value else DetectionFailedMsg
  }

  /** The pieces of the confidence list's `innerHTML`; the percentage text is not modelled. */
  datatype Fragment =
    | NoWeaponsNote                          // '<p ...>No weapons detected in the image.</p>'
    | DetailsHeader                          // '<h4>Detection Details:</h4>'
    | Item(objectClass: string, confidence: real)  // one '<div class="confidence-item">'

  function ItemOf(d: Det): Fragment {
    Item(d.objectClass, d.confidence)
  }

  /** One item per detection, in order. */
  function ItemsOf(dets: seq<Det>): seq<Fragment> {
    if dets == [] then [] else ItemsOf(dets[..|dets| - 1]) + [ItemOf(dets[|dets| - 1])]
  }

  /** The whole content the confidence list is set to for a detection list. */
  function ConfidenceHtml(dets: seq<Det>): seq<Fragment> {
    if |dets| == 0 then [NoWeaponsNote] else [DetailsHeader] + ItemsOf(dets)
  }

  /** Reads the detections back out of a rendered list: every item, in order; nothing else. */
  function RenderedDetections(html: seq<Fragment>): seq<Det> {
    if html == [] then []
    else
      var last := html[|html| - 1];
      RenderedDetections(html[..|html| - 1]) + (if last.Item? then [Det(last.objectClass, last.confidence)] else [])
  }

  lemma {:induction false} ItemsOfLength(dets: seq<Det>)
    ensures |ItemsOf(dets)| == |dets|
    ensures forall i :: 0 <= i < |dets| ==> ItemsOf(dets)[i] == ItemOf(dets[i])
  {
    if dets != [] {
      ItemsOfLength(dets[..|dets| - 1]);
    }
  }

  lemma {:induction false} HeaderAndItemsRoundTrip(dets: seq<Det>)
    ensures RenderedDetections([DetailsHeader] + ItemsOf(dets)) == dets
  {
    if dets == [] {
      assert [DetailsHeader] + ItemsOf(dets) == [DetailsHeader];
      assert RenderedDetections([DetailsHeader]) == RenderedDetections([]);
    } else {
      var front := dets[..|dets| - 1];
      var html := [DetailsHeader] + ItemsOf(dets);
      assert html == ([DetailsHeader] + ItemsOf(front)) + [ItemOf(dets[|dets| - 1])];
      assert html[..|html| - 1] == [DetailsHeader] + ItemsOf(front);
      HeaderAndItemsRoundTrip(front);
      assert dets == front + [dets[|dets| - 1]];
    }
  }

  /**
   * The rendered confidence list shows exactly the detections it was given, in order, and nothing
   * else: a list without detections shows only the "No weapons detected" note.
   */
  lemma ConfidenceHtmlShowsExactly(dets: seq<Det>)
    ensures RenderedDetections(ConfidenceHtml(dets)) == dets
    ensures |ConfidenceHtml(dets)| == |dets| + 1
    ensures (NoWeaponsNote in ConfidenceHtml(dets)) <==> dets == []
  {
    ItemsOfLength(dets);
    if dets == [] {
      assert RenderedDetections([NoWeaponsNote]) == RenderedDetections([]);
    } else {
      HeaderAndItemsRoundTrip(dets);
      var html := ConfidenceHtml(dets);
      assert html[0] == DetailsHeader;
      assert forall i :: 1 <= i < |html| ==> html[i] == ItemOf(dets[i - 1]);
    }
  }

  /**
   * The `forEach` that builds the confidence list's HTML: the header, then one item per detection
   * appended in order; an empty list gives only the note.
   */
  method BuildConfidenceHtml(dets: seq<Det>) returns (html: seq<Fragment>)
    ensures html == ConfidenceHtml(dets)
    ensures |html| == |dets| + 1
    ensures RenderedDetections(html) == dets
  {
    ConfidenceHtmlShowsExactly(dets);
    if |dets| == 0 {
      html := [NoWeaponsNote];
      return;
    }
    html := [DetailsHeader];
    for i := 0 to |dets|
      invariant html == [DetailsHeader] + ItemsOf(dets[..i])
    {
      assert dets[..i + 1][..i] == dets[..i];
      html := html + [ItemOf(dets[i])];
    }
    assert dets[..|dets|] == dets;
  }
}
