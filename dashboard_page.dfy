/**
 * The dashboard (static/dashboard.js): two upload areas (the page's own and the one in the
 * detection modal) that detect as soon as a preview is loaded, the alert pop-up, error toasts
 * that pile up, and the alert cards with their "accept" buttons and the badge counting them.
 */
module DashboardPage {
  import opened Wrappers
  import opened Wire
  import opened Client

  /** Which upload area a handler was set up for: `'main'` or `'modal'`. */
  datatype Area = Main | Modal

  /** The accept button of an alert card, by the label and the `disabled` flag it carries. */
  datatype ButtonState =
    | Ready      // "Accept", enabled
    | Accepting  // spinner, disabled
    | Accepted   // check mark, still disabled
    | Failed     // "Error", enabled again

  datatype AlertCard = AlertCard(id: nat, button: ButtonState)

  /** One error notification appended to the page body. */
  datatype Toast = Toast(id: nat, message: string)

  /** The outcome of `fetch('/api/acknowledge_alert/<id>')` and `response.json()`. */
  datatype AckReply = AckNetworkFail | AckReply(success: bool)

  predicate UniqueCardIds(cards: seq<AlertCard>) {
    forall i, j :: 0 <= i < j < |cards| ==> cards[i].id != cards[j].id
  }

  predicate HasCard(cards: seq<AlertCard>, id: nat) {
    exists i :: 0 <= i < |cards| && cards[i].id == id
  }

  /** `alertCard.remove()`: the card with that id goes, every other card stays, in order. */
  function CardsWithout(cards: seq<AlertCard>, id: nat): (r: seq<AlertCard>)
    ensures forall c :: c in r <==> c in cards && c.id != id
    ensures UniqueCardIds(cards) ==> UniqueCardIds(r)
    ensures UniqueCardIds(cards) && HasCard(cards, id) ==> |r| == |cards| - 1
    ensures !HasCard(cards, id) ==> r == cards
  {
    if cards == [] then []
    else
      var rest := CardsWithout(cards[1..], id);
      assert HasCard(cards, id) && cards[0].id != id ==> HasCard(cards[1..], id);
      assert UniqueCardIds(cards) && cards[0].id == id ==> !HasCard(cards[1..], id);
      if cards[0].id == id then rest else [cards[0]] + rest
  }

  /** The card with that id gets a new button state; no card comes or goes. */
  function WithButton(cards: seq<AlertCard>, id: nat, state: ButtonState): (r: seq<AlertCard>)
    ensures |r| == |cards|
    ensures forall i :: 0 <= i < |r| ==> r[i].id == cards[i].id
    ensures forall i :: 0 <= i < |r| ==> r[i].button == if cards[i].id == id then state else cards[i].button
  {
    seq(|cards|, i requires 0 <= i < |cards| =>
      if cards[i].id == id then cards[i].(button := state) else cards[i])
  }

  /** Every toast on the page was numbered before `bound`, so a new toast's number is fresh. */
  predicate ToastIdsBelow(toasts: seq<Toast>, bound: nat) {
    forall t :: t in toasts ==> t.id < bound
  }

  /** A toast's close button or its five-second timer: that toast goes, the others stay. */
  function ToastsWithout(toasts: seq<Toast>, id: nat): (r: seq<Toast>)
    ensures forall t :: t in r <==> t in toasts && t.id != id
  {
    if toasts == [] then []
    else
      var rest := ToastsWithout(toasts[1..], id);
      if toasts[0].id == id then rest else [toasts[0]] + rest
  }

  class Dashboard {
    // The main upload area. `#detectionResults` is both its results block and the element
    // `runDetection` uses as its progress indicator, so both roles share `detectionResultsShown`.
    var detectionResultsShown: bool
    var detectionCount: int
    var confidenceList: seq<Fragment>
    var resultImage: ImageSrc
    // The detection modal.
    var modalOpen: bool
    var progressShown: bool
    var modalResultsShown: bool
    var modalDetectionCount: int
    var modalConfidenceList: seq<Fragment>
    var modalResultImage: ImageSrc
    // Notifications: error toasts appended to the body, and the single alert pop-up.
    var toasts: seq<Toast>
    var nextToastId: nat
    var alertShown: bool
    var alertMessage: string
    // The alerts panel and the badge.
    var cards: seq<AlertCard>
    var noAlertsPanel: bool
    var badgeText: int
    var badgeShown: bool

    ghost predicate Valid()
      reads this
    {
      UniqueCardIds(cards) && ToastIdsBelow(toasts, nextToastId)
    }

    /** The page as the server rendered it: the given alert cards and badge, nothing else shown. */
    constructor (initialCards: seq<AlertCard>, initialBadge: int)
      requires UniqueCardIds(initialCards)
      ensures Valid() && cards == initialCards && toasts == []
      ensures badgeText == initialBadge && badgeShown == (initialBadge > 0)
      ensures !detectionResultsShown && !modalOpen && !progressShown && !modalResultsShown
      ensures !alertShown && !noAlertsPanel
    {
      detectionResultsShown, detectionCount, confidenceList, resultImage := false, 0, [], Blank;
      modalOpen, progressShown, modalResultsShown := false, false, false;
      modalDetectionCount, modalConfidenceList, modalResultImage := 0, [], Blank;
      toasts, nextToastId := [], 0;
      alertShown, alertMessage := false, "";
      cards, noAlertsPanel := initialCards, false;
      badgeText, badgeShown := initialBadge, initialBadge > 0;
    }

    /** Each call appends a new toast; earlier ones stay until their own removal. */
    method ShowError(message: string)
      requires Valid()
      modifies this`toasts, this`nextToastId
      ensures Valid()
      ensures toasts == old(toasts) + [Toast(old(nextToastId), message)]
      ensures nextToastId == old(nextToastId) + 1
    {
      toasts := toasts + [Toast(nextToastId, message)];
      nextToastId := nextToastId + 1;
    }

    /** The toast's close button, or its timer after five seconds; a toast already gone stays gone. */
    method DismissToast(id: nat)
      requires Valid()
      modifies this`toasts
      ensures Valid() && toasts == ToastsWithout(old(toasts), id)
    {
      toasts := ToastsWithout(toasts, id);
    }

    method OpenDetectionModal()
      modifies this`modalOpen
      ensures modalOpen
    {
      modalOpen := true;
    }

    /** Closing the modal also hides its progress indicator and its results. */
    method CloseDetectionModal()
      modifies this`modalOpen, this`progressShown, this`modalResultsShown
      ensures !modalOpen && !progressShown && !modalResultsShown
    {
      modalOpen := false;
      progressShown := false;
      modalResultsShown := false;
    }

    method ShowImagePreview(file: FileInfo, area: Area)
      modifies this`resultImage, this`modalResultImage
      ensures area == Main ==> resultImage == DataUrlOf(file) && modalResultImage == old(modalResultImage)
      ensures area == Modal ==> modalResultImage == DataUrlOf(file) && resultImage == old(resultImage)
    {
      if area == Modal {
        modalResultImage := DataUrlOf(file);
      } else {
        resultImage := DataUrlOf(file);
      }
    }

    /** Shows the area's progress element and posts the file. */
    method RunDetection(file: FileInfo, area: Area) returns (request: Option<FileInfo>)
      modifies this`detectionResultsShown, this`progressShown
      ensures request == Some(file)
      ensures area == Main ==> detectionResultsShown && progressShown == old(progressShown)
      ensures area == Modal ==> progressShown && detectionResultsShown == old(detectionResultsShown)
    {
      if area == Modal {
        progressShown := true;
      } else {
        detectionResultsShown := true;
      }
      request := Some(file);
    }

    /** Replaces the area's confidence list. */
    method UpdateConfidenceList(area: Area, dets: seq<Det>)
      modifies this`confidenceList, this`modalConfidenceList
      ensures area == Main ==>
        confidenceList == ConfidenceHtml(dets) && modalConfidenceList == old(modalConfidenceList)
      ensures area == Modal ==>
        modalConfidenceList == ConfidenceHtml(dets) && confidenceList == old(confidenceList)
    {
      var html := BuildConfidenceHtml(dets);
      if area == Modal {
        modalConfidenceList := html;
      } else {
        confidenceList := html;
      }
    }

    method ShowDetectionResults(area: Area, total: int, dets: seq<Det>, annotatedImage: string)
      modifies this`detectionResultsShown, this`detectionCount, this`confidenceList, this`resultImage
      modifies this`modalResultsShown, this`modalDetectionCount, this`modalConfidenceList, this`modalResultImage
      ensures area == Main ==>
        && detectionResultsShown && detectionCount == total
        && confidenceList == ConfidenceHtml(dets) && resultImage == Jpeg(annotatedImage)
        && ModalResultUnchanged()
      ensures area == Modal ==>
        && modalResultsShown && modalDetectionCount == total
        && modalConfidenceList == ConfidenceHtml(dets) && modalResultImage == Jpeg(annotatedImage)
        && MainResultUnchanged()
    {
      if area == Modal {
        modalResultsShown := true;
        modalDetectionCount := total;
      } else {
        detectionResultsShown := true;
        detectionCount := total;
      }
      UpdateConfidenceList(area, dets);
      if area == Modal {
        modalResultImage := Jpeg(annotatedImage);
      } else {
        resultImage := Jpeg(annotatedImage);
      }
    }

    twostate predicate MainResultUnchanged()
      reads this
    {
      detectionResultsShown == old(detectionResultsShown) && MainValuesUnchanged()
    }

    /** The main area's count, list and image, leaving aside whether the block is displayed. */
    twostate predicate MainValuesUnchanged()
      reads this
    {
      && detectionCount == old(detectionCount)
      && confidenceList == old(confidenceList) && resultImage == old(resultImage)
    }

    twostate predicate ModalResultUnchanged()
      reads this
    {
      && modalResultsShown == old(modalResultsShown) && modalDetectionCount == old(modalDetectionCount)
      && modalConfidenceList == old(modalConfidenceList) && modalResultImage == old(modalResultImage)
    }

    /** Each alert in turn fills the one pop-up, so the last alert's message is the one left. */
    method HandleAlerts(alerts: seq<AlertNote>)
      modifies this`alertShown, this`alertMessage
      ensures alerts == [] ==> alertShown == old(alertShown) && alertMessage == old(alertMessage)
      ensures alerts != [] ==> alertShown && alertMessage == alerts[|alerts| - 1].message
    {
      for i := 0 to |alerts|
        invariant i == 0 ==> alertShown == old(alertShown) && alertMessage == old(alertMessage)
        invariant i > 0 ==> alertShown && alertMessage == alerts[i - 1].message
      {
        alertMessage := alerts[i].message;
        alertShown := true;
      }
    }

    /** The pop-up's ten-second timer. */
    method CloseAlert()
      modifies this`alertShown
      ensures !alertShown
    {
      alertShown := false;
    }

    /**
     * The size check. A file within the limit is handed to a `FileReader`, returned as `reading`;
     * its `onload` is `PreviewLoaded`, a later step of its own that knows the area.
     */
    method ProcessFile(file: FileInfo) returns (reading: Option<FileInfo>)
      requires Valid()
      modifies this`toasts, this`nextToastId
      ensures Valid()
      ensures TooLarge(file) ==>
        reading == None && toasts == old(toasts) + [Toast(old(nextToastId), TooLargeMsg)]
      ensures !TooLarge(file) ==>
        reading == Some(file) && toasts == old(toasts) && nextToastId == old(nextToastId)
    {
      if TooLarge(file) {
        ShowError(TooLargeMsg);
        return None;
      }
      reading := Some(file);
    }

    /**
     * The reader's `onload`: the modal is closed first when the file came from it, the area shows
     * the file, and only then does detection start.
     */
    method PreviewLoaded(file: FileInfo, area: Area) returns (request: Option<FileInfo>)
      modifies this`modalOpen, this`progressShown, this`modalResultsShown
      modifies this`resultImage, this`modalResultImage, this`detectionResultsShown
      ensures request == Some(file)
      ensures area == Main ==>
        && resultImage == DataUrlOf(file) && detectionResultsShown
        && modalOpen == old(modalOpen) && progressShown == old(progressShown)
        && modalResultsShown == old(modalResultsShown) && modalResultImage == old(modalResultImage)
      ensures area == Modal ==>
        && modalResultImage == DataUrlOf(file) && progressShown && !modalOpen && !modalResultsShown
        && resultImage == old(resultImage) && detectionResultsShown == old(detectionResultsShown)
    {
      if area == Modal {
        CloseDetectionModal();
      }
      ShowImagePreview(file, area);
      request := RunDetection(file, area);
    }

    /** An area's file input `change` handler. */
    method HandleFileSelect(file: Option<FileInfo>) returns (reading: Option<FileInfo>)
      requires Valid()
      modifies this`toasts, this`nextToastId
      ensures Valid()
      ensures file.Some? && IsImageType(file.value.mimeType) && !TooLarge(file.value) ==>
        reading == file && toasts == old(toasts) && nextToastId == old(nextToastId)
      ensures file.Some? && IsImageType(file.value.mimeType) && TooLarge(file.value) ==>
        reading == None && toasts == old(toasts) + [Toast(old(nextToastId), TooLargeMsg)]
      ensures !(file.Some? && IsImageType(file.value.mimeType)) ==>
        reading == None && toasts == old(toasts) + [Toast(old(nextToastId), SelectInvalidMsg)]
    {
      if file.Some? && IsImageType(file.value.mimeType) {
        reading := ProcessFile(file.value);
      } else {
        ShowError(SelectInvalidMsg);
        reading := None;
      }
    }

    /** An area's `drop` handler: only the first dropped file is looked at. */
    method HandleDrop(files: seq<FileInfo>) returns (reading: Option<FileInfo>)
      requires Valid()
      modifies this`toasts, this`nextToastId
      ensures Valid()
      ensures files == [] ==> reading == None && toasts == old(toasts) && nextToastId == old(nextToastId)
      ensures files != [] && IsImageType(files[0].mimeType) && !TooLarge(files[0]) ==>
        reading == Some(files[0]) && toasts == old(toasts) && nextToastId == old(nextToastId)
      ensures files != [] && IsImageType(files[0].mimeType) && TooLarge(files[0]) ==>
        reading == None && toasts == old(toasts) + [Toast(old(nextToastId), TooLargeMsg)]
      ensures files != [] && !IsImageType(files[0].mimeType) ==>
        reading == None && toasts == old(toasts) + [Toast(old(nextToastId), DropInvalidMsg)]
    {
      reading := None;
      if |files| > 0 {
        var file := files[0];
        if IsImageType(file.mimeType) {
          reading := ProcessFile(file);
        } else {
          ShowError(DropInvalidMsg);
        }
      }
    }

    /**
     * `runDetection`'s `then`/`catch`/`finally`. The `finally` hides the area's progress element;
     * for the main area that is `#detectionResults` itself, so the results it just showed end up
     * hidden whatever the outcome. A failure adds one notification and touches no result.
     */
    method DetectionSettled(area: Area, reply: PredictReply)
      requires Valid()
      modifies this`detectionResultsShown, this`detectionCount, this`confidenceList, this`resultImage
      modifies this`modalResultsShown, this`modalDetectionCount, this`modalConfidenceList, this`modalResultImage
      modifies this`progressShown, this`toasts, this`nextToastId, this`alertShown, this`alertMessage
      ensures Valid()
      ensures area == Main ==>
        !detectionResultsShown && progressShown == old(progressShown) && ModalResultUnchanged()
      ensures area == Modal ==> !progressShown && MainResultUnchanged()
      ensures reply.NetworkFail? ==>
        toasts == old(toasts) + [Toast(old(nextToastId), NetworkErrorMsg)]
      ensures reply.Reply? && !reply.success ==>
        toasts == old(toasts) + [Toast(old(nextToastId), FailureMessage(reply.error))]
      ensures !(reply.Reply? && reply.success) ==>
        && MainValuesUnchanged() && ModalResultUnchanged() && AlertUnchanged()
      ensures reply.Reply? && reply.success ==> toasts == old(toasts) && nextToastId == old(nextToastId)
      ensures reply.Reply? && reply.success && area == Main ==>
        && detectionCount == reply.total && confidenceList == ConfidenceHtml(reply.detections)
        && resultImage == Jpeg(reply.annotatedImage)
      ensures reply.Reply? && reply.success && area == Modal ==>
        && modalResultsShown && modalDetectionCount == reply.total
        && modalConfidenceList == ConfidenceHtml(reply.detections)
        && modalResultImage == Jpeg(reply.annotatedImage)
      ensures reply.Reply? && reply.success && reply.alerts == [] ==> AlertUnchanged()
      ensures reply.Reply? && reply.success && reply.alerts != [] ==>
        alertShown && alertMessage == reply.alerts[|reply.alerts| - 1].message
    {
      if reply.NetworkFail? {
        ShowError(NetworkErrorMsg);
      } else if reply.success {
        ShowDetectionResults(area, reply.total, reply.detections, reply.annotatedImage);
        HandleAlerts(reply.alerts);
      } else {
        ShowError(FailureMessage(reply.error));
      }
      // finally
      if area == Modal {
        progressShown := false;
      } else {
        detectionResultsShown := false;
      }
    }

    twostate predicate AlertUnchanged()
      reads this
    {
      alertShown == old(alertShown) && alertMessage == old(alertMessage)
    }

    /**
     * The live `updateAlertBadge` (the later of the two declarations): it counts the cards on the
     * page, and it can hide the badge but never shows it again.
     */
    method UpdateAlertBadge()
      modifies this`badgeText, this`badgeShown
      ensures badgeText == |cards|
      ensures badgeShown == (old(badgeShown) && |cards| > 0)
    {
      badgeText := |cards|;
      if |cards| == 0 {
        badgeShown := false;
      }
    }

    /**
     * The thirty-second poll of `/api/alerts`. It passes the number of alerts it received, but
     * the live `updateAlertBadge` ignores its argument: the badge shows the number of cards.
     */
    method LoadRecentAlerts(listed: Option<nat>)
      modifies this`badgeText, this`badgeShown
      ensures listed.Some? ==> badgeText == |cards| && badgeShown == (old(badgeShown) && |cards| > 0)
      ensures listed.None? ==> badgeText == old(badgeText) && badgeShown == old(badgeShown)
    {
      if listed.Some? {
        UpdateAlertBadge();
      }
    }

    /** The accept button's click, up to the `fetch`: the card's button turns to its busy state. */
    method AcknowledgeAlert(id: nat)
      requires Valid()
      modifies this`cards
      ensures Valid() && cards == WithButton(old(cards), id, Accepting)
    {
      cards := WithButton(cards, id, Accepting);
    }

    /**
     * The acknowledgement's reply. On success the button shows its check mark and the card starts
     * fading out; on failure or rejection the button is enabled again, in its error state. The
     * card stays on the page either way until `AlertCardFadedOut`.
     */
    method AcknowledgeSettled(id: nat, reply: AckReply)
      requires Valid()
      modifies this`cards
      ensures Valid()
      ensures reply == AckReply(true) ==> cards == WithButton(old(cards), id, Accepted)
      ensures reply != AckReply(true) ==> cards == WithButton(old(cards), id, Failed)
    {
      if reply.AckReply? && reply.success {
        cards := WithButton(cards, id, Accepted);
      } else {
        cards := WithButton(cards, id, Failed);
      }
    }

    /**
     * The half-second timer started by a successful acknowledgement: exactly that card goes, the
     * badge is recounted, and the "No Alerts" panel appears once no card is left.
     */
    method AlertCardFadedOut(id: nat)
      requires Valid()
      modifies this`cards, this`badgeText, this`badgeShown, this`noAlertsPanel
      ensures Valid() && cards == CardsWithout(old(cards), id)
      ensures HasCard(old(cards), id) ==> |cards| == |old(cards)| - 1
      ensures badgeText == |cards| && badgeShown == (old(badgeShown) && |cards| > 0)
      ensures noAlertsPanel == (old(noAlertsPanel) || cards == [])
    {
      cards := CardsWithout(cards, id);
      UpdateAlertBadge();
      if |cards| == 0 {
        noAlertsPanel := true;
      }
    }
  }
}
