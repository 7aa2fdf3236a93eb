# Weapon detection web app: a Dafny model of its pages and its server

Weapon_Detection_using_AI is a Flask application. A signed-in user uploads an image. A detector
finds weapons in it. The server stores the detection and raises alerts. The browser pages show the
annotated image, the confidence of each find and the alerts, and let the user accept (acknowledge)
them.

This project models four parts of it:

- the stand-alone upload page (`static/script.js`);
- the dashboard (`static/dashboard.js`);
- the login and signup pages' script (`static/auth.js`);
- the server's routes and their rules over the user, detection and alert tables (`app.py`).

The project proves properties of that model.

Files and modules:

- `client.dfy`
  - `Wrappers`: an `Option` type.
  - `Wire`: the `{class, confidence}` detection record.
  - `Client`: what both upload pages share. This covers the file checks, the `/predict` reply as
    the browser sees it, the fixed messages, and the confidence list. The list is built by a loop
    and proved to show exactly the detections it was given.
- `upload_page.dfy`, module `UploadPage`: the page of `script.js`. It is a class whose fields are
  the page's mutable state: the selected file, which of the four sections is displayed, the result
  fields and the detect button.
- `dashboard_page.dfy`, module `DashboardPage`: the dashboard as a class. It holds two upload
  areas, the stacking error notifications, the alert pop-up, the alert cards with their accept
  buttons, and the badge.
- `auth.dfy`, module `Auth`:
  - the password-strength score and its label, characterised exactly, with lengths counted in
    UTF-16 code units as JavaScript counts them;
  - the confirmation check;
  - the submit checks and the single error slot;
  - the show/hide password toggle.
- `server.dfy`, module `Server`:
  - the routes as methods and functions of an `App` class. Its fields are the three tables
    (sequences in insertion order), the id counters, a clock for row times, and whether the model
    is loaded;
  - the alert rules of `/predict`;
  - the newest-first alert list of `/api/alerts`;
  - acknowledgement, the dashboard counts, and the ownership check for images.

Browser event handlers become methods of the page classes. An asynchronous `fetch` is split in
two. One method does the synchronous part and returns the request it would send. A second method,
`…Settled`, takes the reply (or the failure) as a parameter and applies the rest. A `setTimeout`
callback is its own method (`…TimerFired`, `…FadedOut`). So is a `FileReader`'s `onload`
(`PreviewLoaded`). Nothing ties a reply to the request that
produced it. The scripts have no such guard, so a late reply or a late preview is applied to
whatever the page shows by then.

On the server, the session is a value each route takes (`Option<SessionUser>`), and `Login`
returns the new one. The following are parameters:

- whether loading the model succeeds;
- what inference produced, or the exception it raised;
- the name the annotated image is saved under;
- whether an image file exists on disk.

Password hashing is a function `hashOf` fixed when the `App` is built.
`check_password_hash(h, p)` is taken to hold exactly when `h == hashOf(p)`.

## Model

| member | source | states |
|---|---|---|
| Client.ConfidenceHtmlShowsExactly | static/script.js:117-134 | The rendered confidence list shows exactly the given detections, in order, and nothing else. It has one more fragment than there are detections. The "No weapons detected" note appears exactly when there are none. |
| Client.BuildConfidenceHtml | static/script.js:122-133 | The `forEach` loop that builds the HTML from a header and one item per detection yields the list above, from which the detections read back unchanged. |
| UploadPage.Page.constructor | static/script.js:1-16 | The page starts with no file selected, all four sections hidden, empty result fields and an enabled detect button. |
| UploadPage.Page.HideAllSections | static/script.js:143-154 | No section is displayed and none fades in. |
| UploadPage.Page.ShowPreview | static/script.js:89-93 | Only the preview is displayed. A picked file has been loaded into it, so the page invariant holds. |
| UploadPage.Page.ShowLoading | static/script.js:95-99 | Only the loading section is displayed. |
| UploadPage.Page.ShowError | static/script.js:136-141 | Only the error section is displayed, with the given message. |
| UploadPage.Page.UpdateConfidenceInfo | static/script.js:117-134 | The list's content is replaced by the rendering of the detections, which reads back as exactly those detections. |
| UploadPage.Page.ShowResults | static/script.js:101-115 | Only the results section is displayed. It shows the count, the confidence list of the detections, and the annotated JPEG. |
| UploadPage.Page.ProcessFile | static/script.js:71-87 | The file is selected before its size is checked. A file over 16 MiB stays selected while the size error is shown, and nothing is read. Otherwise the file is handed to a reader and the page is left as it was until the reader finishes. |
| UploadPage.Page.PreviewLoaded | static/script.js:82-85 | When the reader finishes, the file it read becomes the preview and only the preview is displayed, whatever is selected by then. |
| UploadPage.Page.HandleFileSelect | static/script.js:37-44 | An image file becomes the selection. It is then either refused with the size error or handed to the reader. Anything else, including no file, shows the "select a valid image" error and keeps the selection. |
| UploadPage.Page.HandleDrop | static/script.js:56-69 | Only the first dropped file counts, with the same outcomes as a pick. An empty drop changes nothing. A non-image shows the "drop a valid image" error. |
| UploadPage.Page.HandleDetection | static/script.js:156-166 | With no file selected, the page shows "Please select an image first." and sends nothing. Otherwise it shows the loading section and posts the selected file. |
| UploadPage.Page.DetectionSettled | static/script.js:167-184 | A success shows the results from the reply. A failure reply shows its error, or the default message when the error is missing or empty. A rejected fetch shows the network error. Neither failure touches the result fields. |
| UploadPage.Page.ResetDetection | static/script.js:186-198 | The selection, the sections and the result fields go back to the loaded page. The button keeps its state. |
| UploadPage.Page.ClickDetect | static/script.js:220-229 | A disabled button ignores the click. Otherwise detection starts, or the "Please select an image first." error shows, and the button is disabled. |
| UploadPage.Page.DetectButtonTimerFired | static/script.js:225-228 | The ten-second timer re-enables the detect button. |
| UploadPage.Page.KeyDown | static/script.js:245-261 | Enter starts a detection only while the preview is displayed, even when the button is disabled. It asks for an image when none is selected. Escape resets the selection, the preview and every result field. Other keys change nothing. The button's state never changes. |
| UploadPage.PreviewAfterReset | static/script.js:71-87 | When a reset comes between a pick and its reader finishing, the preview returns with no file selected. Enter on it then shows "Please select an image first." and sends nothing. |
| DashboardPage.CardsWithout | static/dashboard.js:403-404 | Removing a card keeps exactly the cards with other ids and keeps the ids unique. The list shrinks by one when the card was there and is unchanged when it was not. |
| DashboardPage.WithButton | static/dashboard.js:372-377 | Only the named card's button changes. No card is added or removed, and every id stays. |
| DashboardPage.ToastsWithout | static/dashboard.js:352-366 | Removing a notification keeps exactly the others. |
| DashboardPage.Dashboard.constructor | static/dashboard.js:6-14 | The dashboard starts with the server-rendered cards and badge and nothing else showing. |
| DashboardPage.Dashboard.ShowError | static/dashboard.js:340-367 | Each error appends a new notification with a fresh number. Earlier ones stay. |
| DashboardPage.Dashboard.DismissToast | static/dashboard.js:352-366 | The close button or the five-second timer removes that notification and no other. |
| DashboardPage.Dashboard.OpenDetectionModal | static/dashboard.js:317-323 | The modal is open. |
| DashboardPage.Dashboard.CloseDetectionModal | static/dashboard.js:325-337 | The modal is closed and its progress and results are hidden. |
| DashboardPage.Dashboard.ShowImagePreview | static/dashboard.js:101-109 | The chosen area's image shows the picked file. The other area is untouched. |
| DashboardPage.Dashboard.RunDetection | static/dashboard.js:111-128 | The area's progress element is shown and the file is posted. |
| DashboardPage.Dashboard.UpdateConfidenceList | static/dashboard.js:184-201 | The area's confidence list becomes the rendering of the detections. The other area's list is untouched. |
| DashboardPage.Dashboard.ShowDetectionResults | static/dashboard.js:148-182 | The area's results show the count, the confidence list and the annotated image. The other area's results are untouched. |
| DashboardPage.Dashboard.HandleAlerts | static/dashboard.js:237-260 | Each alert in turn fills the single pop-up, so the last alert's message is left showing. No alerts leave the pop-up as it was. |
| DashboardPage.Dashboard.CloseAlert | static/dashboard.js:262-270 | The pop-up is hidden. |
| DashboardPage.Dashboard.ProcessFile | static/dashboard.js:82-99 | A file over 16 MiB adds the size notification and nothing is read. Otherwise the file is handed to a reader and nothing else changes. |
| DashboardPage.Dashboard.PreviewLoaded | static/dashboard.js:90-97 | When the reader finishes, the modal is closed first (for the modal area). The area then shows the file and the file is posted. The other area is untouched. |
| DashboardPage.Dashboard.HandleFileSelect | static/dashboard.js:47-54 | A file is read exactly when it is an image within the size limit. An oversized image adds the size notification. A missing or non-image file adds the "select a valid image" notification. |
| DashboardPage.Dashboard.HandleDrop | static/dashboard.js:66-80 | Only the first dropped file counts, with the same outcomes as a pick. An empty drop changes nothing. A non-image adds the "drop a valid image" notification. |
| DashboardPage.Dashboard.DetectionSettled | static/dashboard.js:129-145 | On success the area shows the reply's results and the last alert pops up. Otherwise exactly one error notification is added, and no result field or pop-up changes. The other area is untouched. The `finally` hides the progress element, which for the main area is the results block itself. |
| DashboardPage.Dashboard.UpdateAlertBadge | static/dashboard.js:439-450 | The badge counts the cards on the page. It can be hidden but never shown again. |
| DashboardPage.Dashboard.LoadRecentAlerts | static/dashboard.js:212-230 | A poll that gets JSON back recounts the badge from the cards, not from the number of alerts listed. A failed poll changes nothing. |
| DashboardPage.Dashboard.AcknowledgeAlert | static/dashboard.js:369-384 | The card's button turns to its busy state. No card comes or goes. |
| DashboardPage.Dashboard.AcknowledgeSettled | static/dashboard.js:385-436 | A success reply marks the button accepted. Any other outcome re-enables it in its error state. The card stays until it fades out. |
| DashboardPage.Dashboard.AlertCardFadedOut | static/dashboard.js:403-414 | Exactly that card goes and the badge is recounted. The "No Alerts" panel appears once no card is left. |
| Auth.JsLength | static/auth.js:43-44 | A password's `length` counts UTF-16 code units. It is at least the number of characters and at most twice it, and zero only for the empty password. |
| Auth.StrengthScoreIsPercentage | static/auth.js:39-53 | The meter's width is between 0 and 100 percent. |
| Auth.NonEmptyHasAClass | static/auth.js:46-50 | The four class tests cover every character, so a non-empty password scores at least one class. |
| Auth.ShortPasswordNeverStrong | static/auth.js:42-65 | A password under six code units scores at most 50 and is never labelled Strong. |
| Auth.StrengthCharacterised | static/auth.js:39-65 | Strong means eight code units or more, or six or more with three classes. Weak means under six code units with at most two classes. Both are stated as if-and-only-if. |
| Auth.EmojiCountTwice | static/auth.js:43-44 | Two letters and three emoji are five characters but eight code units, so they are labelled Strong. |
| Auth.SignupPage.constructor | static/auth.js:6-30 | The form starts with no error box and a valid confirmation field. |
| Auth.SignupPage.CheckPasswordStrength | static/auth.js:32-68 | With the meter present, the width is the score and the text is its label. The fill has its base class and exactly one level class. Without the meter nothing changes. |
| Auth.SignupPage.ValidatePasswordMatch | static/auth.js:70-82 | A non-empty confirmation that differs from the password marks the field invalid with a red border. Otherwise the field is valid with the neutral border. |
| Auth.SignupPage.ShowError | static/auth.js:160-178 | Every existing box is removed. A new one is inserted only when the subtitle exists, so there is never more than one box. |
| Auth.SignupPage.ErrorBoxTimerFired | static/auth.js:179-184 | A box's timer removes that box if it is still there, and never a box that replaced it. |
| Auth.SignupPage.ValidateSignupForm | static/auth.js:84-112 | The form is submitted exactly when the passwords match, the password has six or more code units and the terms are accepted. Otherwise the box left shows the last failing check's message. |
| Auth.ToggleTwiceRestores | static/auth.js:114-128 | A toggle flips the field's type and keeps the icon matching. Toggling twice restores both. |
| Auth.PasswordInput.constructor | static/auth.js:114-128 | A password field starts hidden, with the open-eye icon. |
| Auth.PasswordInput.TogglePassword | static/auth.js:114-128 | The field and its icon become the toggled pair. |
| Server.FindByUsername | app.py:214 | A user is returned exactly when one has that name, and the one returned has it. Usernames are unique, so it is that user. |
| Server.HighConfidenceDets | app.py:357 | Keeps every detection scoring above 0.8, as many times as it occurs, and no other. |
| Server.RepeatedDetectionsCountTwice | app.py:357-369 | Two equal detections above 0.8 count as two objects in the high-confidence alert. |
| Server.AlertsFor | app.py:343-370 | No detections raise no alert. Otherwise a high-severity weapon alert counts all objects, and a critical high-confidence alert, counting the objects above 0.8, follows exactly when one exists. Each severity matches its type's severity in `/api/alerts`. |
| Server.PendingNewestFirst | app.py:431-435 | Lists exactly the user's unacknowledged alerts raised on their own detections. Newest first when row times grow. |
| Server.ApiAlertsArePendingOnes | app.py:427-443 | `/api/alerts` lists at most ten alerts, each a pending alert of the user with the severity its type maps to. With fewer than ten, every pending alert is listed. |
| Server.ApiAlertsNewestFirst | app.py:431-435 | The list is strictly newest first, and every pending alert left out is older than every listed one. |
| Server.AcknowledgeTouchesOnlyTarget | app.py:455 | Only the named alert changes, and it only becomes acknowledged. Acknowledging twice equals once. Row-time order is kept. |
| Server.AcknowledgedLeavesPending | app.py:431-435 | An acknowledged alert leaves the pending list. Every other pending alert stays. |
| Server.NewDetectionCounts | app.py:278-279 | A new detection raises its owner's total by one. If it found anything, it raises every user's weapon figure by one. |
| Server.CountsBounded | app.py:278-279 | Both dashboard counts are at most the number of detection rows. |
| Server.WeaponCountIncludesOtherUsers | app.py:278-279 | Another user's knife detection shows on a dashboard whose own total is zero. |
| Server.App.constructor | app.py:39-63 | The application starts with empty tables and no model loaded. |
| Server.App.Signup | app.py:227-255 | A taken username is refused first, then a taken email. Otherwise exactly one user is added, with the hashed password and no admin flag. Usernames and emails stay unique. |
| Server.App.Login | app.py:209-225 | Login succeeds exactly when a user with that name has a hash matching the password. The session then holds that user's id, name and admin flag. On failure the session is unchanged. |
| Server.App.AddAlert | app.py:344-349 | One alert row is appended with the next id and the current time. It is unacknowledged. |
| Server.App.RaiseAlerts | app.py:341-372 | The rows appended are exactly those `AlertsFor` gives, with consecutive ids and times. The reply's list is the same. |
| Server.App.Predict | app.py:290-387 | The request is refused in order: no session (401), no image part (400), an empty file name (400), a model that cannot be loaded (500), an inference exception (500). None of these writes a row. A load that assigned the model before failing still replies 500, but leaves the model set for later requests. On success one detection row is stored under the session's user, the alerts for its detections are stored, and the reply carries the detections, their count, the alerts and the new id. |
| Server.App.ApiAlerts | app.py:427-443 | Without a session the reply is 401. Otherwise it is the user's alert list as above. |
| Server.App.AcknowledgeAlert | app.py:445-458 | Without a session the reply is 401. It is 404 unless the alert exists and belongs to one of the user's detections. Otherwise exactly that alert is acknowledged. |
| Server.App.DashboardCounts | app.py:269-279 | The login redirect applies exactly when there is no session. The total counts the user's own detections. The weapon figure counts every user's detections that found something. Both are bounded by the rows. |
| Server.App.ServeImage | app.py:393-409 | The file is sent exactly when the user is signed in, owns a detection with that image name, and the file exists. |

## Left out

- Presentation: drag-over highlighting, hover effects, the fade-out animation's styles, the
  modal's `overflow` style, floating labels and form animations, and alert sounds (Web Audio).
- Confidence percentages: the `(confidence * 100).toFixed(1)` text is not modelled. A list item
  keeps the detection's class and its confidence value.
- Data URLs and base64: a picked file's preview is `DataUrlOf(file)`. The annotated image is an
  opaque base64 string.
- `imageInput.value` and `imageInput.files` (cleared on reset, and set on a dashboard drop) are not
  modelled.
- `clearResults`, `downloadResult` and `viewAlerts` in `static/dashboard.js` are not modelled. No
  handler is wired to them in the script.
- `checkModelStatus` in `static/script.js` is not modelled. It runs once on load and only logs to
  the console.
- The `/api/alerts` reply's messages and time stamps are not shown on the dashboard. The live
  `updateAlertBadge` ignores them and `updateAlertsList` is empty.
- Missing page elements: every element the scripts look up is assumed present, apart from the
  strength meter and the form subtitle, which are `const` flags in `Auth.SignupPage`.
- The auth page's `showError` removes every element with class `alert-error`. Server-rendered
  messages of that class are not modelled, only the boxes the script inserts.
- Floating point: the strength score is a `real`. Its steps of 12.5 and 25 are exact in binary
  floating point, so this loses nothing.
- Model loading and inference (`load_model`, `preprocess_image`, the two postprocessing
  functions, and `torch`/`ultralytics`/`cv2`) are not modelled. Their outcomes are parameters of
  `Server.App.Predict`. `load_model` comes down to three outcomes: loaded; failed with the model
  unset; or failed after the global `model` was assigned, which leaves it set.
- Server.App.Predict: a failure after the detection row is committed (`cv2.imencode` at the end of
  `predict`) would leave the rows stored while replying 500. The model treats every exception as
  raised before anything is stored.
- Server.PendingNewestFirst: row times are a counter that grows with every row. `datetime.utcnow`
  can give two rows committed together the same time stamp, and then the database's order between
  them is unspecified.
- The recent-detection and recent-alert lists rendered by `/dashboard`, and the `/alerts`,
  `/detection/<id>`, `/logout`, `/`, `/health` pages, are not modelled. They are read-only
  renderings or session clearing with no rule beyond what is modelled.
- Creating the admin account at start-up and the database setup under `__main__` are not
  modelled. Neither is `from_json_filter`, a template filter.
- Alert messages are stored as the number of objects they count. The message wording itself is
  not modelled.
- Flash messages and redirects after signup and login are not modelled. The outcome values stand
  for them.
