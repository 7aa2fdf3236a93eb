/**
 * The Flask application's decision rules (app.py) over its three tables, kept in memory as
 * sequences in insertion order: users, detections and alerts. The session is a value each route
 * receives (and `login` returns), the detector's output is a parameter, and password hashing is a
 * function fixed when the application starts.
 */
module Server {
  import opened Wrappers
  import opened Wire

  datatype User = User(id: nat, username: string, email: string, passwordHash: string, isAdmin: bool)

  /** A stored detection: its owner, the annotated image's file name, the detections and their scores. */
  datatype Detection = Detection(id: nat, userId: nat, imagePath: string, dets: seq<Det>, confidenceScores: seq<real>)

  datatype AlertType = WeaponDetected | HighConfidence

  /**
   * A stored alert. Its message is kept as the number of objects it counts; `time` is the row's
   * creation time, a clock that grows with every row.
   */
  datatype Alert = Alert(id: nat, detectionId: nat, alertType: AlertType, objects: nat, time: nat, acknowledged: bool)

  datatype Severity = High | Critical

  /** An entry of the `alerts` list in a `/predict` reply. */
  datatype AlertNote = AlertNote(alertType: AlertType, objects: nat, severity: Severity)

  /** What `login` stores in the session. */
  datatype SessionUser = SessionUser(userId: nat, username: string, isAdmin: bool)

  // ----- signup and login -----

  predicate UsernameTaken(users: seq<User>, username: string) {
    exists u :: u in users && u.username == username
  }

  predicate EmailTaken(users: seq<User>, email: string) {
    exists u :: u in users && u.email == email
  }

  /** User ids are below the next id to hand out, and ids, usernames and emails are all distinct. */
  predicate UsersWellFormed(users: seq<User>, nextId: nat) {
    && (forall u :: u in users ==> u.id < nextId)
    && (forall i, j :: 0 <= i < j < |users| ==>
          users[i].id != users[j].id && users[i].username != users[j].username
          && users[i].email != users[j].email)
  }

  /** `User.query.filter_by(username=...).first()`. */
  function FindByUsername(users: seq<User>, username: string): (r: Option<User>)
    ensures r.Some? ==> r.value in users && r.value.username == username
    ensures r.None? <==> !UsernameTaken(users, username)
  {
    if users == [] then None
    else if users[0].username == username then Some(users[0])
    else FindByUsername(users[1..], username)
  }

  datatype SignupOutcome = UsernameExists | EmailExists | Created(userId: nat)

  // ----- /predict -----

  /** What the browser sent to `/predict`: whether there is an `image` part, and its file name. */
  datatype Upload = Upload(hasImagePart: bool, filename: string)

  /** What reading the image and running the detector gave: an exception, or the detections. */
  datatype Inference = InferenceFailed(reason: string) | Inferred(dets: seq<Det>)

  /**
   * How `load_model` ended: the model is set and `True` is returned; `False` is returned with the
   * model still unset; or the global `model` was assigned before a later step failed, so `False` is
   * returned with the model set all the same.
   */
  datatype ModelLoad = LoadOk | LoadFailed | LoadFailedAfterAssigning

  datatype PredictReply =
    | PredictError(status: nat, error: string)
    | PredictOk(detections: seq<Det>, totalDetections: nat, alerts: seq<AlertNote>, detectionId: nat)

  /** `[d['confidence'] for d in detections]`. */
  function Confidences(dets: seq<Det>): seq<real> {
    seq(|dets|, i requires 0 <= i < |dets| => dets[i].confidence)
  }

  /**
   * `[d for d in detections if d['confidence'] > 0.8]`: every detection above 0.8, as often as it
   * occurs, and no other.
   */
  function HighConfidenceDets(dets: seq<Det>): (r: seq<Det>)
    ensures forall d :: d in r <==> d in dets && d.confidence > 0.8
    ensures forall d :: multiset(r)[d] == if d.confidence > 0.8 then multiset(dets)[d] else 0
    ensures |r| <= |dets|
  {
    if dets == [] then []
    else
      assert dets == [dets[0]] + dets[1..];
      (if dets[0].confidence > 0.8 then [dets[0]] else []) + HighConfidenceDets(dets[1..])
  }

  /** Two equal detections above 0.8 are both counted by the high-confidence alert. */
  lemma RepeatedDetectionsCountTwice()
    ensures var dets := [Det("knife", 0.9), Det("knife", 0.9)];
      AlertsFor(dets) == [AlertNote(WeaponDetected, 2, High), AlertNote(HighConfidence, 2, Critical)]
  {
    var dets := [Det("knife", 0.9), Det("knife", 0.9)];
    assert multiset(HighConfidenceDets(dets))[Det("knife", 0.9)] == 2;
  }

  /** The severity `/api/alerts` reports: `high` for a weapon alert, `critical` for anything else. */
  function SeverityOf(t: AlertType): Severity {
    if t == WeaponDetected then High else Critical
  }

  /** The alerts one detection run raises, in the order `/predict` appends them. */
  function AlertsFor(dets: seq<Det>): (notes: seq<AlertNote>)
    ensures notes == [] <==> dets == []
    ensures |notes| <= 2
    ensures dets != [] ==> notes[0] == AlertNote(WeaponDetected, |dets|, High)
    ensures |notes| == 2 <==> exists d :: d in dets && d.confidence > 0.8
    ensures |notes| == 2 ==> notes[1] == AlertNote(HighConfidence, |HighConfidenceDets(dets)|, Critical)
    ensures forall n :: n in notes ==> n.severity == SeverityOf(n.alertType)
  {
    if dets == [] then []
    else
      var high := HighConfidenceDets(dets);
      assert high != [] ==> high[0] in dets && high[0].confidence > 0.8;
      [AlertNote(WeaponDetected, |dets|, High)]
      + (if high != [] then [AlertNote(HighConfidence, |high|, Critical)] else [])
  }

  /** The rows `/predict` adds for the alerts it raises, with consecutive ids and times. */
  function AlertRows(detectionId: nat, notes: seq<AlertNote>, firstId: nat, firstTime: nat): seq<Alert> {
    seq(|notes|, i requires 0 <= i < |notes| =>
      Alert(firstId + i, detectionId, notes[i].alertType, notes[i].objects, firstTime + i, false))
  }

  // ----- /api/alerts and /api/acknowledge_alert -----

  predicate OwnedBy(detections: seq<Detection>, detectionId: nat, userId: nat) {
    exists i :: 0 <= i < |detections| && detections[i].id == detectionId && detections[i].userId == userId
  }

  /** Listed by `/api/alerts`: not yet acknowledged, and raised on one of the user's detections. */
  predicate IsPending(a: Alert, detections: seq<Detection>, userId: nat) {
    !a.acknowledged && OwnedBy(detections, a.detectionId, userId)
  }

  predicate TimesIncreasing(alerts: seq<Alert>) {
    forall i, j :: 0 <= i < j < |alerts| ==> alerts[i].time < alerts[j].time
  }

  predicate TimesDecreasing(alerts: seq<Alert>) {
    forall i, j :: 0 <= i < j < |alerts| ==> alerts[i].time > alerts[j].time
  }

  /** The user's pending alerts, newest row first. */
  function PendingNewestFirst(alerts: seq<Alert>, detections: seq<Detection>, userId: nat): (r: seq<Alert>)
    ensures forall a :: a in r <==> a in alerts && IsPending(a, detections, userId)
    ensures |r| <= |alerts|
    ensures TimesIncreasing(alerts) ==> TimesDecreasing(r)
  {
    if alerts == [] then []
    else
      var front := alerts[..|alerts| - 1];
      var last := alerts[|alerts| - 1];
      var rest := PendingNewestFirst(front, detections, userId);
      assert forall a :: a in alerts <==> a in front || a == last;
      if IsPending(last, detections, userId) then
        assert TimesIncreasing(alerts) ==> forall a :: a in front ==> a.time < last.time;
        [last] + rest
      else rest
  }

  const AlertListLimit: nat := 10

  /** One entry of the `/api/alerts` reply. */
  datatype AlertView = AlertView(id: nat, alertType: AlertType, objects: nat, time: nat, severity: Severity)

  function ViewOf(a: Alert): AlertView {
    AlertView(a.id, a.alertType, a.objects, a.time, SeverityOf(a.alertType))
  }

  /** The query of `/api/alerts` with `.limit(10)`, and the list comprehension over its rows. */
  function ApiAlertList(alerts: seq<Alert>, detections: seq<Detection>, userId: nat): seq<AlertView> {
    var pending := PendingNewestFirst(alerts, detections, userId);
    var shown := if |pending| <= AlertListLimit then pending else pending[..AlertListLimit];
    seq(|shown|, i requires 0 <= i < |shown| => ViewOf(shown[i]))
  }

  /**
   * `/api/alerts` lists at most ten alerts, each a pending alert of the user with the severity its
   * type maps to; with fewer than ten listed, every pending alert is there.
   */
  lemma ApiAlertsArePendingOnes(alerts: seq<Alert>, detections: seq<Detection>, userId: nat)
    ensures |ApiAlertList(alerts, detections, userId)| <= AlertListLimit
    ensures forall v :: v in ApiAlertList(alerts, detections, userId) ==>
      v.severity == (if v.alertType == WeaponDetected then High else Critical)
      && exists a :: a in alerts && IsPending(a, detections, userId) && ViewOf(a) == v
    ensures |ApiAlertList(alerts, detections, userId)| < AlertListLimit ==>
      forall a :: a in alerts && IsPending(a, detections, userId) ==> ViewOf(a) in ApiAlertList(alerts, detections, userId)
  {
    var pending := PendingNewestFirst(alerts, detections, userId);
    var list := ApiAlertList(alerts, detections, userId);
    forall v | v in list
      ensures exists a :: a in alerts && IsPending(a, detections, userId) && ViewOf(a) == v
    {
      var i :| 0 <= i < |list| && list[i] == v;
      assert pending[i] in pending;
    }
    if |list| < AlertListLimit {
      forall a | a in alerts && IsPending(a, detections, userId)
        ensures ViewOf(a) in list
      {
        var i :| 0 <= i < |pending| && pending[i] == a;
        assert list[i] == ViewOf(a);
      }
    }
  }

  /**
   * With row times growing (as creation times do), `/api/alerts` lists newest first, and any
   * pending alert left out is older than every alert listed.
   */
  lemma ApiAlertsNewestFirst(alerts: seq<Alert>, detections: seq<Detection>, userId: nat)
    requires TimesIncreasing(alerts)
    ensures forall i, j :: 0 <= i < j < |ApiAlertList(alerts, detections, userId)| ==>
      ApiAlertList(alerts, detections, userId)[i].time > ApiAlertList(alerts, detections, userId)[j].time
    ensures forall a, v ::
      (a in alerts && IsPending(a, detections, userId) && v in ApiAlertList(alerts, detections, userId)
       && ViewOf(a) !in ApiAlertList(alerts, detections, userId)) ==> a.time < v.time
  {
    var pending := PendingNewestFirst(alerts, detections, userId);
    var list := ApiAlertList(alerts, detections, userId);
    assert forall i :: 0 <= i < |list| ==> list[i] == ViewOf(pending[i]);
    forall a, v | a in alerts && IsPending(a, detections, userId) && v in list && ViewOf(a) !in list
      ensures a.time < v.time
    {
      var k :| 0 <= k < |pending| && pending[k] == a;
      var i :| 0 <= i < |list| && list[i] == v;
      if k < |list| {
        assert false;
      }
      assert i < k;
    }
  }

  /** The alert with that id is marked acknowledged; every other row stays as it was. */
  function Acknowledged(alerts: seq<Alert>, alertId: nat): seq<Alert> {
    seq(|alerts|, i requires 0 <= i < |alerts| =>
      if alerts[i].id == alertId then alerts[i].(acknowledged := true) else alerts[i])
  }

  /**
   * Acknowledging touches only the named alert and keeps the table's shape; doing it twice is the
   * same as doing it once.
   */
  lemma AcknowledgeTouchesOnlyTarget(alerts: seq<Alert>, alertId: nat)
    ensures |Acknowledged(alerts, alertId)| == |alerts|
    ensures forall i :: 0 <= i < |alerts| && alerts[i].id != alertId ==> Acknowledged(alerts, alertId)[i] == alerts[i]
    ensures forall i :: 0 <= i < |alerts| && alerts[i].id == alertId ==>
      Acknowledged(alerts, alertId)[i] == alerts[i].(acknowledged := true)
    ensures Acknowledged(Acknowledged(alerts, alertId), alertId) == Acknowledged(alerts, alertId)
    ensures TimesIncreasing(alerts) ==> TimesIncreasing(Acknowledged(alerts, alertId))
  {
  }

  /** An acknowledged alert drops out of the user's pending list; no other pending alert does. */
  lemma AcknowledgedLeavesPending(alerts: seq<Alert>, detections: seq<Detection>, userId: nat, alertId: nat)
    ensures forall a :: a in PendingNewestFirst(Acknowledged(alerts, alertId), detections, userId) ==> a.id != alertId
    ensures forall a :: a in PendingNewestFirst(alerts, detections, userId) && a.id != alertId ==>
      a in PendingNewestFirst(Acknowledged(alerts, alertId), detections, userId)
  {
    var acked := Acknowledged(alerts, alertId);
    forall a | a in PendingNewestFirst(alerts, detections, userId) && a.id != alertId
      ensures a in acked
    {
      var i :| 0 <= i < |alerts| && alerts[i] == a;
      assert acked[i] == a;
    }
  }

  predicate CanAcknowledge(alerts: seq<Alert>, detections: seq<Detection>, userId: nat, alertId: nat) {
    exists i :: 0 <= i < |alerts| && alerts[i].id == alertId && OwnedBy(detections, alerts[i].detectionId, userId)
  }

  datatype AckResult = AckUnauthorized | AckNotFound | AckOk

  datatype ApiAlertsReply = Unauthorized | AlertList(items: seq<AlertView>)

  // ----- /dashboard and /image/<filename> -----

  /** `Detection.query.filter_by(user_id=...).count()`. */
  function CountOwned(detections: seq<Detection>, userId: nat): nat {
    if detections == [] then 0
    else CountOwned(detections[..|detections| - 1], userId)
         + (if detections[|detections| - 1].userId == userId then 1 else 0)
  }

  /** `Detection.query.filter(Detection.detections != '[]').count()`: over every user's rows. */
  function CountWithWeapons(detections: seq<Detection>): nat {
    if detections == [] then 0
    else CountWithWeapons(detections[..|detections| - 1])
         + (if detections[|detections| - 1].dets != [] then 1 else 0)
  }

  datatype DashboardView = LoginRedirect | Stats(totalDetections: nat, weaponDetections: nat)

  /**
   * A new detection row counts towards the weapon figure of every user's dashboard, but only
   * towards its owner's total.
   */
  lemma {:induction false} NewDetectionCounts(detections: seq<Detection>, d: Detection, userId: nat)
    ensures CountOwned(detections + [d], userId) == CountOwned(detections, userId) + (if d.userId == userId then 1 else 0)
    ensures CountWithWeapons(detections + [d]) == CountWithWeapons(detections) + (if d.dets != [] then 1 else 0)
  {
    assert (detections + [d])[..|detections|] == detections;
  }

  /** Each count is at most the number of rows. */
  lemma {:induction false} CountsBounded(detections: seq<Detection>, userId: nat)
    ensures CountOwned(detections, userId) <= |detections|
    ensures CountWithWeapons(detections) <= |detections|
  {
    if detections != [] {
      CountsBounded(detections[..|detections| - 1], userId);
    }
  }

  /** One other user's detection of a knife is enough for a dashboard to show more weapon detections than detections. */
  lemma WeaponCountIncludesOtherUsers()
    ensures var rows := [Detection(1, 7, "detection_a.jpg", [Det("knife", 0.93)], [0.93])];
      CountOwned(rows, 8) == 0 && CountWithWeapons(rows) == 1
  {
    var rows := [Detection(1, 7, "detection_a.jpg", [Det("knife", 0.93)], [0.93])];
    assert rows[..0] == [];
  }

  predicate OwnsImage(detections: seq<Detection>, filename: string, userId: nat) {
    exists d :: d in detections && d.imagePath == filename && d.userId == userId
  }

  datatype ImageReply = ImageLoginRedirect | ImageDenied | ImageMissing | ImageFile(filename: string)

  class App {
    /** `generate_password_hash`; `check_password_hash(h, p)` holds exactly when `h == hashOf(p)`. */
    const hashOf: string -> string
    var users: seq<User>
    var detections: seq<Detection>
    var alerts: seq<Alert>
    /** Whether the global `model` is set. */
    var modelLoaded: bool
    var nextUserId: nat
    var nextDetectionId: nat
    var nextAlertId: nat
    var clock: nat

    ghost predicate Valid()
      reads this
    {
      && UsersWellFormed(users, nextUserId)
      && (forall d :: d in detections ==> d.id < nextDetectionId)
      && (forall a :: a in alerts ==> a.id < nextAlertId && a.time < clock)
      && (forall i, j :: 0 <= i < j < |alerts| ==> alerts[i].id != alerts[j].id)
      && TimesIncreasing(alerts)
    }

    constructor (hashOf: string -> string)
      ensures Valid() && this.hashOf == hashOf
      ensures users == [] && detections == [] && alerts == [] && !modelLoaded
    {
      this.hashOf := hashOf;
      users, detections, alerts := [], [], [];
      modelLoaded := false;
      nextUserId, nextDetectionId, nextAlertId, clock := 1, 1, 1, 0;
    }

    /**
     * `signup`: the username is checked first, then the email, and either match refuses the
     * account; otherwise exactly one user is added, so usernames and emails stay unique.
     */
    method Signup(username: string, email: string, password: string) returns (outcome: SignupOutcome)
      requires Valid()
      modifies this`users, this`nextUserId
      ensures Valid()
      ensures UsernameTaken(old(users), username) ==> outcome == UsernameExists && users == old(users)
      ensures !UsernameTaken(old(users), username) && EmailTaken(old(users), email) ==>
        outcome == EmailExists && users == old(users)
      ensures !UsernameTaken(old(users), username) && !EmailTaken(old(users), email) ==>
        && outcome == Created(old(nextUserId))
        && users == old(users) + [User(old(nextUserId), username, email, hashOf(password), false)]
    {
      if FindByUsername(users, username).Some? {
        return UsernameExists;
      }
      if EmailTaken(users, email) {
        return EmailExists;
      }
      var user := User(nextUserId, username, email, hashOf(password), false);
      users := users + [user];
      nextUserId := nextUserId + 1;
      outcome := Created(user.id);
    }

    /**
     * `login`: it succeeds exactly when a user with that name exists and the password checks
     * against the stored hash; it then puts that user's id, name and admin flag in the session.
     * On failure the session is left as it was.
     */
    method Login(session: Option<SessionUser>, username: string, password: string)
      returns (ok: bool, newSession: Option<SessionUser>)
      requires Valid()
      ensures ok <==> exists u :: u in users && u.username == username && u.passwordHash == hashOf(password)
      ensures ok ==> exists u ::
        u in users && u.username == username && newSession == Some(SessionUser(u.id, u.username, u.isAdmin))
      ensures !ok ==> newSession == session
    {
      var found := FindByUsername(users, username);
      if found.Some? && found.value.passwordHash == hashOf(password) {
        ok := true;
        newSession := Some(SessionUser(found.value.id, found.value.username, found.value.isAdmin));
      } else {
        ok := false;
        newSession := session;
        forall u | u in users && u.username == username
          ensures u.passwordHash != hashOf(password)
        {
          var i :| 0 <= i < |users| && users[i] == u;
          var j :| 0 <= j < |users| && users[j] == found.value;
          assert i == j;
        }
      }
    }

    /** `db.session.add(Alert(...))` with the next id and the current time. */
    method AddAlert(detectionId: nat, alertType: AlertType, objects: nat)
      requires Valid()
      modifies this`alerts, this`nextAlertId, this`clock
      ensures Valid()
      ensures alerts == old(alerts) + [Alert(old(nextAlertId), detectionId, alertType, objects, old(clock), false)]
      ensures nextAlertId == old(nextAlertId) + 1 && clock == old(clock) + 1
    {
      alerts := alerts + [Alert(nextAlertId, detectionId, alertType, objects, clock, false)];
      nextAlertId := nextAlertId + 1;
      clock := clock + 1;
    }

    /**
     * `predict`. A request is turned away, in this order, without a session (401), without an
     * `image` part (400), with an empty file name (400), or when the model is not loaded and
     * cannot be (500). Otherwise the detection is stored under the session's user, and the alerts
     * derived from its detections are stored and returned.
     */
    method Predict(session: Option<SessionUser>, upload: Upload, load: ModelLoad,
                   inference: Inference, imageName: string)
      returns (reply: PredictReply)
      requires Valid()
      modifies this`detections, this`alerts, this`modelLoaded, this`nextDetectionId, this`nextAlertId, this`clock
      ensures Valid()
      ensures session.None? ==>
        reply == PredictError(401, "Authentication required") && TablesUnchanged() && modelLoaded == old(modelLoaded)
      ensures session.Some? && !upload.hasImagePart ==>
        reply == PredictError(400, "No image file provided") && TablesUnchanged() && modelLoaded == old(modelLoaded)
      ensures session.Some? && upload.hasImagePart && upload.filename == "" ==>
        reply == PredictError(400, "No image selected") && TablesUnchanged() && modelLoaded == old(modelLoaded)
      ensures Admitted(session, upload) && !old(modelLoaded) && load != LoadOk ==>
        && reply == PredictError(500, "Failed to load model") && TablesUnchanged()
        && modelLoaded == (load == LoadFailedAfterAssigning)
      ensures Admitted(session, upload) && (old(modelLoaded) || load == LoadOk) ==> modelLoaded
      ensures Admitted(session, upload) && (old(modelLoaded) || load == LoadOk) && inference.InferenceFailed? ==>
        reply == PredictError(500, "Prediction failed: " + inference.reason) && TablesUnchanged()
      ensures Admitted(session, upload) && (old(modelLoaded) || load == LoadOk) && inference.Inferred? ==>
        var dets := inference.dets;
        && reply == PredictOk(dets, |dets|, AlertsFor(dets), old(nextDetectionId))
        && detections == old(detections)
             + [Detection(old(nextDetectionId), session.value.userId, imageName, dets, Confidences(dets))]
        && alerts == old(alerts) + AlertRows(old(nextDetectionId), AlertsFor(dets), old(nextAlertId), old(clock))
    {
      if session.None? {
        return PredictError(401, "Authentication required");
      }
      if !upload.hasImagePart {
        return PredictError(400, "No image file provided");
      }
      if upload.filename == "" {
        return PredictError(400, "No image selected");
      }
      if !modelLoaded {
        if load != LoadOk {
          modelLoaded := load == LoadFailedAfterAssigning;
          return PredictError(500, "Failed to load model");
        }
        modelLoaded := true;
      }
      if inference.InferenceFailed? {
        return PredictError(500, "Prediction failed: " + inference.reason);
      }
      var dets := inference.dets;
      var detectionId := nextDetectionId;
      detections := detections + [Detection(detectionId, session.value.userId, imageName, dets, Confidences(dets))];
      nextDetectionId := nextDetectionId + 1;

      var alertsCreated := RaiseAlerts(detectionId, dets);
      reply := PredictOk(dets, |dets|, alertsCreated, detectionId);
    }

    /**
     * The alert rows of one detection run: a weapon alert whenever anything was found, then a
     * high-confidence alert when some detection scores above 0.8.
     */
    method RaiseAlerts(detectionId: nat, dets: seq<Det>) returns (alertsCreated: seq<AlertNote>)
      requires Valid()
      modifies this`alerts, this`nextAlertId, this`clock
      ensures Valid()
      ensures alertsCreated == AlertsFor(dets)
      ensures alerts == old(alerts) + AlertRows(detectionId, alertsCreated, old(nextAlertId), old(clock))
    {
      alertsCreated := [];
      if dets != [] {
        AddAlert(detectionId, WeaponDetected, |dets|);
        alertsCreated := alertsCreated + [AlertNote(WeaponDetected, |dets|, High)];
        var high := HighConfidenceDets(dets);
        if high != [] {
          AddAlert(detectionId, HighConfidence, |high|);
          alertsCreated := alertsCreated + [AlertNote(HighConfidence, |high|, Critical)];
        }
      }
    }

    /** The three checks that come before the model is looked at all passed. */
    predicate Admitted(session: Option<SessionUser>, upload: Upload) {
      session.Some? && upload.hasImagePart && upload.filename != ""
    }

    twostate predicate TablesUnchanged()
      reads this
    {
      && detections == old(detections) && alerts == old(alerts)
      && nextDetectionId == old(nextDetectionId) && nextAlertId == old(nextAlertId) && clock == old(clock)
    }

    /** `api_alerts`: 401 without a session, otherwise the user's pending alerts, newest first, at most ten. */
    function ApiAlerts(session: Option<SessionUser>): (r: ApiAlertsReply)
      reads this
      ensures r.Unauthorized? <==> session.None?
      ensures r.AlertList? ==> r.items == ApiAlertList(alerts, detections, session.value.userId)
    {
      if session.None? then Unauthorized
      else AlertList(ApiAlertList(alerts, detections, session.value.userId))
    }

    /**
     * `acknowledge_alert`: 401 without a session, 404 unless the alert exists and was raised on one
     * of the user's detections; otherwise that alert, and only it, becomes acknowledged.
     */
    method AcknowledgeAlert(session: Option<SessionUser>, alertId: nat) returns (result: AckResult)
      requires Valid()
      modifies this`alerts
      ensures Valid()
      ensures session.None? ==> result == AckUnauthorized && alerts == old(alerts)
      ensures session.Some? && !CanAcknowledge(old(alerts), detections, session.value.userId, alertId) ==>
        result == AckNotFound && alerts == old(alerts)
      ensures session.Some? && CanAcknowledge(old(alerts), detections, session.value.userId, alertId) ==>
        result == AckOk && alerts == Acknowledged(old(alerts), alertId)
    {
      if session.None? {
        return AckUnauthorized;
      }
      if !CanAcknowledge(alerts, detections, session.value.userId, alertId) {
        return AckNotFound;
      }
      AcknowledgeTouchesOnlyTarget(alerts, alertId);
      alerts := Acknowledged(alerts, alertId);
      result := AckOk;
    }

    /**
     * The figures on `dashboard`: the total counts the user's own detections, while the weapon
     * figure counts every user's detections that found something.
     */
    function DashboardCounts(session: Option<SessionUser>): (r: DashboardView)
      reads this
      ensures r.LoginRedirect? <==> session.None?
      ensures r.Stats? ==> r.totalDetections <= |detections| && r.weaponDetections <= |detections|
      ensures r.Stats? ==> r.totalDetections == CountOwned(detections, session.value.userId)
      ensures r.Stats? ==> r.weaponDetections == CountWithWeapons(detections)
    {
      if session.None? then LoginRedirect
      else
        CountsBounded(detections, session.value.userId);
        Stats(CountOwned(detections, session.value.userId), CountWithWeapons(detections))
    }

    /**
     * `serve_image`: a file is sent only to a signed-in user who owns a detection with that image
     * name, and only when the file is on disk.
     */
    function ServeImage(session: Option<SessionUser>, filename: string, fileExists: bool): (r: ImageReply)
      reads this
      ensures r.ImageLoginRedirect? <==> session.None?
      ensures r.ImageFile? <==>
        session.Some? && OwnsImage(detections, filename, session.value.userId) && fileExists
      ensures r.ImageFile? ==> r.filename == filename
    {
      if session.None? then ImageLoginRedirect
      else if !OwnsImage(detections, filename, session.value.userId) then ImageDenied
      else if !fileExists then ImageMissing
      else ImageFile(filename)
    }
  }
}
