// The helpers of the proctoring endpoints: the session timeline, the alert
// a manual snapshot raises, the proctor's actions on a live session, the
// start-session check, and what the two websockets do with each message.
// Database tables are in-memory sequences and maps; ids, URLs and
// timestamps are inputs.

module Endpoints {
  import opened Common
  import opened AlertCatalog
  import opened Realtime
  import opened Gemini

  // ---------------------------------------------------------------------------
  // The session timeline
  // ---------------------------------------------------------------------------

  /** Python's `<=` on strings: code-point lexicographic order. */
  predicate LexLe(a: string, b: string)
    decreases |a|
  {
    a == [] || (b != [] && (a[0] < b[0] || (a[0] == b[0] && LexLe(a[1..], b[1..]))))
  }

  lemma {:induction false} LexLeReflexive(a: string)
    ensures LexLe(a, a)
    decreases |a|
  {
    if a != [] {
      LexLeReflexive(a[1..]);
    }
  }

  lemma {:induction false} LexLeTotal(a: string, b: string)
    ensures LexLe(a, b) || LexLe(b, a)
    decreases |a|
  {
    if a != [] && b != [] && a[0] == b[0] {
      LexLeTotal(a[1..], b[1..]);
    }
  }

  lemma {:induction false} LexLeTransitive(a: string, b: string, c: string)
    requires LexLe(a, b) && LexLe(b, c)
    ensures LexLe(a, c)
    decreases |a|
  {
    if a != [] && a[0] == b[0] && b[0] == c[0] {
      LexLeTransitive(a[1..], b[1..], c[1..]);
    }
  }

  /** A snapshot or alert row; `stamp` is its `captured_at` or `created_at` column. */
  datatype Row = Row(id: string, stamp: string)

  datatype EntryKind = SnapshotEntry | AlertEntry

  /** A timeline entry: its tag, its timestamp and the row it came from. */
  datatype Entry = Entry(kind: EntryKind, timestamp: string, data: Row)

  /** The rows wrapped as entries of one kind, in order. */
  function Tagged(rows: seq<Row>, kind: EntryKind): (es: seq<Entry>)
    ensures |es| == |rows|
    ensures forall i :: 0 <= i < |rows| ==> es[i] == Entry(kind, rows[i].stamp, rows[i])
  {
    seq(|rows|, i requires 0 <= i < |rows| => Entry(kind, rows[i].stamp, rows[i]))
  }

  predicate Sorted(s: seq<Entry>) {
    forall i, j :: 0 <= i < j < |s| ==> LexLe(s[i].timestamp, s[j].timestamp)
  }

  /** The entries stamped `t`, in their order. */
  function OfTime(s: seq<Entry>, t: string): seq<Entry>
    decreases |s|
  {
    if s == [] then [] else OfTime(s[..|s| - 1], t) + When(s[|s| - 1].timestamp == t, s[|s| - 1])
  }

  lemma {:induction false} OfTimeAppend(a: seq<Entry>, b: seq<Entry>, t: string)
    ensures OfTime(a + b, t) == OfTime(a, t) + OfTime(b, t)
    decreases |b|
  {
    if b != [] {
      assert (a + b)[..|a + b| - 1] == a + b[..|b| - 1];
      OfTimeAppend(a, b[..|b| - 1], t);
    } else {
      assert a + b == a;
    }
  }

  /** Puts `e` after every entry whose timestamp is not above its own. */
  function Insert(sorted: seq<Entry>, e: Entry): (r: seq<Entry>)
    ensures |r| == |sorted| + 1
    decreases |sorted|
  {
    if sorted == [] || LexLe(sorted[|sorted| - 1].timestamp, e.timestamp) then sorted + [e]
    else Insert(sorted[..|sorted| - 1], e) + [sorted[|sorted| - 1]]
  }

  /** `list.sort` keyed on the timestamp: a stable sort, here by insertion. */
  function SortByTimestamp(s: seq<Entry>): (r: seq<Entry>)
    ensures |r| == |s|
    decreases |s|
  {
    if s == [] then [] else Insert(SortByTimestamp(s[..|s| - 1]), s[|s| - 1])
  }

  lemma {:induction false} InsertPermutes(s: seq<Entry>, e: Entry)
    ensures multiset(Insert(s, e)) == multiset(s) + multiset{e}
    decreases |s|
  {
    if s != [] && !LexLe(s[|s| - 1].timestamp, e.timestamp) {
      InsertPermutes(s[..|s| - 1], e);
      assert s == s[..|s| - 1] + [s[|s| - 1]];
    }
  }

  lemma {:induction false} InsertSorted(s: seq<Entry>, e: Entry)
    requires Sorted(s)
    ensures Sorted(Insert(s, e))
    decreases |s|
  {
    if s == [] {
    } else if LexLe(s[|s| - 1].timestamp, e.timestamp) {
      var r := s + [e];
      forall i, j | 0 <= i < j < |r| ensures LexLe(r[i].timestamp, r[j].timestamp) {
        if j == |s| && i < |s| - 1 {
          LexLeTransitive(s[i].timestamp, s[|s| - 1].timestamp, e.timestamp);
        }
      }
    } else {
      var last := s[|s| - 1];
      var init := s[..|s| - 1];
      var left := Insert(init, e);
      InsertSorted(init, e);
      InsertPermutes(init, e);
      LexLeTotal(last.timestamp, e.timestamp);
      var r := left + [last];
      forall i, j | 0 <= i < j < |r| ensures LexLe(r[i].timestamp, r[j].timestamp) {
        if j == |left| {
          assert r[i] in multiset(left);
          assert r[i] in init || r[i] == e;
        }
      }
    }
  }

  /** An entry stamped like `e` never ends up after it. */
  lemma OfTimeSnoc(a: seq<Entry>, x: Entry, t: string)
    ensures OfTime(a + [x], t) == OfTime(a, t) + When(x.timestamp == t, x)
  {
    assert (a + [x])[..|a|] == a;
  }

  lemma {:induction false} InsertStable(s: seq<Entry>, e: Entry, t: string)
    ensures OfTime(Insert(s, e), t) == OfTime(s, t) + When(e.timestamp == t, e)
    decreases |s|
  {
    if s == [] || LexLe(s[|s| - 1].timestamp, e.timestamp) {
      OfTimeSnoc(s, e, t);
    } else {
      var last := s[|s| - 1];
      var init := s[..|s| - 1];
      assert last.timestamp != e.timestamp by {
        LexLeReflexive(e.timestamp);
      }
      var left := Insert(init, e);
      assert Insert(s, e) == left + [last];
      assert s == init + [last];
      OfTimeSnoc(left, last, t);
      OfTimeSnoc(init, last, t);
      InsertStable(init, e, t);
    }
  }

  /** The sort permutes its input. */
  lemma {:induction false} SortPermutes(s: seq<Entry>)
    ensures multiset(SortByTimestamp(s)) == multiset(s)
    decreases |s|
  {
    if s != [] {
      SortPermutes(s[..|s| - 1]);
      InsertPermutes(SortByTimestamp(s[..|s| - 1]), s[|s| - 1]);
      assert s == s[..|s| - 1] + [s[|s| - 1]];
    }
  }

  /** The sort leaves the timestamps non-decreasing. */
  lemma {:induction false} SortSorts(s: seq<Entry>)
    ensures Sorted(SortByTimestamp(s))
    decreases |s|
  {
    if s != [] {
      SortSorts(s[..|s| - 1]);
      InsertSorted(SortByTimestamp(s[..|s| - 1]), s[|s| - 1]);
    }
  }

  /** The sort is stable: the entries of one timestamp keep their input order. */
  lemma {:induction false} SortIsStable(s: seq<Entry>, t: string)
    ensures OfTime(SortByTimestamp(s), t) == OfTime(s, t)
    decreases |s|
  {
    if s != [] {
      SortIsStable(s[..|s| - 1], t);
      InsertStable(SortByTimestamp(s[..|s| - 1]), s[|s| - 1], t);
    }
  }

  /**
   * The combined timeline: every snapshot, then every alert, each tagged
   * with its kind and its row, sorted by timestamp. On equal timestamps the
   * snapshots come first and each kind keeps its input order.
   */
  method BuildTimeline(snapshots: seq<Row>, alerts: seq<Row>) returns (timeline: seq<Entry>)
    ensures |timeline| == |snapshots| + |alerts|
    ensures multiset(timeline) == multiset(Tagged(snapshots, SnapshotEntry)) + multiset(Tagged(alerts, AlertEntry))
    ensures Sorted(timeline)
    ensures forall t ::
      OfTime(timeline, t) == OfTime(Tagged(snapshots, SnapshotEntry), t) + OfTime(Tagged(alerts, AlertEntry), t)
  {
    timeline := [];
    for i := 0 to |snapshots|
      invariant timeline == Tagged(snapshots[..i], SnapshotEntry)
    {
      timeline := timeline + [Entry(SnapshotEntry, snapshots[i].stamp, snapshots[i])];
    }
    assert snapshots[..|snapshots|] == snapshots;
    for i := 0 to |alerts|
      invariant timeline == Tagged(snapshots, SnapshotEntry) + Tagged(alerts[..i], AlertEntry)
    {
      timeline := timeline + [Entry(AlertEntry, alerts[i].stamp, alerts[i])];
    }
    assert alerts[..|alerts|] == alerts;
    ghost var merged := timeline;
    timeline := SortByTimestamp(timeline);
    SortPermutes(merged);
    SortSorts(merged);
    assert |timeline| == |multiset(timeline)| == |merged|;
    forall t ensures OfTime(timeline, t) == OfTime(Tagged(snapshots, SnapshotEntry), t) + OfTime(Tagged(alerts, AlertEntry), t) {
      SortIsStable(merged, t);
      OfTimeAppend(Tagged(snapshots, SnapshotEntry), Tagged(alerts, AlertEntry), t);
    }
  }

  // ---------------------------------------------------------------------------
  // The alert a manual snapshot raises
  // ---------------------------------------------------------------------------

  /** The `has_alert` column: any of the three conditions of the verdict. */
  predicate HasAlert(v: Verdict) {
    v.multipleFaces || v.noFaceDetected || v.suspiciousActivity
  }

  /** The `alert_type` values of snapshot alerts. */
  datatype SnapshotAlertKind = NoFace | MultipleFaces | SuspiciousActivity {
    function Name(): string {
      match this
      case NoFace => "no_face"
      case MultipleFaces => "multiple_faces"
      case SuspiciousActivity => "suspicious_activity"
    }
  }

  /**
   * The type and severity of the alert a verdict raises, if any: a missing
   * face first, then several faces (both "high"), then suspicious activity
   * ("medium").
   */
  function ClassifySnapshotAlert(v: Verdict): (r: Option<(SnapshotAlertKind, Severity)>)
    ensures r.Some? <==> HasAlert(v)
    ensures r.Some? ==> (r.value.1 == High <==> r.value.0 != SuspiciousActivity)
    ensures r.Some? ==> r.value.1 == High || r.value.1 == Medium
    ensures r == Some((NoFace, High)) <==> v.noFaceDetected
    ensures r == Some((MultipleFaces, High)) <==> v.multipleFaces && !v.noFaceDetected
    ensures r == Some((SuspiciousActivity, Medium)) <==> v.suspiciousActivity && !v.multipleFaces && !v.noFaceDetected
  {
    if v.noFaceDetected then Some((NoFace, High))
    else if v.multipleFaces then Some((MultipleFaces, High))
    else if v.suspiciousActivity then Some((SuspiciousActivity, Medium))
    else None
  }

  /** A snapshot judged by a fallback verdict (no model, a failed call, an unparsable or non-object reply) raises no alert. */
  lemma FallbackVerdictsRaiseNoSnapshotAlert(configured: bool, call: CallOutcome, parse: string -> JsonValue)
    requires !configured || call.Raised? || !parse(NormaliseReply(call.text)).Object?
    ensures ClassifySnapshotAlert(AnalyzeProctoringImage(configured, call, parse)).None?
  {
    var v := AnalyzeProctoringImage(configured, call, parse);
    assert Safe(v);
  }

  /**
   * A parsed reply raises the alert its own flags name: no face when it says
   * so, else several faces, else suspicious activity; a face count alone
   * raises nothing.
   */
  lemma SnapshotAlertFollowsReply(call: CallOutcome, parse: string -> JsonValue)
    requires call.Answered? && parse(NormaliseReply(call.text)).Object?
    ensures var reply := parse(NormaliseReply(call.text)).reply;
      var r := ClassifySnapshotAlert(AnalyzeProctoringImage(true, call, parse));
      (r.Some? <==>
        (reply.noFaceDetected == Some(true) || reply.multipleFaces == Some(true) || reply.suspiciousActivity == Some(true))) &&
      (r.Some? && r.value.0 == NoFace <==> reply.noFaceDetected == Some(true))
  {
  }

  /**
   * The snapshot path files face alerts as "high", where the alert table
   * makes the same conditions "critical"; and its type names are not keys of
   * that table.
   */
  lemma SnapshotAlertsBypassTheTable(v: Verdict)
    requires v.noFaceDetected || v.multipleFaces
    ensures var r := ClassifySnapshotAlert(v);
      r.Some? && r.value.1 == High &&
      (r.value.0 == NoFace ==> SeverityOf(NoFaceDetected) == Critical) &&
      (r.value.0 == MultipleFaces ==> SeverityOf(MultipleFacesDetected) == Critical) &&
      TypeOf(r.value.0.Name()).None?
  {
  }

  // ---------------------------------------------------------------------------
  // Sessions, snapshots and alerts in the database
  // ---------------------------------------------------------------------------

  /** A row of `proctoring_sessions`. */
  datatype SessionRow = SessionRow(id: string, attemptId: string, userId: string, status: string)

  /** A row of `proctoring_snapshots`; `analysis` is the whole verdict. */
  datatype SnapshotRow = SnapshotRow(
    id: string,
    sessionId: string,
    snapshotUrl: string,
    facesDetected: int,
    analysis: Verdict,
    hasAlert: bool,
    confidence: int)

  /** A row of `proctoring_alerts` raised by a snapshot. */
  datatype SnapshotAlertRow = SnapshotAlertRow(
    sessionId: string,
    snapshotId: string,
    kind: SnapshotAlertKind,
    severity: Severity,
    description: Option<string>)

  datatype StartResult =
    | StartFailed(code: nat, detail: string)
    | AlreadyExists(session: SessionRow)
    | Started(session: SessionRow)

  datatype UploadResult =
    | UploadFailed(code: nat, detail: string)
    | Uploaded(snapshot: SnapshotRow, hasAlert: bool)

  /** A session row of the attempt, if there is one. */
  function SessionOfAttempt(rows: seq<SessionRow>, attemptId: string): (r: Option<SessionRow>)
    ensures r.Some? ==> r.value in rows && r.value.attemptId == attemptId
    ensures r.None? <==> forall x :: x in rows ==> x.attemptId != attemptId
  {
    if rows == [] then None
    else if rows[0].attemptId == attemptId then Some(rows[0])
    else SessionOfAttempt(rows[1..], attemptId)
  }

  /** The session row with this id, if there is one. */
  function SessionById(rows: seq<SessionRow>, sessionId: string): (r: Option<SessionRow>)
    ensures r.Some? ==> r.value in rows && r.value.id == sessionId
    ensures r.None? <==> forall x :: x in rows ==> x.id != sessionId
  {
    if rows == [] then None
    else if rows[0].id == sessionId then Some(rows[0])
    else SessionById(rows[1..], sessionId)
  }

  /** A new row does not hide the session an attempt already has. */
  lemma {:induction false} SessionOfAttemptKeeps(rows: seq<SessionRow>, row: SessionRow, attemptId: string)
    requires SessionOfAttempt(rows, attemptId).Some?
    ensures SessionOfAttempt(rows + [row], attemptId) == SessionOfAttempt(rows, attemptId)
  {
    if rows[0].attemptId != attemptId {
      assert (rows + [row])[1..] == rows[1..] + [row];
      SessionOfAttemptKeeps(rows[1..], row, attemptId);
    }
  }

  /** The rpc `increment` on one counter column (a missing value reads as 0). */
  function Bump(counters: map<string, nat>, key: string): (r: map<string, nat>)
    ensures key in r && r[key] == (if key in counters then counters[key] else 0) + 1
    ensures forall k :: k in counters && k != key ==> k in r && r[k] == counters[k]
    ensures r.Keys == counters.Keys + {key}
  {
    counters[key := (if key in counters then counters[key] else 0) + 1]
  }

  /** The keys of the verdict dictionary: the five top-level fields and `analysis`, or `error` after a failure. */
  function VerdictKeys(v: Verdict): (keys: set<string>)
    ensures "description" !in keys
  {
    {"faces_detected", "multiple_faces", "no_face_detected", "suspicious_activity", "confidence"} +
    (if v.detail.Failed? then {"error"} else {"analysis"})
  }

  /** The alert rows a snapshot adds: one for an alerting verdict, classified by priority; none otherwise. */
  function SnapshotAlertRows(sessionId: string, snapshotId: string, v: Verdict): (r: seq<SnapshotAlertRow>)
    ensures |r| <= 1 && (|r| == 1 <==> HasAlert(v))
    ensures |r| == 1 ==>
      r[0].sessionId == sessionId && r[0].snapshotId == snapshotId &&
      ClassifySnapshotAlert(v) == Some((r[0].kind, r[0].severity))
  {
    match ClassifySnapshotAlert(v)
    case None => []
    case Some((kind, severity)) => [SnapshotAlertRow(sessionId, snapshotId, kind, severity, None)]
  }

  /**
   * The alert step as the endpoint writes it: `analysis["description"]` is
   * read for every alerting verdict, and the verdict has no such key, so the
   * step raises (`None`) exactly when there is an alert to record.
   */
  function SnapshotAlertRowsAsWritten(sessionId: string, snapshotId: string, v: Verdict): (r: Option<seq<SnapshotAlertRow>>)
    ensures r.None? <==> HasAlert(v)
    ensures r.Some? ==> r.value == []
  {
    if HasAlert(v) && "description" !in VerdictKeys(v) then None
    else Some(SnapshotAlertRows(sessionId, snapshotId, v))
  }

  /** A parsed reply of "no face" makes the alert step raise instead of recording the alert. */
  lemma NoFaceReplyRaisesAsWritten(call: CallOutcome, parse: string -> JsonValue, sessionId: string, snapshotId: string)
    requires call.Answered? && parse(NormaliseReply(call.text)).Object?
    requires parse(NormaliseReply(call.text)).reply.noFaceDetected == Some(true)
    ensures var v := AnalyzeProctoringImage(true, call, parse);
      SnapshotAlertRowsAsWritten(sessionId, snapshotId, v).None? &&
      SnapshotAlertRows(sessionId, snapshotId, v) == [SnapshotAlertRow(sessionId, snapshotId, NoFace, High, None)]
  {
    var v := AnalyzeProctoringImage(true, call, parse);
    assert v == FromReply(parse(NormaliseReply(call.text)).reply);
    NoFaceVerdictRaisesAsWritten(sessionId, snapshotId, v);
  }

  lemma NoFaceVerdictRaisesAsWritten(sessionId: string, snapshotId: string, v: Verdict)
    requires v.noFaceDetected && v.detail.Parsed?
    ensures SnapshotAlertRowsAsWritten(sessionId, snapshotId, v).None?
    ensures SnapshotAlertRows(sessionId, snapshotId, v) == [SnapshotAlertRow(sessionId, snapshotId, NoFace, High, None)]
  {
    assert ClassifySnapshotAlert(v) == Some((NoFace, High));
  }

  /** The proctoring tables. */
  class Database {
    /** `assessment_attempts`: the owner of each attempt. */
    var attempts: map<string, string>
    var sessions: seq<SessionRow>
    var snapshots: seq<SnapshotRow>
    var alerts: seq<SnapshotAlertRow>
    /** The paths written to the storage bucket. */
    var images: seq<string>
    /** `proctoring_sessions.total_snapshots` and `total_alerts`, by session id. */
    var totalSnapshots: map<string, nat>
    var totalAlerts: map<string, nat>
    /** `assessment_attempts.proctoring_violations`, by attempt id. */
    var violations: map<string, nat>

    constructor (attempts: map<string, string>)
      ensures this.attempts == attempts && sessions == [] && snapshots == [] && alerts == [] && images == []
      ensures totalSnapshots == map[] && totalAlerts == map[] && violations == map[]
    {
      this.attempts := attempts;
      sessions, snapshots, alerts, images := [], [], [], [];
      totalSnapshots, totalAlerts, violations := map[], map[], map[];
    }

    /**
     * Starts proctoring an attempt of the caller's: a missing attempt is 404,
     * someone else's is 403, an attempt that already has a session gets that
     * session back and nothing is inserted; otherwise an "active" row is added.
     */
    method CreateProctoringSession(attemptId: string, userId: string, newId: string) returns (r: StartResult)
      modifies this`sessions
      ensures attemptId !in attempts ==>
        r == StartFailed(404, "Assessment attempt not found") && sessions == old(sessions)
      ensures attemptId in attempts && attempts[attemptId] != userId ==>
        r == StartFailed(403, "Not authorized to access this attempt") && sessions == old(sessions)
      ensures attemptId in attempts && attempts[attemptId] == userId && SessionOfAttempt(old(sessions), attemptId).Some? ==>
        r == AlreadyExists(SessionOfAttempt(old(sessions), attemptId).value) && sessions == old(sessions)
      ensures attemptId in attempts && attempts[attemptId] == userId && SessionOfAttempt(old(sessions), attemptId).None? ==>
        r == Started(SessionRow(newId, attemptId, userId, "active")) && sessions == old(sessions) + [r.session]
      ensures r.AlreadyExists? || r.Started? ==> SessionOfAttempt(sessions, attemptId) == Some(r.session)
    {
      if attemptId !in attempts {
        return StartFailed(404, "Assessment attempt not found");
      }
      if attempts[attemptId] != userId {
        return StartFailed(403, "Not authorized to access this attempt");
      }
      var existing := SessionOfAttempt(sessions, attemptId);
      if existing.Some? {
        return AlreadyExists(existing.value);
      }
      var row := SessionRow(newId, attemptId, userId, "active");
      sessions := sessions + [row];
      assert SessionOfAttempt(sessions, attemptId) == Some(row) by {
        SessionOfAttemptAfterNone(old(sessions), row);
      }
      r := Started(row);
    }

    /**
     * Uploads a snapshot of one of the caller's sessions and records its
     * analysis: the image, the snapshot row, for an alerting verdict one alert
     * row and the two alert counters, and always the snapshot counter.
     * `stored` is the error text of the base64 decode or the storage upload
     * when either raises, which the handler reports as a 500 with nothing
     * written.
     */
    method UploadSnapshot(sessionId: string, userId: string, imagePath: string, stored: Option<string>,
                          url: string, snapshotId: string, v: Verdict)
      returns (r: UploadResult)
      modifies this`images, this`snapshots, this`alerts, this`totalSnapshots, this`totalAlerts, this`violations
      ensures SessionById(sessions, sessionId).None? ==>
        r == UploadFailed(404, "Proctoring session not found") && unchanged(this)
      ensures SessionById(sessions, sessionId).Some? && SessionById(sessions, sessionId).value.userId != userId ==>
        r == UploadFailed(403, "Not authorized to access this session") && unchanged(this)
      ensures (SessionById(sessions, sessionId).Some? && SessionById(sessions, sessionId).value.userId == userId &&
               stored.Some?) ==>
        r == UploadFailed(500, "Failed to upload snapshot: " + stored.value) && unchanged(this)
      ensures (SessionById(sessions, sessionId).Some? && SessionById(sessions, sessionId).value.userId == userId &&
               stored.None?) ==>
        var attemptId := SessionById(sessions, sessionId).value.attemptId;
        var row := SnapshotRow(snapshotId, sessionId, url, v.facesDetected, v, HasAlert(v), v.confidence);
        r == Uploaded(row, HasAlert(v)) &&
        images == old(images) + [imagePath] &&
        snapshots == old(snapshots) + [row] &&
        alerts == old(alerts) + SnapshotAlertRows(sessionId, snapshotId, v) &&
        totalAlerts == (if HasAlert(v) then Bump(old(totalAlerts), sessionId) else old(totalAlerts)) &&
        violations == (if HasAlert(v) then Bump(old(violations), attemptId) else old(violations)) &&
        totalSnapshots == Bump(old(totalSnapshots), sessionId)
    {
      var session := SessionById(sessions, sessionId);
      if session.None? {
        return UploadFailed(404, "Proctoring session not found");
      }
      if session.value.userId != userId {
        return UploadFailed(403, "Not authorized to access this session");
      }
      if stored.Some? {
        return UploadFailed(500, "Failed to upload snapshot: " + stored.value);
      }
      images := images + [imagePath];
      var row := SnapshotRow(snapshotId, sessionId, url, v.facesDetected, v, HasAlert(v), v.confidence);
      snapshots := snapshots + [row];
      if row.hasAlert {
        alerts := alerts + SnapshotAlertRows(sessionId, snapshotId, v);
        totalAlerts := Bump(totalAlerts, sessionId);
        violations := Bump(violations, session.value.attemptId);
      }
      totalSnapshots := Bump(totalSnapshots, sessionId);
      r := Uploaded(row, row.hasAlert);
    }

    /**
     * The upload as the endpoint writes it: the analysis goes through a
     * module name the endpoint never imports, so once the image is stored
     * the lookup raises and the handler turns it into a 500; no snapshot,
     * alert or counter is ever written. A decode or storage failure
     * (`stored`) raises first and stores nothing.
     */
    method UploadSnapshotAsWritten(sessionId: string, userId: string, imagePath: string, stored: Option<string>)
      returns (r: UploadResult)
      modifies this`images
      ensures SessionById(sessions, sessionId).None? ==>
        r == UploadFailed(404, "Proctoring session not found") && images == old(images)
      ensures SessionById(sessions, sessionId).Some? && SessionById(sessions, sessionId).value.userId != userId ==>
        r == UploadFailed(403, "Not authorized to access this session") && images == old(images)
      ensures (SessionById(sessions, sessionId).Some? && SessionById(sessions, sessionId).value.userId == userId &&
               stored.Some?) ==>
        r == UploadFailed(500, "Failed to upload snapshot: " + stored.value) && images == old(images)
      ensures (SessionById(sessions, sessionId).Some? && SessionById(sessions, sessionId).value.userId == userId &&
               stored.None?) ==>
        r == UploadFailed(500, "Failed to upload snapshot: name 'gemini_client' is not defined") &&
        images == old(images) + [imagePath]
      ensures !r.Uploaded?
    {
      var session := SessionById(sessions, sessionId);
      if session.None? {
        return UploadFailed(404, "Proctoring session not found");
      }
      if session.value.userId != userId {
        return UploadFailed(403, "Not authorized to access this session");
      }
      if stored.Some? {
        return UploadFailed(500, "Failed to upload snapshot: " + stored.value);
      }
      images := images + [imagePath];
      r := UploadFailed(500, "Failed to upload snapshot: name 'gemini_client' is not defined");
    }
  }

  lemma SessionOfAttemptAfterNone(rows: seq<SessionRow>, row: SessionRow)
    requires SessionOfAttempt(rows, row.attemptId).None?
    ensures SessionOfAttempt(rows + [row], row.attemptId) == Some(row)
  {
    SessionOfAttemptFirstMatch(rows + [row], row.attemptId, |rows|);
  }

  /** The lookup finds the first matching row. */
  lemma {:induction false} SessionOfAttemptFirstMatch(rows: seq<SessionRow>, attemptId: string, i: nat)
    requires i < |rows| && rows[i].attemptId == attemptId
    requires forall j :: 0 <= j < i ==> rows[j].attemptId != attemptId
    ensures SessionOfAttempt(rows, attemptId) == Some(rows[i])
  {
    if i > 0 {
      SessionOfAttemptFirstMatch(rows[1..], attemptId, i - 1);
    }
  }

  // ---------------------------------------------------------------------------
  // Proctor actions and the two websockets
  // ---------------------------------------------------------------------------

  /** The actions a proctor may take on a live session. */
  predicate ValidAction(action: string) {
    action == "warn" || action == "escalate" || action == "terminate"
  }

  datatype ActionResult = ActionRejected(code: nat, detail: string) | ActionDone(action: string)

  /** The status a proctor's termination leaves on the session. */
  const TerminatedByProctor: string := "terminated_by_proctor"

  /** The message a proctor action sends to the student's connections. */
  function ProctorMessage(action: string, instructorId: string, reason: Option<string>): (msg: Message)
    ensures msg.ProctorCommand? && msg.command == "proctor_" + action
  {
    ProctorCommand("proctor_" + action, instructorId, reason)
  }

  /** The caller's name on a socket: the token, or the default when it is missing or empty. */
  function SocketUser(token: Option<string>, default: string): (u: string)
    ensures token.Some? && token.value != "" ==> u == token.value
    ensures token.None? || token.value == "" ==> u == default
  {
    if token.Some? && token.value != "" then token.value else default
  }

  /**
   * A proctor's action over HTTP. An unknown action is 400 and changes
   * nothing. "terminate" ends the live session; "warn" and "escalate" are
   * sent to the student's connections. Either way the answer is success,
   * even when there was no live session to end.
   */
  method SendProctorAction(m: Manager, sessionId: string, action: string, reason: Option<string>,
    instructorId: string, now: string) returns (r: ActionResult)
    requires m.Valid()
    modifies m
    ensures m.Valid()
    ensures !ValidAction(action) ==> r == ActionRejected(400, "Invalid action") && unchanged(m)
    ensures ValidAction(action) ==> r == ActionDone(action)
    ensures m.closed == old(m.closed)
    ensures (action == "warn" || action == "escalate") ==>
      m.outbox == old(m.outbox) +
        Attempts(sessionId, old(m.SessionSinks(sessionId)), ProctorMessage(action, instructorId, reason), old(m.closed)) &&
      m.activeSessions == old(m.activeSessions) && m.frameQueues == old(m.frameQueues) &&
      m.websocketConnections == old(m.websocketConnections) && m.sessionAlertsCache == old(m.sessionAlertsCache) &&
      m.proctorConnections == old(m.proctorConnections) && m.sessionTable == old(m.sessionTable)
    ensures action == "terminate" && sessionId !in old(m.activeSessions) ==>
      m.outbox == old(m.outbox) && m.activeSessions == old(m.activeSessions) && m.frameQueues == old(m.frameQueues) &&
      m.websocketConnections == old(m.websocketConnections) && m.sessionAlertsCache == old(m.sessionAlertsCache) &&
      m.proctorConnections == old(m.proctorConnections) && m.sessionTable == old(m.sessionTable)
    ensures action == "terminate" && sessionId in old(m.activeSessions) ==>
      m.sessionTable == old(m.sessionTable)[sessionId := TerminatedByProctor] &&
      m.outbox == old(m.outbox) +
        Attempts(sessionId, old(m.SessionSinks(sessionId)), SessionEnded(TerminatedByProctor), old(m.closed)) &&
      m.activeSessions == old(m.activeSessions) - {sessionId} &&
      m.frameQueues == old(m.frameQueues) - {sessionId} &&
      m.websocketConnections == old(m.websocketConnections) - {sessionId} &&
      m.sessionAlertsCache == old(m.sessionAlertsCache) - {sessionId} &&
      m.proctorConnections == old(m.proctorConnections) - {sessionId}
  {
    if !ValidAction(action) {
      return ActionRejected(400, "Invalid action");
    }
    if action == "terminate" {
      var _ := m.EndSession(sessionId, TerminatedByProctor, now);
    } else {
      m.BroadcastToSession(sessionId, ProctorMessage(action, instructorId, reason));
    }
    r := ActionDone(action);
  }

  /** What a student's socket sends: a frame, a ping, or anything else. */
  datatype StudentMessage = FrameMessage(frame: Option<string>, timestamp: Option<string>) | StudentPing | StudentOther

  /** What a proctor's dashboard sends. */
  datatype DashboardMessage = CommandMessage(command: Option<string>, reason: Option<string>) | DashboardPing | DashboardOther

  /** A direct reply on the same socket. */
  datatype SocketReply =
    | FrameAck(status: Option<string>, queueSize: Option<nat>)
    | Pong
    | SessionStatus(data: StatusResult)

  /** The acknowledgement of a frame: the manager's status and queue size, both null after an error. */
  function AckOf(r: FrameResult): (ack: SocketReply)
    ensures ack.FrameAck? && (ack.status.Some? <==> r.Received?) && (ack.queueSize.Some? <==> r.Received?)
    ensures r.Received? ==> ack == FrameAck(Some("received"), Some(r.queueSize))
  {
    match r
    case FrameError(_) => FrameAck(None, None)
    case Received(_, q) => FrameAck(Some("received"), Some(q))
  }

  /** A student connects: its connection is registered under the token's user, or "student-default". */
  method OpenStudentSocket(m: Manager, sessionId: string, token: Option<string>, conn: ConnId) returns (userId: string)
    requires m.Valid()
    modifies m`websocketConnections
    ensures m.Valid()
    ensures userId == SocketUser(token, "student-default")
    ensures m.websocketConnections == old(m.websocketConnections)[sessionId :=
      Put(if sessionId in old(m.websocketConnections) then old(m.websocketConnections)[sessionId] else [], userId, conn)]
    ensures sessionId in m.websocketConnections && (userId, conn) in m.websocketConnections[sessionId]
  {
    userId := SocketUser(token, "student-default");
    m.RegisterWebsocket(sessionId, userId, conn);
  }

  /**
   * One message on a student's socket: a frame goes to the manager's queue
   * and is acknowledged with the queue size, a ping gets a pong, anything
   * else gets no reply and changes nothing.
   */
  method HandleStudentMessage(m: Manager, sessionId: string, msg: StudentMessage, frameId: string, now: string)
    returns (reply: Option<SocketReply>)
    requires m.Valid()
    modifies m`frameQueues, m`activeSessions
    ensures m.Valid()
    ensures !msg.FrameMessage? ==> m.frameQueues == old(m.frameQueues) && m.activeSessions == old(m.activeSessions)
    ensures msg.StudentPing? ==> reply == Some(Pong)
    ensures msg.StudentOther? ==> reply.None?
    ensures msg.FrameMessage? ==>
      reply.Some? && reply.value.FrameAck? && (reply.value.status.Some? <==> sessionId in old(m.activeSessions))
    ensures msg.FrameMessage? && sessionId !in old(m.activeSessions) ==>
      reply == Some(FrameAck(None, None)) &&
      m.frameQueues == old(m.frameQueues) && m.activeSessions == old(m.activeSessions)
    ensures msg.FrameMessage? && sessionId in old(m.activeSessions) ==>
      var s := old(m.activeSessions)[sessionId];
      var q := EnqueueDropOldest(old(m.frameQueues)[sessionId],
                                 Frame(msg.frame, FrameTimestamp(msg.timestamp, now), frameId));
      m.frameQueues == old(m.frameQueues)[sessionId := q] &&
      m.activeSessions == old(m.activeSessions)[sessionId := s.(framesCaptured := s.framesCaptured + 1)] &&
      reply == Some(FrameAck(Some("received"), Some(|q|)))
    ensures msg.FrameMessage? && sessionId in old(m.activeSessions) ==>
      sessionId in m.frameQueues && sessionId in m.activeSessions &&
      (var q := m.frameQueues[sessionId];
        reply.value.queueSize == Some(|q|) && 0 < |q| <= MaxQueueSize && q[|q| - 1].data == msg.frame &&
        m.activeSessions[sessionId].framesCaptured == old(m.activeSessions)[sessionId].framesCaptured + 1)
  {
    match msg
    case FrameMessage(frame, timestamp) =>
      var r := m.ProcessFrame(sessionId, frame, timestamp, frameId, now);
      reply := Some(AckOf(r));
    case StudentPing =>
      reply := Some(Pong);
    case StudentOther =>
      reply := None;
  }

  /** A student disconnects: its connection is forgotten. */
  method CloseStudentSocket(m: Manager, sessionId: string, userId: string)
    requires m.Valid()
    modifies m`websocketConnections
    ensures m.Valid()
    ensures sessionId !in old(m.websocketConnections) ==> m.websocketConnections == old(m.websocketConnections)
    ensures sessionId in old(m.websocketConnections) ==>
      m.websocketConnections == old(m.websocketConnections)[sessionId := Remove(old(m.websocketConnections)[sessionId], userId)]
    ensures sessionId in m.websocketConnections ==> userId !in Users(m.websocketConnections[sessionId])
  {
    m.UnregisterWebsocket(sessionId, userId);
  }

  /** A proctor connects: the connection joins the session's proctors and is sent the session status. */
  method OpenDashboard(m: Manager, sessionId: string, conn: ConnId) returns (reply: SocketReply)
    requires m.Valid()
    modifies m`proctorConnections
    ensures m.Valid()
    ensures m.proctorConnections == old(m.proctorConnections)[sessionId := old(m.ProctorSinks(sessionId)) + [conn]]
    ensures m.ProctorSinks(sessionId) == old(m.ProctorSinks(sessionId)) + [conn]
    ensures reply == SessionStatus(m.GetSessionStatus(sessionId))
    ensures reply.data.StatusError? <==> sessionId !in m.activeSessions
  {
    m.RegisterProctorWebsocket(sessionId, conn);
    reply := SessionStatus(m.GetSessionStatus(sessionId));
  }

  /**
   * One message on a proctor's dashboard. A valid command is sent to the
   * student's connections, and "terminate" then ends the session; an
   * unknown command and anything but a ping are ignored; a ping gets a pong.
   */
  method HandleDashboardMessage(m: Manager, sessionId: string, instructorId: string, msg: DashboardMessage, now: string)
    returns (reply: Option<SocketReply>)
    requires m.Valid()
    modifies m
    ensures m.Valid()
    ensures msg.DashboardPing? ==> reply == Some(Pong) && unchanged(m)
    ensures !msg.DashboardPing? ==> reply.None?
    ensures m.closed == old(m.closed)
    ensures msg.DashboardOther? || (msg.CommandMessage? && (msg.command.None? || !ValidAction(msg.command.value))) ==>
      unchanged(m)
    ensures msg.CommandMessage? && msg.command.Some? && ValidAction(msg.command.value) ==>
      var sent := Attempts(sessionId, old(m.SessionSinks(sessionId)),
        ProctorMessage(msg.command.value, instructorId, msg.reason), old(m.closed));
      if msg.command.value == "terminate" && sessionId in old(m.activeSessions) then
        m.outbox == old(m.outbox) + sent +
          Attempts(sessionId, old(m.SessionSinks(sessionId)), SessionEnded(TerminatedByProctor), old(m.closed)) &&
        m.sessionTable == old(m.sessionTable)[sessionId := TerminatedByProctor] &&
        m.activeSessions == old(m.activeSessions) - {sessionId} &&
        m.frameQueues == old(m.frameQueues) - {sessionId} &&
        m.websocketConnections == old(m.websocketConnections) - {sessionId} &&
        m.sessionAlertsCache == old(m.sessionAlertsCache) - {sessionId} &&
        m.proctorConnections == old(m.proctorConnections) - {sessionId}
      else
        m.outbox == old(m.outbox) + sent &&
        m.activeSessions == old(m.activeSessions) && m.sessionTable == old(m.sessionTable) &&
        m.frameQueues == old(m.frameQueues) && m.websocketConnections == old(m.websocketConnections) &&
        m.sessionAlertsCache == old(m.sessionAlertsCache) && m.proctorConnections == old(m.proctorConnections)
  {
    reply := None;
    match msg
    case CommandMessage(command, reason) =>
      if command.Some? && ValidAction(command.value) {
        m.BroadcastToSession(sessionId, ProctorMessage(command.value, instructorId, reason));
        if command.value == "terminate" {
          var _ := m.EndSession(sessionId, TerminatedByProctor, now);
        }
      }
    case DashboardPing =>
      reply := Some(Pong);
    case DashboardOther =>
  }
}
