// The live proctoring session manager: per-session records, the bounded
// frame queue, the subscriber registries and their broadcasts, one cycle of
// the frame-analysis loop, and session teardown. The judgment of a frame, the
// snapshot id, timestamps and which connections have gone away are inputs.

module Realtime {
  import opened Common
  import opened AlertCatalog
  import opened Detection

  const MaxQueueSize: nat := 20
  const CaptureInterval: nat := 5

  /** An opaque handle on one websocket. */
  type ConnId = nat

  /** A queued frame: its payload, its capture time and its id. */
  datatype Frame = Frame(data: Option<string>, timestamp: string, frameId: string)

  /** The in-memory record of a live session. */
  datatype LiveSession = LiveSession(
    userId: string,
    assessmentId: string,
    attemptId: string,
    status: string,
    startTime: string,
    framesCaptured: nat,
    alertsGenerated: nat,
    violationsDetected: nat,
    integrityScore: int,
    escalation: Option<(EscalationReason, string)>)
  {
    /** Still "active", at integrity 1.0, with as many alerts as violations. */
    predicate Live() {
      status == "active" && integrityScore == 100 && violationsDetected == alertsGenerated
    }
  }

  /** An alert raised by the live loop (kept in the per-session cache). */
  datatype LiveAlert = LiveAlert(
    sessionId: string,
    snapshotId: string,
    alertType: AlertType,
    severity: Severity,
    status: string,
    timestamp: string)

  /** The messages the manager pushes to students and proctors. */
  datatype Message =
    | StatusUpdate(violationsDetected: nat, alertCount: nat, integrityScore: int)
    | LiveAlerts(alerts: seq<LiveAlert>)
    | EscalationAlert(escalation: EscalationReason)
    | CriticalWarning
    | TimeoutWarning
    | SessionEnded(reason: string)
    | ProctorCommand(command: string, instructorId: string, note: Option<string>)

  /** One attempted send: to which connection, what, and whether it went through. */
  datatype Delivery = Delivery(sessionId: string, conn: ConnId, msg: Message, delivered: bool)

  datatype InitResult = Initialized(sessionId: string, captureInterval: nat)
  datatype FrameResult = FrameError(error: string) | Received(frameNumber: nat, queueSize: nat)
  datatype EndResult = EndError(error: string) |
    Ended(sessionId: string, reason: string, framesProcessed: nat, alertsGenerated: nat)
  datatype StatusResult = StatusError(error: string) |
    Status(sessionId: string, status: string, framesCaptured: nat, alertsGenerated: nat,
      violationsDetected: nat, integrityScore: int, recentAlerts: seq<LiveAlert>)

  /** What one pass of the analysis loop did. */
  datatype CycleOutcome =
    | LoopEnded
    | TimedOut
    | AnalysisFailed
    | Analysed(violations: seq<AlertType>, alerts: nat, escalation: Option<EscalationReason>)

  // ---------------------------------------------------------------------------
  // The bounded frame queue
  // ---------------------------------------------------------------------------

  function Min(a: int, b: int): int {
    if a <= b then a else b
  }

  /** Appends `f`, first removing the oldest frame when the queue is full. */
  function EnqueueDropOldest(q: seq<Frame>, f: Frame): (q': seq<Frame>)
    ensures 1 <= |q'| <= |q| + 1 && q'[|q'| - 1] == f
    ensures q' == (q + [f])[|q| + 1 - |q'|..]
    ensures |q| <= MaxQueueSize ==> |q'| == Min(|q| + 1, MaxQueueSize)
  {
    if |q| >= MaxQueueSize then q[1..] + [f] else q + [f]
  }

  /** A queue that respects the bound keeps respecting it. */
  lemma EnqueueKeepsBound(q: seq<Frame>, f: Frame)
    requires |q| <= MaxQueueSize
    ensures |EnqueueDropOldest(q, f)| <= MaxQueueSize
    ensures |q| < MaxQueueSize ==> EnqueueDropOldest(q, f)[..|q|] == q
  {
  }

  /** A missing or empty timestamp is replaced by the time of arrival. */
  function FrameTimestamp(timestamp: Option<string>, now: string): (ts: string)
    ensures timestamp.Some? && timestamp.value != "" ==> ts == timestamp.value
    ensures timestamp.None? || timestamp.value == "" ==> ts == now
  {
    if timestamp.Some? && timestamp.value != "" then timestamp.value else now
  }

  // ---------------------------------------------------------------------------
  // Registries and deliveries
  // ---------------------------------------------------------------------------

  /** A session's student connections, keyed by user id, in insertion order. */
  type Registry = seq<(string, ConnId)>

  function Users(r: Registry): (us: seq<string>)
    ensures |us| == |r| && forall i :: 0 <= i < |r| ==> us[i] == r[i].0
  {
    if r == [] then [] else [r[0].0] + Users(r[1..])
  }

  function Conns(r: Registry): (cs: seq<ConnId>)
    ensures |cs| == |r| && forall i :: 0 <= i < |r| ==> cs[i] == r[i].1
  {
    if r == [] then [] else [r[0].1] + Conns(r[1..])
  }

  /** `registry[user] = conn`: replace in place, or append a new user at the end. */
  function Put(r: Registry, user: string, conn: ConnId): (r': Registry)
    ensures user in Users(r) ==> Users(r') == Users(r)
    ensures user !in Users(r) ==> r' == r + [(user, conn)]
    ensures forall i :: 0 <= i < |r| ==> r'[i] == (if r[i].0 == user then (user, conn) else r[i])
    ensures (user, conn) in r'
  {
    if user in Users(r) then
      var r' := seq(|r|, i requires 0 <= i < |r| => if r[i].0 == user then (user, conn) else r[i]);
      assert Users(r') == Users(r);
      var k :| 0 <= k < |r| && Users(r)[k] == user;
      assert r'[k] == (user, conn);
      r'
    else
      r + [(user, conn)]
  }

  /** A registry with one entry per user keeps that property under `Put`. */
  lemma {:induction false} PutKeepsUsersDistinct(r: Registry, user: string, conn: ConnId)
    requires NoDuplicates(Users(r))
    ensures NoDuplicates(Users(Put(r, user, conn)))
  {
    var r' := Put(r, user, conn);
    if user !in Users(r) {
      forall i, j | 0 <= i < j < |r'| ensures Users(r')[i] != Users(r')[j] {
        if j == |r| {
          assert Users(r')[j] == user && Users(r')[i] == Users(r)[i];
        } else {
          assert Users(r')[i] == Users(r)[i] && Users(r')[j] == Users(r)[j];
        }
      }
    }
  }

  /** `registry.pop(user, None)`: the user's entry goes, the others keep their order. */
  function Remove(r: Registry, user: string): (r': Registry)
    ensures forall p :: p in r' <==> p in r && p.0 != user
    ensures Subsequence(r', r)
    ensures user !in Users(r')
  {
    if r == [] then []
    else if r[0].0 == user then
      var rest := Remove(r[1..], user);
      SubsequenceCons(rest, r[0], r[1..]);
      assert [r[0]] + r[1..] == r;
      rest
    else
      var rest := Remove(r[1..], user);
      var r' := [r[0]] + rest;
      assert r'[0] == r[0] && r'[1..] == rest;
      assert Users(r') == [r[0].0] + Users(rest);
      r'
  }

  /** One attempt per connection, in order; a connection that has gone away fails alone. */
  function Attempts(sessionId: string, conns: seq<ConnId>, msg: Message, closed: set<ConnId>): (r: seq<Delivery>)
    ensures |r| == |conns|
  {
    seq(|conns|, i requires 0 <= i < |conns| => Delivery(sessionId, conns[i], msg, conns[i] !in closed))
  }

  lemma ConcatAssoc<T>(a: seq<T>, b: seq<T>, c: seq<T>)
    ensures (a + b) + c == a + (b + c)
  {
  }

  /**
   * Every connection is tried once, in order, with the same message; the
   * attempt fails exactly when the connection has gone away, and a further
   * connection going away changes no other connection's attempt.
   */
  lemma AttemptsIsolateFailures(sessionId: string, conns: seq<ConnId>, msg: Message, closed: set<ConnId>, gone: ConnId)
    ensures var r := Attempts(sessionId, conns, msg, closed);
      forall i :: 0 <= i < |conns| ==>
        r[i].conn == conns[i] && r[i].msg == msg && r[i].sessionId == sessionId &&
        (r[i].delivered <==> conns[i] !in closed)
    ensures var r := Attempts(sessionId, conns, msg, closed);
      var r' := Attempts(sessionId, conns, msg, closed + {gone});
      forall i :: 0 <= i < |conns| ==>
        (conns[i] != gone ==> r'[i] == r[i]) && (conns[i] == gone ==> !r'[i].delivered)
  {
  }

  /** Broadcasting to two lists of connections is broadcasting to the first, then to the second. */
  lemma AttemptsAppend(sessionId: string, a: seq<ConnId>, b: seq<ConnId>, msg: Message, closed: set<ConnId>)
    ensures Attempts(sessionId, a + b, msg, closed) == Attempts(sessionId, a, msg, closed) + Attempts(sessionId, b, msg, closed)
  {
    var l := Attempts(sessionId, a + b, msg, closed);
    var r := Attempts(sessionId, a, msg, closed) + Attempts(sessionId, b, msg, closed);
    assert |l| == |r|;
    forall i | 0 <= i < |l| ensures l[i] == r[i] {
      if i < |a| {
        assert (a + b)[i] == a[i];
      } else {
        assert (a + b)[i] == b[i - |a|];
      }
    }
  }

  /** The recent-alerts window of the status report: the last five alerts, or all of them. */
  function LastFive(alerts: seq<LiveAlert>): (r: seq<LiveAlert>)
    ensures |r| == Min(|alerts|, 5)
    ensures r == alerts[|alerts| - |r|..]
  {
    if |alerts| <= 5 then alerts else alerts[|alerts| - 5..]
  }

  /**
   * The alert the live loop raises for one detected type: the table's
   * severity for that type, with the "unreviewed" status.
   */
  function LiveAlertFor(sessionId: string, snapshotId: string, t: AlertType, now: string): (a: LiveAlert)
    ensures a.alertType == t && a.sessionId == sessionId && a.status == "unreviewed"
    ensures a.severity == Critical <==> t == NoFaceDetected || t == MultipleFacesDetected
  {
    LiveAlert(sessionId, snapshotId, t, SeverityOf(t), "unreviewed", now)
  }

  /** The live alert's severity is the one a lookup of the type's name in the table finds. */
  lemma LiveAlertUsesTheTable(sessionId: string, snapshotId: string, t: AlertType, now: string)
    ensures LiveAlertFor(sessionId, snapshotId, t, now).severity == LiveAlertConfigFor(t.Name()).severity
  {
    TableRowOf(t);
  }

  function AlertsFor(sessionId: string, snapshotId: string, violations: seq<AlertType>, now: string): (r: seq<LiveAlert>)
    ensures |r| == |violations|
    ensures forall i :: 0 <= i < |r| ==> r[i] == LiveAlertFor(sessionId, snapshotId, violations[i], now)
  {
    if violations == [] then []
    else
      var last := LiveAlertFor(sessionId, snapshotId, violations[|violations| - 1], now);
      AlertsFor(sessionId, snapshotId, violations[..|violations| - 1], now) + [last]
  }

  lemma AlertsForExtends(sessionId: string, snapshotId: string, violations: seq<AlertType>, i: nat, now: string)
    requires i < |violations|
    ensures AlertsFor(sessionId, snapshotId, violations[..i + 1], now) ==
      AlertsFor(sessionId, snapshotId, violations[..i], now) + [LiveAlertFor(sessionId, snapshotId, violations[i], now)]
  {
    assert violations[..i + 1][..i] == violations[..i];
  }

  /** The escalation decision after a frame with these violations, one alert per violation. */
  function FrameEscalation(s: LiveSession, streak: nat, violations: seq<AlertType>): (r: Option<EscalationReason>)
    ensures violations == [] ==> (r.Some? <==> s.alertsGenerated > CriticalAlertsThreshold)
    ensures NoFaceDetected in violations || MultipleFacesDetected in violations ==> r == Some(CriticalViolationDetected)
  {
    CheckEscalation(NextStreak(streak, violations), s.alertsGenerated + |violations|, violations)
  }

  /** The session record with an escalation decision recorded: unchanged when there is none. */
  function Escalated(s: LiveSession, esc: Option<EscalationReason>, now: string): (s': LiveSession)
    ensures s.Live() ==> s'.Live()
  {
    if esc.Some? then s.(escalation := Some((esc.value, now))) else s
  }

  /** The session record with `n` more alerts and `n` more violations. */
  function AddCounts(s: LiveSession, n: nat): (s': LiveSession)
    ensures s.Live() ==> s'.Live()
  {
    s.(alertsGenerated := s.alertsGenerated + n, violationsDetected := s.violationsDetected + n)
  }

  /** The session record after a frame: any escalation recorded and the counters advanced. */
  function Counted(s: LiveSession, streak: nat, violations: seq<AlertType>, now: string): (s': LiveSession)
    ensures s.Live() ==> s'.Live()
  {
    AddCounts(Escalated(s, FrameEscalation(s, streak, violations), now), |violations|)
  }

  function CacheOf(cache: map<string, seq<LiveAlert>>, sessionId: string): seq<LiveAlert> {
    if sessionId in cache then cache[sessionId] else []
  }

  /** The streak after a frame: one more if the frame had any violation, otherwise back to 0. */
  function NextStreak(streak: nat, violations: seq<AlertType>): (s: nat)
    ensures violations != [] ==> s == streak + 1
    ensures violations == [] ==> s == 0
  {
    if |violations| > 0 then streak + 1 else 0
  }

  /**
   * Every live session has a queue and only live sessions do, no queue is
   * over the bound, every session is still live, and the alert cache
   * belongs to live sessions.
   */
  predicate SessionsOk(active: map<string, LiveSession>, queues: map<string, seq<Frame>>, cache: map<string, seq<LiveAlert>>) {
    queues.Keys == active.Keys &&
    (forall s :: s in queues ==> |queues[s]| <= MaxQueueSize) &&
    (forall s :: s in active ==> active[s].Live()) &&
    cache.Keys <= active.Keys
  }

  /** Replacing a live session by another live record, and its cache entry, keeps the session tables consistent. */
  lemma UpdateLiveSession(active: map<string, LiveSession>, queues: map<string, seq<Frame>>,
                          cache: map<string, seq<LiveAlert>>, sessionId: string, s: LiveSession, alerts: seq<LiveAlert>)
    requires SessionsOk(active, queues, cache) && sessionId in active && s.Live()
    ensures SessionsOk(active[sessionId := s], queues, cache)
    ensures SessionsOk(active[sessionId := s], queues, cache[sessionId := alerts])
  {
  }

  // ---------------------------------------------------------------------------
  // The manager
  // ---------------------------------------------------------------------------

  class Manager {
    var activeSessions: map<string, LiveSession>
    var frameQueues: map<string, seq<Frame>>
    var websocketConnections: map<string, Registry>
    var sessionAlertsCache: map<string, seq<LiveAlert>>
    var proctorConnections: map<string, seq<ConnId>>
    /** The status column of the sessions table. */
    var sessionTable: map<string, string>
    /** Connections whose sends now fail. */
    var closed: set<ConnId>
    /** Every send attempted so far, in order. */
    var outbox: seq<Delivery>

    /**
     * Every live session has a queue and only live sessions do, no queue is
     * over the bound, a live session stays "active" at integrity 1.0 and has
     * as many alerts as violations, the alert cache belongs to live sessions,
     * and a registry holds one connection per user.
     */
    predicate Valid()
      reads this`activeSessions, this`frameQueues, this`sessionAlertsCache, this`websocketConnections
    {
      SessionsValid() && RegistriesValid()
    }

    /** The session, queue and cache part of `Valid`. */
    predicate SessionsValid()
      reads this`activeSessions, this`frameQueues, this`sessionAlertsCache
    {
      SessionsOk(activeSessions, frameQueues, sessionAlertsCache)
    }

    /** The registry part of `Valid`. */
    predicate RegistriesValid()
      reads this`websocketConnections
    {
      forall s :: s in websocketConnections ==> NoDuplicates(Users(websocketConnections[s]))
    }

    constructor ()
      ensures Valid()
      ensures activeSessions == map[] && frameQueues == map[] && websocketConnections == map[]
      ensures sessionAlertsCache == map[] && proctorConnections == map[] && sessionTable == map[]
      ensures closed == {} && outbox == []
    {
      activeSessions := map[];
      frameQueues := map[];
      websocketConnections := map[];
      sessionAlertsCache := map[];
      proctorConnections := map[];
      sessionTable := map[];
      closed := {};
      outbox := [];
    }

    /** The student connections of a session, in registration order. */
    function SessionSinks(sessionId: string): seq<ConnId>
      reads this`websocketConnections
    {
      if sessionId in websocketConnections then Conns(websocketConnections[sessionId]) else []
    }

    /** The proctor connections of a session, in registration order. */
    function ProctorSinks(sessionId: string): seq<ConnId>
      reads this`proctorConnections
    {
      if sessionId in proctorConnections then proctorConnections[sessionId] else []
    }

    /** Starts a live session: a fresh record at integrity 1.0 and an empty queue. */
    method InitializeSession(sessionId: string, userId: string, assessmentId: string, attemptId: string, now: string)
      returns (r: InitResult)
      requires Valid()
      modifies this`activeSessions, this`frameQueues, this`sessionTable
      ensures Valid()
      ensures activeSessions == old(activeSessions)[sessionId :=
        LiveSession(userId, assessmentId, attemptId, "active", now, 0, 0, 0, 100, None)]
      ensures frameQueues == old(frameQueues)[sessionId := []]
      ensures sessionTable == old(sessionTable)[sessionId := "active"]
      ensures r == Initialized(sessionId, CaptureInterval)
    {
      sessionTable := sessionTable[sessionId := "active"];
      activeSessions := activeSessions[sessionId :=
        LiveSession(userId, assessmentId, attemptId, "active", now, 0, 0, 0, 100, None)];
      frameQueues := frameQueues[sessionId := []];
      r := Initialized(sessionId, CaptureInterval);
    }

    /**
     * Queues a frame of a live session, dropping the oldest one when the
     * queue is full, and counts it; an unknown session is an error.
     */
    method ProcessFrame(sessionId: string, frameData: Option<string>, timestamp: Option<string>, frameId: string, now: string)
      returns (r: FrameResult)
      requires Valid()
      modifies this`frameQueues, this`activeSessions
      ensures Valid()
      ensures sessionId !in old(activeSessions) ==>
        r == FrameError("Session not found") &&
        frameQueues == old(frameQueues) && activeSessions == old(activeSessions)
      ensures sessionId in old(activeSessions) ==>
        var s := old(activeSessions)[sessionId];
        var q := EnqueueDropOldest(old(frameQueues)[sessionId], Frame(frameData, FrameTimestamp(timestamp, now), frameId));
        frameQueues == old(frameQueues)[sessionId := q] &&
        activeSessions == old(activeSessions)[sessionId := s.(framesCaptured := s.framesCaptured + 1)] &&
        r == Received(s.framesCaptured + 1, |q|)
    {
      if sessionId !in activeSessions {
        return FrameError("Session not found");
      }
      var q := frameQueues[sessionId];
      if |q| >= MaxQueueSize {
        q := q[1..];
      }
      q := q + [Frame(frameData, FrameTimestamp(timestamp, now), frameId)];
      frameQueues := frameQueues[sessionId := q];
      var s := activeSessions[sessionId];
      activeSessions := activeSessions[sessionId := s.(framesCaptured := s.framesCaptured + 1)];
      r := Received(s.framesCaptured + 1, |q|);
    }

    /** Sends `msg` to every student connection of the session, in turn. */
    method BroadcastToSession(sessionId: string, msg: Message)
      modifies this`outbox
      ensures outbox == old(outbox) + Attempts(sessionId, SessionSinks(sessionId), msg, closed)
    {
      var sinks := SessionSinks(sessionId);
      for i := 0 to |sinks|
        invariant outbox == old(outbox) + Attempts(sessionId, sinks[..i], msg, closed)
      {
        assert sinks[..i + 1][..i] == sinks[..i];
        outbox := outbox + [Delivery(sessionId, sinks[i], msg, sinks[i] !in closed)];
      }
      assert sinks[..|sinks|] == sinks;
    }

    /** Sends `msg` to every proctor connection of the session, in turn. */
    method BroadcastToProctors(sessionId: string, msg: Message)
      modifies this`outbox
      ensures outbox == old(outbox) + Attempts(sessionId, ProctorSinks(sessionId), msg, closed)
    {
      var sinks := ProctorSinks(sessionId);
      for i := 0 to |sinks|
        invariant outbox == old(outbox) + Attempts(sessionId, sinks[..i], msg, closed)
      {
        assert sinks[..i + 1][..i] == sinks[..i];
        outbox := outbox + [Delivery(sessionId, sinks[i], msg, sinks[i] !in closed)];
      }
      assert sinks[..|sinks|] == sinks;
    }

    /** Stores one alert in the session's cache. */
    method CreateViolationAlert(sessionId: string, snapshotId: string, t: AlertType, now: string)
      returns (a: LiveAlert)
      modifies this`sessionAlertsCache
      ensures a == LiveAlertFor(sessionId, snapshotId, t, now)
      ensures sessionAlertsCache == old(sessionAlertsCache)[sessionId := CacheOf(old(sessionAlertsCache), sessionId) + [a]]
    {
      a := LiveAlertFor(sessionId, snapshotId, t, now);
      sessionAlertsCache := sessionAlertsCache[sessionId := CacheOf(sessionAlertsCache, sessionId) + [a]];
    }

    /** The sends an escalation makes: the proctors always, the students too when it is critical. */
    function EscalationDeliveries(sessionId: string, reason: EscalationReason): seq<Delivery>
      reads this`proctorConnections, this`websocketConnections, this`closed
    {
      Attempts(sessionId, ProctorSinks(sessionId), EscalationAlert(reason), closed)
      + (if reason == CriticalViolationDetected
         then Attempts(sessionId, SessionSinks(sessionId), CriticalWarning, closed) else [])
    }

    /** Records the escalation reason and alerts the proctors; a critical reason also warns the students. */
    method EscalateSession(sessionId: string, reason: EscalationReason, now: string)
      requires sessionId in activeSessions
      modifies this`activeSessions, this`outbox
      ensures activeSessions == old(activeSessions)[sessionId := Escalated(old(activeSessions)[sessionId], Some(reason), now)]
      ensures outbox == old(outbox) + EscalationDeliveries(sessionId, reason)
    {
      activeSessions := activeSessions[sessionId := Escalated(activeSessions[sessionId], Some(reason), now)];
      SendEscalation(sessionId, reason);
    }

    /** The escalation alert to every proctor, then, for a critical reason, the warning to every student. */
    method SendEscalation(sessionId: string, reason: EscalationReason)
      modifies this`outbox
      ensures outbox == old(outbox) + EscalationDeliveries(sessionId, reason)
    {
      BroadcastToProctors(sessionId, EscalationAlert(reason));
      if reason == CriticalViolationDetected {
        BroadcastToSession(sessionId, CriticalWarning);
        ConcatAssoc(old(outbox), Attempts(sessionId, ProctorSinks(sessionId), EscalationAlert(reason), closed),
          Attempts(sessionId, SessionSinks(sessionId), CriticalWarning, closed));
      }
    }

    /** Raises one alert per detected type, in order, each stored in the session's cache. */
    method CreateViolationAlerts(sessionId: string, snapshotId: string, violations: seq<AlertType>, now: string)
      returns (alerts: seq<LiveAlert>)
      modifies this`sessionAlertsCache
      ensures alerts == AlertsFor(sessionId, snapshotId, violations, now)
      ensures violations == [] ==> sessionAlertsCache == old(sessionAlertsCache)
      ensures violations != [] ==>
        sessionAlertsCache == old(sessionAlertsCache)[sessionId := CacheOf(old(sessionAlertsCache), sessionId) + alerts]
    {
      alerts := [];
      for i := 0 to |violations|
        invariant alerts == AlertsFor(sessionId, snapshotId, violations[..i], now)
        invariant i == 0 ==> sessionAlertsCache == old(sessionAlertsCache)
        invariant i > 0 ==>
          sessionAlertsCache == old(sessionAlertsCache)[sessionId := CacheOf(old(sessionAlertsCache), sessionId) + alerts]
      {
        assert CacheOf(sessionAlertsCache, sessionId) == CacheOf(old(sessionAlertsCache), sessionId) + alerts;
        var a := CreateViolationAlert(sessionId, snapshotId, violations[i], now);
        AlertsForExtends(sessionId, snapshotId, violations, i, now);
        ConcatAssoc(CacheOf(old(sessionAlertsCache), sessionId), alerts, [a]);
        alerts := alerts + [a];
      }
      assert violations[..|violations|] == violations;
    }

    /** The sends of an escalation decision: none when there is none. */
    function EscalationDeliveriesIf(sessionId: string, esc: Option<EscalationReason>): seq<Delivery>
      reads this`proctorConnections, this`websocketConnections, this`closed
    {
      if esc.Some? then EscalationDeliveries(sessionId, esc.value) else []
    }

    /** The sends of one analysed frame after the escalation: the alerts to the proctors, then the status to the students. */
    function ReportDeliveries(sessionId: string, violations: nat, alerts: seq<LiveAlert>, integrityScore: int): seq<Delivery>
      reads this`proctorConnections, this`websocketConnections, this`closed
    {
      (if |alerts| > 0 then Attempts(sessionId, ProctorSinks(sessionId), LiveAlerts(alerts), closed) else [])
      + Attempts(sessionId, SessionSinks(sessionId), StatusUpdate(violations, |alerts|, integrityScore), closed)
    }

    /** Tells the proctors about the new alerts, if any, then sends the status to the students. */
    method ReportFrame(sessionId: string, violations: nat, alerts: seq<LiveAlert>, integrityScore: int)
      modifies this`outbox
      ensures outbox == old(outbox) + ReportDeliveries(sessionId, violations, alerts, integrityScore)
    {
      if |alerts| > 0 {
        BroadcastToProctors(sessionId, LiveAlerts(alerts));
      }
      BroadcastToSession(sessionId, StatusUpdate(violations, |alerts|, integrityScore));
    }

    /** Adds one frame's alerts and violations (as many of each) to the session's counters. */
    method CountFrame(sessionId: string, n: nat)
      requires sessionId in activeSessions
      modifies this`activeSessions
      ensures activeSessions == old(activeSessions)[sessionId := AddCounts(old(activeSessions)[sessionId], n)]
    {
      activeSessions := activeSessions[sessionId := AddCounts(activeSessions[sessionId], n)];
    }

    /** Raises the frame's alerts, then decides on an escalation and carries it out. */
    method RaiseAlerts(sessionId: string, streak: nat, violations: seq<AlertType>, snapshotId: string, now: string)
      returns (alerts: seq<LiveAlert>, esc: Option<EscalationReason>)
      requires sessionId in activeSessions
      modifies this`activeSessions, this`sessionAlertsCache, this`outbox
      ensures alerts == AlertsFor(sessionId, snapshotId, violations, now)
      ensures esc == FrameEscalation(old(activeSessions)[sessionId], streak, violations)
      ensures activeSessions == old(activeSessions)[sessionId := Escalated(old(activeSessions)[sessionId], esc, now)]
      ensures violations == [] ==> sessionAlertsCache == old(sessionAlertsCache)
      ensures violations != [] ==>
        sessionAlertsCache == old(sessionAlertsCache)[sessionId := CacheOf(old(sessionAlertsCache), sessionId) + alerts]
      ensures outbox == old(outbox) + EscalationDeliveriesIf(sessionId, esc)
    {
      alerts := CreateViolationAlerts(sessionId, snapshotId, violations, now);
      var s := activeSessions[sessionId];
      esc := CheckEscalation(NextStreak(streak, violations), s.alertsGenerated + |alerts|, violations);
      if esc.Some? {
        EscalateSession(sessionId, esc.value, now);
      }
    }

    /** Reports the frame, then advances the session's counters by its alerts. */
    method FinishFrame(sessionId: string, violations: nat, alerts: seq<LiveAlert>, integrityScore: int)
      requires sessionId in activeSessions
      modifies this`activeSessions, this`outbox
      ensures outbox == old(outbox) + ReportDeliveries(sessionId, violations, alerts, integrityScore)
      ensures activeSessions == old(activeSessions)[sessionId := AddCounts(old(activeSessions)[sessionId], |alerts|)]
    {
      ReportFrame(sessionId, violations, alerts, integrityScore);
      CountFrame(sessionId, |alerts|);
    }

    /**
     * The part of a loop pass after the frame's violations are known: the
     * alerts, the streak, the escalation decision, the broadcasts and the
     * counters.
     */
    method HandleViolations(sessionId: string, streak: nat, violations: seq<AlertType>, snapshotId: string, now: string)
      returns (streak': nat, outcome: CycleOutcome)
      requires sessionId in activeSessions
      modifies this`activeSessions, this`sessionAlertsCache, this`outbox
      ensures streak' == NextStreak(streak, violations)
      ensures outcome == Analysed(violations, |violations|, FrameEscalation(old(activeSessions)[sessionId], streak, violations))
      ensures activeSessions == old(activeSessions)[sessionId :=
        Counted(old(activeSessions)[sessionId], streak, violations, now)]
      ensures violations == [] ==> sessionAlertsCache == old(sessionAlertsCache)
      ensures violations != [] ==>
        sessionAlertsCache == old(sessionAlertsCache)[sessionId :=
          CacheOf(old(sessionAlertsCache), sessionId) + AlertsFor(sessionId, snapshotId, violations, now)]
      ensures outbox == old(outbox)
        + EscalationDeliveriesIf(sessionId, FrameEscalation(old(activeSessions)[sessionId], streak, violations))
        + ReportDeliveries(sessionId, |violations|, AlertsFor(sessionId, snapshotId, violations, now),
            old(activeSessions)[sessionId].integrityScore)
    {
      var s := activeSessions[sessionId];
      var alerts, esc := RaiseAlerts(sessionId, streak, violations, snapshotId, now);
      ghost var escalated := outbox;
      streak' := NextStreak(streak, violations);
      FinishFrame(sessionId, |violations|, alerts, s.integrityScore);
      outcome := Analysed(violations, |alerts|, esc);
      assert outbox == escalated + ReportDeliveries(sessionId, |violations|, alerts, s.integrityScore);
    }

    /**
     * One pass of the analysis loop for a session, with the judgment of the
     * next frame (None when the analysis raised). The loop has ended once
     * the session is gone; an empty queue is the 30-second timeout.
     */
    method AnalyzeNextFrame(sessionId: string, streak: nat, judgment: Option<Judgment>, snapshotId: string, now: string)
      returns (streak': nat, outcome: CycleOutcome)
      requires Valid()
      modifies this`activeSessions, this`frameQueues, this`sessionAlertsCache, this`outbox
      ensures Valid()
      ensures sessionId !in old(activeSessions) ==>
        outcome == LoopEnded && streak' == streak &&
        activeSessions == old(activeSessions) && frameQueues == old(frameQueues) &&
        sessionAlertsCache == old(sessionAlertsCache) && outbox == old(outbox)
      ensures sessionId in old(activeSessions) && old(frameQueues)[sessionId] == [] ==>
        outcome == TimedOut && streak' == streak &&
        activeSessions == old(activeSessions) && frameQueues == old(frameQueues) &&
        sessionAlertsCache == old(sessionAlertsCache) &&
        outbox == old(outbox) + Attempts(sessionId, SessionSinks(sessionId), TimeoutWarning, closed)
      ensures sessionId in old(activeSessions) && old(frameQueues)[sessionId] != [] ==>
        frameQueues == old(frameQueues)[sessionId := old(frameQueues)[sessionId][1..]]
      ensures sessionId in old(activeSessions) && old(frameQueues)[sessionId] != [] && judgment.None? ==>
        outcome == AnalysisFailed && streak' == streak &&
        activeSessions == old(activeSessions) && sessionAlertsCache == old(sessionAlertsCache) &&
        outbox == old(outbox)
      ensures sessionId in old(activeSessions) && old(frameQueues)[sessionId] != [] && judgment.Some? ==>
        var violations := DetectViolationsFromAnalysis(judgment.value);
        var s := old(activeSessions)[sessionId];
        streak' == NextStreak(streak, violations) &&
        outcome == Analysed(violations, |violations|, FrameEscalation(s, streak, violations)) &&
        activeSessions == old(activeSessions)[sessionId := Counted(s, streak, violations, now)] &&
        CacheOf(sessionAlertsCache, sessionId) ==
          CacheOf(old(sessionAlertsCache), sessionId) + AlertsFor(sessionId, snapshotId, violations, now) &&
        (violations == [] ==> sessionAlertsCache == old(sessionAlertsCache)) &&
        (violations != [] ==> sessionAlertsCache == old(sessionAlertsCache)[sessionId :=
          CacheOf(old(sessionAlertsCache), sessionId) + AlertsFor(sessionId, snapshotId, violations, now)]) &&
        outbox == old(outbox) + EscalationDeliveriesIf(sessionId, FrameEscalation(s, streak, violations))
          + ReportDeliveries(sessionId, |violations|, AlertsFor(sessionId, snapshotId, violations, now), s.integrityScore)
    {
      if sessionId !in activeSessions {
        return streak, LoopEnded;
      }
      var queue := frameQueues[sessionId];
      if queue == [] {
        BroadcastToSession(sessionId, TimeoutWarning);
        return streak, TimedOut;
      }
      frameQueues := frameQueues[sessionId := queue[1..]];
      if judgment.None? {
        return streak, AnalysisFailed;
      }
      streak', outcome := AnalyseFrame(sessionId, streak, DetectViolationsFromAnalysis(judgment.value), snapshotId, now);
    }

    /** Handles the violations found in one frame of a live session, keeping the session tables consistent. */
    method AnalyseFrame(sessionId: string, streak: nat, violations: seq<AlertType>, snapshotId: string, now: string)
      returns (streak': nat, outcome: CycleOutcome)
      requires Valid() && sessionId in activeSessions
      modifies this`activeSessions, this`sessionAlertsCache, this`outbox
      ensures Valid()
      ensures streak' == NextStreak(streak, violations)
      ensures outcome == Analysed(violations, |violations|, FrameEscalation(old(activeSessions)[sessionId], streak, violations))
      ensures activeSessions == old(activeSessions)[sessionId :=
        Counted(old(activeSessions)[sessionId], streak, violations, now)]
      ensures CacheOf(sessionAlertsCache, sessionId) ==
        CacheOf(old(sessionAlertsCache), sessionId) + AlertsFor(sessionId, snapshotId, violations, now)
      ensures violations == [] ==> sessionAlertsCache == old(sessionAlertsCache)
      ensures violations != [] ==>
        sessionAlertsCache == old(sessionAlertsCache)[sessionId :=
          CacheOf(old(sessionAlertsCache), sessionId) + AlertsFor(sessionId, snapshotId, violations, now)]
      ensures outbox == old(outbox)
        + EscalationDeliveriesIf(sessionId, FrameEscalation(old(activeSessions)[sessionId], streak, violations))
        + ReportDeliveries(sessionId, |violations|, AlertsFor(sessionId, snapshotId, violations, now),
            old(activeSessions)[sessionId].integrityScore)
    {
      ghost var active, cache := activeSessions, sessionAlertsCache;
      streak', outcome := HandleViolations(sessionId, streak, violations, snapshotId, now);
      UpdateLiveSession(active, frameQueues, cache, sessionId, activeSessions[sessionId],
        CacheOf(cache, sessionId) + AlertsFor(sessionId, snapshotId, violations, now));
    }

    /**
     * Ends a live session: stores the final status, tells the students, and
     * forgets every per-session entry; an unknown session is an error.
     */
    method EndSession(sessionId: string, reason: string, now: string) returns (r: EndResult)
      requires Valid()
      modifies this
      ensures Valid()
      ensures closed == old(closed)
      ensures sessionId !in old(activeSessions) ==>
        r == EndError("Session not found") &&
        activeSessions == old(activeSessions) && frameQueues == old(frameQueues) &&
        websocketConnections == old(websocketConnections) && sessionAlertsCache == old(sessionAlertsCache) &&
        proctorConnections == old(proctorConnections) && sessionTable == old(sessionTable) && outbox == old(outbox)
      ensures sessionId in old(activeSessions) ==>
        var s := old(activeSessions)[sessionId];
        r == Ended(sessionId, reason, s.framesCaptured, s.alertsGenerated) &&
        sessionTable == old(sessionTable)[sessionId := reason] &&
        outbox == old(outbox) + Attempts(sessionId, old(SessionSinks(sessionId)), SessionEnded(reason), closed) &&
        activeSessions == old(activeSessions) - {sessionId} &&
        frameQueues == old(frameQueues) - {sessionId} &&
        websocketConnections == old(websocketConnections) - {sessionId} &&
        sessionAlertsCache == old(sessionAlertsCache) - {sessionId} &&
        proctorConnections == old(proctorConnections) - {sessionId}
      ensures sessionId !in activeSessions && sessionId !in frameQueues
    {
      if sessionId !in activeSessions {
        return EndError("Session not found");
      }
      var s := activeSessions[sessionId];
      sessionTable := sessionTable[sessionId := reason];
      BroadcastToSession(sessionId, SessionEnded(reason));
      ForgetSession(sessionId);
      r := Ended(sessionId, reason, s.framesCaptured, s.alertsGenerated);
    }

    /** Drops the session from the live record, the queues, both connection maps and the alert cache. */
    method ForgetSession(sessionId: string)
      requires Valid()
      modifies this`activeSessions, this`frameQueues, this`websocketConnections, this`proctorConnections,
        this`sessionAlertsCache
      ensures Valid()
      ensures activeSessions == old(activeSessions) - {sessionId}
      ensures frameQueues == old(frameQueues) - {sessionId}
      ensures websocketConnections == old(websocketConnections) - {sessionId}
      ensures proctorConnections == old(proctorConnections) - {sessionId}
      ensures sessionAlertsCache == old(sessionAlertsCache) - {sessionId}
    {
      activeSessions := activeSessions - {sessionId};
      frameQueues := frameQueues - {sessionId};
      websocketConnections := websocketConnections - {sessionId};
      proctorConnections := proctorConnections - {sessionId};
      sessionAlertsCache := sessionAlertsCache - {sessionId};
    }

    /** Registers a student connection under its user id (a second one replaces the first). */
    method RegisterWebsocket(sessionId: string, userId: string, conn: ConnId)
      requires Valid()
      modifies this`websocketConnections
      ensures Valid()
      ensures sessionId in websocketConnections
      ensures websocketConnections == old(websocketConnections)[sessionId :=
        Put(if sessionId in old(websocketConnections) then old(websocketConnections)[sessionId] else [], userId, conn)]
      ensures (userId, conn) in websocketConnections[sessionId]
    {
      var r := if sessionId in websocketConnections then websocketConnections[sessionId] else [];
      PutKeepsUsersDistinct(r, userId, conn);
      websocketConnections := websocketConnections[sessionId := Put(r, userId, conn)];
    }

    /** Forgets a user's student connection; the other users keep their order. */
    method UnregisterWebsocket(sessionId: string, userId: string)
      requires Valid()
      modifies this`websocketConnections
      ensures Valid()
      ensures sessionId !in old(websocketConnections) ==> websocketConnections == old(websocketConnections)
      ensures sessionId in old(websocketConnections) ==>
        websocketConnections == old(websocketConnections)[sessionId := Remove(old(websocketConnections)[sessionId], userId)] &&
        userId !in Users(websocketConnections[sessionId])
    {
      if sessionId in websocketConnections {
        var r := Remove(websocketConnections[sessionId], userId);
        assert NoDuplicates(Users(r)) by {
          RemoveKeepsUsersDistinct(websocketConnections[sessionId], userId);
        }
        websocketConnections := websocketConnections[sessionId := r];
      }
    }

    /** Adds a proctor connection at the end of the session's list. */
    method RegisterProctorWebsocket(sessionId: string, conn: ConnId)
      modifies this`proctorConnections
      ensures proctorConnections == old(proctorConnections)[sessionId := old(ProctorSinks(sessionId)) + [conn]]
      ensures ProctorSinks(sessionId) == old(ProctorSinks(sessionId)) + [conn]
    {
      proctorConnections := proctorConnections[sessionId := ProctorSinks(sessionId) + [conn]];
    }

    /** The status report of a live session, with its last five alerts. */
    function GetSessionStatus(sessionId: string): (r: StatusResult)
      reads this`activeSessions, this`sessionAlertsCache
      ensures sessionId !in activeSessions <==> r == StatusError("Session not found")
      ensures r.Status? ==>
        var s := activeSessions[sessionId];
        r.sessionId == sessionId &&
        r.framesCaptured == s.framesCaptured && r.alertsGenerated == s.alertsGenerated &&
        r.violationsDetected == s.violationsDetected &&
        r.status == s.status && r.integrityScore == s.integrityScore &&
        |r.recentAlerts| == Min(|CacheOf(sessionAlertsCache, sessionId)|, 5) &&
        r.recentAlerts == CacheOf(sessionAlertsCache, sessionId)[|CacheOf(sessionAlertsCache, sessionId)| - |r.recentAlerts|..]
    {
      if sessionId !in activeSessions then StatusError("Session not found")
      else
        var s := activeSessions[sessionId];
        Status(sessionId, s.status, s.framesCaptured, s.alertsGenerated, s.violationsDetected,
          s.integrityScore, LastFive(CacheOf(sessionAlertsCache, sessionId)))
    }

    /** A client goes away: later sends to this connection fail. */
    method CloseConnection(conn: ConnId)
      modifies this`closed
      ensures closed == old(closed) + {conn}
    {
      closed := closed + {conn};
    }
  }

  lemma {:induction false} RemoveKeepsUsersDistinct(r: Registry, user: string)
    requires NoDuplicates(Users(r))
    ensures NoDuplicates(Users(Remove(r, user)))
  {
    var r' := Remove(r, user);
    SubsequenceUsers(r', r);
    SubsequenceNoDuplicates(Users(r'), Users(r));
  }

  lemma {:induction false} SubsequenceUsers(a: Registry, b: Registry)
    requires Subsequence(a, b)
    ensures Subsequence(Users(a), Users(b))
    decreases |b|
  {
    if a != [] {
      assert b != [];
      assert Users(b)[0] == b[0].0 && Users(b)[1..] == Users(b[1..]);
      assert Users(a)[0] == a[0].0 && Users(a)[1..] == Users(a[1..]);
      if a[0] == b[0] {
        SubsequenceUsers(a[1..], b[1..]);
      } else {
        SubsequenceUsers(a, b[1..]);
        SubsequenceCons(Users(a), b[0].0, Users(b[1..]));
        assert [b[0].0] + Users(b[1..]) == Users(b);
      }
    }
  }
}
