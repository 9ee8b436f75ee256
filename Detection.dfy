// The pure decision logic of the proctoring service: the two copies of the
// violation rule table, the integrity-score penalty fold, the per-type
// violation aggregates, the escalation decision and the review
// recommendations. Scores are in hundredths (1.0 is 100).

module Detection {
  import opened Common
  import opened AlertCatalog

  // ---------------------------------------------------------------------------
  // Judgments and the rule table
  // ---------------------------------------------------------------------------

  /** The boolean judgments the rule table reads; a missing key reads as false. */
  datatype Flags = Flags(
    phoneDetected: bool,
    tabletDetected: bool,
    readingFromPaper: bool,
    otherScreensVisible: bool,
    headTiltedAway: bool,
    lookingDown: bool,
    suspiciousHandGesture: bool,
    objectInMouth: bool,
    unusualBodyPosition: bool,
    extremeHeadAngle: bool,
    brightLightGlare: bool,
    darkLighting: bool)

  const NoFlags := Flags(false, false, false, false, false, false, false, false, false, false, false, false)

  /** A snapshot row as the snapshot path stores it (its face count defaults to 1 when the judgment omits it). */
  datatype Snapshot = Snapshot(facesDetected: int, flags: Flags)

  /** The judgment the live loop reads: the face count key may be missing. */
  datatype Judgment = Judgment(facesDetected: Option<int>, flags: Flags)

  /** The order in which the snapshot rules are tried. */
  const RuleOrder: seq<AlertType> := [NoFaceDetected, MultipleFacesDetected, UnauthorizedObjectDetected,
    ReadingFromPaper, TabSwitchingDetected, EyeGazeAway, SuspiciousGesture, ExcessiveHeadMovement,
    LightingChangeDetected]

  /** The face-count rule: none at 0, too many above 1. */
  function FaceRule(faces: int): seq<AlertType> {
    if faces == 0 then [NoFaceDetected] else if faces > 1 then [MultipleFacesDetected] else []
  }

  /** The violation types of one stored snapshot, in rule order. */
  function DetectViolations(s: Snapshot): (r: seq<AlertType>)
    ensures |r| <= 8
  {
    var f := s.flags;
    FaceRule(s.facesDetected)
    + When(f.phoneDetected || f.tabletDetected, UnauthorizedObjectDetected)
    + When(f.readingFromPaper, ReadingFromPaper)
    + When(f.otherScreensVisible, TabSwitchingDetected)
    + When(f.headTiltedAway || f.lookingDown, EyeGazeAway)
    + When(f.suspiciousHandGesture || f.objectInMouth, SuspiciousGesture)
    + When(f.unusualBodyPosition || f.extremeHeadAngle, ExcessiveHeadMovement)
    + When(f.brightLightGlare || f.darkLighting, LightingChangeDetected)
  }

  /** The live-stream copy of the rules: no lighting rule, and a missing face count reads as 0. */
  function DetectViolationsFromAnalysis(j: Judgment): (r: seq<AlertType>)
    ensures |r| <= 7
  {
    var f := j.flags;
    FaceRule(j.facesDetected.GetOr(0))
    + When(f.phoneDetected || f.tabletDetected, UnauthorizedObjectDetected)
    + When(f.readingFromPaper, ReadingFromPaper)
    + When(f.otherScreensVisible, TabSwitchingDetected)
    + When(f.headTiltedAway || f.lookingDown, EyeGazeAway)
    + When(f.suspiciousHandGesture || f.objectInMouth, SuspiciousGesture)
    + When(f.unusualBodyPosition || f.extremeHeadAngle, ExcessiveHeadMovement)
  }

  /** Whether the rule for `t` fires on face count `faces` and flags `f` (the reference definition). */
  predicate Fires(t: AlertType, faces: int, f: Flags) {
    match t
    case NoFaceDetected => faces == 0
    case MultipleFacesDetected => faces > 1
    case UnauthorizedObjectDetected => f.phoneDetected || f.tabletDetected
    case ReadingFromPaper => f.readingFromPaper
    case TabSwitchingDetected => f.otherScreensVisible
    case EyeGazeAway => f.headTiltedAway || f.lookingDown
    case SuspiciousGesture => f.suspiciousHandGesture || f.objectInMouth
    case ExcessiveHeadMovement => f.unusualBodyPosition || f.extremeHeadAngle
    case LightingChangeDetected => f.brightLightGlare || f.darkLighting
    case EnvironmentalChange => false
    case AudioAnomaly => false
    case TimeoutNoMovement => false
    case PostureAnomaly => false
  }

  /** The rules both detectors share, in their common order. */
  function SharedRules(faces: int, f: Flags): seq<AlertType> {
    FaceRule(faces)
    + When(f.phoneDetected || f.tabletDetected, UnauthorizedObjectDetected)
    + When(f.readingFromPaper, ReadingFromPaper)
    + When(f.otherScreensVisible, TabSwitchingDetected)
    + When(f.headTiltedAway || f.lookingDown, EyeGazeAway)
    + When(f.suspiciousHandGesture || f.objectInMouth, SuspiciousGesture)
    + When(f.unusualBodyPosition || f.extremeHeadAngle, ExcessiveHeadMovement)
  }

  lemma InWhenAppend(p: seq<AlertType>, c: bool, x: AlertType, t: AlertType)
    ensures t in p + When(c, x) <==> t in p || (c && t == x)
  {
  }

  lemma SharedRulesMembers(faces: int, f: Flags, t: AlertType)
    ensures t in SharedRules(faces, f) <==> (t in FaceRule(faces)
      || (t == UnauthorizedObjectDetected && (f.phoneDetected || f.tabletDetected))
      || (t == ReadingFromPaper && f.readingFromPaper)
      || (t == TabSwitchingDetected && f.otherScreensVisible)
      || (t == EyeGazeAway && (f.headTiltedAway || f.lookingDown))
      || (t == SuspiciousGesture && (f.suspiciousHandGesture || f.objectInMouth))
      || (t == ExcessiveHeadMovement && (f.unusualBodyPosition || f.extremeHeadAngle)))
  {
    var p0 := FaceRule(faces);
    var p1 := p0 + When(f.phoneDetected || f.tabletDetected, UnauthorizedObjectDetected);
    InWhenAppend(p0, f.phoneDetected || f.tabletDetected, UnauthorizedObjectDetected, t);
    var p2 := p1 + When(f.readingFromPaper, ReadingFromPaper);
    InWhenAppend(p1, f.readingFromPaper, ReadingFromPaper, t);
    var p3 := p2 + When(f.otherScreensVisible, TabSwitchingDetected);
    InWhenAppend(p2, f.otherScreensVisible, TabSwitchingDetected, t);
    var p4 := p3 + When(f.headTiltedAway || f.lookingDown, EyeGazeAway);
    InWhenAppend(p3, f.headTiltedAway || f.lookingDown, EyeGazeAway, t);
    var p5 := p4 + When(f.suspiciousHandGesture || f.objectInMouth, SuspiciousGesture);
    InWhenAppend(p4, f.suspiciousHandGesture || f.objectInMouth, SuspiciousGesture, t);
    InWhenAppend(p5, f.unusualBodyPosition || f.extremeHeadAngle, ExcessiveHeadMovement, t);
    assert SharedRules(faces, f) == p5 + When(f.unusualBodyPosition || f.extremeHeadAngle, ExcessiveHeadMovement);
  }

  /** The snapshot detector's output, rule by rule. */
  lemma DetectViolationsMembers(s: Snapshot, t: AlertType)
    ensures t in DetectViolations(s) <==> (t in FaceRule(s.facesDetected)
      || (t == UnauthorizedObjectDetected && (s.flags.phoneDetected || s.flags.tabletDetected))
      || (t == ReadingFromPaper && s.flags.readingFromPaper)
      || (t == TabSwitchingDetected && s.flags.otherScreensVisible)
      || (t == EyeGazeAway && (s.flags.headTiltedAway || s.flags.lookingDown))
      || (t == SuspiciousGesture && (s.flags.suspiciousHandGesture || s.flags.objectInMouth))
      || (t == ExcessiveHeadMovement && (s.flags.unusualBodyPosition || s.flags.extremeHeadAngle))
      || (t == LightingChangeDetected && (s.flags.brightLightGlare || s.flags.darkLighting)))
  {
    var f := s.flags;
    assert DetectViolations(s) ==
      SharedRules(s.facesDetected, f) + When(f.brightLightGlare || f.darkLighting, LightingChangeDetected);
    SharedRulesMembers(s.facesDetected, f, t);
    InWhenAppend(SharedRules(s.facesDetected, f), f.brightLightGlare || f.darkLighting, LightingChangeDetected, t);
  }

  /** A type is reported exactly when its rule fires. */
  lemma DetectViolationsRules(s: Snapshot, t: AlertType)
    ensures t in DetectViolations(s) <==> Fires(t, s.facesDetected, s.flags)
  {
    DetectViolationsMembers(s, t);
  }

  /** The live detector reports a type exactly when its rule fires, and never the lighting type. */
  lemma DetectViolationsFromAnalysisRules(j: Judgment, t: AlertType)
    ensures t in DetectViolationsFromAnalysis(j) <==>
      t != LightingChangeDetected && Fires(t, j.facesDetected.GetOr(0), j.flags)
  {
    assert DetectViolationsFromAnalysis(j) == SharedRules(j.facesDetected.GetOr(0), j.flags);
    SharedRulesMembers(j.facesDetected.GetOr(0), j.flags, t);
  }

  /** The face-count rules: no face exactly at 0, multiple faces exactly above 1, never both. */
  lemma FaceCountRules(s: Snapshot)
    ensures NoFaceDetected in DetectViolations(s) <==> s.facesDetected == 0
    ensures MultipleFacesDetected in DetectViolations(s) <==> s.facesDetected > 1
    ensures !(NoFaceDetected in DetectViolations(s) && MultipleFacesDetected in DetectViolations(s))
  {
    DetectViolationsRules(s, NoFaceDetected);
    DetectViolationsRules(s, MultipleFacesDetected);
  }

  lemma {:induction false} FaceRuleSubsequence(faces: int)
    ensures Subsequence(FaceRule(faces), [NoFaceDetected, MultipleFacesDetected])
  {
    var order := [NoFaceDetected, MultipleFacesDetected];
    if faces == 0 {
      assert FaceRule(faces)[1..] == [];
    } else if faces > 1 {
      assert order[1..] == [MultipleFacesDetected];
      assert FaceRule(faces)[1..] == [];
      assert order[1..][1..] == [];
    }
  }

  /** Appends one optional rule to a prefix known to be a subsequence of `order`. */
  lemma {:induction false} StepSubsequence(acc: seq<AlertType>, order: seq<AlertType>, c: bool, t: AlertType)
    requires Subsequence(acc, order)
    ensures Subsequence(acc + When(c, t), order + [t])
  {
    WhenSubsequence(c, t);
    SubsequenceConcat(acc, order, When(c, t), [t]);
  }

  lemma RuleOrderHasNoDuplicates()
    ensures NoDuplicates(RuleOrder)
  {
  }

  /** The first four rules keep their relative order. */
  lemma {:induction false} FirstRulesInOrder(faces: int, f: Flags)
    ensures Subsequence(FaceRule(faces)
      + When(f.phoneDetected || f.tabletDetected, UnauthorizedObjectDetected)
      + When(f.readingFromPaper, ReadingFromPaper)
      + When(f.otherScreensVisible, TabSwitchingDetected),
      [NoFaceDetected, MultipleFacesDetected, UnauthorizedObjectDetected, ReadingFromPaper, TabSwitchingDetected])
  {
    var acc0 := FaceRule(faces);
    var ord0 := [NoFaceDetected, MultipleFacesDetected];
    FaceRuleSubsequence(faces);
    var acc1 := acc0 + When(f.phoneDetected || f.tabletDetected, UnauthorizedObjectDetected);
    var ord1 := ord0 + [UnauthorizedObjectDetected];
    StepSubsequence(acc0, ord0, f.phoneDetected || f.tabletDetected, UnauthorizedObjectDetected);
    var acc2 := acc1 + When(f.readingFromPaper, ReadingFromPaper);
    var ord2 := ord1 + [ReadingFromPaper];
    StepSubsequence(acc1, ord1, f.readingFromPaper, ReadingFromPaper);
    StepSubsequence(acc2, ord2, f.otherScreensVisible, TabSwitchingDetected);
    assert ord2 + [TabSwitchingDetected] ==
      [NoFaceDetected, MultipleFacesDetected, UnauthorizedObjectDetected, ReadingFromPaper, TabSwitchingDetected];
  }

  /** The last four rules keep their relative order after any prefix that does. */
  lemma {:induction false} LastRulesInOrder(acc: seq<AlertType>, order: seq<AlertType>, f: Flags)
    requires Subsequence(acc, order)
    ensures Subsequence(acc
      + When(f.headTiltedAway || f.lookingDown, EyeGazeAway)
      + When(f.suspiciousHandGesture || f.objectInMouth, SuspiciousGesture)
      + When(f.unusualBodyPosition || f.extremeHeadAngle, ExcessiveHeadMovement)
      + When(f.brightLightGlare || f.darkLighting, LightingChangeDetected),
      order + [EyeGazeAway, SuspiciousGesture, ExcessiveHeadMovement, LightingChangeDetected])
  {
    var acc5 := acc + When(f.headTiltedAway || f.lookingDown, EyeGazeAway)
      + When(f.suspiciousHandGesture || f.objectInMouth, SuspiciousGesture);
    var ord5 := order + [EyeGazeAway, SuspiciousGesture];
    TwoStepsInOrder(acc, order, f.headTiltedAway || f.lookingDown, EyeGazeAway,
      f.suspiciousHandGesture || f.objectInMouth, SuspiciousGesture);
    TwoStepsInOrder(acc5, ord5, f.unusualBodyPosition || f.extremeHeadAngle, ExcessiveHeadMovement,
      f.brightLightGlare || f.darkLighting, LightingChangeDetected);
    assert ord5 + [ExcessiveHeadMovement, LightingChangeDetected] ==
      order + [EyeGazeAway, SuspiciousGesture, ExcessiveHeadMovement, LightingChangeDetected];
  }

  /** Two optional rules in a row keep their relative order after any prefix that does. */
  lemma {:induction false} TwoStepsInOrder(acc: seq<AlertType>, order: seq<AlertType>,
                                           c1: bool, t1: AlertType, c2: bool, t2: AlertType)
    requires Subsequence(acc, order)
    ensures Subsequence(acc + When(c1, t1) + When(c2, t2), order + [t1, t2])
  {
    StepSubsequence(acc, order, c1, t1);
    StepSubsequence(acc + When(c1, t1), order + [t1], c2, t2);
    assert order + [t1] + [t2] == order + [t1, t2];
  }

  /**
   * The snapshot detector reports types in rule order: its output is the
   * rule list with the rules that did not fire deleted.
   */
  lemma {:induction false} DetectViolationsInRuleOrder(s: Snapshot)
    ensures Subsequence(DetectViolations(s), RuleOrder)
  {
    var f := s.flags;
    var acc3 := FaceRule(s.facesDetected)
      + When(f.phoneDetected || f.tabletDetected, UnauthorizedObjectDetected)
      + When(f.readingFromPaper, ReadingFromPaper)
      + When(f.otherScreensVisible, TabSwitchingDetected);
    var ord3 := [NoFaceDetected, MultipleFacesDetected, UnauthorizedObjectDetected, ReadingFromPaper, TabSwitchingDetected];
    FirstRulesInOrder(s.facesDetected, f);
    LastRulesInOrder(acc3, ord3, f);
    assert ord3 + [EyeGazeAway, SuspiciousGesture, ExcessiveHeadMovement, LightingChangeDetected] == RuleOrder;
  }

  /** The snapshot detector reports each type at most once. */
  lemma DetectViolationsNoDuplicates(s: Snapshot)
    ensures NoDuplicates(DetectViolations(s))
  {
    DetectViolationsInRuleOrder(s);
    RuleOrderHasNoDuplicates();
    SubsequenceNoDuplicates(DetectViolations(s), RuleOrder);
  }

  /**
   * The live-stream detector is the snapshot detector with the lighting
   * judgments cleared and a missing face count read as 0.
   */
  lemma LiveDetectorMatchesSnapshotDetector(j: Judgment)
    ensures DetectViolationsFromAnalysis(j) ==
      DetectViolations(Snapshot(j.facesDetected.GetOr(0),
        j.flags.(brightLightGlare := false, darkLighting := false)))
  {
  }

  // ---------------------------------------------------------------------------
  // Alerts and the violation aggregates
  // ---------------------------------------------------------------------------

  /** An aggregate row of the violation table, one per (session, type). */
  datatype ViolationRecord = ViolationRecord(
    severity: string,
    firstOccurrence: string,
    lastOccurrence: string,
    totalCount: nat,
    consecutiveCount: nat)

  type ViolationTable = map<(string, string), ViolationRecord>

  /** Create-or-update of the aggregate for (`sessionId`, `violationType`) at time `now`. */
  function RecordViolation(t: ViolationTable, sessionId: string, violationType: string, now: string): (t': ViolationTable)
    ensures t'.Keys == t.Keys + {(sessionId, violationType)}
    ensures forall k :: k in t && k != (sessionId, violationType) ==> t'[k] == t[k]
    ensures (sessionId, violationType) !in t ==>
      t'[(sessionId, violationType)] ==
        ViolationRecord(LiveAlertConfigFor(violationType).severity.Name(), now, now, 1, 1)
    ensures (sessionId, violationType) in t ==>
      var old_ := t[(sessionId, violationType)];
      var new_ := t'[(sessionId, violationType)];
      new_.totalCount == old_.totalCount + 1 &&
      new_.consecutiveCount == old_.consecutiveCount + 1 &&
      new_.lastOccurrence == now &&
      new_.firstOccurrence == old_.firstOccurrence && new_.severity == old_.severity
  {
    var key := (sessionId, violationType);
    if key in t then
      var v := t[key];
      t[key := v.(lastOccurrence := now, totalCount := v.totalCount + 1,
                  consecutiveCount := v.consecutiveCount + 1)]
    else
      t[key := ViolationRecord(LiveAlertConfigFor(violationType).severity.Name(), now, now, 1, 1)]
  }

  /** Records every (type, time) occurrence of one session in turn. */
  function RecordAll(t: ViolationTable, sessionId: string, occurrences: seq<(string, string)>): ViolationTable
  {
    if occurrences == [] then t
    else
      var last := occurrences[|occurrences| - 1];
      RecordViolation(RecordAll(t, sessionId, occurrences[..|occurrences| - 1]), sessionId, last.0, last.1)
  }

  function Types(occurrences: seq<(string, string)>): (ts: seq<string>)
    ensures |ts| == |occurrences|
    ensures forall i :: 0 <= i < |ts| ==> ts[i] == occurrences[i].0
  {
    if occurrences == [] then [] else Types(occurrences[..|occurrences| - 1]) + [occurrences[|occurrences| - 1].0]
  }

  /** Nothing ever resets the consecutive count, so it always equals the total. */
  predicate CountsAgree(t: ViolationTable) {
    forall k :: k in t ==> t[k].totalCount == t[k].consecutiveCount
  }

  lemma RecordViolationKeepsCountsAgree(t: ViolationTable, sessionId: string, violationType: string, now: string)
    requires CountsAgree(t)
    ensures CountsAgree(RecordViolation(t, sessionId, violationType, now))
  {
  }

  /**
   * Starting from no aggregate of this session, after a run of occurrences
   * every type that occurred has total and consecutive count equal to its
   * number of occurrences, and no other type of the session has a row.
   */
  lemma {:induction false} RecordAllCounts(t: ViolationTable, sessionId: string, occurrences: seq<(string, string)>, x: string)
    requires forall k :: k in t ==> k.0 != sessionId
    ensures var t' := RecordAll(t, sessionId, occurrences);
      ((sessionId, x) in t' <==> x in Types(occurrences)) &&
      ((sessionId, x) in t' ==>
        t'[(sessionId, x)].totalCount == Count(Types(occurrences), x) &&
        t'[(sessionId, x)].consecutiveCount == Count(Types(occurrences), x))
  {
    if occurrences != [] {
      var init := occurrences[..|occurrences| - 1];
      var last := occurrences[|occurrences| - 1];
      RecordAllCounts(t, sessionId, init, x);
      assert Types(occurrences) == Types(init) + [last.0];
      CountAppend(Types(init), [last.0], x);
      assert Count([last.0], x) == (if last.0 == x then 1 else 0) by {
        assert [last.0][1..] == [];
      }
    }
  }

  /** An alert row of the snapshot path. */
  datatype AlertRow = AlertRow(
    sessionId: string,
    snapshotId: string,
    alertType: string,
    severity: string,
    description: string,
    recommendation: string,
    status: string)

  /** The tables `create_alert` writes. */
  datatype AlertStore = AlertStore(alerts: seq<AlertRow>, alertCount: map<string, nat>, violations: ViolationTable)

  /**
   * Inserts the alert, increments the session's alert count (a missing count
   * reads as 0) and records the violation aggregate.
   */
  function CreateAlert(st: AlertStore, sessionId: string, snapshotId: string, alertType: string, now: string): (r: (AlertStore, AlertRow))
    ensures r.0.alerts == st.alerts + [r.1]
    ensures r.1.sessionId == sessionId && r.1.snapshotId == snapshotId
    ensures r.1.alertType == alertType && r.1.status == "unreviewed"
    ensures r.1.severity in SeverityLevels
    ensures Row(alertType).Some? ==>
      r.1.severity == Row(alertType).value.severity.Name() &&
      r.1.description == Row(alertType).value.description &&
      r.1.recommendation == Row(alertType).value.recommendation
    ensures Row(alertType).None? ==>
      r.1.severity == "medium" && r.1.description == "Unknown violation" &&
      r.1.recommendation == "Manual review required"
    ensures r.0.alertCount ==
      st.alertCount[sessionId := (if sessionId in st.alertCount then st.alertCount[sessionId] else 0) + 1]
    ensures sessionId in r.0.alertCount &&
      r.0.alertCount[sessionId] == (if sessionId in st.alertCount then st.alertCount[sessionId] else 0) + 1
    ensures forall s :: s in st.alertCount && s != sessionId ==> s in r.0.alertCount && r.0.alertCount[s] == st.alertCount[s]
    ensures r.0.violations == RecordViolation(st.violations, sessionId, alertType, now)
  {
    var config := AlertConfigFor(alertType);
    var row := AlertRow(sessionId, snapshotId, alertType, config.severity.Name(), config.description,
      config.recommendation, "unreviewed");
    var count := if sessionId in st.alertCount then st.alertCount[sessionId] else 0;
    (AlertStore(st.alerts + [row], st.alertCount[sessionId := count + 1],
      RecordViolation(st.violations, sessionId, alertType, now)), row)
  }

  // ---------------------------------------------------------------------------
  // Integrity score
  // ---------------------------------------------------------------------------

  /** Penalty of one alert severity, in hundredths; an unknown severity costs as much as "medium". */
  function Penalty(severity: string): (p: int)
    ensures 1 <= p <= 30
    ensures severity !in SeverityLevels ==> p == 5
  {
    if severity == "critical" then 30
    else if severity == "high" then 15
    else if severity == "medium" then 5
    else if severity == "low" then 1
    else 5
  }

  /** Sum of the penalties of the severities, in order. */
  function PenaltySum(severities: seq<string>): int
  {
    if severities == [] then 0
    else PenaltySum(severities[..|severities| - 1]) + Penalty(severities[|severities| - 1])
  }

  /** `max(0, min(1, score))`. */
  function ClampUnit(score: int): (r: int)
    ensures UnitScore(r)
    ensures UnitScore(score) ==> r == score
    ensures score < 0 ==> r == 0
  {
    if score > 100 then 100 else if score < 0 then 0 else score
  }

  /** The integrity score of a session whose alerts carry these severities. */
  function IntegrityScore(severities: seq<string>): (score: int)
    ensures UnitScore(score)
    ensures score == 100 <==> severities == []
  {
    PenaltySumAtLeastLength(severities);
    ClampUnit(100 - PenaltySum(severities))
  }

  /** Recomputes the integrity score by walking the session's alerts. */
  method UpdateSessionIntegrity(severities: seq<string>) returns (score: int)
    ensures score == IntegrityScore(severities)
    ensures UnitScore(score)
  {
    var s := 100;
    for i := 0 to |severities|
      invariant s == 100 - PenaltySum(severities[..i])
    {
      assert severities[..i + 1][..i] == severities[..i];
      s := s - Penalty(severities[i]);
    }
    assert severities[..|severities|] == severities;
    score := if s > 100 then 100 else if s < 0 then 0 else s;
  }

  lemma {:induction false} PenaltySumAppend(a: seq<string>, b: seq<string>)
    ensures PenaltySum(a + b) == PenaltySum(a) + PenaltySum(b)
    decreases |b|
  {
    if b == [] {
      assert a + b == a;
    } else {
      var init := b[..|b| - 1];
      assert (a + b)[..|a + b| - 1] == a + init;
      PenaltySumAppend(a, init);
    }
  }

  lemma {:induction false} PenaltySumAtLeastLength(s: seq<string>)
    ensures PenaltySum(s) >= |s|
    decreases |s|
  {
    if s != [] {
      PenaltySumAtLeastLength(s[..|s| - 1]);
    }
  }

  /**
   * The score is 1.0 exactly when there are no alerts, and more alerts never
   * raise it: the score after `a + b` is at most the score after `a`.
   */
  lemma IntegrityNeverRises(a: seq<string>, b: seq<string>)
    ensures IntegrityScore(a + b) <= IntegrityScore(a)
    ensures IntegrityScore(a) == 100 <==> a == []
  {
    PenaltySumAppend(a, b);
    PenaltySumAtLeastLength(b);
    PenaltySumAtLeastLength(a);
  }

  /** Ten critical alerts, or anything worse, bring the score to 0. */
  lemma {:induction false} IntegrityFloor(s: seq<string>)
    requires PenaltySum(s) >= 100
    ensures IntegrityScore(s) == 0
  {
  }

  // ---------------------------------------------------------------------------
  // Escalation
  // ---------------------------------------------------------------------------

  const CriticalAlertsThreshold := 5
  const HourlyAlertRate := 12
  const ConsecutiveViolationsThreshold := 3

  /** The violation types that escalate at once. */
  const CriticalViolations: seq<AlertType> := [NoFaceDetected, MultipleFacesDetected]

  datatype EscalationReason = CriticalViolationDetected | ExcessiveAlerts | ConsecutiveViolations {
    function Name(): string {
      match this
      case CriticalViolationDetected => "critical_violation_detected"
      case ExcessiveAlerts => "excessive_alerts"
      case ConsecutiveViolations => "consecutive_violations"
    }
  }

  predicate HasCriticalViolation(current: seq<AlertType>) {
    exists v :: v in current && v in CriticalViolations
  }

  /** Whether, and why, a session is escalated. */
  function CheckEscalation(violationStreak: int, alertCount: int, current: seq<AlertType>): (r: Option<EscalationReason>)
    ensures r.None? <==>
      (!HasCriticalViolation(current) && alertCount <= CriticalAlertsThreshold &&
       violationStreak <= ConsecutiveViolationsThreshold)
    ensures HasCriticalViolation(current) ==> r == Some(CriticalViolationDetected)
  {
    if HasCriticalViolation(current) then Some(CriticalViolationDetected)
    else if alertCount > CriticalAlertsThreshold then Some(ExcessiveAlerts)
    else if violationStreak > ConsecutiveViolationsThreshold then Some(ConsecutiveViolations)
    else None
  }

  /**
   * The checks run in a fixed order with strict comparisons: a critical type
   * wins, then more than five alerts, then a streak of more than three.
   */
  lemma CheckEscalationCases(violationStreak: int, alertCount: int, current: seq<AlertType>)
    ensures var r := CheckEscalation(violationStreak, alertCount, current);
      (r == Some(CriticalViolationDetected) <==> NoFaceDetected in current || MultipleFacesDetected in current) &&
      (r == Some(ExcessiveAlerts) <==>
        !HasCriticalViolation(current) && alertCount > CriticalAlertsThreshold) &&
      (r == Some(ConsecutiveViolations) <==>
        !HasCriticalViolation(current) && alertCount <= CriticalAlertsThreshold &&
        violationStreak > ConsecutiveViolationsThreshold) &&
      (r == None <==>
        !HasCriticalViolation(current) && alertCount <= CriticalAlertsThreshold &&
        violationStreak <= ConsecutiveViolationsThreshold)
  {
    if NoFaceDetected in current {
      assert NoFaceDetected in CriticalViolations;
    } else if MultipleFacesDetected in current {
      assert MultipleFacesDetected in CriticalViolations;
    }
  }

  /** The escalation list and the table's critical severity name the same two types. */
  lemma CriticalViolationsAreTheCriticalTypes(t: AlertType)
    ensures t in CriticalViolations <==> ConfigOf(t).severity == Critical
  {
  }

  /** More alerts or a longer streak never cancel an escalation. */
  lemma EscalationMonotone(streak: int, streak': int, count: int, count': int, current: seq<AlertType>)
    requires streak <= streak' && count <= count'
    requires CheckEscalation(streak, count, current).Some?
    ensures CheckEscalation(streak', count', current).Some?
  {
  }

  // ---------------------------------------------------------------------------
  // Recommendations
  // ---------------------------------------------------------------------------

  /** An alert row as the analytics read it: both keys may be missing. */
  datatype ReviewedAlert = ReviewedAlert(alertType: Option<string>, severity: Option<string>)

  const CriticalAdvice := "CRITICAL VIOLATIONS DETECTED - Immediate escalation required"
  const NoFaceAdvice := "Face not visible in frames - Identity verification required"
  const MultipleFacesAdvice := "Multiple persons detected - Session integrity compromised"
  const DeviceAdvice := "Unauthorized devices detected - Request device removal"
  const ExcessiveAdvice := "Excessive alerts - Manual review recommended"
  const NoIssuesAdvice := "No significant issues detected - Session appears valid"

  function CountSeverity(alerts: seq<ReviewedAlert>, severity: string): nat {
    if alerts == [] then 0
    else (if alerts[0].severity == Some(severity) then 1 else 0) + CountSeverity(alerts[1..], severity)
  }

  function CountType(alerts: seq<ReviewedAlert>, alertType: string): nat {
    if alerts == [] then 0
    else (if alerts[0].alertType == Some(alertType) then 1 else 0) + CountType(alerts[1..], alertType)
  }

  lemma {:induction false} CountSeverityPositive(alerts: seq<ReviewedAlert>, severity: string)
    ensures CountSeverity(alerts, severity) > 0 <==>
      exists i :: 0 <= i < |alerts| && alerts[i].severity == Some(severity)
  {
    if alerts != [] {
      CountSeverityPositive(alerts[1..], severity);
      if exists i :: 0 <= i < |alerts| && alerts[i].severity == Some(severity) {
        var i :| 0 <= i < |alerts| && alerts[i].severity == Some(severity);
        if i > 0 { assert alerts[1..][i - 1] == alerts[i]; }
      }
      if exists i :: 0 <= i < |alerts[1..]| && alerts[1..][i].severity == Some(severity) {
        var i :| 0 <= i < |alerts[1..]| && alerts[1..][i].severity == Some(severity);
        assert alerts[i + 1] == alerts[1..][i];
      }
    }
  }

  lemma {:induction false} CountTypePositive(alerts: seq<ReviewedAlert>, alertType: string)
    ensures CountType(alerts, alertType) > 0 <==>
      exists i :: 0 <= i < |alerts| && alerts[i].alertType == Some(alertType)
  {
    if alerts != [] {
      CountTypePositive(alerts[1..], alertType);
      if exists i :: 0 <= i < |alerts| && alerts[i].alertType == Some(alertType) {
        var i :| 0 <= i < |alerts| && alerts[i].alertType == Some(alertType);
        if i > 0 { assert alerts[1..][i - 1] == alerts[i]; }
      }
      if exists i :: 0 <= i < |alerts[1..]| && alerts[1..][i].alertType == Some(alertType) {
        var i :| 0 <= i < |alerts[1..]| && alerts[1..][i].alertType == Some(alertType);
        assert alerts[i + 1] == alerts[1..][i];
      }
    }
  }

  function Advice(c: bool, text: string): seq<string> {
    if c then [text] else []
  }

  /** Which texts the five optional recommendations contribute. */
  lemma AdviceMembers(c1: bool, c2: bool, c3: bool, c4: bool, c5: bool)
    ensures var r := Advice(c1, CriticalAdvice) + Advice(c2, NoFaceAdvice) + Advice(c3, MultipleFacesAdvice)
        + Advice(c4, DeviceAdvice) + Advice(c5, ExcessiveAdvice);
      (r == [] <==> !c1 && !c2 && !c3 && !c4 && !c5) &&
      (CriticalAdvice in r <==> c1) && (NoFaceAdvice in r <==> c2) && (MultipleFacesAdvice in r <==> c3) &&
      (DeviceAdvice in r <==> c4) && (ExcessiveAdvice in r <==> c5) && NoIssuesAdvice !in r
  {
  }

  /** The review recommendations, in their fixed order, with a default when nothing applies. */
  function Recommendations(alerts: seq<ReviewedAlert>): (r: seq<string>)
    ensures 1 <= |r| <= 5
  {
    var r :=
      Advice(CountSeverity(alerts, "critical") > 0, CriticalAdvice)
      + Advice(CountType(alerts, NoFaceDetected.Name()) > 0, NoFaceAdvice)
      + Advice(CountType(alerts, MultipleFacesDetected.Name()) > 0, MultipleFacesAdvice)
      + Advice(CountType(alerts, UnauthorizedObjectDetected.Name()) > 0, DeviceAdvice)
      + Advice(|alerts| > 10, ExcessiveAdvice);
    if r == [] then [NoIssuesAdvice] else r
  }

  predicate SomeSeverity(alerts: seq<ReviewedAlert>, severity: string) {
    exists i :: 0 <= i < |alerts| && alerts[i].severity == Some(severity)
  }

  predicate SomeType(alerts: seq<ReviewedAlert>, alertType: string) {
    exists i :: 0 <= i < |alerts| && alerts[i].alertType == Some(alertType)
  }

  /**
   * Each recommendation appears exactly when some alert calls for it; the
   * default appears alone, and only when no other applies.
   */
  lemma RecommendationsSpec(alerts: seq<ReviewedAlert>)
    ensures Recommendations(alerts) != []
    ensures CriticalAdvice in Recommendations(alerts) <==> SomeSeverity(alerts, "critical")
    ensures NoFaceAdvice in Recommendations(alerts) <==> SomeType(alerts, NoFaceDetected.Name())
    ensures MultipleFacesAdvice in Recommendations(alerts) <==> SomeType(alerts, MultipleFacesDetected.Name())
    ensures DeviceAdvice in Recommendations(alerts) <==> SomeType(alerts, UnauthorizedObjectDetected.Name())
    ensures ExcessiveAdvice in Recommendations(alerts) <==> |alerts| > 10
    ensures NoIssuesAdvice in Recommendations(alerts) <==> Recommendations(alerts) == [NoIssuesAdvice]
    ensures Recommendations(alerts) == [NoIssuesAdvice] <==>
      !SomeSeverity(alerts, "critical") && !SomeType(alerts, NoFaceDetected.Name()) && !SomeType(alerts, MultipleFacesDetected.Name()) &&
      !SomeType(alerts, UnauthorizedObjectDetected.Name()) && |alerts| <= 10
  {
    CountSeverityPositive(alerts, "critical");
    CountTypePositive(alerts, NoFaceDetected.Name());
    CountTypePositive(alerts, MultipleFacesDetected.Name());
    CountTypePositive(alerts, UnauthorizedObjectDetected.Name());
    AdviceMembers(CountSeverity(alerts, "critical") > 0, CountType(alerts, NoFaceDetected.Name()) > 0,
      CountType(alerts, MultipleFacesDetected.Name()) > 0, CountType(alerts, UnauthorizedObjectDetected.Name()) > 0,
      |alerts| > 10);
  }
}
