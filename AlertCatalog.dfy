// The proctoring record definitions: the alert-type table, the severity
// scale, the action attached to each severity, and the [0, 1] bounds on the
// session and snapshot scores. Scores are kept in hundredths (1.0 is 100).

module AlertCatalog {

  import opened Common

  /** The alert types the table names. */
  datatype AlertType =
    | NoFaceDetected
    | MultipleFacesDetected
    | ExcessiveHeadMovement
    | EyeGazeAway
    | UnauthorizedObjectDetected
    | EnvironmentalChange
    | AudioAnomaly
    | TabSwitchingDetected
    | SuspiciousGesture
    | TimeoutNoMovement
    | LightingChangeDetected
    | PostureAnomaly
    | ReadingFromPaper
  {
    /** The key the type is stored and looked up under. */
    function Name(): string {
      match this
      case NoFaceDetected => "no_face_detected"
      case MultipleFacesDetected => "multiple_faces_detected"
      case ExcessiveHeadMovement => "excessive_head_movement"
      case EyeGazeAway => "eye_gaze_away"
      case UnauthorizedObjectDetected => "unauthorized_object_detected"
      case EnvironmentalChange => "environmental_change"
      case AudioAnomaly => "audio_anomaly"
      case TabSwitchingDetected => "tab_switching_detected"
      case SuspiciousGesture => "suspicious_gesture"
      case TimeoutNoMovement => "timeout_no_movement"
      case LightingChangeDetected => "lighting_change_detected"
      case PostureAnomaly => "posture_anomaly"
      case ReadingFromPaper => "reading_from_paper"
    }
  }

  /** The four severity levels, lowest first. */
  datatype Severity = Low | Medium | High | Critical {
    function Name(): string {
      match this
      case Low => "low"
      case Medium => "medium"
      case High => "high"
      case Critical => "critical"
    }
  }

  /** The severity scale, by name, lowest first. */
  const SeverityLevels: seq<string> := [Low.Name(), Medium.Name(), High.Name(), Critical.Name()]

  /** Distinct types are stored under distinct keys. */
  lemma NamesAreDistinct(a: AlertType, b: AlertType)
    ensures a.Name() == b.Name() <==> a == b
  {
  }

  /** One row of the alert-type table. */
  datatype AlertConfig = AlertConfig(severity: Severity, description: string, recommendation: string)

  /** The severity the table gives each type. */
  function SeverityOf(t: AlertType): (s: Severity)
    ensures s == Critical <==> t == NoFaceDetected || t == MultipleFacesDetected
  {
    match t
    case NoFaceDetected => Critical
    case MultipleFacesDetected => Critical
    case ExcessiveHeadMovement => High
    case EyeGazeAway => Medium
    case UnauthorizedObjectDetected => High
    case EnvironmentalChange => Medium
    case AudioAnomaly => High
    case TabSwitchingDetected => Medium
    case SuspiciousGesture => Medium
    case TimeoutNoMovement => Medium
    case LightingChangeDetected => Low
    case PostureAnomaly => Medium
    case ReadingFromPaper => High
  }

  function DescriptionOf(t: AlertType): string {
    match t
    case NoFaceDetected => "Test-taker's face not visible in frame"
    case MultipleFacesDetected => "Multiple people detected in view"
    case ExcessiveHeadMovement => "Excessive head turning or unusual head angles"
    case EyeGazeAway => "Test-taker looking away from screen"
    case UnauthorizedObjectDetected => "Phone, tablet, or other unauthorized device visible"
    case EnvironmentalChange => "Significant changes in background or lighting"
    case AudioAnomaly => "Foreign voices or unusual sounds detected"
    case TabSwitchingDetected => "Multiple browser tabs or window switching detected"
    case SuspiciousGesture => "Hand gestures or suspicious movement detected"
    case TimeoutNoMovement => "No movement detected for extended period"
    case LightingChangeDetected => "Lighting conditions changed significantly"
    case PostureAnomaly => "Unusual posture or slouching detected"
    case ReadingFromPaper => "Test-taker appears to be reading from unauthorized materials"
  }

  function RecommendationOf(t: AlertType): string {
    match t
    case NoFaceDetected => "Terminate exam - cannot verify test-taker identity"
    case MultipleFacesDetected => "Terminate exam immediately"
    case ExcessiveHeadMovement => "Send warning, increase monitoring frequency"
    case EyeGazeAway => "Continue monitoring with increased frequency"
    case UnauthorizedObjectDetected => "Send warning, request removal of device"
    case EnvironmentalChange => "Request environment stabilization"
    case AudioAnomaly => "Send warning, verify test-taker is alone"
    case TabSwitchingDetected => "Send warning, remind of single-tab policy"
    case SuspiciousGesture => "Increase monitoring frequency"
    case TimeoutNoMovement => "Send ping to verify test-taker presence"
    case LightingChangeDetected => "Monitor for intentional obstruction"
    case PostureAnomaly => "Send reminder to maintain proper posture"
    case ReadingFromPaper => "Send warning, request desk verification"
  }

  /** The row of each alert type. */
  function ConfigOf(t: AlertType): AlertConfig {
    AlertConfig(SeverityOf(t), DescriptionOf(t), RecommendationOf(t))
  }

  /**
   * The table as the service looks it up, by type name: the type stored
   * under `key`, or `None` when the table has no such row.
   */
  function TypeOf(key: string): (r: Option<AlertType>)
    ensures r.Some? ==> r.value.Name() == key
  {
    if key == "no_face_detected" then Some(NoFaceDetected)
    else if key == "multiple_faces_detected" then Some(MultipleFacesDetected)
    else if key == "excessive_head_movement" then Some(ExcessiveHeadMovement)
    else if key == "eye_gaze_away" then Some(EyeGazeAway)
    else if key == "unauthorized_object_detected" then Some(UnauthorizedObjectDetected)
    else if key == "environmental_change" then Some(EnvironmentalChange)
    else if key == "audio_anomaly" then Some(AudioAnomaly)
    else if key == "tab_switching_detected" then Some(TabSwitchingDetected)
    else if key == "suspicious_gesture" then Some(SuspiciousGesture)
    else if key == "timeout_no_movement" then Some(TimeoutNoMovement)
    else if key == "lighting_change_detected" then Some(LightingChangeDetected)
    else if key == "posture_anomaly" then Some(PostureAnomaly)
    else if key == "reading_from_paper" then Some(ReadingFromPaper)
    else None
  }

  /** Every type has its own row, found under its own name. */
  lemma TypeOfName(t: AlertType)
    ensures TypeOf(t.Name()) == Some(t)
  {
    if t.TabSwitchingDetected? || t.SuspiciousGesture? || t.TimeoutNoMovement? ||
       t.LightingChangeDetected? || t.PostureAnomaly? || t.ReadingFromPaper?
    {
      TypeOfLaterName(t);
    } else {
      TypeOfEarlierName(t);
    }
  }

  lemma TypeOfEarlierName(t: AlertType)
    requires !(t.TabSwitchingDetected? || t.SuspiciousGesture? || t.TimeoutNoMovement? ||
               t.LightingChangeDetected? || t.PostureAnomaly? || t.ReadingFromPaper?)
    ensures TypeOf(t.Name()) == Some(t)
  {
    match t
    case NoFaceDetected =>
    case MultipleFacesDetected =>
    case ExcessiveHeadMovement =>
    case EyeGazeAway =>
    case UnauthorizedObjectDetected =>
    case EnvironmentalChange =>
    case AudioAnomaly =>
  }

  lemma TypeOfLaterName(t: AlertType)
    requires t.TabSwitchingDetected? || t.SuspiciousGesture? || t.TimeoutNoMovement? ||
             t.LightingChangeDetected? || t.PostureAnomaly? || t.ReadingFromPaper?
    ensures TypeOf(t.Name()) == Some(t)
  {
    match t
    case TabSwitchingDetected =>
    case SuspiciousGesture =>
    case TimeoutNoMovement =>
    case _ => TypeOfLastName(t);
  }

  lemma TypeOfLastName(t: AlertType)
    requires t.LightingChangeDetected? || t.PostureAnomaly? || t.ReadingFromPaper?
    ensures TypeOf(t.Name()) == Some(t)
  {
    match t
    case LightingChangeDetected =>
    case PostureAnomaly =>
    case ReadingFromPaper =>
  }

  /** The table has one row per alert type and no other row. */
  lemma TableKeysAreTheTypeNames(key: string)
    ensures TypeOf(key).Some? <==> exists t: AlertType :: t.Name() == key
  {
    if exists t: AlertType :: t.Name() == key {
      var t: AlertType :| t.Name() == key;
      TypeOfName(t);
    }
  }

  /** The row stored under `key`, if any. */
  function Row(key: string): (r: Option<AlertConfig>)
    ensures r.Some? <==> TypeOf(key).Some?
    ensures r.Some? ==> r.value == ConfigOf(TypeOf(key).value)
  {
    match TypeOf(key)
    case Some(t) => Some(ConfigOf(t))
    case None => None
  }

  /** The action attached to each severity. */
  function ActionOf(s: Severity): string {
    match s
    case Critical => "terminate_immediately"
    case High => "send_warning_and_flag"
    case Medium => "continue_monitoring"
    case Low => "monitor_passively"
  }

  const ViolationActions: map<string, string> := map[
    Critical.Name() := ActionOf(Critical),
    High.Name() := ActionOf(High),
    Medium.Name() := ActionOf(Medium),
    Low.Name() := ActionOf(Low)
  ]

  /**
   * The configuration the snapshot path attaches to an alert: the table row,
   * or the "Unknown violation" fallback for a type the table lacks.
   */
  function AlertConfigFor(alertType: string): (c: AlertConfig)
    ensures Row(alertType).Some? ==> c == Row(alertType).value
    ensures Row(alertType).None? ==>
      c == AlertConfig(Medium, "Unknown violation", "Manual review required")
  {
    Row(alertType).GetOr(AlertConfig(Medium, "Unknown violation", "Manual review required"))
  }

  /**
   * The configuration the live-stream path and the violation tracker use:
   * a missing row reads as severity "medium" with empty texts.
   */
  function LiveAlertConfigFor(alertType: string): (c: AlertConfig)
    ensures Row(alertType).Some? ==> c == Row(alertType).value
    ensures Row(alertType).None? ==> c == AlertConfig(Medium, "", "")
  {
    Row(alertType).GetOr(AlertConfig(Medium, "", ""))
  }

  /** A lookup by a type's own name finds that type's row and never falls back. */
  lemma TableRowOf(t: AlertType)
    ensures Row(t.Name()) == Some(ConfigOf(t))
    ensures LiveAlertConfigFor(t.Name()) == ConfigOf(t) && AlertConfigFor(t.Name()) == ConfigOf(t)
  {
    TypeOfName(t);
  }

  /** The scale holds exactly the names of the four levels. */
  lemma SeverityLevelsAreTheNames(key: string, s: Severity)
    ensures s.Name() in SeverityLevels
    ensures key in SeverityLevels <==> exists l: Severity :: l.Name() == key
  {
    if key in SeverityLevels {
      var l := if key == "low" then Low else if key == "medium" then Medium
        else if key == "high" then High else Critical;
      assert l.Name() == key;
    }
  }

  /** The two face-count types are the only critical ones. */
  lemma CriticalTypesAreTheFaceCountTypes(key: string)
    requires Row(key).Some?
    ensures Row(key).value.severity == Critical <==>
      (key == NoFaceDetected.Name() || key == MultipleFacesDetected.Name())
  {
    var t := TypeOf(key).value;
    NamesAreDistinct(t, NoFaceDetected);
    NamesAreDistinct(t, MultipleFacesDetected);
  }

  /** The table, not the detector's comments, fixes these two severities. */
  lemma TableSeveritiesOfRelabelledTypes()
    ensures AlertConfigFor(ExcessiveHeadMovement.Name()).severity == High
    ensures AlertConfigFor(TabSwitchingDetected.Name()).severity == Medium
  {
    TableRowOf(ExcessiveHeadMovement);
    TableRowOf(TabSwitchingDetected);
  }

  /** Each severity level has exactly one action, and distinct levels have distinct actions. */
  lemma OneActionPerSeverity(key: string, a: Severity, b: Severity)
    ensures key in ViolationActions <==> key in SeverityLevels
    ensures a.Name() in ViolationActions && ViolationActions[a.Name()] == ActionOf(a)
    ensures a != b ==> ActionOf(a) != ActionOf(b)
    ensures ActionOf(Critical) == "terminate_immediately"
  {
  }

  // Field bounds of the session and snapshot records (hundredths).

  const DefaultIntegrityScore: int := 100
  const DefaultSuspicionScore: int := 0
  const DefaultConfidenceScore: int := 50

  /** A score constrained to the closed interval [0, 1]. */
  predicate UnitScore(x: int) {
    0 <= x <= 100
  }

  /** The defaults of the three bounded fields satisfy their own bounds. */
  lemma DefaultsWithinBounds()
    ensures UnitScore(DefaultIntegrityScore) && DefaultIntegrityScore == 100
    ensures UnitScore(DefaultSuspicionScore) && UnitScore(DefaultConfidenceScore)
  {
  }
}
