// The advanced-proctoring classifiers: for the eye, audio and face judgments,
// the list of suspicion flags (one `if` per flag, in a fixed order) and the
// weighted risk score cut into four bands; and the overall risk of a frame
// built from the components that produced a level. The judgments themselves
// come from a foreign model and are inputs; measured ratios are `real`,
// weights and scores are in hundredths.

module Advanced {
  import opened Common

  // ---------------------------------------------------------------------------
  // Risk bands
  // ---------------------------------------------------------------------------

  datatype Risk = Low | Medium | High | Critical {
    function Rank(): nat {
      match this
      case Low => 0
      case Medium => 1
      case High => 2
      case Critical => 3
    }

    function Name(): string {
      match this
      case Low => "low"
      case Medium => "medium"
      case High => "high"
      case Critical => "critical"
    }
  }

  /** A score in hundredths cut at the strict thresholds 0.7, 0.5 and 0.3. */
  function Band(score: int): (r: Risk)
    ensures r == Critical <==> score > 70
    ensures r == High <==> 50 < score <= 70
    ensures r == Medium <==> 30 < score <= 50
    ensures r == Low <==> score <= 30
  {
    if score > 70 then Critical
    else if score > 50 then High
    else if score > 30 then Medium
    else Low
  }

  /** A higher score never gives a lower band. */
  lemma BandMonotone(a: int, b: int)
    requires a <= b
    ensures Band(a).Rank() <= Band(b).Rank()
  {
  }

  /** `w` hundredths when `c` holds. */
  function Weight(c: bool, w: nat): nat {
    if c then w else 0
  }

  // ---------------------------------------------------------------------------
  // Eye tracking
  // ---------------------------------------------------------------------------

  /** The gaze record fields the eye classifiers read. */
  datatype Gaze = Gaze(
    gazeOnScreen: bool,
    gazeAwayFromScreen: bool,
    repeatedOffScreenGlances: bool,
    gazeAtKeyboard: bool,
    prolongedBlink: bool,
    eyeFatigueIndicator: bool,
    gazeStability: real,
    pupilSizeDifference: real)

  datatype EyeFlag =
    | GazeOffScreen | RepeatedGlancesDetected | SuspiciousGazePattern | ProlongedEyeClosure
    | PotentialEyeFatigue | UnstableGaze | AbnormalPupilResponse | PossibleCheatingIndicators

  /** The order in which the eye flags are tried. */
  const EyeOrder: seq<EyeFlag> := [GazeOffScreen, RepeatedGlancesDetected, SuspiciousGazePattern,
    ProlongedEyeClosure, PotentialEyeFatigue, UnstableGaze, AbnormalPupilResponse, PossibleCheatingIndicators]

  /** The condition under which each eye flag is raised. */
  predicate EyeRaises(f: EyeFlag, g: Gaze) {
    match f
    case GazeOffScreen => g.gazeAwayFromScreen
    case RepeatedGlancesDetected => g.repeatedOffScreenGlances
    case SuspiciousGazePattern => g.gazeAtKeyboard
    case ProlongedEyeClosure => g.prolongedBlink
    case PotentialEyeFatigue => g.eyeFatigueIndicator
    case UnstableGaze => g.gazeStability < 0.5
    case AbnormalPupilResponse => g.pupilSizeDifference > 0.2
    case PossibleCheatingIndicators => g.repeatedOffScreenGlances
  }

  /** The suspension flags of one gaze record: each `if` of the source is one entry of `EyeOrder`. */
  function EyeFlags(g: Gaze): (r: seq<EyeFlag>)
    ensures forall f :: f in r <==> f in EyeOrder && EyeRaises(f, g)
  {
    var raises := f => EyeRaises(f, g);
    FilterMembersAll(EyeOrder, raises);
    Filter(EyeOrder, raises)
  }

  /** A flag is listed exactly when its condition holds. */
  lemma EyeFlagsMembers(g: Gaze, f: EyeFlag)
    ensures f in EyeFlags(g) <==> EyeRaises(f, g)
  {
    FilterMembers(EyeOrder, f => EyeRaises(f, g), f);
  }

  lemma EyeOrderDistinct()
    ensures NoDuplicates(EyeOrder)
  {
  }

  /** The flags come in the fixed order, each at most once. */
  lemma EyeFlagsInOrder(g: Gaze)
    ensures Subsequence(EyeFlags(g), EyeOrder)
    ensures NoDuplicates(EyeFlags(g))
  {
    FilterSubsequence(EyeOrder, f => EyeRaises(f, g));
    EyeOrderDistinct();
    SubsequenceNoDuplicates(EyeFlags(g), EyeOrder);
  }

  /** Repeated off-screen glances alone raise exactly the glance flag and the cheating-indicator flag. */
  lemma RepeatedGlancesAlone(g: Gaze)
    requires g.repeatedOffScreenGlances && !g.gazeAwayFromScreen && !g.gazeAtKeyboard
    requires !g.prolongedBlink && !g.eyeFatigueIndicator && g.gazeStability >= 0.5 && g.pupilSizeDifference <= 0.2
    ensures EyeFlags(g) == [RepeatedGlancesDetected, PossibleCheatingIndicators]
  {
  }

  /** The eye risk score: 0.3 off screen, 0.25 repeated glances, 0.15 unstable gaze, 0.1 each for blink and fatigue. */
  function EyeScore(g: Gaze): (s: nat)
    ensures s <= 90
  {
    Weight(!g.gazeOnScreen, 30) + Weight(g.repeatedOffScreenGlances, 25) + Weight(g.gazeStability < 0.5, 15)
    + Weight(g.prolongedBlink, 10) + Weight(g.eyeFatigueIndicator, 10)
  }

  /** Off screen with repeated glances is at least high; on screen without them, at most medium. */
  function EyeRisk(g: Gaze): (r: Risk)
    ensures !g.gazeOnScreen && g.repeatedOffScreenGlances ==> r.Rank() >= High.Rank()
    ensures g.gazeOnScreen && !g.repeatedOffScreenGlances ==> r.Rank() <= Medium.Rank()
  {
    Band(EyeScore(g))
  }

  /** `g'` shows every risk condition `g` shows. */
  predicate EyeWorse(g: Gaze, g': Gaze) {
    (!g.gazeOnScreen ==> !g'.gazeOnScreen)
    && (g.repeatedOffScreenGlances ==> g'.repeatedOffScreenGlances)
    && (g.gazeStability < 0.5 ==> g'.gazeStability < 0.5)
    && (g.prolongedBlink ==> g'.prolongedBlink)
    && (g.eyeFatigueIndicator ==> g'.eyeFatigueIndicator)
  }

  /** More risk conditions never lower the eye risk level. */
  lemma EyeRiskMonotone(g: Gaze, g': Gaze)
    requires EyeWorse(g, g')
    ensures EyeRisk(g).Rank() <= EyeRisk(g').Rank()
  {
    BandMonotone(EyeScore(g), EyeScore(g'));
  }

  /** Off-screen gaze alone scores 0.3, which is not above the medium threshold. */
  lemma OffScreenAloneIsLow(g: Gaze)
    requires !g.gazeOnScreen && !g.repeatedOffScreenGlances && g.gazeStability >= 0.5
    requires !g.prolongedBlink && !g.eyeFatigueIndicator
    ensures EyeScore(g) == 30 && EyeRisk(g) == Low
  {
  }

  // ---------------------------------------------------------------------------
  // Audio
  // ---------------------------------------------------------------------------

  /** The audio record fields the audio classifiers read, and four sound judgments they ignore. */
  datatype Audio = Audio(
    speechDetected: bool,
    numberOfSpeakers: int,
    conversationDetected: bool,
    externalCommunicationSuspected: bool,
    noiseAboveThreshold: bool,
    phoneRingingDetected: bool,
    whisperDetected: bool,
    suspiciousAudioPattern: bool,
    potentialCheatingAudio: bool,
    keyboardClicking: bool,
    mouseClicking: bool,
    doorKnock: bool,
    footsteps: bool)

  datatype AudioFlag =
    | MultipleSpeakersDetected | ConversationInBackground | PossibleExternalCommunication
    | ExcessiveBackgroundNoise | PhoneActivityDetected | WhisperDetectedSuspicious
    | AnomalousAudioPattern | PotentialCheatingIndicators

  const AudioOrder: seq<AudioFlag> := [MultipleSpeakersDetected, ConversationInBackground,
    PossibleExternalCommunication, ExcessiveBackgroundNoise, PhoneActivityDetected,
    WhisperDetectedSuspicious, AnomalousAudioPattern, PotentialCheatingIndicators]

  predicate MultipleSpeakers(a: Audio) {
    a.speechDetected && a.numberOfSpeakers > 1
  }

  predicate AudioRaises(f: AudioFlag, a: Audio) {
    match f
    case MultipleSpeakersDetected => MultipleSpeakers(a)
    case ConversationInBackground => a.conversationDetected
    case PossibleExternalCommunication => a.externalCommunicationSuspected
    case ExcessiveBackgroundNoise => a.noiseAboveThreshold
    case PhoneActivityDetected => a.phoneRingingDetected
    case WhisperDetectedSuspicious => a.whisperDetected
    case AnomalousAudioPattern => a.suspiciousAudioPattern
    case PotentialCheatingIndicators => a.potentialCheatingAudio
  }

  function AudioFlags(a: Audio): (r: seq<AudioFlag>)
    ensures forall f :: f in r <==> f in AudioOrder && AudioRaises(f, a)
  {
    var raises := f => AudioRaises(f, a);
    FilterMembersAll(AudioOrder, raises);
    Filter(AudioOrder, raises)
  }

  /** A flag is listed exactly when its condition holds; several speakers count only while speech is detected. */
  lemma AudioFlagsMembers(a: Audio, f: AudioFlag)
    ensures f in AudioFlags(a) <==> AudioRaises(f, a)
  {
    FilterMembers(AudioOrder, f => AudioRaises(f, a), f);
  }

  lemma AudioOrderDistinct()
    ensures NoDuplicates(AudioOrder)
  {
  }

  lemma AudioFlagsInOrder(a: Audio)
    ensures Subsequence(AudioFlags(a), AudioOrder)
    ensures NoDuplicates(AudioFlags(a))
  {
    FilterSubsequence(AudioOrder, f => AudioRaises(f, a));
    AudioOrderDistinct();
    SubsequenceNoDuplicates(AudioFlags(a), AudioOrder);
  }

  /** A silent recording (every judgment false) raises no flag. */
  lemma SilentAudioRaisesNothing(speakers: int)
    ensures AudioFlags(Audio(false, speakers, false, false, false, false, false, false, false,
      false, false, false, false)) == []
  {
  }

  /** The audio risk score: 0.35 several speakers, 0.3 external communication, 0.15 noise, 0.15 whisper, 0.1 pattern. */
  function AudioScore(a: Audio): (s: nat)
    ensures s <= 105
  {
    Weight(MultipleSpeakers(a), 35) + Weight(a.externalCommunicationSuspected, 30)
    + Weight(a.noiseAboveThreshold, 15) + Weight(a.whisperDetected, 15) + Weight(a.suspiciousAudioPattern, 10)
  }

  /** Several speakers with suspected outside communication is at least high; neither, at most medium. */
  function AudioRisk(a: Audio): (r: Risk)
    ensures MultipleSpeakers(a) && a.externalCommunicationSuspected ==> r.Rank() >= High.Rank()
    ensures !MultipleSpeakers(a) && !a.externalCommunicationSuspected ==> r.Rank() <= Medium.Rank()
  {
    Band(AudioScore(a))
  }

  /** Keyboard, mouse, door and footstep sounds change neither the flags nor the risk. */
  lemma AudioIgnoresRoomSounds(a: Audio, keyboard: bool, mouse: bool, door: bool, steps: bool)
    ensures var a' := a.(keyboardClicking := keyboard, mouseClicking := mouse, doorKnock := door, footsteps := steps);
      AudioRisk(a') == AudioRisk(a) && AudioFlags(a') == AudioFlags(a)
  {
    var a' := a.(keyboardClicking := keyboard, mouseClicking := mouse, doorKnock := door, footsteps := steps);
    assert AudioScore(a') == AudioScore(a);
    assert forall f :: AudioRaises(f, a') == AudioRaises(f, a);
    SameRaisesSameFlags(a', a);
  }

  lemma SameRaisesSameFlags(a: Audio, b: Audio)
    requires forall f :: AudioRaises(f, a) == AudioRaises(f, b)
    ensures AudioFlags(a) == AudioFlags(b)
  {
    FilterAgree(AudioOrder, f => AudioRaises(f, a), f => AudioRaises(f, b));
  }

  predicate AudioWorse(a: Audio, a': Audio) {
    (MultipleSpeakers(a) ==> MultipleSpeakers(a'))
    && (a.externalCommunicationSuspected ==> a'.externalCommunicationSuspected)
    && (a.noiseAboveThreshold ==> a'.noiseAboveThreshold)
    && (a.whisperDetected ==> a'.whisperDetected)
    && (a.suspiciousAudioPattern ==> a'.suspiciousAudioPattern)
  }

  lemma AudioRiskMonotone(a: Audio, a': Audio)
    requires AudioWorse(a, a')
    ensures AudioRisk(a).Rank() <= AudioRisk(a').Rank()
  {
    BandMonotone(AudioScore(a), AudioScore(a'));
  }

  // ---------------------------------------------------------------------------
  // Face recognition
  // ---------------------------------------------------------------------------

  datatype Face = Face(
    faceDetected: bool,
    numberOfFaces: int,
    identityMismatchDetected: bool,
    spoofingDetected: bool,
    presentationAttackDetected: bool,
    livenessDetected: bool,
    livenessScore: real,
    maskedFaceDetected: bool,
    faceCoveredDetected: bool,
    expressionAnomaly: bool,
    identityRisk: bool,
    potentialSpoofingRisk: bool)

  datatype FaceFlag =
    | NoFaceDetected | MultipleFacesDetected | IdentityMismatch | PresentationAttackDetected
    | SpoofingAttemptSuspected | PossiblePhotoSpoofing | FaceObscuredOrMasked
    | UnusualFacialExpression | IdentityVerificationFailed | AntiSpoofingCheckFailed

  const FaceOrder: seq<FaceFlag> := [NoFaceDetected, MultipleFacesDetected, IdentityMismatch,
    PresentationAttackDetected, SpoofingAttemptSuspected, PossiblePhotoSpoofing, FaceObscuredOrMasked,
    UnusualFacialExpression, IdentityVerificationFailed, AntiSpoofingCheckFailed]

  predicate PhotoSpoofing(x: Face) {
    !x.livenessDetected && x.livenessScore < 0.5
  }

  /** The condition of each face flag (the spoofing judgment raises the presentation-attack flag and vice versa). */
  predicate FaceRaises(f: FaceFlag, x: Face) {
    match f
    case NoFaceDetected => !x.faceDetected
    case MultipleFacesDetected => x.numberOfFaces > 1
    case IdentityMismatch => x.identityMismatchDetected
    case PresentationAttackDetected => x.spoofingDetected
    case SpoofingAttemptSuspected => x.presentationAttackDetected
    case PossiblePhotoSpoofing => PhotoSpoofing(x)
    case FaceObscuredOrMasked => x.maskedFaceDetected || x.faceCoveredDetected
    case UnusualFacialExpression => x.expressionAnomaly
    case IdentityVerificationFailed => x.identityRisk
    case AntiSpoofingCheckFailed => x.potentialSpoofingRisk
  }

  function FaceFlags(x: Face): (r: seq<FaceFlag>)
    ensures forall f :: f in r <==> f in FaceOrder && FaceRaises(f, x)
  {
    var raises := f => FaceRaises(f, x);
    FilterMembersAll(FaceOrder, raises);
    Filter(FaceOrder, raises)
  }

  lemma FaceFlagsMembers(x: Face, f: FaceFlag)
    ensures f in FaceFlags(x) <==> FaceRaises(f, x)
  {
    FilterMembers(FaceOrder, f => FaceRaises(f, x), f);
  }

  lemma FaceOrderDistinct()
    ensures NoDuplicates(FaceOrder)
  {
  }

  lemma FaceFlagsInOrder(x: Face)
    ensures Subsequence(FaceFlags(x), FaceOrder)
    ensures NoDuplicates(FaceFlags(x))
  {
    FilterSubsequence(FaceOrder, f => FaceRaises(f, x));
    FaceOrderDistinct();
    SubsequenceNoDuplicates(FaceFlags(x), FaceOrder);
  }

  /** A masked or covered face (or both) gives one obscured-face flag. */
  lemma ObscuredFaceFlaggedOnce(x: Face)
    requires x.maskedFaceDetected || x.faceCoveredDetected
    ensures Count(FaceFlags(x), FaceObscuredOrMasked) == 1
  {
    var flags := FaceFlags(x);
    assert FaceRaises(FaceObscuredOrMasked, x);
    FaceFlagsMembers(x, FaceObscuredOrMasked);
    assert FaceObscuredOrMasked in flags;
    FaceFlagsInOrder(x);
    CountNoDuplicates(flags, FaceObscuredOrMasked);
  }

  /** The face risk score: 0.4 no face, 0.35 spoofing, 0.3 identity mismatch, 0.25 no liveness, 0.15 mask, 0.1 expression. */
  function FaceScore(x: Face): (s: nat)
    ensures s <= 155
  {
    Weight(!x.faceDetected, 40) + Weight(x.spoofingDetected, 35) + Weight(x.identityMismatchDetected, 30)
    + Weight(!x.livenessDetected, 25) + Weight(x.maskedFaceDetected, 15) + Weight(x.expressionAnomaly, 10)
  }

  /** Spoofing with an identity mismatch is at least high; a live, matching, unspoofed face is low. */
  function FaceRisk(x: Face): (r: Risk)
    ensures x.spoofingDetected && x.identityMismatchDetected ==> r.Rank() >= High.Rank()
    ensures x.faceDetected && x.livenessDetected && !x.spoofingDetected && !x.identityMismatchDetected ==> r == Low
  {
    Band(FaceScore(x))
  }

  /** A missing face alone is medium risk; without liveness as well it is high. */
  lemma MissingFaceRisk(x: Face)
    requires !x.faceDetected && !x.spoofingDetected && !x.identityMismatchDetected
    requires !x.maskedFaceDetected && !x.expressionAnomaly
    ensures x.livenessDetected ==> FaceScore(x) == 40 && FaceRisk(x) == Medium
    ensures !x.livenessDetected ==> FaceScore(x) == 65 && FaceRisk(x) == High
  {
  }

  predicate FaceWorse(x: Face, x': Face) {
    (!x.faceDetected ==> !x'.faceDetected)
    && (x.spoofingDetected ==> x'.spoofingDetected)
    && (x.identityMismatchDetected ==> x'.identityMismatchDetected)
    && (!x.livenessDetected ==> !x'.livenessDetected)
    && (x.maskedFaceDetected ==> x'.maskedFaceDetected)
    && (x.expressionAnomaly ==> x'.expressionAnomaly)
  }

  lemma FaceRiskMonotone(x: Face, x': Face)
    requires FaceWorse(x, x')
    ensures FaceRisk(x).Rank() <= FaceRisk(x').Rank()
  {
    BandMonotone(FaceScore(x), FaceScore(x'));
  }

  // ---------------------------------------------------------------------------
  // The overall risk of one frame
  // ---------------------------------------------------------------------------

  /**
   * The overall level of the component levels: critical if any is critical,
   * else high for two or more high, medium for exactly one high, else low.
   */
  function OverallRisk(levels: seq<Risk>): (r: Risk)
    ensures r == Critical <==> Critical in levels
    ensures r == High <==> Critical !in levels && Count(levels, High) >= 2
    ensures r == Medium <==> Critical !in levels && Count(levels, High) == 1
    ensures r == Low <==> Critical !in levels && High !in levels
  {
    var critical := Count(levels, Critical);
    var high := Count(levels, High);
    if critical > 0 then Critical
    else if high > 1 then High
    else if high > 0 then Medium
    else Low
  }

  /** The overall level does not depend on the order of the components. */
  lemma OverallRiskIgnoresOrder(a: seq<Risk>, b: seq<Risk>)
    requires multiset(a) == multiset(b)
    ensures OverallRisk(a) == OverallRisk(b)
  {
    CountIsMultiplicity(a, Critical);
    CountIsMultiplicity(b, Critical);
    CountIsMultiplicity(a, High);
    CountIsMultiplicity(b, High);
  }

  /** One more component never lowers the overall level; a low or medium one never changes it. */
  lemma OverallRiskGrows(levels: seq<Risk>, x: Risk)
    ensures OverallRisk(levels).Rank() <= OverallRisk(levels + [x]).Rank()
    ensures x.Rank() <= 1 ==> OverallRisk(levels + [x]) == OverallRisk(levels)
  {
    CountAppend(levels, [x], Critical);
    CountAppend(levels, [x], High);
  }

  /** How one component of the frame ended: it raised (or was skipped), or it produced a record. */
  datatype Outcome<T> = Failed | Analysed(record: T)

  datatype Feature = EyeTracking | NoiseDetection | FaceRecognition

  /** The part of a frame's result the classifiers determine. */
  datatype FrameResult = FrameResult(
    featuresAnalyzed: seq<Feature>,
    eyeRisk: Option<Risk>,
    noiseRisk: Option<Risk>,
    faceRisk: Option<Risk>,
    overallRisk: Risk)

  function RiskOf<T>(o: Outcome<T>, classify: T -> Risk): (r: Option<Risk>)
    ensures r.Some? <==> o.Analysed?
  {
    match o
    case Failed => None
    case Analysed(x) => Some(classify(x))
  }

  function LevelList(r: Option<Risk>): seq<Risk> {
    match r
    case None => []
    case Some(l) => [l]
  }

  /** The features that ran, in the order the components run. */
  function FeatureList(eye: bool, noise: bool, face: bool): (l: seq<Feature>)
    ensures EyeTracking in l <==> eye
    ensures NoiseDetection in l <==> noise
    ensures FaceRecognition in l <==> face
  {
    When(eye, EyeTracking) + When(noise, NoiseDetection) + When(face, FaceRecognition)
  }

  /**
   * One advanced frame: eye tracking and face recognition always run; noise
   * detection runs only when audio came with the frame (`audio` is `None`
   * otherwise). A component that failed or was skipped lists no feature and
   * gives no level.
   */
  function ProcessAdvancedFrame(eye: Outcome<Gaze>, audio: Option<Outcome<Audio>>, face: Outcome<Face>): (r: FrameResult)
    ensures EyeTracking in r.featuresAnalyzed <==> eye.Analysed?
    ensures NoiseDetection in r.featuresAnalyzed <==> audio.Some? && audio.value.Analysed?
    ensures FaceRecognition in r.featuresAnalyzed <==> face.Analysed?
    ensures eye.Analysed? ==> r.eyeRisk == Some(EyeRisk(eye.record))
    ensures audio.Some? && audio.value.Analysed? ==> r.noiseRisk == Some(AudioRisk(audio.value.record))
    ensures face.Analysed? ==> r.faceRisk == Some(FaceRisk(face.record))
    ensures r.overallRisk == OverallRisk(LevelList(r.eyeRisk) + LevelList(r.noiseRisk) + LevelList(r.faceRisk))
  {
    var eyeRisk := RiskOf(eye, EyeRisk);
    var noiseRisk := if audio.Some? then RiskOf(audio.value, AudioRisk) else None;
    var faceRisk := RiskOf(face, FaceRisk);
    FrameResult(FeatureList(eyeRisk.Some?, noiseRisk.Some?, faceRisk.Some?),
      eyeRisk, noiseRisk, faceRisk,
      OverallRisk(LevelList(eyeRisk) + LevelList(noiseRisk) + LevelList(faceRisk)))
  }

  /** The analysed features are listed in the order the components run. */
  lemma FeaturesInRunOrder(eye: Outcome<Gaze>, audio: Option<Outcome<Audio>>, face: Outcome<Face>)
    ensures Subsequence(ProcessAdvancedFrame(eye, audio, face).featuresAnalyzed,
      [EyeTracking, NoiseDetection, FaceRecognition])
  {
    var r := ProcessAdvancedFrame(eye, audio, face);
    FeatureListInOrder(r.eyeRisk.Some?, r.noiseRisk.Some?, r.faceRisk.Some?);
  }

  lemma FeatureListInOrder(eye: bool, noise: bool, face: bool)
    ensures Subsequence(FeatureList(eye, noise, face), [EyeTracking, NoiseDetection, FaceRecognition])
  {
    var a := When(eye, EyeTracking);
    WhenSubsequence(eye, EyeTracking);
    WhenExtends(a, [EyeTracking], noise, NoiseDetection);
    WhenExtends(a + When(noise, NoiseDetection), [EyeTracking, NoiseDetection], face, FaceRecognition);
  }

  /** A frame whose three components all fail has low overall risk. */
  lemma FailedComponentsAreLow(audio: Option<Outcome<Audio>>)
    requires audio.None? || audio.value.Failed?
    ensures ProcessAdvancedFrame(Failed, audio, Failed).overallRisk == Low
    ensures ProcessAdvancedFrame(Failed, audio, Failed).featuresAnalyzed == []
  {
  }
}
