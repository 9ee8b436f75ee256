# Proctoring and learning rules of smart-learning-ai, in Dafny

This project models the decision logic of the smart-learning-ai backend, a FastAPI service that proctors online exams and tracks course progress. It is written in Dafny, and the properties the code promises are proved about the model. The parts covered are these:

- **Alert table** (`AlertCatalog.dfy`). This is the alert-type table with its severities, the severity scale, and the violation actions.
- **Violation detection** (`Detection.dfy`). It covers:
  - the two copies of the violation rules, one on stored snapshots and one on the live stream;
  - the integrity-score penalty fold;
  - the per-type violation aggregates;
  - the escalation decision;
  - the review recommendations.
- **Real-time manager** (`Realtime.dfy`). The `RealtimeProctoringManager` is modelled as a class. Its fields are the session, queue, socket and cache maps, and an outbox records every send attempt. Its methods cover:
  - frame intake on a bounded queue;
  - one analysis cycle;
  - broadcasts;
  - registration;
  - ending a session.
- **Judgment normalisation** (`Gemini.dfy`). This strips the AI reply's code fence and `json` tag, and supplies the three fallback verdicts.
- **Advanced proctoring** (`Advanced.dfy`). These are the flag builders and risk bands for eye, audio and face judgments, and the overall-risk rule.
- **Proctoring endpoints** (`Endpoints.dfy`). It covers:
  - the timeline merge and stable sort;
  - snapshot alert classification;
  - the idempotent start of a session;
  - snapshot upload;
  - proctor actions;
  - the two websocket message handlers.
- **Certificates and badges** (`Certificates.dfy`). It covers:
  - grade bands and the 60% pass mark;
  - certificate numbers and verification codes;
  - the badge table;
  - the badge award rules;
  - check-then-insert idempotence.
- **Course tracking** (`CourseTracking.dfy`). It covers:
  - completing a video watch at 80%;
  - field-by-field progress updates;
  - watch statistics;
  - the all-courses average.
- **Video storage** (`Storage.dfy`). This is the upload validator and the storage path of an uploaded course video.
- **Request guards** (`Dependencies.dfy`). These are pagination, the payload checks of the current user, and the role gates.

`Common.dfy` holds shared helpers: `Option`, counting, filtering and subsequences.

Across the model:

- Database tables are maps or sequences, held in classes where the source updates them in place.
- Ids, timestamps, AI verdicts and the outcomes of storage and database calls are parameters.
- Scores and weights in the proctoring code are integer hundredths.
- Percentages in the certificate and course code are exact reals.

## Model

| member | source | states |
|---|---|---|
| AlertCatalog.NamesAreDistinct | backend/app/models/proctoring.py:187-253 | Distinct alert types are stored under distinct keys of the table. |
| AlertCatalog.SeverityOf | backend/app/models/proctoring.py:187-253 | A type's severity is critical exactly for no_face_detected and multiple_faces_detected. |
| AlertCatalog.TypeOf | backend/app/models/proctoring.py:187-253 | A lookup by key that finds a type finds the one whose name is the key. |
| AlertCatalog.TypeOfName | backend/app/models/proctoring.py:187-253 | Every one of the thirteen types is found under its own name. |
| AlertCatalog.TypeOfEarlierName | backend/app/models/proctoring.py:187-222 | Each of the first seven types is found under its own name. |
| AlertCatalog.TypeOfLaterName | backend/app/models/proctoring.py:223-253 | Each of the last six types is found under its own name. |
| AlertCatalog.TypeOfLastName | backend/app/models/proctoring.py:238-253 | Lighting change, posture anomaly and reading from paper are each found under their own names. |
| AlertCatalog.TableKeysAreTheTypeNames | backend/app/models/proctoring.py:187-253 | The table has a row for a key exactly when some alert type has that name. |
| AlertCatalog.Row | backend/app/models/proctoring.py:187-253 | The row under a key exists exactly when the key names a type, and it is that type's severity, description and recommendation. |
| AlertCatalog.AlertConfigFor | backend/app/services/proctoring_service.py:273-280 | The snapshot path uses the table row when there is one, and otherwise falls back to medium, "Unknown violation" and "Manual review required". |
| AlertCatalog.LiveAlertConfigFor | backend/app/services/proctoring_service.py:920-931 | The live path uses the table row when there is one, and otherwise medium severity with empty texts. |
| AlertCatalog.TableRowOf | backend/app/models/proctoring.py:187-253 | A lookup by any type's own name finds its row, so neither path ever falls back for a type the detectors emit. |
| AlertCatalog.SeverityLevelsAreTheNames | backend/app/models/proctoring.py:255 | The severity scale holds exactly the four level names, and every table severity is on it. |
| AlertCatalog.CriticalTypesAreTheFaceCountTypes | backend/app/models/proctoring.py:188-197 | A row is critical exactly when its key is no_face_detected or multiple_faces_detected. |
| AlertCatalog.TableSeveritiesOfRelabelledTypes | backend/app/models/proctoring.py:198-201 | The table makes excessive_head_movement high and tab_switching_detected medium. |
| AlertCatalog.OneActionPerSeverity | backend/app/models/proctoring.py:257-262 | The action table has a key exactly for each severity level, distinct levels get distinct actions, and critical maps to terminate_immediately. |
| AlertCatalog.DefaultsWithinBounds | backend/app/models/proctoring.py:18 | The integrity score defaults to 1.0, and it and the snapshot's two scores lie in [0,1]. |
| Detection.DetectViolationsMembers | backend/app/services/proctoring_service.py:216-249 | A type is in the snapshot detector's output exactly when its rule's judgments hold. |
| Detection.DetectViolations | backend/app/services/proctoring_service.py:216-249 | At most eight types: one face rule and seven flag rules. Which types appear is stated by DetectViolationsMembers and DetectViolationsRules. |
| Detection.DetectViolationsRules | backend/app/services/proctoring_service.py:216-249 | The snapshot detector reports a type exactly when the reference rule table says it fires. |
| Detection.DetectViolationsFromAnalysisRules | backend/app/services/proctoring_service.py:877-909 | The live detector reports a type exactly when its rule fires on a face count defaulting to 0, and never reports the lighting type. |
| Detection.DetectViolationsFromAnalysis | backend/app/services/proctoring_service.py:877-909 | At most seven types, with no lighting rule. Which types appear is stated by DetectViolationsFromAnalysisRules. |
| Detection.FaceCountRules | backend/app/services/proctoring_service.py:216-222 | no_face_detected is reported exactly at 0 faces and multiple_faces_detected exactly above 1, never both. |
| Detection.FaceRuleSubsequence | backend/app/services/proctoring_service.py:216-222 | The face-count rule yields at most one of its two types, in rule order. |
| Detection.RuleOrderHasNoDuplicates | backend/app/services/proctoring_service.py:216-249 | The nine rules name nine different types. |
| Detection.FirstRulesInOrder | backend/app/services/proctoring_service.py:216-233 | The first four rules emit their types in rule order. |
| Detection.LastRulesInOrder | backend/app/services/proctoring_service.py:235-249 | The last four rules keep rule order after any prefix that does. |
| Detection.DetectViolationsInRuleOrder | backend/app/services/proctoring_service.py:202-251 | The snapshot detector's output is the rule list with the rules that did not fire deleted. |
| Detection.DetectViolationsNoDuplicates | backend/app/services/proctoring_service.py:202-251 | The snapshot detector reports each type at most once. |
| Detection.LiveDetectorMatchesSnapshotDetector | backend/app/services/proctoring_service.py:877-909 | The live detector is the snapshot detector with the lighting judgments cleared and a missing face count read as 0. |
| Detection.RecordViolation | backend/app/services/proctoring_service.py:327-374 | The first occurrence of a type creates counts 1 and 1 with the table severity. A later one adds 1 to both counts and moves only the last occurrence. Every other aggregate is unchanged. |
| Detection.RecordViolationKeepsCountsAgree | backend/app/services/proctoring_service.py:342-351 | Since nothing resets consecutive_count, it stays equal to total_count. |
| Detection.RecordAllCounts | backend/app/services/proctoring_service.py:327-374 | After a run of occurrences, a type has an aggregate exactly when it occurred, and both of its counts equal its number of occurrences. |
| Detection.CreateAlert | backend/app/services/proctoring_service.py:254-325 | The alert is appended for its session and snapshot with status "unreviewed". It carries the table's severity, description and recommendation, or the medium "Unknown violation" / "Manual review required" fallback. The alert count map gains one for this session, from 0 when missing, and no other entry changes. The aggregate is recorded |
| Detection.Penalty | backend/app/services/proctoring_service.py:389-399 | Each alert's penalty is between 0.01 and 0.3, and an unknown severity costs 0.05. |
| Detection.ClampUnit | backend/app/services/proctoring_service.py:401-402 | The clamp lands in [0,1], keeps scores already there, and maps negatives to 0. |
| Detection.UpdateSessionIntegrity | backend/app/services/proctoring_service.py:377-407 | The loop computes 1.0 minus the summed penalties, clamped to [0,1]. |
| Detection.PenaltySumAppend | backend/app/services/proctoring_service.py:395-399 | Penalties add up over concatenated alert lists. |
| Detection.PenaltySumAtLeastLength | backend/app/services/proctoring_service.py:389-399 | Every alert costs at least 0.01. |
| Detection.IntegrityNeverRises | backend/app/services/proctoring_service.py:377-407 | Appending alerts never raises the score, and the score is 1.0 exactly when there are no alerts. |
| Detection.IntegrityScore | backend/app/services/proctoring_service.py:377-407 | The score lies between 0 and 1.0, and it is 1.0 exactly when there are no alerts. |
| Detection.IntegrityFloor | backend/app/services/proctoring_service.py:395-402 | Penalties totalling at least 1.0 give a score of 0. |
| Detection.CheckEscalationCases | backend/app/services/proctoring_service.py:945-964 | The four outcomes in priority order, with strict comparisons: a critical type, then more than 5 alerts, then a streak above 3, otherwise none. |
| Detection.CheckEscalation | backend/app/services/proctoring_service.py:945-964 | No escalation exactly when there is no critical type, at most 5 alerts and a streak of at most 3. A critical type always wins. |
| Detection.CriticalViolationsAreTheCriticalTypes | backend/app/services/proctoring_service.py:954-956 | The escalation check's hard-coded list is exactly the table's critical types. |
| Detection.EscalationMonotone | backend/app/services/proctoring_service.py:945-964 | More alerts or a longer streak never cancel an escalation. |
| Detection.CountSeverityPositive | backend/app/services/proctoring_service.py:606-608 | The critical count is positive exactly when some alert has that severity. |
| Detection.CountTypePositive | backend/app/services/proctoring_service.py:610-620 | A type count is positive exactly when some alert has that type. |
| Detection.AdviceMembers | backend/app/services/proctoring_service.py:604-627 | Each optional recommendation is present exactly when its condition holds, and the default is never among them. |
| Detection.RecommendationsSpec | backend/app/services/proctoring_service.py:601-630 | The list is never empty, each recommendation appears exactly when some alert calls for it, and the default appears alone exactly when none applies. |
| Detection.Recommendations | backend/app/services/proctoring_service.py:601-630 | One to five recommendations. Which ones is stated by RecommendationsSpec. |
| Realtime.EnqueueDropOldest | backend/app/services/proctoring_service.py:712-722 | The new frame is always last. The queue is the old queue plus the frame, minus its oldest entries. A queue within the bound grows by one up to 20 and then stays at 20. |
| Realtime.EnqueueKeepsBound | backend/app/services/proctoring_service.py:712-722 | A queue of at most 20 frames stays within 20, and below 20 nothing is dropped. |
| Realtime.FrameTimestamp | backend/app/services/proctoring_service.py:720 | A given non-empty timestamp is kept; a missing or empty one becomes the arrival time. |
| Realtime.Put | backend/app/services/proctoring_service.py:1125 | A user already registered keeps their place with the new connection. A new user is appended, and no other entry changes. |
| Realtime.PutKeepsUsersDistinct | backend/app/services/proctoring_service.py:1125 | The student registry keeps one entry per user. |
| Realtime.Remove | backend/app/services/proctoring_service.py:1130-1131 | Exactly the user's entry goes, and the others keep their order. |
| Realtime.Attempts | backend/app/services/proctoring_service.py:1046-1050 | A broadcast makes one attempt per registered connection. |
| Realtime.AttemptsIsolateFailures | backend/app/services/proctoring_service.py:1039-1063 | Each connection is tried once, in order, with the same message. An attempt fails exactly when its connection is gone, and one more failing connection changes no other attempt. |
| Realtime.AttemptsAppend | backend/app/services/proctoring_service.py:1039-1063 | Broadcasting to two lists is broadcasting to the first and then to the second. |
| Realtime.LastFive | backend/app/services/proctoring_service.py:1154 | The recent alerts are the last five of the cache, or all of them when there are fewer. |
| Realtime.LiveAlertFor | backend/app/services/proctoring_service.py:920-935 | A live alert carries its type, session and "unreviewed" status, and is critical exactly for the two face-count types. |
| Realtime.LiveAlertUsesTheTable | backend/app/services/proctoring_service.py:920-927 | The live alert's severity is the one the table lookup by type name finds. |
| Realtime.AlertsFor | backend/app/services/proctoring_service.py:768-777 | The frame's alerts are one per violation, in the violations' order. |
| Realtime.Escalated | backend/app/services/proctoring_service.py:969-971 | Recording an escalation keeps a live session live. |
| Realtime.AddCounts | backend/app/services/proctoring_service.py:811-812 | Adding a frame's counts keeps a live session live. |
| Realtime.Counted | backend/app/services/proctoring_service.py:785-812 | The per-frame record update keeps a live session live. |
| Realtime.NextStreak | backend/app/services/proctoring_service.py:779-782 | The single streak counter goes up by one after a frame with any violation and back to 0 otherwise. |
| Realtime.UpdateLiveSession | backend/app/services/proctoring_service.py:785-812 | Replacing a live session record and its cache entry keeps every session with its queue. |
| Realtime.Manager.constructor | backend/app/services/proctoring_service.py:638-653 | All registries start empty. |
| Realtime.Manager.InitializeSession | backend/app/services/proctoring_service.py:655-698 | A session starts "active" with zero counters, integrity 1.0 (kept as 100 hundredths) and an empty queue, and the session table marks it "active". |
| Realtime.Manager.ProcessFrame | backend/app/services/proctoring_service.py:700-734 | An unknown session gives "Session not found" and changes nothing. Otherwise the frame is queued, dropping the oldest at 20. frames_captured rises by 1 and is returned with the queue size. The session tables stay consistent. |
| Realtime.Manager.BroadcastToSession | backend/app/services/proctoring_service.py:1039-1050 | The outbox gains exactly one attempt per student connection of the session, in registry order, and none when it has no registry. |
| Realtime.Manager.BroadcastToProctors | backend/app/services/proctoring_service.py:1052-1063 | The outbox gains exactly one attempt per proctor connection, in order. |
| Realtime.Manager.CreateViolationAlert | backend/app/services/proctoring_service.py:911-943 | The alert is built from the table and appended to the session's cache. |
| Realtime.Manager.EscalateSession | backend/app/services/proctoring_service.py:966-984 | Only the reason is stored. The proctors get an escalation alert, and only a critical reason also warns the students; status and integrity are untouched. |
| Realtime.Manager.SendEscalation | backend/app/services/proctoring_service.py:975-984 | The proctors get the escalation alert first. The students get the termination warning next, and only for a critical violation. |
| Realtime.Manager.CreateViolationAlerts | backend/app/services/proctoring_service.py:768-777 | One alert per violation, in order, appended to the cache; no violations leave the cache as it was. |
| Realtime.Manager.ReportFrame | backend/app/services/proctoring_service.py:798-808 | The proctors get the frame's alerts if there are any, and then the students get the status update. |
| Realtime.Manager.CountFrame | backend/app/services/proctoring_service.py:811-812 | alerts_generated and violations_detected grow by the frame's counts. |
| Realtime.Manager.FinishFrame | backend/app/services/proctoring_service.py:798-812 | The frame is reported, and then the counters grow by its alerts. |
| Realtime.Manager.RaiseAlerts | backend/app/services/proctoring_service.py:767-796 | The alerts are raised first. Escalation then sees the stored alert count plus this frame's alerts, and its deliveries follow. |
| Realtime.FrameEscalation | backend/app/services/proctoring_service.py:780-792 | A clean frame resets the streak, so it escalates only for more than five stored alerts. A face-count violation always escalates as critical. |
| Realtime.Manager.HandleViolations | backend/app/services/proctoring_service.py:764-812 | One pass after detection covers the streak, the escalation decided on the pre-frame counts plus this frame's, the alert and status broadcasts in that order, and the counters. |
| Realtime.Manager.AnalyseFrame | backend/app/services/proctoring_service.py:764-812 | Handling a frame's violations keeps the session tables consistent. The record and the sends are as HandleViolations states. The cache map changes only in this session's entry, which gains the frame's alerts, and does not change at all for a clean frame |
| Realtime.Manager.AnalyzeNextFrame | backend/app/services/proctoring_service.py:736-821 | The loop ends once the session is gone. An empty queue sends only the camera warning. A failed analysis only consumes the frame. Otherwise the live detector's violations drive the pass above, and the cache map changes only in this session's entry |
| Realtime.Manager.EndSession | backend/app/services/proctoring_service.py:1065-1116 | An unknown id gives "Session not found" and changes nothing. A known one stores the reason as status, sends session_ended to the students, removes the id from all five maps, and reports frames_captured and alerts_generated. A second call therefore errs. |
| Realtime.Manager.ForgetSession | backend/app/services/proctoring_service.py:1099-1109 | The session is removed from the live records, the queues, both connection maps and the alert cache, keeping the tables consistent. |
| Realtime.Manager.RegisterWebsocket | backend/app/services/proctoring_service.py:1118-1126 | The connection is stored under its user in the session's registry, replacing an earlier one. |
| Realtime.Manager.UnregisterWebsocket | backend/app/services/proctoring_service.py:1128-1132 | The user's connection is dropped if the session has a registry, and otherwise nothing changes. |
| Realtime.Manager.RegisterProctorWebsocket | backend/app/services/proctoring_service.py:1134-1137 | The proctor connection is appended at the end of the session's list. |
| Realtime.Manager.GetSessionStatus | backend/app/services/proctoring_service.py:1139-1155 | An unknown id gives "Session not found". Otherwise the status reports the session id, the record's status, frames captured, alerts generated, violations detected and integrity, with the last five cached alerts |
| Realtime.Manager.CloseConnection | backend/app/services/proctoring_service.py:1047-1050 | A connection that goes away makes later sends to it fail. |
| Realtime.RemoveKeepsUsersDistinct | backend/app/services/proctoring_service.py:1130-1131 | Unregistering keeps one entry per user. |
| Realtime.SubsequenceUsers | backend/app/services/proctoring_service.py:1130-1131 | Deleting entries from a registry deletes their users from its user list. |
| Gemini.TrimStart | backend/app/core/gemini_client.py:79 | Leading whitespace is dropped: the result is a suffix of the input that does not start with whitespace. |
| Gemini.TrimEnd | backend/app/core/gemini_client.py:79 | Trailing whitespace is dropped: the result is a prefix of the input that does not end with whitespace. |
| Gemini.TrimStartDropsSpace | backend/app/core/gemini_client.py:79 | What lstrip removes is all whitespace. |
| Gemini.TrimEndDropsSpace | backend/app/core/gemini_client.py:79 | What rstrip removes is all whitespace. |
| Gemini.StripShape | backend/app/core/gemini_client.py:79 | strip() returns a slice of the input. Everything cut from either side is whitespace, and neither end of a non-empty result is whitespace. |
| Gemini.Strip | backend/app/core/gemini_client.py:79 | The result is no longer than the input, and neither end of a non-empty result is whitespace. |
| Gemini.StripIdempotent | backend/app/core/gemini_client.py:79-85 | Stripping twice is stripping once. |
| Gemini.StripPadded | backend/app/core/gemini_client.py:79-85 | Whitespace added around a text does not change its strip(). |
| Gemini.FindFence | backend/app/core/gemini_client.py:82 | A fence that is found lies at or after the starting point and really is a fence. |
| Gemini.FindFenceFirst | backend/app/core/gemini_client.py:82 | No fence lies before the one found, and none at all when none is found. So the split piece ends at the first closing fence. |
| Gemini.FindFenceIs | backend/app/core/gemini_client.py:82 | The first fence after the starting point is the one reported. |
| Gemini.FenceBody | backend/app/core/gemini_client.py:81-82 | The second piece of split("```") runs from the opening fence to the next fence, or to the end when there is none. |
| Gemini.Unfence | backend/app/core/gemini_client.py:81-84 | A text without a leading fence is kept. A fenced one loses at least the opening fence. |
| Gemini.NormaliseReply | backend/app/core/gemini_client.py:79-85 | The text handed to the parser is no longer than the reply and is stripped at both ends. |
| Gemini.NormaliseUnfenced | backend/app/core/gemini_client.py:79-85 | A reply that does not start with a fence once stripped is only stripped. |
| Gemini.NormaliseFencedJson | backend/app/core/gemini_client.py:79-85 | A reply wrapped as a ```json block with no fence inside gives back exactly the stripped block contents. |
| Gemini.FencedJsonCloses | backend/app/core/gemini_client.py:82 | In such a block, the closing fence is the first fence after the opening one. |
| Gemini.ImagePayload | backend/app/core/gemini_client.py:46-48 | Data without a comma is kept. With a comma, the piece kept is comma-free. |
| Gemini.ImagePayloadOfDataUrl | backend/app/core/gemini_client.py:46-48 | A data URL "prefix,payload" gives back exactly the payload. |
| Gemini.FromReply | backend/app/core/gemini_client.py:99-106 | Each top-level field is read from the parsed object with its default: one face, confidence 0.7 and false flags. The parsed object is kept |
| Gemini.AnalyzeProctoringImage | backend/app/core/gemini_client.py:19-117 | Without a model, the safe verdict at 0.8 with the note. A raised call gives the safe verdict at 0.5 with the error. A reply that is not JSON gives the safe verdict at 0.7 with the raw text. JSON that is not an object makes `.get` raise, so it gives the safe verdict at 0.5 with that error. An object gives its fields. A verdict is either parsed or safe, and the 0.5 verdict comes exactly from a raised call or a non-object reply |
| Gemini.JudgmentOf | backend/app/core/gemini_client.py:99-106 | Only the unconfigured verdict, whose analysis is a string, has no judgment. Every other verdict passes its face count on. |
| Gemini.FallbacksRaiseNothing | backend/app/core/gemini_client.py:88-117 | A failed call, a reply that is not JSON, or a non-object reply never raises a live violation |
| Gemini.ParsedReplyReachesRules | backend/app/core/gemini_client.py:99-106 | A live violation is raised from a parsed reply exactly when its rule fires on the reply's face count (default one) and flags. Lighting never fires. |
| Advanced.Band | backend/app/services/advanced_proctoring.py:189-196 | A score above 0.7 is critical, above 0.5 high and above 0.3 medium, otherwise low, each an if-and-only-if. |
| Advanced.BandMonotone | backend/app/services/advanced_proctoring.py:189-196 | A higher score never gives a lower band. |
| Advanced.EyeFlagsMembers | backend/app/services/advanced_proctoring.py:137-166 | A gaze flag is listed exactly when its condition holds. Stability below 0.5 and pupil difference above 0.2 are the strict thresholds. |
| Advanced.EyeFlags | backend/app/services/advanced_proctoring.py:137-166 | The listed flags are exactly those of the fixed order whose condition holds. |
| Advanced.EyeFlagsInOrder | backend/app/services/advanced_proctoring.py:137-166 | The gaze flags come in the checks' order, each at most once. |
| Advanced.RepeatedGlancesAlone | backend/app/services/advanced_proctoring.py:145-146 | Repeated glances alone raise exactly two flags. They are the glance flag and, after the others, the cheating-indicator flag. |
| Advanced.EyeScore | backend/app/services/advanced_proctoring.py:169-188 | The eye score never exceeds 0.9. |
| Advanced.EyeRiskMonotone | backend/app/services/advanced_proctoring.py:169-196 | More gaze risk conditions never lower the eye risk level. |
| Advanced.EyeRisk | backend/app/services/advanced_proctoring.py:169-196 | Off-screen gaze with repeated glances is at least high. Gaze on screen without repeated glances is at most medium. |
| Advanced.OffScreenAloneIsLow | backend/app/services/advanced_proctoring.py:174-196 | Off-screen gaze alone scores 0.3, which is low because the medium cut is strict. |
| Advanced.AudioFlagsMembers | backend/app/services/advanced_proctoring.py:356-385 | An audio flag is listed exactly when its condition holds. Several speakers count only while speech is detected. |
| Advanced.AudioFlags | backend/app/services/advanced_proctoring.py:356-385 | The listed flags are exactly those of the fixed order whose condition holds. |
| Advanced.AudioFlagsInOrder | backend/app/services/advanced_proctoring.py:356-385 | The audio flags come in the checks' order, each at most once. |
| Advanced.SilentAudioRaisesNothing | backend/app/services/advanced_proctoring.py:356-385 | A recording whose judgments are all false raises no flag, whatever its speaker count. |
| Advanced.AudioScore | backend/app/services/advanced_proctoring.py:387-407 | The audio score never exceeds 1.05. |
| Advanced.AudioIgnoresRoomSounds | backend/app/services/advanced_proctoring.py:356-415 | Keyboard, mouse, door and footstep sounds change neither the flags nor the risk. |
| Advanced.AudioRiskMonotone | backend/app/services/advanced_proctoring.py:387-415 | More audio risk conditions never lower the audio risk level. |
| Advanced.AudioRisk | backend/app/services/advanced_proctoring.py:387-415 | Several speakers with suspected outside communication is at least high. With neither, the risk is at most medium. |
| Advanced.FaceFlagsMembers | backend/app/services/advanced_proctoring.py:595-630 | A face flag is listed exactly when its condition holds. |
| Advanced.FaceFlags | backend/app/services/advanced_proctoring.py:595-630 | The listed flags are exactly those of the fixed order whose condition holds. |
| Advanced.FaceFlagsInOrder | backend/app/services/advanced_proctoring.py:595-630 | The face flags come in the checks' order, each at most once. |
| Advanced.ObscuredFaceFlaggedOnce | backend/app/services/advanced_proctoring.py:618-619 | A masked face, a covered face or both give the obscured-face flag exactly once. |
| Advanced.FaceScore | backend/app/services/advanced_proctoring.py:633-655 | The face score never exceeds 1.55. |
| Advanced.MissingFaceRisk | backend/app/services/advanced_proctoring.py:633-663 | A missing face alone scores 0.4 and is medium. Without liveness as well it scores 0.65 and is high. |
| Advanced.FaceRiskMonotone | backend/app/services/advanced_proctoring.py:633-663 | More face risk conditions never lower the face risk level. |
| Advanced.FaceRisk | backend/app/services/advanced_proctoring.py:633-663 | Spoofing with an identity mismatch is at least high. A live, matching, unspoofed face is low, whatever the mask and expression. |
| Advanced.OverallRisk | backend/app/services/advanced_proctoring.py:813-833 | Critical if any component is, high for two or more highs, medium for exactly one, else low; each an if-and-only-if. |
| Advanced.OverallRiskIgnoresOrder | backend/app/services/advanced_proctoring.py:813-833 | The overall level does not depend on the order of the components. |
| Advanced.OverallRiskGrows | backend/app/services/advanced_proctoring.py:813-833 | One more component never lowers the overall level, and a low or medium one never changes it. |
| Advanced.RiskOf | backend/app/services/advanced_proctoring.py:813-819 | A component contributes a level exactly when it was analysed. |
| Advanced.ProcessAdvancedFrame | backend/app/services/advanced_proctoring.py:769-836 | A feature is listed exactly when its component ran and succeeded, with audio only when given. Each analysed component's risk is its classifier's. The overall risk combines exactly the present levels. |
| Advanced.FeatureList | backend/app/services/advanced_proctoring.py:779-807 | Each feature is listed exactly when its component produced a level. |
| Advanced.FeaturesInRunOrder | backend/app/services/advanced_proctoring.py:778-810 | The analysed features are listed in the order the components run. |
| Advanced.FailedComponentsAreLow | backend/app/services/advanced_proctoring.py:778-833 | When every component fails, no feature is listed and the overall risk is low. |
| Endpoints.LexLeReflexive | backend/app/api/v1/endpoints/proctoring.py:414 | The string order the timeline sorts by is reflexive. |
| Endpoints.LexLeTotal | backend/app/api/v1/endpoints/proctoring.py:414 | Any two timestamps are comparable. |
| Endpoints.LexLeTransitive | backend/app/api/v1/endpoints/proctoring.py:414 | The order is transitive. |
| Endpoints.Tagged | backend/app/api/v1/endpoints/proctoring.py:397-411 | Each row becomes one entry of its kind, at the same position, stamped with the row's time. |
| Endpoints.OfTimeAppend | backend/app/api/v1/endpoints/proctoring.py:414 | The entries of one timestamp in a concatenation are those of each part, in order. |
| Endpoints.OfTimeSnoc | backend/app/api/v1/endpoints/proctoring.py:414 | Appending one entry adds it to its own timestamp's entries only. |
| Endpoints.InsertPermutes | backend/app/api/v1/endpoints/proctoring.py:414 | Inserting an entry adds exactly that entry. |
| Endpoints.InsertSorted | backend/app/api/v1/endpoints/proctoring.py:414 | Inserting into a sorted list keeps it sorted. |
| Endpoints.InsertStable | backend/app/api/v1/endpoints/proctoring.py:414 | The inserted entry goes after every entry with an equal timestamp. |
| Endpoints.SortPermutes | backend/app/api/v1/endpoints/proctoring.py:414 | Sorting is a permutation. |
| Endpoints.SortSorts | backend/app/api/v1/endpoints/proctoring.py:414 | Sorting leaves the timestamps non-decreasing. |
| Endpoints.SortByTimestamp | backend/app/api/v1/endpoints/proctoring.py:414 | The sort keeps the number of entries. SortPermutes, SortSorts and SortIsStable state the rest. |
| Endpoints.SortIsStable | backend/app/api/v1/endpoints/proctoring.py:414 | Sorting is stable: entries with one timestamp keep their input order. |
| Endpoints.BuildTimeline | backend/app/api/v1/endpoints/proctoring.py:393-416 | The timeline holds exactly the tagged snapshots and alerts and is sorted by timestamp. On equal timestamps the snapshots come first and each kind keeps its order. |
| Endpoints.ClassifySnapshotAlert | backend/app/api/v1/endpoints/proctoring.py:162-175 | An alert is raised iff any flag is set. Missing face comes first, then several faces, both "high"; then suspicious activity, "medium". Each case is an if-and-only-if. |
| Endpoints.FallbackVerdictsRaiseNoSnapshotAlert | backend/app/api/v1/endpoints/proctoring.py:142-162 | No snapshot alert comes from a missing model, a failed call, or a reply that is not a JSON object |
| Endpoints.SnapshotAlertFollowsReply | backend/app/api/v1/endpoints/proctoring.py:142-175 | A parsed reply raises an alert exactly when one of its three flags is true. It is a missing-face alert exactly when the reply says so, and a face count alone raises nothing. |
| Endpoints.SnapshotAlertsBypassTheTable | backend/app/api/v1/endpoints/proctoring.py:162-175 | The snapshot path files face alerts as "high", where the alert table makes the same conditions "critical". Its type names are not keys of that table. |
| Endpoints.SessionOfAttempt | backend/app/api/v1/endpoints/proctoring.py:62-71 | A session found belongs to the attempt. None is found exactly when no row has that attempt. |
| Endpoints.SessionById | backend/app/api/v1/endpoints/proctoring.py:107-115 | A session found has that id. None is found exactly when no row has it. |
| Endpoints.SessionOfAttemptKeeps | backend/app/api/v1/endpoints/proctoring.py:62-71 | A later row does not change the session found for an attempt. |
| Endpoints.SessionOfAttemptAfterNone | backend/app/api/v1/endpoints/proctoring.py:62-85 | Once inserted, a new session is the one found for its attempt. |
| Endpoints.SessionOfAttemptFirstMatch | backend/app/api/v1/endpoints/proctoring.py:67-71 | The lookup returns the first row of the attempt. |
| Endpoints.Bump | backend/app/api/v1/endpoints/proctoring.py:187-215 | The increment adds one to its own counter, with missing counting as 0, and changes no other. |
| Endpoints.VerdictKeys | backend/app/api/v1/endpoints/proctoring.py:165 | The verdict has no "description" key. |
| Endpoints.SnapshotAlertRows | backend/app/api/v1/endpoints/proctoring.py:161-184 | Corrected: at most one alert row, present exactly when the verdict alerts, for this session and snapshot, classified as above. |
| Endpoints.SnapshotAlertRowsAsWritten | backend/app/api/v1/endpoints/proctoring.py:157-184 | As written, the step raises exactly when the verdict alerts, and otherwise adds no row. |
| Endpoints.NoFaceReplyRaisesAsWritten | backend/app/api/v1/endpoints/proctoring.py:157-165 | A parsed "no face" reply makes the written step raise, where the corrected step files one "high" no-face row. |
| Endpoints.Database.constructor | backend/app/api/v1/endpoints/proctoring.py:36-231 | The tables start empty apart from the given attempts. |
| Endpoints.Database.CreateProctoringSession | backend/app/api/v1/endpoints/proctoring.py:36-94 | A missing attempt is 404 and someone else's is 403. An attempt that has a session gets it back. Otherwise exactly one "active" row is appended. The only change is to sessions, and afterwards the attempt's session is the one returned. |
| Endpoints.Database.UploadSnapshot | backend/app/api/v1/endpoints/proctoring.py:96-231 | Corrected: 404 or 403 changes nothing. A base64 decode or storage upload that raises gives 500 "Failed to upload snapshot: " plus its error and changes nothing. Otherwise exactly the image, the snapshot row and the alert row (for an alerting verdict) are added. The two alert counters are bumped only when alerting, and the snapshot counter always. |
| Endpoints.Database.UploadSnapshotAsWritten | backend/app/api/v1/endpoints/proctoring.py:96-143 | As written, an authorised upload whose decode or storage upload raises fails with 500 "Failed to upload snapshot: " plus that error and stores nothing. Otherwise it stores the image and then fails with 500 "name 'gemini_client' is not defined". No upload ever succeeds. |
| Endpoints.ProctorMessage | backend/app/api/v1/endpoints/proctoring.py:498-504 | The message sent for an action is "proctor_" followed by the action. |
| Endpoints.SocketUser | backend/app/api/v1/endpoints/proctoring.py:534 | A non-empty token names the user, otherwise the default. |
| Endpoints.SendProctorAction | backend/app/api/v1/endpoints/proctoring.py:484-517 | An unknown action is 400 and changes nothing. "warn" and "escalate" are sent to every student connection, and no other manager state changes. "terminate" ends a live session, sending only session_ended and forgetting every per-session entry. For an unknown session it changes nothing. The closed connections never change |
| Endpoints.AckOf | backend/app/api/v1/endpoints/proctoring.py:552-556 | The frame acknowledgement carries status "received" and the queue size, both null after an error. |
| Endpoints.OpenStudentSocket | backend/app/api/v1/endpoints/proctoring.py:521-537 | The connection is registered under the token's user, or "student-default": the session's registry becomes `Put` of it and every other session's registry is unchanged. The one-connection-per-user invariant is kept. |
| Endpoints.HandleStudentMessage | backend/app/api/v1/endpoints/proctoring.py:539-563 | A frame to a live session makes that session's queue `EnqueueDropOldest` of the old one (oldest dropped beyond 20), counts it, and is acknowledged with the queue size. No other session's queue or record changes. A frame to an unknown session is acknowledged with nulls and changes nothing. A ping gets a pong. Anything else gets no reply and changes nothing. |
| Endpoints.CloseStudentSocket | backend/app/api/v1/endpoints/proctoring.py:565-567 | A disconnect makes the session's registry `Remove` of the user, other users keeping their order, and leaves every other session's registry alone. A session without a registry is unchanged. Afterwards the user has no connection there. |
| Endpoints.OpenDashboard | backend/app/api/v1/endpoints/proctoring.py:578-598 | The proctor connection is appended to that session's list and no other list changes. The manager invariant is kept. The connection gets the session status, an error exactly for an unknown session. |
| Endpoints.HandleDashboardMessage | backend/app/api/v1/endpoints/proctoring.py:600-630 | A ping gets a pong and changes nothing. A valid command is sent to the students, and "terminate" then ends a live session and forgets every per-session entry. Otherwise only the sends are added. Anything else is ignored. The closed connections never change |
| Certificates.CalculateGrade | backend/app/services/certificate_service.py:505-523 | F exactly below 60. Any other grade's floor is at most the percentage, and the percentage is below the next floor (five points up) unless the grade is A+. |
| Certificates.GradeMonotone | backend/app/services/certificate_service.py:505-523 | A higher percentage never gets a lower grade. |
| Certificates.GradeBoundaries | backend/tests/test_certificates.py:136-160 | Each band edge is the first percentage of its grade, and one point below it gives the grade beneath, from 100 down to 0. |
| Certificates.Upper | backend/app/services/certificate_service.py:120-121 | Upper-casing keeps the length and maps each character. |
| Certificates.CertificateNumber | backend/app/services/certificate_service.py:120 | The number is the prefix, then the date, then a dash, then the first eight hex digits of the uuid in upper case |
| Certificates.VerificationCode | backend/app/services/certificate_service.py:121 | The code is 25 characters: "VER-", the first eight characters of the certificate id, a dash and twelve upper-case hex digits. |
| Certificates.BadgeDefOf | backend/app/services/certificate_service.py:19-76 | Every badge has a name, a description and an icon. The milestones are exactly first course, consistency and time investor. |
| Certificates.BadgeOfKey | backend/app/services/certificate_service.py:342-345 | A key that is found names that badge. |
| Certificates.BadgeOfOwnKey | backend/app/services/certificate_service.py:19-76 | Every badge's own key finds it, so the table has exactly the eight keys. |
| Certificates.BadgeTableIsWellFormed | backend/app/services/certificate_service.py:19-76 | Every category is milestone or achievement, and every criteria type is one of the seven documented ones. |
| Certificates.FindCertificate | backend/app/services/certificate_service.py:104-106 | A certificate found has this user, kind and target. None is found exactly when there is none. |
| Certificates.FindBadge | backend/app/services/certificate_service.py:348-350 | A badge row found has this user and badge. None is found exactly when the user lacks the badge. |
| Certificates.Grant | backend/app/services/certificate_service.py:347-375 | After granting, the user has the badge. A held badge leaves the rows unchanged, otherwise exactly one row with the table's name and category is appended. |
| Certificates.GrantKeepsBadgesUnique | backend/app/services/certificate_service.py:347-375 | Granting keeps one row per user and badge and keeps every old row, and granting again changes nothing. |
| Certificates.CountAbove | backend/app/services/certificate_service.py:306-309 | The count is the number of the user's certificates whose percentage is present and above the bound, so it never exceeds the number of certificates. |
| Certificates.CourseCertificateCount | backend/app/services/certificate_service.py:266-268 | The count is the number of the user's course-completion certificates, so it never exceeds the number of certificates. |
| Certificates.CountsOfAppend | backend/app/services/certificate_service.py:262-328 | A new certificate adds one to a count exactly when it matches that count's filter. |
| Certificates.CourseCertificatesDoNotCountAbove | backend/app/services/certificate_service.py:306-309 | A course certificate has no percentage, so it never counts towards the score-based badges. |
| Certificates.HighAchieverCheckKeeps | backend/app/services/certificate_service.py:303-315 | The high-achiever check grants no other badge. |
| Certificates.HighAchieverCheck | backend/app/services/certificate_service.py:303-315 | Only adds rows. The user holds the high-achiever badge afterwards exactly when it was held or five of their certificates are above 84. |
| Certificates.ExcellenceCheck | backend/app/services/certificate_service.py:317-328 | Only adds rows. The user holds the excellence badge afterwards exactly when it was held or twenty of their certificates are above 89. |
| Certificates.ExamGrants | backend/app/services/certificate_service.py:285-301 | Only adds rows. An exam below 85 grants nothing. |
| Certificates.CompletionGrants | backend/app/services/certificate_service.py:262-283 | Corrected completion badges: only adds rows, and grants nothing unless the count is 1 or at least 5. |
| Certificates.CompletionGrantsAsWritten | backend/app/services/certificate_service.py:262-283 | Completion badges as written: only adds rows, and grants nothing for counts from 1 to 4. |
| Certificates.FirstCourseNeverAwardedAsWritten | backend/app/services/certificate_service.py:262-272 | As written, the count is taken after the insert, so the first-course badge is never granted by a completion. |
| Certificates.FirstCourseAwardedOnFirstCertificate | backend/app/services/certificate_service.py:262-272 | Corrected, a user's first course certificate brings the first-course badge. |
| Certificates.PerfectScoreOnlyAtHundred | backend/app/services/certificate_service.py:289-290 | A new perfect-score badge comes exactly from an exam of 100. |
| Certificates.HighAchieverAfterExam | backend/app/services/certificate_service.py:293-315 | After an exam of at least 85, the user holds the high-achiever badge exactly when it was held or five of their certificates are above 84. |
| Certificates.HighAchieverBelowAdvertisedAverage | backend/app/services/certificate_service.py:34-40 | The test counts certificates above 84, not an 85 average: five exams at 84.5 meet it. |
| Certificates.CountAboveAll | backend/app/services/certificate_service.py:306-309 | When every certificate is the user's and above the bound, all of them count. |
| Certificates.CertificateService.constructor | backend/app/services/certificate_service.py:16-76 | No certificates and no badges. |
| Certificates.CertificateService.AwardBadge | backend/app/services/certificate_service.py:330-386 | An unknown key fails with "Badge k not found" and changes nothing. A held badge returns its row's id. Otherwise one row is added and its id, key and name are returned. |
| Certificates.CertificateService.CheckAndAwardHighAchiever | backend/app/services/certificate_service.py:303-315 | The badge rows become the high-achiever check's result: the badge at five certificates above 84. |
| Certificates.CertificateService.CheckAndAwardExcellence | backend/app/services/certificate_service.py:317-328 | The badge rows become the excellence check's result: the badge at twenty certificates above 89. |
| Certificates.CertificateService.AwardExamBadges | backend/app/services/certificate_service.py:285-301 | The badge rows become those the exam's percentage brings: perfect score at 100, the high-achiever check from 85, the excellence check from 90. |
| Certificates.CertificateService.AwardCompletionBadges | backend/app/services/certificate_service.py:262-283 | The badge rows become those the corrected completion rules bring. |
| Certificates.CertificateService.GenerateCourseCompletionCertificate | backend/app/services/certificate_service.py:78-169 | A missing course fails and changes nothing. An existing certificate is returned unchanged. Otherwise exactly one certificate, with the number, code and title, is appended and the corrected completion badges follow (see Findings). No badge is lost. |
| Certificates.CertificateService.GenerateExamCertificate | backend/app/services/certificate_service.py:171-260 | A missing assessment fails, and a percentage below 60 is refused with nothing written. An existing certificate is returned. Otherwise one certificate with the grade is appended and the exam badges follow. An issued certificate's grade is at least D. |
| Certificates.ExamCertificate | backend/app/services/certificate_service.py:217-240 | The exam certificate belongs to the user and targets the assessment. It carries the percentage and the grade computed from it. |
| Certificates.CertificateService.IssueExamCertificate | backend/app/services/certificate_service.py:240-248 | Exactly that certificate is appended, the exam badges are awarded, uniqueness and the passing-grade invariant are kept, and the certificate is reported. |
| Certificates.InsertKeepsUnique | backend/app/services/certificate_service.py:104-116 | Inserting only after the lookup found nothing keeps one certificate per user, kind and target. |
| Certificates.CompletionGrantsGrow | backend/app/services/certificate_service.py:262-283 | The completion badges only add rows. |
| CourseTracking.Finished | backend/app/services/course_tracking_service.py:152-161 | A watch is completed exactly from 80% up, and has a completion date exactly then. The final duration and percentage are written, and user and course are kept. |
| CourseTracking.Updated | backend/app/services/course_tracking_service.py:330-354 | Given counts overwrite the stored ones, and the time is added to the stored time (none stored reads as 0). Module and video ids change only when given non-empty. The percentage is completed over total items times 100 when there are items, and otherwise unchanged. Last access is now, and the totals are kept. |
| CourseTracking.TimeSpentAccumulates | backend/app/services/course_tracking_service.py:341-342 | Two updates add both amounts of time to the stored time. |
| CourseTracking.CountsAreOverwritten | backend/app/services/course_tracking_service.py:335-336 | The video count is overwritten, not added to: the last value given wins. |
| CourseTracking.CompletionPercentageBounds | backend/app/services/course_tracking_service.py:350-354 | With every item done the course is at exactly 100%, and within the totals it stays between 0 and 100. Counts above the totals give more than 100%, because nothing clamps them. |
| CourseTracking.PercentOfBounds | backend/app/services/course_tracking_service.py:354 | A ratio times 100 is 100 for equal parts, above 100 for a larger numerator, and within [0, 100] otherwise. |
| CourseTracking.TrackingService.constructor | backend/app/services/course_tracking_service.py:16-17 | Both tables start empty. |
| CourseTracking.TrackingService.CompleteVideoWatch | backend/app/services/course_tracking_service.py:122-182 | A completed watch is returned untouched. A missing one fails with "Failed to complete video watch" and writes nothing. Otherwise only that watch is replaced by its finished row, completed exactly from 80% up. |
| CourseTracking.TrackingService.UpdateCourseProgress | backend/app/services/course_tracking_service.py:291-374 | Without a progress row it fails with "Course progress not found. Initialize first." and writes nothing. Otherwise only that row becomes its updated row, which is returned. |
| CourseTracking.CompletedCount | backend/app/services/course_tracking_service.py:205 | The count is the number of completed watches, so it never exceeds the number of watches. |
| CourseTracking.VideoWatchStats | backend/app/services/course_tracking_service.py:204-217 | Started is the number of watches and completed is at most that. No watches give zeros. |
| CourseTracking.PercentageSumBounds | backend/app/services/course_tracking_service.py:207-210 | When each percentage lies in [lo, hi], their sum lies between n·lo and n·hi. |
| CourseTracking.AverageWithinBounds | backend/app/services/course_tracking_service.py:207-210 | The mean watch percentage lies within any bounds every watch's percentage respects. |
| CourseTracking.AllCoursesAverage | backend/app/services/course_tracking_service.py:529-538 | With no courses the average is 0. Otherwise it times the course count is the sum of the percentages, with a missing one read as 0. |
| CourseTracking.AllCoursesAverageOfEqual | backend/app/services/course_tracking_service.py:529-538 | When every course stands at the same percentage, so does the average. |
| CourseTracking.CompletionSumOfEqual | backend/app/services/course_tracking_service.py:536 | n equal percentages sum to n times that percentage. |
| Storage.BaseName | backend/app/services/storage_service.py:61 | The base name is the slash-free tail of the path, starting right after the last '/'. |
| Storage.LastIndex | backend/app/services/storage_service.py:61 | The index is that of the last occurrence of the character, or -1 exactly when it does not occur. |
| Storage.ExtensionShape | backend/app/services/storage_service.py:61 | An extension is a suffix of the path. A non-empty one starts with its only dot and holds no separator. |
| Storage.Extension | backend/app/services/storage_service.py:61 | The extension is no longer than the path, and a non-empty one starts with a dot. The rest of its shape is stated by ExtensionShape. |
| Storage.BaseNameAfterSlash | backend/app/services/storage_service.py:61 | After a '/', a slash-free name is the base name. |
| Storage.BaseNameOfPlainName | backend/app/services/storage_service.py:61 | A slash-free name is its own base name. |
| Storage.ExtensionOfStemAndSuffix | backend/app/services/storage_service.py:61 | A stem that is not all dots, followed by a dot and a dot-free tail, has that dot and tail as its extension. |
| Storage.DotFileHasNoExtension | backend/app/services/storage_service.py:61 | A dot-file such as ".mp4" has no extension. |
| Storage.DotlessNameHasNoExtension | backend/app/services/storage_service.py:61 | A name without a dot has no extension, whatever its directory. |
| Storage.LowerChar | backend/app/services/storage_service.py:62 | Upper-case ASCII letters map to lower case, and every other character is kept. |
| Storage.Lower | backend/app/services/storage_service.py:62 | Lower-casing keeps the length and maps each character. |
| Common.NatToString | backend/app/services/storage_service.py:51 | A number prints as at least one decimal digit. |
| Common.NatToStringRoundTrip | backend/app/services/storage_service.py:51 | Reading the printed digits back gives the number. |
| Storage.RoundHalfEvenIsNearest | backend/app/services/storage_service.py:51 | The two-place rounding is within half a step of the exact value, and a tie goes to the even side. |
| Storage.SizeMessage | backend/app/services/storage_service.py:51 | The message starts "File size exceeds 500MB limit. Size: ". |
| Storage.SizeMessageExample | backend/app/services/storage_service.py:51 | 600 MiB is reported as "600.00MB". |
| Storage.MegabytesText | backend/app/services/storage_service.py:51 | The size is printed as decimal digits, a point and exactly two more digits. |
| Storage.ValidateVideoFile | backend/app/services/storage_service.py:37-65 | Each check's message applies when the earlier checks pass: size above 500 MiB, empty file, MIME type not listed, then lower-cased extension not listed. Valid exactly when all pass, and valid exactly when the message is empty. |
| Storage.NamesWithoutExtensionRejected | backend/app/services/storage_service.py:61-63 | A name without an extension is never valid. |
| Storage.MimeCheckIsCaseSensitive | backend/app/services/storage_service.py:57-58 | The MIME check is exact: "VIDEO/MP4" is refused. |
| Storage.LowerDotMP4 | backend/app/services/storage_service.py:62 | ".MP4" lower-cases to ".mp4". |
| Storage.ExtensionOfLectureMP4 | backend/app/services/storage_service.py:61 | "lecture.MP4" has the extension ".MP4". |
| Storage.ExtensionCheckIgnoresCase | backend/app/services/storage_service.py:61-65 | The extension check ignores case, so "lecture.MP4" passes. |
| Storage.DotFilesAndBareNamesRejected | backend/app/services/storage_service.py:61-63 | ".mp4" and "uploads/lecture" are refused. |
| Storage.SizeBoundary | backend/app/services/storage_service.py:50-51 | One byte over 500 MiB is refused with the size message, and exactly 500 MiB passes the size check. |
| Storage.StoragePath | backend/app/services/storage_service.py:104-109 | The object path ends with the filename's own extension, case kept. |
| Storage.VideoStore.constructor | backend/app/services/storage_service.py:33-35 | No objects and no video rows. |
| Storage.VideoStore.UploadCourseVideo | backend/app/services/storage_service.py:67-165 | An invalid file fails with the validator's message, touching nothing. A storage failure gives "Upload failed: " and its detail, touching nothing. Otherwise the content is stored at the video's path. A metadata failure gives its message and adds no row. Success appends exactly the row of video id, course, module, original filename, the id plus extension, the path, size, MIME type, URL and uploader, and reports "Video uploaded successfully: " and the filename |
| Storage.VideoStore.StoreVideo | backend/app/services/storage_service.py:111-157 | A storage failure writes nothing. Otherwise the object is stored at the path. A metadata failure then adds no row. On success exactly one row is appended, holding the ids, names, path, size, type, URL and uploader, and the message names the file |
| Storage.VideoStore.PutObject | backend/app/services/storage_service.py:115-122 | The bucket holds the content at the path, and no other object changes. |
| Storage.VideoStore.InsertVideo | backend/app/services/storage_service.py:145 | Exactly the row is appended to the `course_videos` table. |
| Dependencies.GetPaginationParams | backend/app/dependencies.py:125-148 | A page below 1 is 400 "Page must be >= 1". Otherwise a size outside 1..100 is 400 "Page size must be between 1 and 100". It succeeds exactly when both hold, keeping page and size with a non-negative offset. |
| Dependencies.DefaultPage | backend/app/dependencies.py:125-148 | The defaults give page 1 of 10 rows at offset 0. |
| Dependencies.ConsecutivePagesAdjoin | backend/app/dependencies.py:142 | Each page starts where the previous one ends. |
| Dependencies.PagesAreDisjoint | backend/app/dependencies.py:142 | Two different pages of one size share no row. |
| Dependencies.OffsetGrows | backend/app/dependencies.py:142 | A later page's offset is at least a page beyond an earlier one's. |
| Dependencies.EveryRowHasAPage | backend/app/dependencies.py:125-148 | Every row lies on a valid page: row i on page i / size + 1. |
| Dependencies.CheckPayload | backend/app/dependencies.py:15-35 | The token passes exactly when there is a payload, of type "access", with a non-empty subject. That subject is the user id, and every refusal is 401. |
| Dependencies.GetCurrentUser | backend/app/dependencies.py:11-60 | As written, payload refusals come first. A user is returned exactly for a valid token with an active user row. Every other outcome is 401 or 500, never 404 or 403. |
| Dependencies.InactiveUserReportedAsServerError | backend/app/dependencies.py:48-60 | As written, an inactive user gets 500 "Database error: 403: User account is inactive". |
| Dependencies.MissingUserReportedAsServerError | backend/app/dependencies.py:42-60 | As written, a missing user gets 500 "Database error: 404: User not found". |
| Dependencies.ExceptionText | backend/app/dependencies.py:56-60 | The text ends with ": " and the detail, after at least one character of status. |
| Dependencies.InactiveText | backend/app/dependencies.py:49-59 | The inactive exception's text is "403: User account is inactive". |
| Dependencies.NotFoundText | backend/app/dependencies.py:43-59 | The missing-user exception's text is "404: User not found". |
| Dependencies.StatusText | backend/app/dependencies.py:59 | A three-digit status prints as its three digits. |
| Dependencies.GetCurrentUserCorrected | backend/app/dependencies.py:38-60 | Corrected: a missing user is 404 "User not found", and an inactive one is 403 "User account is inactive". |
| Dependencies.CorrectionKeepsOtherOutcomes | backend/app/dependencies.py:11-60 | The correction admits exactly the same users and keeps every 401. |
| Dependencies.PayloadChecksPrecedeFetch | backend/app/dependencies.py:17-39 | For a refused payload no database answer changes the 401. |
| Dependencies.GetCurrentAdmin | backend/app/dependencies.py:89-98 | The gate passes exactly the role "admin" and returns the user, and refuses others with 403 "Admin access required". |
| Dependencies.GetCurrentInstructor | backend/app/dependencies.py:101-110 | The gate passes exactly "instructor" or "admin", and refuses others with 403 "Instructor access required". |
| Dependencies.GetCurrentStudent | backend/app/dependencies.py:113-122 | The gate passes exactly "student", and refuses others with 403 "Student access required". |
| Dependencies.RoleGatesNest | backend/app/dependencies.py:89-122 | Admins pass the instructor gate, and no user passes both the student gate and a staff gate. A user without a role passes none. |

## Left out

- Concurrency: the asyncio tasks, their cancellation and interleavings are not modelled. One pass of the analysis loop is a method, and the 30-second `wait_for` timeout is modelled as the queue being empty when the pass runs.
- I/O and foreign calls become parameters: ids, uuids, timestamps, the token decoder's payload, database rows, storage outcomes and the AI verdicts. This covers the Gemini call, PIL, base64 and `json.loads`. A snapshot upload's base64 decode and storage upload are one parameter, the error text if either raises. The parser is a `parse` function whose outcome is no JSON, a JSON value that is not an object, or an object.
- Supabase: inserts and updates always return their row. `.single()` on a missing row is modelled as the branch the code writes for an empty result. The `increment` rpc is `Endpoints.Bump`, and the alert-count read-then-write of the snapshot detector is a plain increment.
- CourseTracking.TrackingService.CompleteVideoWatch: a missing watch yields "Failed to complete video watch", the message the code writes for an update that returns no row. The client library's own exception text for `.single()` is not part of this model.
- CourseTracking.TrackingService.UpdateCourseProgress: the "Failed to update course progress" path, an update returning no row, is not modelled.
- WebSocket transport: JSON serialisation, the send and close errors of the socket handlers and their `except` paths are not modelled. A failed send is a delivery marked failed in the outbox. `Realtime.Manager.CloseConnection` stands for a client going away.
- The dashboard socket's "instructor-default" name is not modelled; the instructor id is a parameter.
- Message payload details that carry no decision are not modelled: timestamps, `action_required`, the alert description and recommendation texts inside live alerts, and the `metadata`, `status`, `duration` and `thumbnail_url` columns of a video row.
- The unconfigured verdict stores a string under "analysis", on which the snapshot analytics call `.get`. That crash path is not reproduced: `Gemini.JudgmentOf` gives no judgment for that verdict, and the loop then only consumes the frame.
- Floating point: proctoring scores and weights are exact integer hundredths. Where an IEEE sum lands just above a threshold, Python's band differs from the exact one. For example, 0.3 + 0.25 + 0.15 is 0.7000000000000001, so Python says "critical" where the model says "high".
- Rounding: certificate, course-tracking and statistics percentages are exact reals, and `round(…, 2)` is not applied to the completion percentage, the watch average or the all-courses average.
- Storage.SizeMessage: the size in MiB is printed by exact half-even rounding to two places. This equals Python's `:.2f` for every size below 2^53, where the quotient is exact in binary.
- Storage.Lower: only ASCII letters are lower-cased. Non-ASCII characters whose lower case is ASCII, such as KELVIN SIGN, are not modelled.
- Gemini.FromReply: a key that is present with the value null is read as missing, so the model gives the default where `.get` returns None. Values of another JSON type than the field's (a string for a flag, say) are not modelled either.
- Dependencies.ExceptionText: the text of an `HTTPException` is taken to be "{status}: {detail}", as Starlette formats it.
- The role names "admin", "instructor" and "student" are the values of `UserRole`. app/schemas/auth.py, which defines them, is not part of this model.
- `get_current_active_user` and `require_role` in dependencies.py are not modelled. The first repeats the inactive check; the second's message embeds a Python list's text.
- The analytics and review aggregations (`get_*_analytics`, `get_session_alerts`, `review_proctoring_session`, `end_proctoring_session`) and the start, end and status endpoints of the realtime router are not modelled. They are database reads and float averages, or one-line calls to the manager, which is modelled.
- Storage: `get_video_url`, `delete_video`, the unused chunk size and the bucket setting are not modelled.
- Course tracking: watch start and update, progress initialisation and module progress are not modelled.
- Certificates: `get_user_badges`, `get_user_achievements` and `verify_certificate` are not modelled. The progress fields a course certificate copies, completion percentage and watch time, are left out of the certificate record.
- The advanced-proctoring component analyses call AI functions that gemini_client.py does not define. Their results are parameters, as analysed records or failures.
- Payments, authentication, the CRUD routers, configuration and seed data are outside the modelled core.

## Findings

| source | as written | input that shows it | evidently intended | confidence | as-written member | corrected member |
|---|---|---|---|---|---|---|
| backend/app/api/v1/endpoints/proctoring.py:143 | `upload_snapshot` calls `gemini_client`, a name the module never imports, after the image is stored. | Any authorised snapshot upload whose image decodes and stores: the lookup raises NameError, which the handler turns into a 500. | The analysis runs and the snapshot is recorded. | high, not executed | Endpoints.Database.UploadSnapshotAsWritten | Endpoints.Database.UploadSnapshot |
| backend/app/api/v1/endpoints/proctoring.py:165 | The alert step reads `analysis["description"]`, a key the verdict never has. | A verdict with `no_face_detected` true: KeyError before the alert row is inserted. | An alert row with the classified type and severity. | high, not executed | Endpoints.SnapshotAlertRowsAsWritten | Endpoints.SnapshotAlertRows |
| backend/app/services/certificate_service.py:262-272 | The first-course badge needs the count to be 0, but the count is taken after the certificate's insert. | A user's first course certificate: the count is 1, so no badge. | The badge on the first course certificate. | high, not executed | Certificates.FirstCourseNeverAwardedAsWritten | Certificates.FirstCourseAwardedOnFirstCertificate |
| backend/app/dependencies.py:38-60 | The 404 "User not found" and 403 "User account is inactive" are raised inside a `try` whose `except Exception` re-raises them as 500. | A valid token of an inactive user: 500 "Database error: 403: User account is inactive". | 404 and 403 reach the client, as the endpoints' own `except HTTPException: raise` does. | high, not executed | Dependencies.InactiveUserReportedAsServerError | Dependencies.GetCurrentUserCorrected |
