// Certificates and badges: letter grades, the pass threshold, the badge
// table, and the check-then-insert rules that keep one certificate per
// (user, course or assessment, kind) and one badge per (user, badge). The
// certificates and user_badges tables are sequences; ids, the dates and the
// random hex digits are inputs.

module Certificates {
  import opened Common

  // ---------------------------------------------------------------------------
  // Grades
  // ---------------------------------------------------------------------------

  datatype Grade = APlus | A | BPlus | B | CPlus | C | DPlus | D | F {
    function Name(): string {
      match this
      case APlus => "A+"
      case A => "A"
      case BPlus => "B+"
      case B => "B"
      case CPlus => "C+"
      case C => "C"
      case DPlus => "D+"
      case D => "D"
      case F => "F"
    }

    /** 0 for F up to 8 for A+. */
    function Rank(): nat {
      match this
      case F => 0
      case D => 1
      case DPlus => 2
      case C => 3
      case CPlus => 4
      case B => 5
      case BPlus => 6
      case A => 7
      case APlus => 8
    }

    /** The lowest percentage of the band (F has none: 0). */
    function Floor(): real {
      match this
      case APlus => 95.0
      case A => 90.0
      case BPlus => 85.0
      case B => 80.0
      case CPlus => 75.0
      case C => 70.0
      case DPlus => 65.0
      case D => 60.0
      case F => 0.0
    }
  }

  /** The pass mark of an exam certificate. */
  const PassingPercentage: real := 60.0

  /** The letter grade of a percentage: bands of five points from 60, A+ from 95. */
  function CalculateGrade(percentage: real): (g: Grade)
    ensures g == F <==> percentage < PassingPercentage
    ensures g != F ==> g.Floor() <= percentage
    ensures g != APlus ==> percentage < g.Floor() + (if g == F then PassingPercentage else 5.0)
  {
    if percentage >= 95.0 then APlus
    else if percentage >= 90.0 then A
    else if percentage >= 85.0 then BPlus
    else if percentage >= 80.0 then B
    else if percentage >= 75.0 then CPlus
    else if percentage >= 70.0 then C
    else if percentage >= 65.0 then DPlus
    else if percentage >= 60.0 then D
    else F
  }

  /** A higher percentage never gets a lower grade. */
  lemma GradeMonotone(p: real, q: real)
    requires p <= q
    ensures CalculateGrade(p).Rank() <= CalculateGrade(q).Rank()
  {
  }

  /** The band edges: each bound is the first percentage of its grade, and just below it is the grade beneath. */
  lemma GradeBoundaries()
    ensures CalculateGrade(100.0) == APlus && CalculateGrade(95.0) == APlus && CalculateGrade(94.0) == A
    ensures CalculateGrade(90.0) == A && CalculateGrade(89.0) == BPlus && CalculateGrade(85.0) == BPlus
    ensures CalculateGrade(84.0) == B && CalculateGrade(80.0) == B && CalculateGrade(79.0) == CPlus
    ensures CalculateGrade(75.0) == CPlus && CalculateGrade(74.0) == C && CalculateGrade(70.0) == C
    ensures CalculateGrade(69.0) == DPlus && CalculateGrade(65.0) == DPlus && CalculateGrade(64.0) == D
    ensures CalculateGrade(60.0) == D && CalculateGrade(59.0) == F && CalculateGrade(0.0) == F
  {
  }

  // ---------------------------------------------------------------------------
  // Certificate numbers and verification codes
  // ---------------------------------------------------------------------------

  predicate IsLowerHex(s: string) {
    forall i :: 0 <= i < |s| ==> ('0' <= s[i] <= '9' || 'a' <= s[i] <= 'f')
  }

  predicate IsUpperHex(s: string) {
    forall i :: 0 <= i < |s| ==> ('0' <= s[i] <= '9' || 'A' <= s[i] <= 'F')
  }

  /** `uuid4().hex`: 32 lower-case hex digits. */
  predicate IsUuidHex(h: string) {
    |h| == 32 && IsLowerHex(h)
  }

  function UpperChar(c: char): char {
    if 'a' <= c <= 'z' then (c as int - 32) as char else c
  }

  /** `str.upper` on hex digits. */
  function Upper(s: string): (u: string)
    ensures |u| == |s|
    ensures forall i :: 0 <= i < |s| ==> u[i] == UpperChar(s[i])
  {
    seq(|s|, i requires 0 <= i < |s| => UpperChar(s[i]))
  }

  /** "CERT-" or "EXAM-", the date, a dash and the first 8 hex digits of a fresh uuid, upper-cased. */
  function CertificateNumber(prefix: string, date: string, hex: string): (n: string)
    requires IsUuidHex(hex)
    ensures |n| == |prefix| + |date| + 9 && n[..|prefix|] == prefix
    ensures n[|prefix|..|prefix| + |date|] == date && n[|prefix| + |date|] == '-'
    ensures n[|n| - 8..] == Upper(hex[..8]) && IsUpperHex(n[|n| - 8..])
  {
    prefix + date + "-" + Upper(hex[..8])
  }

  /** "VER-", the first 8 characters of the certificate id, a dash and 12 upper-cased hex digits of another uuid. */
  function VerificationCode(certificateId: string, hex: string): (v: string)
    requires |certificateId| >= 8 && IsUuidHex(hex)
    ensures |v| == 25 && v[..4] == "VER-" && v[4..12] == certificateId[..8] && v[12] == '-'
    ensures IsUpperHex(v[13..])
  {
    "VER-" + certificateId[..8] + "-" + Upper(hex[..12])
  }

  // ---------------------------------------------------------------------------
  // The badge table
  // ---------------------------------------------------------------------------

  datatype BadgeKey = FirstCourse | PerfectScore | HighAchiever | Consistency | Excellence | SpeedDemon | TimeInvestor | Master {
    function Key(): string {
      match this
      case FirstCourse => "first_course"
      case PerfectScore => "perfect_score"
      case HighAchiever => "high_achiever"
      case Consistency => "consistency"
      case Excellence => "excellence"
      case SpeedDemon => "speed_demon"
      case TimeInvestor => "time_investor"
      case Master => "master"
    }
  }

  datatype Category = Milestone | Achievement {
    function Name(): string {
      match this
      case Milestone => "milestone"
      case Achievement => "achievement"
    }
  }

  /** The criteria a badge's description promises (the award checks are below). */
  datatype Criteria =
    | FirstCompletion
    | ExamScore(score: nat)
    | MultipleCourses(count: nat, avgScore: nat)
    | CourseCount(count: nat)
    | FastCompletion(days: nat)
    | WatchTime(hours: nat)
    | SpecializationComplete
  {
    function TypeName(): string {
      match this
      case FirstCompletion => "first_completion"
      case ExamScore(_) => "exam_score"
      case MultipleCourses(_, _) => "multiple_courses"
      case CourseCount(_) => "course_count"
      case FastCompletion(_) => "fast_completion"
      case WatchTime(_) => "watch_time"
      case SpecializationComplete => "specialization_complete"
    }
  }

  datatype BadgeDef = BadgeDef(name: string, description: string, icon: string, category: Category, criteria: Criteria)

  /** The BADGES table. */
  function BadgeDefOf(k: BadgeKey): (d: BadgeDef)
    ensures d.name != "" && d.description != "" && d.icon != ""
    ensures d.category == Milestone <==> k in {FirstCourse, Consistency, TimeInvestor}
  {
    match k
    case FirstCourse =>
      BadgeDef("\U{1F393} First Course", "Completed your first course", "\U{1F393}", Milestone, FirstCompletion)
    case PerfectScore =>
      BadgeDef("\U{2B50} Perfect Score", "Achieved 100% on an exam", "\U{2B50}", Achievement, ExamScore(100))
    case HighAchiever =>
      BadgeDef("\U{1F3C6} High Achiever", "Completed 5 courses with 85%+ average", "\U{1F3C6}", Achievement,
        MultipleCourses(5, 85))
    case Consistency =>
      BadgeDef("\U{1F525} Consistency", "Completed 10 courses", "\U{1F525}", Milestone, CourseCount(10))
    case Excellence =>
      BadgeDef("\U{1F451} Excellence", "Completed 20 courses with 90%+ average", "\U{1F451}", Achievement,
        MultipleCourses(20, 90))
    case SpeedDemon =>
      BadgeDef("\U{26A1} Speed Demon", "Completed a course in less than 1 day", "\U{26A1}", Achievement, FastCompletion(1))
    case TimeInvestor =>
      BadgeDef("\U{1F4DA} Time Investor", "Spent 50+ hours on learning", "\U{1F4DA}", Milestone, WatchTime(50))
    case Master =>
      BadgeDef("\U{1F3AF} Master", "Completed all courses in a specialization", "\U{1F3AF}", Achievement,
        SpecializationComplete)
  }

  /** `badge_key in BADGES`, as a lookup. */
  function BadgeOfKey(key: string): (r: Option<BadgeKey>)
    ensures r.Some? ==> r.value.Key() == key
  {
    if key == "first_course" then Some(FirstCourse)
    else if key == "perfect_score" then Some(PerfectScore)
    else if key == "high_achiever" then Some(HighAchiever)
    else if key == "consistency" then Some(Consistency)
    else if key == "excellence" then Some(Excellence)
    else if key == "speed_demon" then Some(SpeedDemon)
    else if key == "time_investor" then Some(TimeInvestor)
    else if key == "master" then Some(Master)
    else None
  }

  /** Every badge's own key finds it: the table has exactly the eight keys. */
  lemma BadgeOfOwnKey(k: BadgeKey)
    ensures BadgeOfKey(k.Key()) == Some(k)
  {
  }

  /** Every category is one of the two, and every criteria type is one of the seven documented ones. */
  lemma BadgeTableIsWellFormed(k: BadgeKey)
    ensures BadgeDefOf(k).category.Name() in {"milestone", "achievement"}
    ensures BadgeDefOf(k).criteria.TypeName() in
      {"first_completion", "exam_score", "multiple_courses", "course_count", "fast_completion", "watch_time",
       "specialization_complete"}
  {
  }

  // ---------------------------------------------------------------------------
  // Rows
  // ---------------------------------------------------------------------------

  datatype CertKind = CourseCompletion | ExamCompletion

  /** A row of `certificates`; course certificates have no percentage and no grade. */
  datatype Certificate = Certificate(
    id: string,
    number: string,
    userId: string,
    courseId: Option<string>,
    assessmentId: Option<string>,
    kind: CertKind,
    title: string,
    percentage: Option<real>,
    grade: Option<Grade>,
    verificationCode: string)

  /** A row of `user_badges`. */
  datatype BadgeRow = BadgeRow(id: string, userId: string, badge: BadgeKey, name: string, category: Category)

  /** What the existing-certificate query matches on: the course of a course certificate, the assessment of an exam one. */
  function Target(c: Certificate): Option<string> {
    if c.kind == CourseCompletion then c.courseId else c.assessmentId
  }

  /** A certificate of this user, kind and target, if there is one. */
  function FindCertificate(certs: seq<Certificate>, userId: string, kind: CertKind, target: string): (r: Option<Certificate>)
    ensures r.Some? ==> r.value in certs && r.value.userId == userId && r.value.kind == kind && Target(r.value) == Some(target)
    ensures r.None? <==> forall c :: c in certs ==> !(c.userId == userId && c.kind == kind && Target(c) == Some(target))
  {
    if certs == [] then None
    else if certs[0].userId == userId && certs[0].kind == kind && Target(certs[0]) == Some(target) then Some(certs[0])
    else FindCertificate(certs[1..], userId, kind, target)
  }

  predicate HasBadge(rows: seq<BadgeRow>, userId: string, b: BadgeKey) {
    exists r :: r in rows && r.userId == userId && r.badge == b
  }

  /** The badge row of this user and badge, if there is one. */
  function FindBadge(rows: seq<BadgeRow>, userId: string, b: BadgeKey): (r: Option<BadgeRow>)
    ensures r.Some? ==> r.value in rows && r.value.userId == userId && r.value.badge == b
    ensures r.None? <==> !HasBadge(rows, userId, b)
  {
    if rows == [] then None
    else if rows[0].userId == userId && rows[0].badge == b then Some(rows[0])
    else FindBadge(rows[1..], userId, b)
  }

  /** At most one certificate per (user, kind, target). */
  predicate UniqueCertificates(certs: seq<Certificate>) {
    forall i, j :: 0 <= i < j < |certs| ==>
      !(certs[i].userId == certs[j].userId && certs[i].kind == certs[j].kind && Target(certs[i]) == Target(certs[j]))
  }

  /** At most one badge row per (user, badge). */
  predicate UniqueBadges(rows: seq<BadgeRow>) {
    forall i, j :: 0 <= i < j < |rows| ==> !(rows[i].userId == rows[j].userId && rows[i].badge == rows[j].badge)
  }

  /** Every exam certificate passed and carries the grade of its percentage. */
  predicate ExamCertificatesPassed(certs: seq<Certificate>) {
    forall c :: c in certs && c.kind == ExamCompletion ==>
      c.percentage.Some? && c.percentage.value >= PassingPercentage &&
      c.grade == Some(CalculateGrade(c.percentage.value)) && c.grade.value != F
  }

  // ---------------------------------------------------------------------------
  // Badge awards
  // ---------------------------------------------------------------------------

  /** The rows after awarding a badge: unchanged when the user has it already, else one new row. */
  function Grant(rows: seq<BadgeRow>, userId: string, b: BadgeKey, id: string): (r: seq<BadgeRow>)
    ensures HasBadge(r, userId, b)
    ensures HasBadge(rows, userId, b) ==> r == rows
    ensures !HasBadge(rows, userId, b) ==> r == rows + [BadgeRow(id, userId, b, BadgeDefOf(b).name, BadgeDefOf(b).category)]
  {
    if HasBadge(rows, userId, b) then rows
    else
      var r := rows + [BadgeRow(id, userId, b, BadgeDefOf(b).name, BadgeDefOf(b).category)];
      assert r[|rows|] in r;
      r
  }

  /** Granting keeps one row per (user, badge), keeps every old row, and granting again changes nothing. */
  lemma GrantKeepsBadgesUnique(rows: seq<BadgeRow>, userId: string, b: BadgeKey, id: string, id': string)
    requires UniqueBadges(rows)
    ensures UniqueBadges(Grant(rows, userId, b, id))
    ensures rows <= Grant(rows, userId, b, id)
    ensures Grant(Grant(rows, userId, b, id), userId, b, id') == Grant(rows, userId, b, id)
  {
    if !HasBadge(rows, userId, b) {
      var r := Grant(rows, userId, b, id);
      forall i, j | 0 <= i < j < |r| ensures !(r[i].userId == r[j].userId && r[i].badge == r[j].badge) {
        if j == |rows| {
          assert r[i] in rows;
        }
      }
    }
  }

  /** How many certificates of the user have a percentage above `bound` (a missing percentage never is). */
  function CountAbove(certs: seq<Certificate>, userId: string, bound: real): (n: nat)
    ensures n <= |certs|
    ensures n == |Filter(certs, (c: Certificate) => c.userId == userId && c.percentage.Some? && c.percentage.value > bound)|
  {
    if certs == [] then 0
    else
      (if certs[0].userId == userId && certs[0].percentage.Some? && certs[0].percentage.value > bound then 1 else 0)
      + CountAbove(certs[1..], userId, bound)
  }

  /** How many course-completion certificates the user has. */
  function CourseCertificateCount(certs: seq<Certificate>, userId: string): (n: nat)
    ensures n <= |certs|
    ensures n == |Filter(certs, (c: Certificate) => c.userId == userId && c.kind == CourseCompletion)|
  {
    if certs == [] then 0
    else (if certs[0].userId == userId && certs[0].kind == CourseCompletion then 1 else 0) + CourseCertificateCount(certs[1..], userId)
  }

  lemma {:induction false} CountsOfAppend(certs: seq<Certificate>, c: Certificate, userId: string, bound: real)
    ensures CourseCertificateCount(certs + [c], userId) ==
      CourseCertificateCount(certs, userId) + (if c.userId == userId && c.kind == CourseCompletion then 1 else 0)
    ensures CountAbove(certs + [c], userId, bound) ==
      CountAbove(certs, userId, bound) + (if c.userId == userId && c.percentage.Some? && c.percentage.value > bound then 1 else 0)
  {
    if certs != [] {
      assert (certs + [c])[1..] == certs[1..] + [c];
      CountsOfAppend(certs[1..], c, userId, bound);
    }
  }

  /** A course certificate has no percentage, so it never counts towards the score-based badges. */
  lemma {:induction false} CourseCertificatesDoNotCountAbove(certs: seq<Certificate>, c: Certificate, userId: string, bound: real)
    requires c.kind == CourseCompletion && c.percentage.None?
    ensures CountAbove(certs + [c], userId, bound) == CountAbove(certs, userId, bound)
  {
    CountsOfAppend(certs, c, userId, bound);
  }

  /** The high-achiever check: five certificates above 84. */
  function HighAchieverCheck(rows: seq<BadgeRow>, certs: seq<Certificate>, userId: string, id: string): (r: seq<BadgeRow>)
    ensures rows <= r
    ensures HasBadge(r, userId, HighAchiever) <==> HasBadge(rows, userId, HighAchiever) || CountAbove(certs, userId, 84.0) >= 5
  {
    if CountAbove(certs, userId, 84.0) >= 5 then Grant(rows, userId, HighAchiever, id) else rows
  }

  /** The excellence check: twenty certificates above 89. */
  function ExcellenceCheck(rows: seq<BadgeRow>, certs: seq<Certificate>, userId: string, id: string): (r: seq<BadgeRow>)
    ensures rows <= r
    ensures HasBadge(r, userId, Excellence) <==> HasBadge(rows, userId, Excellence) || CountAbove(certs, userId, 89.0) >= 20
  {
    if CountAbove(certs, userId, 89.0) >= 20 then Grant(rows, userId, Excellence, id) else rows
  }

  /** The badge rows after an exam certificate of `percentage`. */
  function ExamGrants(rows: seq<BadgeRow>, certs: seq<Certificate>, userId: string, percentage: real,
    ids: (string, string, string)): (r: seq<BadgeRow>)
    ensures rows <= r
    ensures percentage < 85.0 && percentage != 100.0 ==> r == rows
  {
    var r1 := if percentage == 100.0 then Grant(rows, userId, PerfectScore, ids.0) else rows;
    var r2 := if percentage >= 85.0 then HighAchieverCheck(r1, certs, userId, ids.1) else r1;
    if percentage >= 90.0 then ExcellenceCheck(r2, certs, userId, ids.2) else r2
  }

  /**
   * The badge rows after a course certificate, with the first-course test
   * corrected: the count includes the new certificate, so the first course
   * is the one that makes it 1.
   */
  function CompletionGrants(rows: seq<BadgeRow>, certs: seq<Certificate>, userId: string,
    ids: (string, string, string)): (r: seq<BadgeRow>)
    ensures rows <= r
    ensures CourseCertificateCount(certs, userId) != 1 && CourseCertificateCount(certs, userId) < 5 ==> r == rows
  {
    var n := CourseCertificateCount(certs, userId);
    var r1 := if n == 1 then Grant(rows, userId, FirstCourse, ids.0) else rows;
    var r2 := if n >= 10 then Grant(r1, userId, Consistency, ids.1) else r1;
    if n >= 5 then HighAchieverCheck(r2, certs, userId, ids.2) else r2
  }

  /** The same steps as written: the first-course badge when the count, taken after the insert, is 0. */
  function CompletionGrantsAsWritten(rows: seq<BadgeRow>, certs: seq<Certificate>, userId: string,
    ids: (string, string, string)): (r: seq<BadgeRow>)
    ensures rows <= r
    ensures 0 < CourseCertificateCount(certs, userId) < 5 ==> r == rows
  {
    var n := CourseCertificateCount(certs, userId);
    var r1 := if n == 0 then Grant(rows, userId, FirstCourse, ids.0) else rows;
    var r2 := if n >= 10 then Grant(r1, userId, Consistency, ids.1) else r1;
    if n >= 5 then HighAchieverCheck(r2, certs, userId, ids.2) else r2
  }

  lemma HighAchieverCheckKeeps(rows: seq<BadgeRow>, certs: seq<Certificate>, userId: string, id: string, b: BadgeKey)
    requires b != HighAchiever
    ensures HasBadge(HighAchieverCheck(rows, certs, userId, id), userId, b) == HasBadge(rows, userId, b)
  {
    if CountAbove(certs, userId, 84.0) >= 5 && !HasBadge(rows, userId, HighAchiever) {
      var r := HighAchieverCheck(rows, certs, userId, id);
      if HasBadge(r, userId, b) {
        var x :| x in r && x.userId == userId && x.badge == b;
        assert x in rows;
      }
    }
  }

  /**
   * As written, the first-course badge is never awarded after a course
   * certificate: the count already includes that certificate.
   */
  lemma FirstCourseNeverAwardedAsWritten(rows: seq<BadgeRow>, certs: seq<Certificate>, c: Certificate, userId: string,
    ids: (string, string, string))
    requires c.userId == userId && c.kind == CourseCompletion
    ensures HasBadge(CompletionGrantsAsWritten(rows, certs + [c], userId, ids), userId, FirstCourse) ==
      HasBadge(rows, userId, FirstCourse)
  {
    CountsOfAppend(certs, c, userId, 0.0);
    var n := CourseCertificateCount(certs + [c], userId);
    var r2 := if n >= 10 then Grant(rows, userId, Consistency, ids.1) else rows;
    assert HasBadge(r2, userId, FirstCourse) == HasBadge(rows, userId, FirstCourse) by {
      if n >= 10 && !HasBadge(rows, userId, Consistency) {
        if HasBadge(r2, userId, FirstCourse) {
          var x :| x in r2 && x.userId == userId && x.badge == FirstCourse;
          assert x in rows;
        }
      }
    }
    if n >= 5 {
      HighAchieverCheckKeeps(r2, certs + [c], userId, ids.2, FirstCourse);
    }
  }

  /** Corrected, a user's first course certificate brings the first-course badge. */
  lemma FirstCourseAwardedOnFirstCertificate(rows: seq<BadgeRow>, certs: seq<Certificate>, c: Certificate, userId: string,
    ids: (string, string, string))
    requires c.userId == userId && c.kind == CourseCompletion && CourseCertificateCount(certs, userId) == 0
    ensures HasBadge(CompletionGrants(rows, certs + [c], userId, ids), userId, FirstCourse)
  {
    CountsOfAppend(certs, c, userId, 0.0);
    var r1 := Grant(rows, userId, FirstCourse, ids.0);
    assert HasBadge(r1, userId, FirstCourse);
  }

  /** The perfect-score badge is new only after an exam of exactly 100. */
  lemma PerfectScoreOnlyAtHundred(rows: seq<BadgeRow>, certs: seq<Certificate>, userId: string, percentage: real,
    ids: (string, string, string))
    requires !HasBadge(rows, userId, PerfectScore)
    ensures HasBadge(ExamGrants(rows, certs, userId, percentage, ids), userId, PerfectScore) <==> percentage == 100.0
  {
    var r1 := if percentage == 100.0 then Grant(rows, userId, PerfectScore, ids.0) else rows;
    var r2 := if percentage >= 85.0 then HighAchieverCheck(r1, certs, userId, ids.1) else r1;
    if percentage >= 85.0 {
      HighAchieverCheckKeeps(r1, certs, userId, ids.1, PerfectScore);
    }
    if percentage >= 90.0 && CountAbove(certs, userId, 89.0) >= 20 && !HasBadge(r2, userId, Excellence) {
      var r := ExcellenceCheck(r2, certs, userId, ids.2);
      if HasBadge(r, userId, PerfectScore) {
        var x :| x in r && x.userId == userId && x.badge == PerfectScore;
        assert x in r2;
      }
    }
  }

  /**
   * The high-achiever badge after an exam of at least 85: awarded exactly
   * when five of the user's certificates are above 84 (or it was held).
   */
  lemma HighAchieverAfterExam(rows: seq<BadgeRow>, certs: seq<Certificate>, userId: string, percentage: real,
    ids: (string, string, string))
    requires percentage >= 85.0
    ensures HasBadge(ExamGrants(rows, certs, userId, percentage, ids), userId, HighAchiever) <==>
      HasBadge(rows, userId, HighAchiever) || CountAbove(certs, userId, 84.0) >= 5
  {
    var r1 := if percentage == 100.0 then Grant(rows, userId, PerfectScore, ids.0) else rows;
    assert HasBadge(r1, userId, HighAchiever) == HasBadge(rows, userId, HighAchiever) by {
      if percentage == 100.0 && !HasBadge(rows, userId, PerfectScore) && HasBadge(r1, userId, HighAchiever) {
        var x :| x in r1 && x.userId == userId && x.badge == HighAchiever;
        assert x in rows;
      }
    }
    var r2 := HighAchieverCheck(r1, certs, userId, ids.1);
    if percentage >= 90.0 && CountAbove(certs, userId, 89.0) >= 20 && !HasBadge(r2, userId, Excellence) {
      var r := ExcellenceCheck(r2, certs, userId, ids.2);
      if HasBadge(r, userId, HighAchiever) {
        var x :| x in r && x.userId == userId && x.badge == HighAchiever;
        assert x in r2;
      }
    }
  }

  /**
   * The high-achiever test counts certificates above 84, not an average of
   * 85: five exams at 84.5 earn the badge whose description asks for 85%+.
   */
  lemma HighAchieverBelowAdvertisedAverage(userId: string)
    ensures var c := Certificate("", "", userId, None, Some(""), ExamCompletion, "", Some(84.5), Some(B), "");
      var certs := [c, c, c, c, c];
      CountAbove(certs, userId, 84.0) >= 5 && BadgeDefOf(HighAchiever).criteria == MultipleCourses(5, 85) &&
      c.percentage.value < BadgeDefOf(HighAchiever).criteria.avgScore as real
  {
    var c := Certificate("", "", userId, None, Some(""), ExamCompletion, "", Some(84.5), Some(B), "");
    CountAboveAll([c, c, c, c, c], userId, 84.0);
  }

  /** When every certificate is the user's and above the bound, all of them count. */
  lemma {:induction false} CountAboveAll(certs: seq<Certificate>, userId: string, bound: real)
    requires forall c :: c in certs ==> c.userId == userId && c.percentage.Some? && c.percentage.value > bound
    ensures CountAbove(certs, userId, bound) == |certs|
  {
    if certs != [] {
      assert forall c :: c in certs[1..] ==> c in certs;
      CountAboveAll(certs[1..], userId, bound);
    }
  }

  // ---------------------------------------------------------------------------
  // The service
  // ---------------------------------------------------------------------------

  datatype BadgeResult = BadgeNotFound(error: string) | AlreadyAwarded(badgeId: string) | Awarded(badgeId: string, badge: BadgeKey, name: string)

  datatype CourseCertResult =
    | CourseCertFailed(error: string)
    | CourseCertExists(certificateId: string, number: string, verificationCode: string)
    | CourseCertIssued(certificateId: string, number: string, verificationCode: string, title: string)

  datatype ExamCertResult =
    | ExamCertFailed(error: string)
    | BelowPassing(percentage: real)
    | ExamCertExists(certificateId: string)
    | ExamCertIssued(certificateId: string, number: string, verificationCode: string, title: string, grade: Grade, percentage: real)

  /** The fresh values one issue draws: the certificate id, the date, two uuid hex strings and three badge ids. */
  datatype Fresh = Fresh(certificateId: string, date: string, numberHex: string, codeHex: string, badgeIds: (string, string, string))

  predicate WellFormedFresh(f: Fresh) {
    |f.certificateId| >= 8 && IsUuidHex(f.numberHex) && IsUuidHex(f.codeHex)
  }

  /** The exam certificate issued for `assessment` (its title and its course). */
  function ExamCertificate(userId: string, assessmentId: string, assessment: (string, Option<string>),
    percentage: real, f: Fresh): (c: Certificate)
    requires WellFormedFresh(f)
    ensures c.userId == userId && c.kind == ExamCompletion && Target(c) == Some(assessmentId)
    ensures c.percentage == Some(percentage) && c.grade == Some(CalculateGrade(percentage))
  {
    Certificate(f.certificateId, CertificateNumber("EXAM-", f.date, f.numberHex), userId, assessment.1,
      Some(assessmentId), ExamCompletion, "Certificate of Achievement - " + assessment.0, Some(percentage),
      Some(CalculateGrade(percentage)), VerificationCode(f.certificateId, f.codeHex))
  }

  class CertificateService {
    var certificates: seq<Certificate>
    var badges: seq<BadgeRow>

    /** One certificate per (user, kind, target), one badge per (user, badge), and only passed exams certified. */
    predicate Valid()
      reads this
    {
      UniqueCertificates(certificates) && UniqueBadges(badges) && ExamCertificatesPassed(certificates)
    }

    constructor ()
      ensures Valid() && certificates == [] && badges == []
    {
      certificates, badges := [], [];
    }

    /** Awards a badge by key: an unknown key is an error, a badge held already is returned, otherwise one row is added. */
    method AwardBadge(userId: string, key: string, badgeId: string) returns (r: BadgeResult)
      requires Valid()
      modifies this`badges
      ensures Valid()
      ensures BadgeOfKey(key).None? ==> r == BadgeNotFound("Badge " + key + " not found") && badges == old(badges)
      ensures BadgeOfKey(key).Some? ==>
        var b := BadgeOfKey(key).value;
        badges == Grant(old(badges), userId, b, badgeId) &&
        (HasBadge(old(badges), userId, b) ==> r == AlreadyAwarded(FindBadge(old(badges), userId, b).value.id)) &&
        (!HasBadge(old(badges), userId, b) ==> r == Awarded(badgeId, b, BadgeDefOf(b).name))
    {
      var b := BadgeOfKey(key);
      if b.None? {
        return BadgeNotFound("Badge " + key + " not found");
      }
      var existing := FindBadge(badges, userId, b.value);
      if existing.Some? {
        return AlreadyAwarded(existing.value.id);
      }
      GrantKeepsBadgesUnique(badges, userId, b.value, badgeId, badgeId);
      badges := Grant(badges, userId, b.value, badgeId);
      r := Awarded(badgeId, b.value, BadgeDefOf(b.value).name);
    }

    method CheckAndAwardHighAchiever(userId: string, badgeId: string)
      requires Valid()
      modifies this`badges
      ensures Valid()
      ensures badges == HighAchieverCheck(old(badges), certificates, userId, badgeId)
    {
      if CountAbove(certificates, userId, 84.0) >= 5 {
        var _ := AwardBadge(userId, HighAchiever.Key(), badgeId);
      }
    }

    method CheckAndAwardExcellence(userId: string, badgeId: string)
      requires Valid()
      modifies this`badges
      ensures Valid()
      ensures badges == ExcellenceCheck(old(badges), certificates, userId, badgeId)
    {
      if CountAbove(certificates, userId, 89.0) >= 20 {
        var _ := AwardBadge(userId, Excellence.Key(), badgeId);
      }
    }

    /** The badges an exam of this percentage can bring. */
    method AwardExamBadges(userId: string, percentage: real, ids: (string, string, string))
      requires Valid()
      modifies this`badges
      ensures Valid()
      ensures badges == ExamGrants(old(badges), certificates, userId, percentage, ids)
    {
      if percentage == 100.0 {
        var _ := AwardBadge(userId, PerfectScore.Key(), ids.0);
      }
      if percentage >= 85.0 {
        CheckAndAwardHighAchiever(userId, ids.1);
      }
      if percentage >= 90.0 {
        CheckAndAwardExcellence(userId, ids.2);
      }
    }

    /** The badges a new course certificate can bring (first-course test corrected). */
    method AwardCompletionBadges(userId: string, ids: (string, string, string))
      requires Valid()
      modifies this`badges
      ensures Valid()
      ensures badges == CompletionGrants(old(badges), certificates, userId, ids)
    {
      var n := CourseCertificateCount(certificates, userId);
      if n == 1 {
        var _ := AwardBadge(userId, FirstCourse.Key(), ids.0);
      }
      if n >= 10 {
        var _ := AwardBadge(userId, Consistency.Key(), ids.1);
      }
      if n >= 5 {
        CheckAndAwardHighAchiever(userId, ids.2);
      }
    }

    /**
     * Issues a course certificate: a missing course fails, a certificate of
     * this user and course is returned as it is, otherwise one is inserted
     * and the completion badges follow.
     */
    method GenerateCourseCompletionCertificate(userId: string, courseId: string, courseTitle: Option<string>, f: Fresh)
      returns (r: CourseCertResult)
      requires Valid() && WellFormedFresh(f)
      modifies this
      ensures Valid()
      ensures courseTitle.None? ==> r == CourseCertFailed("Course not found") && unchanged(this)
      ensures courseTitle.Some? && FindCertificate(old(certificates), userId, CourseCompletion, courseId).Some? ==>
        var c := FindCertificate(old(certificates), userId, CourseCompletion, courseId).value;
        r == CourseCertExists(c.id, c.number, c.verificationCode) && unchanged(this)
      ensures courseTitle.Some? && FindCertificate(old(certificates), userId, CourseCompletion, courseId).None? ==>
        var c := Certificate(f.certificateId, CertificateNumber("CERT-", f.date, f.numberHex), userId, Some(courseId), None,
          CourseCompletion, "Certificate of Completion - " + courseTitle.value, None, None,
          VerificationCode(f.certificateId, f.codeHex));
        certificates == old(certificates) + [c] &&
        badges == CompletionGrants(old(badges), certificates, userId, f.badgeIds) &&
        r == CourseCertIssued(c.id, c.number, c.verificationCode, c.title)
      ensures old(badges) <= badges
    {
      if courseTitle.None? {
        return CourseCertFailed("Course not found");
      }
      var existing := FindCertificate(certificates, userId, CourseCompletion, courseId);
      if existing.Some? {
        return CourseCertExists(existing.value.id, existing.value.number, existing.value.verificationCode);
      }
      var c := Certificate(f.certificateId, CertificateNumber("CERT-", f.date, f.numberHex), userId, Some(courseId), None,
        CourseCompletion, "Certificate of Completion - " + courseTitle.value, None, None,
        VerificationCode(f.certificateId, f.codeHex));
      InsertKeepsUnique(certificates, c);
      certificates := certificates + [c];
      ghost var before := badges;
      AwardCompletionBadges(userId, f.badgeIds);
      CompletionGrantsGrow(before, certificates, userId, f.badgeIds);
      r := CourseCertIssued(c.id, c.number, c.verificationCode, c.title);
    }

    /**
     * Issues an exam certificate: a missing assessment fails, a percentage
     * below 60 is refused with nothing written, a certificate of this user
     * and assessment is returned as it is, otherwise one is inserted with
     * its grade and the exam badges follow.
     */
    method GenerateExamCertificate(userId: string, assessmentId: string, assessment: Option<(string, Option<string>)>,
      percentage: real, f: Fresh) returns (r: ExamCertResult)
      requires Valid() && WellFormedFresh(f)
      modifies this
      ensures Valid()
      ensures assessment.None? ==> r == ExamCertFailed("Assessment not found") && unchanged(this)
      ensures assessment.Some? && percentage < PassingPercentage ==> r == BelowPassing(percentage) && unchanged(this)
      ensures (assessment.Some? && percentage >= PassingPercentage &&
        FindCertificate(old(certificates), userId, ExamCompletion, assessmentId).Some?) ==>
        r == ExamCertExists(FindCertificate(old(certificates), userId, ExamCompletion, assessmentId).value.id) &&
        unchanged(this)
      ensures (assessment.Some? && percentage >= PassingPercentage &&
        FindCertificate(old(certificates), userId, ExamCompletion, assessmentId).None?) ==>
        var c := ExamCertificate(userId, assessmentId, assessment.value, percentage, f);
        certificates == old(certificates) + [c] &&
        badges == ExamGrants(old(badges), certificates, userId, percentage, f.badgeIds) &&
        r == ExamCertIssued(c.id, c.number, c.verificationCode, c.title, CalculateGrade(percentage), percentage)
      ensures r.ExamCertIssued? ==> r.grade != F && r.grade.Rank() >= D.Rank()
    {
      if assessment.None? {
        return ExamCertFailed("Assessment not found");
      }
      if percentage < PassingPercentage {
        return BelowPassing(percentage);
      }
      var existing := FindCertificate(certificates, userId, ExamCompletion, assessmentId);
      if existing.Some? {
        return ExamCertExists(existing.value.id);
      }
      r := IssueExamCertificate(userId, assessmentId, assessment.value, percentage, f);
    }

    /** Appends the new exam certificate, awards the exam badges and reports the certificate. */
    method IssueExamCertificate(userId: string, assessmentId: string, assessment: (string, Option<string>),
      percentage: real, f: Fresh) returns (r: ExamCertResult)
      requires Valid() && WellFormedFresh(f) && percentage >= PassingPercentage
      requires FindCertificate(certificates, userId, ExamCompletion, assessmentId).None?
      modifies this`certificates, this`badges
      ensures Valid()
      ensures certificates == old(certificates) + [ExamCertificate(userId, assessmentId, assessment, percentage, f)]
      ensures badges == ExamGrants(old(badges), certificates, userId, percentage, f.badgeIds)
      ensures var c := ExamCertificate(userId, assessmentId, assessment, percentage, f);
        r == ExamCertIssued(c.id, c.number, c.verificationCode, c.title, CalculateGrade(percentage), percentage)
    {
      var c := ExamCertificate(userId, assessmentId, assessment, percentage, f);
      InsertKeepsUnique(certificates, c);
      certificates := certificates + [c];
      AwardExamBadges(userId, percentage, f.badgeIds);
      r := ExamCertIssued(c.id, c.number, c.verificationCode, c.title, CalculateGrade(percentage), percentage);
    }
  }

  /** Inserting a certificate the lookup did not find keeps one per (user, kind, target). */
  lemma InsertKeepsUnique(certs: seq<Certificate>, c: Certificate)
    requires UniqueCertificates(certs) && Target(c).Some?
    requires FindCertificate(certs, c.userId, c.kind, Target(c).value).None?
    ensures UniqueCertificates(certs + [c])
  {
    var r := certs + [c];
    forall i, j | 0 <= i < j < |r|
      ensures !(r[i].userId == r[j].userId && r[i].kind == r[j].kind && Target(r[i]) == Target(r[j]))
    {
      if j == |certs| {
        assert r[i] in certs;
      }
    }
  }

  /** The completion badges only add rows. */
  lemma CompletionGrantsGrow(rows: seq<BadgeRow>, certs: seq<Certificate>, userId: string, ids: (string, string, string))
    ensures rows <= CompletionGrants(rows, certs, userId, ids)
  {
  }
}
