// Video watching and course progress: completing a watch at the 80% mark,
// updating a course's progress record field by field, and the watch and
// progress statistics. The video_watching and course_progress tables are
// maps; timestamps are inputs. Percentages are exact reals (the source's
// two-decimal rounding is not modelled).

module CourseTracking {
  import opened Common

  /** A nullable column read with `or 0`. */
  function OrZero(x: Option<int>): int {
    if x.Some? then x.value else 0
  }

  function OrZeroReal(x: Option<real>): real {
    if x.Some? then x.value else 0.0
  }

  // ---------------------------------------------------------------------------
  // Video watching
  // ---------------------------------------------------------------------------

  /** The share of a video that counts as watched. */
  const CompletionThreshold: real := 80.0

  /** A row of `video_watching`. */
  datatype Watch = Watch(
    userId: string,
    courseId: string,
    isCompleted: bool,
    durationWatched: Option<int>,
    watchPercentage: Option<real>,
    watchEndTime: Option<string>,
    completionDate: Option<string>)

  datatype CompleteResult =
    | AlreadyComplete(watch: Watch)
    | CompleteFailed(error: string)
    | Completed(isCompleted: bool, watch: Watch)

  /** The watch row once a final percentage is in: completed from 80% up, with a completion date exactly then. */
  function Finished(w: Watch, durationWatched: int, watchPercentage: real, now: string): (w': Watch)
    ensures w'.isCompleted <==> watchPercentage >= CompletionThreshold
    ensures w'.completionDate.Some? <==> w'.isCompleted
    ensures w'.durationWatched == Some(durationWatched) && w'.watchPercentage == Some(watchPercentage)
    ensures w'.userId == w.userId && w'.courseId == w.courseId
  {
    var done := watchPercentage >= CompletionThreshold;
    w.(isCompleted := done, durationWatched := Some(durationWatched), watchPercentage := Some(watchPercentage),
      watchEndTime := Some(now), completionDate := if done then Some(now) else None)
  }

  // ---------------------------------------------------------------------------
  // Course progress
  // ---------------------------------------------------------------------------

  /** A row of `course_progress`; counters are nullable. */
  datatype Progress = Progress(
    totalModules: Option<int>,
    totalVideos: Option<int>,
    totalAssessments: Option<int>,
    completedModules: Option<int>,
    videosWatched: Option<int>,
    assessmentsPassed: Option<int>,
    timeSpent: Option<int>,
    currentModuleId: Option<string>,
    currentVideoId: Option<string>,
    overallCompletion: Option<real>,
    lastAccessed: Option<string>)

  /** The optional arguments of one progress update. */
  datatype ProgressUpdate = ProgressUpdate(
    videosWatched: Option<int>,
    assessmentsPassed: Option<int>,
    timeSpent: Option<int>,
    currentModuleId: Option<string>,
    currentVideoId: Option<string>)

  /** Python truthiness of an optional id: present and non-empty. */
  predicate Given(id: Option<string>) {
    id.Some? && id.value != ""
  }

  /** The modules, videos and assessments of the course. */
  function TotalItems(p: Progress): int {
    OrZero(p.totalModules) + OrZero(p.totalVideos) + OrZero(p.totalAssessments)
  }

  /** The finished items after an update: the new counts where given, the stored ones otherwise. */
  function CompletedItems(p: Progress, u: ProgressUpdate): int {
    OrZero(p.completedModules) +
    OrZero(if u.videosWatched.Some? then u.videosWatched else p.videosWatched) +
    OrZero(if u.assessmentsPassed.Some? then u.assessmentsPassed else p.assessmentsPassed)
  }

  /**
   * The progress row after an update: the two counts overwritten when given,
   * the time added to the stored time, the current ids set only when given
   * and non-empty, and the completion percentage recomputed only for a
   * course with items.
   */
  function Updated(p: Progress, u: ProgressUpdate, now: string): (q: Progress)
    ensures q.videosWatched == (if u.videosWatched.Some? then u.videosWatched else p.videosWatched)
    ensures q.assessmentsPassed == (if u.assessmentsPassed.Some? then u.assessmentsPassed else p.assessmentsPassed)
    ensures u.timeSpent.Some? ==> q.timeSpent == Some(OrZero(p.timeSpent) + u.timeSpent.value)
    ensures u.timeSpent.None? ==> q.timeSpent == p.timeSpent
    ensures q.currentModuleId == (if Given(u.currentModuleId) then u.currentModuleId else p.currentModuleId)
    ensures q.currentVideoId == (if Given(u.currentVideoId) then u.currentVideoId else p.currentVideoId)
    ensures TotalItems(p) > 0 ==>
      q.overallCompletion == Some((CompletedItems(p, u) as real / TotalItems(p) as real) * 100.0)
    ensures TotalItems(p) <= 0 ==> q.overallCompletion == p.overallCompletion
    ensures q.lastAccessed == Some(now)
    ensures TotalItems(q) == TotalItems(p) && q.completedModules == p.completedModules
  {
    var total := TotalItems(p);
    p.(
      videosWatched := if u.videosWatched.Some? then u.videosWatched else p.videosWatched,
      assessmentsPassed := if u.assessmentsPassed.Some? then u.assessmentsPassed else p.assessmentsPassed,
      timeSpent := if u.timeSpent.Some? then Some(OrZero(p.timeSpent) + u.timeSpent.value) else p.timeSpent,
      currentModuleId := if Given(u.currentModuleId) then u.currentModuleId else p.currentModuleId,
      currentVideoId := if Given(u.currentVideoId) then u.currentVideoId else p.currentVideoId,
      overallCompletion :=
        if total > 0 then Some((CompletedItems(p, u) as real / total as real) * 100.0) else p.overallCompletion,
      lastAccessed := Some(now))
  }

  /** Two updates add both amounts of time to the stored time (nothing stored reads as 0). */
  lemma TimeSpentAccumulates(p: Progress, u1: ProgressUpdate, u2: ProgressUpdate, now1: string, now2: string)
    requires u1.timeSpent.Some? && u2.timeSpent.Some?
    ensures Updated(Updated(p, u1, now1), u2, now2).timeSpent ==
      Some(OrZero(p.timeSpent) + u1.timeSpent.value + u2.timeSpent.value)
  {
  }

  /** The counts are overwritten, not added to: the last value given wins. */
  lemma CountsAreOverwritten(p: Progress, u1: ProgressUpdate, u2: ProgressUpdate, now1: string, now2: string)
    requires u2.videosWatched.Some?
    ensures Updated(Updated(p, u1, now1), u2, now2).videosWatched == u2.videosWatched
  {
  }

  /**
   * With every item finished the course is at 100%, and the percentage is
   * not clamped: counts above the totals give more than 100%.
   */
  lemma CompletionPercentageBounds(p: Progress, u: ProgressUpdate, now: string)
    requires TotalItems(p) > 0
    ensures CompletedItems(p, u) == TotalItems(p) ==> Updated(p, u, now).overallCompletion == Some(100.0)
    ensures CompletedItems(p, u) > TotalItems(p) ==> Updated(p, u, now).overallCompletion.value > 100.0
    ensures 0 <= CompletedItems(p, u) <= TotalItems(p) ==>
      0.0 <= Updated(p, u, now).overallCompletion.value <= 100.0
  {
    PercentOfBounds(CompletedItems(p, u) as real, TotalItems(p) as real);
  }

  lemma PercentOfBounds(c: real, t: real)
    requires t > 0.0
    ensures c == t ==> (c / t) * 100.0 == 100.0
    ensures c > t ==> (c / t) * 100.0 > 100.0
    ensures 0.0 <= c <= t ==> 0.0 <= (c / t) * 100.0 <= 100.0
  {
    var x := c / t;
    assert x * t == c;
    if c > t {
      assert x > 1.0;
    }
    if 0.0 <= c <= t {
      assert 0.0 <= x <= 1.0;
    }
  }

  datatype ProgressResult = ProgressFailed(error: string) | ProgressUpdated(progress: Progress)

  class TrackingService {
    var watches: map<string, Watch>
    /** `course_progress`, keyed by (user id, course id). */
    var progress: map<(string, string), Progress>

    constructor ()
      ensures watches == map[] && progress == map[]
    {
      watches, progress := map[], map[];
    }

    /**
     * Closes a watch. One already completed is returned untouched; a missing
     * one fails; otherwise the final duration and percentage are written and
     * the watch is completed from 80% up.
     */
    method CompleteVideoWatch(watchId: string, durationWatched: int, watchPercentage: real, now: string)
      returns (r: CompleteResult)
      modifies this`watches
      ensures watchId in old(watches) && old(watches)[watchId].isCompleted ==>
        r == AlreadyComplete(old(watches)[watchId]) && watches == old(watches)
      ensures watchId !in old(watches) ==>
        r == CompleteFailed("Failed to complete video watch") && watches == old(watches)
      ensures watchId in old(watches) && !old(watches)[watchId].isCompleted ==>
        var w := Finished(old(watches)[watchId], durationWatched, watchPercentage, now);
        watches == old(watches)[watchId := w] && r == Completed(w.isCompleted, w)
      ensures r.Completed? ==> (r.isCompleted <==> watchPercentage >= CompletionThreshold)
    {
      if watchId in watches && watches[watchId].isCompleted {
        return AlreadyComplete(watches[watchId]);
      }
      if watchId !in watches {
        return CompleteFailed("Failed to complete video watch");
      }
      var done := watchPercentage >= CompletionThreshold;
      var w := watches[watchId];
      w := w.(isCompleted := done, durationWatched := Some(durationWatched), watchPercentage := Some(watchPercentage));
      w := w.(watchEndTime := Some(now), completionDate := if done then Some(now) else None);
      watches := watches[watchId := w];
      r := Completed(done, w);
    }

    /**
     * Updates the progress of a user in a course, building the new row one
     * field at a time; without a progress row it fails and writes nothing.
     */
    method UpdateCourseProgress(userId: string, courseId: string, u: ProgressUpdate, now: string)
      returns (r: ProgressResult)
      modifies this`progress
      ensures (userId, courseId) !in old(progress) ==>
        r == ProgressFailed("Course progress not found. Initialize first.") && progress == old(progress)
      ensures (userId, courseId) in old(progress) ==>
        var q := Updated(old(progress)[(userId, courseId)], u, now);
        progress == old(progress)[(userId, courseId) := q] && r == ProgressUpdated(q)
    {
      if (userId, courseId) !in progress {
        return ProgressFailed("Course progress not found. Initialize first.");
      }
      var p := progress[(userId, courseId)];
      var q := p.(lastAccessed := Some(now));
      if u.videosWatched.Some? {
        q := q.(videosWatched := u.videosWatched);
      }
      if u.assessmentsPassed.Some? {
        q := q.(assessmentsPassed := u.assessmentsPassed);
      }
      if u.timeSpent.Some? {
        q := q.(timeSpent := Some(OrZero(p.timeSpent) + u.timeSpent.value));
      }
      if Given(u.currentModuleId) {
        q := q.(currentModuleId := u.currentModuleId);
      }
      if Given(u.currentVideoId) {
        q := q.(currentVideoId := u.currentVideoId);
      }
      var total := TotalItems(p);
      if total > 0 {
        var completed := OrZero(p.completedModules) + OrZero(q.videosWatched) + OrZero(q.assessmentsPassed);
        q := q.(overallCompletion := Some((completed as real / total as real) * 100.0));
      }
      progress := progress[(userId, courseId) := q];
      r := ProgressUpdated(q);
    }
  }

  // ---------------------------------------------------------------------------
  // Statistics
  // ---------------------------------------------------------------------------

  datatype WatchStats = WatchStats(started: nat, completed: nat, totalDuration: int, averagePercentage: real)

  function CompletedCount(ws: seq<Watch>): (n: nat)
    ensures n <= |ws|
    ensures n == |Filter(ws, (w: Watch) => w.isCompleted)|
  {
    if ws == [] then 0 else (if ws[0].isCompleted then 1 else 0) + CompletedCount(ws[1..])
  }

  function DurationSum(ws: seq<Watch>): int {
    if ws == [] then 0 else OrZero(ws[0].durationWatched) + DurationSum(ws[1..])
  }

  function PercentageSum(ws: seq<Watch>): real {
    if ws == [] then 0.0 else OrZeroReal(ws[0].watchPercentage) + PercentageSum(ws[1..])
  }

  /** The watch statistics of a user in a course: started and completed counts, total time and mean percentage. */
  function VideoWatchStats(ws: seq<Watch>): (s: WatchStats)
    ensures s.completed <= s.started == |ws|
    ensures ws == [] ==> s.averagePercentage == 0.0 && s.completed == 0 && s.totalDuration == 0
  {
    WatchStats(|ws|, CompletedCount(ws), DurationSum(ws),
      if ws == [] then 0.0 else PercentageSum(ws) / |ws| as real)
  }

  predicate PercentagesWithin(ws: seq<Watch>, lo: real, hi: real) {
    forall i :: 0 <= i < |ws| ==> lo <= OrZeroReal(ws[i].watchPercentage) <= hi
  }

  lemma {:induction false} PercentageSumBounds(ws: seq<Watch>, lo: real, hi: real)
    requires PercentagesWithin(ws, lo, hi)
    ensures |ws| as real * lo <= PercentageSum(ws) <= |ws| as real * hi
  {
    if ws != [] {
      assert PercentagesWithin(ws[1..], lo, hi) by {
        forall i | 0 <= i < |ws[1..]| ensures lo <= OrZeroReal(ws[1..][i].watchPercentage) <= hi {
          assert ws[1..][i] == ws[i + 1];
        }
      }
      PercentageSumBounds(ws[1..], lo, hi);
    }
  }

  /** The mean percentage lies between the lowest and highest bound of the watches' percentages. */
  lemma AverageWithinBounds(ws: seq<Watch>, lo: real, hi: real)
    requires ws != [] && PercentagesWithin(ws, lo, hi)
    ensures lo <= VideoWatchStats(ws).averagePercentage <= hi
  {
    PercentageSumBounds(ws, lo, hi);
    var n := |ws| as real;
    var sum := PercentageSum(ws);
    assert n * lo <= sum <= n * hi;
    assert sum / n >= lo by {
      assert (sum / n) * n == sum;
    }
    assert sum / n <= hi by {
      assert (sum / n) * n == sum;
    }
  }

  function CompletionSum(rows: seq<Progress>): real {
    if rows == [] then 0.0 else OrZeroReal(rows[0].overallCompletion) + CompletionSum(rows[1..])
  }

  /** The mean completion over all of a user's courses, 0 with none (a missing percentage reads as 0). */
  function AllCoursesAverage(rows: seq<Progress>): (avg: real)
    ensures rows == [] ==> avg == 0.0
    ensures rows != [] ==> avg * |rows| as real == CompletionSum(rows)
  {
    if rows == [] then 0.0 else CompletionSum(rows) / |rows| as real
  }

  /** When every course stands at the same percentage, so does the average. */
  lemma {:induction false} AllCoursesAverageOfEqual(rows: seq<Progress>, pct: real)
    requires rows != []
    requires forall i :: 0 <= i < |rows| ==> rows[i].overallCompletion == Some(pct)
    ensures AllCoursesAverage(rows) == pct
  {
    CompletionSumOfEqual(rows, pct);
  }

  lemma {:induction false} CompletionSumOfEqual(rows: seq<Progress>, pct: real)
    requires forall i :: 0 <= i < |rows| ==> rows[i].overallCompletion == Some(pct)
    ensures CompletionSum(rows) == |rows| as real * pct
  {
    if rows != [] {
      assert forall i :: 0 <= i < |rows[1..]| ==> rows[1..][i] == rows[i + 1];
      CompletionSumOfEqual(rows[1..], pct);
    }
  }
}
