/**
 * The session list provider: an in-memory list of timer sessions that the
 * timer screen appends to and updates by id, and that the history screen
 * queries by calendar day.
 */
module SessionContext {
  import opened Wrappers

  /**
   * A JavaScript `Date`, reduced to what the provider looks at: `day` is the
   * calendar-day key that `toDateString()` renders (two dates fall on the same
   * day exactly when their keys are equal) and `clock` is the rest of the
   * timestamp.
   */
  datatype Instant = Instant(day: int, clock: int)

  datatype TimerSession = TimerSession(
    id: string,
    name: string,
    category: string,
    duration: int,
    startTime: Instant,
    endTime: Option<Instant>,
    isCompleted: bool,
    distractions: seq<string>,
    focusScore: Option<int>)

  /**
   * A `Partial<TimerSession>`: `None` is a key absent from the update object.
   * For the optional fields, `Some(None)` is a key present with the value
   * `undefined`, which the spread copies over and so clears the field.
   */
  datatype SessionPatch = SessionPatch(
    id: Option<string>,
    name: Option<string>,
    category: Option<string>,
    duration: Option<int>,
    startTime: Option<Instant>,
    endTime: Option<Option<Instant>>,
    isCompleted: Option<bool>,
    distractions: Option<seq<string>>,
    focusScore: Option<Option<int>>)

  /** The figures `getDailyStats` returns for one day. */
  datatype DailyStats = DailyStats(
    totalSessions: nat,
    completedSessions: nat,
    totalTime: int,
    averageFocusScore: int)

  /** The object spread `{ ...s, ...p }`: every field present in `p` wins. */
  function Merge(s: TimerSession, p: SessionPatch): TimerSession {
    TimerSession(
      p.id.GetOr(s.id),
      p.name.GetOr(s.name),
      p.category.GetOr(s.category),
      p.duration.GetOr(s.duration),
      p.startTime.GetOr(s.startTime),
      p.endTime.GetOr(s.endTime),
      p.isCompleted.GetOr(s.isCompleted),
      p.distractions.GetOr(s.distractions),
      p.focusScore.GetOr(s.focusScore))
  }

  /** The update with no keys, `{}`. */
  const EmptyPatch := SessionPatch(None, None, None, None, None, None, None, None, None)

  /** Merging sets exactly the fields present in the patch and keeps every other one. */
  lemma MergeSetsPresentFields(s: TimerSession, p: SessionPatch)
    ensures var r := Merge(s, p);
      && (r.id == if p.id.Some? then p.id.value else s.id)
      && (r.name == if p.name.Some? then p.name.value else s.name)
      && (r.category == if p.category.Some? then p.category.value else s.category)
      && (r.duration == if p.duration.Some? then p.duration.value else s.duration)
      && (r.startTime == if p.startTime.Some? then p.startTime.value else s.startTime)
      && (r.endTime == if p.endTime.Some? then p.endTime.value else s.endTime)
      && (r.isCompleted == if p.isCompleted.Some? then p.isCompleted.value else s.isCompleted)
      && (r.distractions == if p.distractions.Some? then p.distractions.value else s.distractions)
      && (r.focusScore == if p.focusScore.Some? then p.focusScore.value else s.focusScore)
  {
  }

  /** An empty update changes nothing, and applying the same update twice is applying it once. */
  lemma MergeIdentityAndIdempotence(s: TimerSession, p: SessionPatch)
    ensures Merge(s, EmptyPatch) == s
    ensures Merge(Merge(s, p), p) == Merge(s, p)
  {
  }

  /** One update standing for `p` followed by `q`: a key present in `q` overrides `p`'s. */
  function Then(p: SessionPatch, q: SessionPatch): SessionPatch {
    SessionPatch(
      q.id.OrElse(p.id),
      q.name.OrElse(p.name),
      q.category.OrElse(p.category),
      q.duration.OrElse(p.duration),
      q.startTime.OrElse(p.startTime),
      q.endTime.OrElse(p.endTime),
      q.isCompleted.OrElse(p.isCompleted),
      q.distractions.OrElse(p.distractions),
      q.focusScore.OrElse(p.focusScore))
  }

  /**
   * Two successive `updateSession` calls on a session are one call with the
   * combined update, in which the later call's keys win.
   */
  lemma MergeComposes(s: TimerSession, p: SessionPatch, q: SessionPatch)
    ensures Merge(Merge(s, p), q) == Merge(s, Then(p, q))
  {
  }

  /** What `updateSession` does to one element of the list. */
  function UpdateIfMatches(s: TimerSession, id: string, p: SessionPatch): TimerSession {
    if s.id == id then Merge(s, p) else s
  }

  /** `prev.map(s => s.id === id ? { ...s, ...updates } : s)`. */
  function UpdateAll(ss: seq<TimerSession>, id: string, p: SessionPatch): (r: seq<TimerSession>)
    ensures |r| == |ss|
  {
    if ss == [] then [] else [UpdateIfMatches(ss[0], id, p)] + UpdateAll(ss[1..], id, p)
  }

  /**
   * Position by position, the updated list holds the merge for every session
   * whose id matches (all of them, not only the first) and the old session
   * for every other one.
   */
  lemma {:induction false} UpdateAllAt(ss: seq<TimerSession>, id: string, p: SessionPatch, i: nat)
    requires i < |ss|
    ensures UpdateAll(ss, id, p)[i] == if ss[i].id == id then Merge(ss[i], p) else ss[i]
  {
    if i > 0 {
      UpdateAllAt(ss[1..], id, p, i - 1);
    }
  }

  /** An id that matches no session leaves the list as it was. */
  lemma {:induction false} UpdateAllNoMatch(ss: seq<TimerSession>, id: string, p: SessionPatch)
    requires forall s :: s in ss ==> s.id != id
    ensures UpdateAll(ss, id, p) == ss
  {
    if ss != [] {
      UpdateAllNoMatch(ss[1..], id, p);
    }
  }

  /** `sessions.filter(session => session.startTime.toDateString() === date.toDateString())`. */
  function SessionsByDate(ss: seq<TimerSession>, date: Instant): (r: seq<TimerSession>)
    ensures |r| <= |ss|
    ensures forall s :: s in r ==> s in ss && s.startTime.day == date.day
  {
    if ss == [] then []
    else if ss[0].startTime.day == date.day then [ss[0]] + SessionsByDate(ss[1..], date)
    else SessionsByDate(ss[1..], date)
  }

  /** `r` is `ss` with some elements dropped and the rest kept in order. */
  ghost predicate IsSubsequence(r: seq<TimerSession>, ss: seq<TimerSession>)
    decreases |ss|
  {
    if r == [] then true
    else if ss == [] then false
    else (r[0] == ss[0] && IsSubsequence(r[1..], ss[1..])) || IsSubsequence(r, ss[1..])
  }

  /** The day's sessions appear in the same relative order as in the whole list. */
  lemma {:induction false} SessionsByDateIsSubsequence(ss: seq<TimerSession>, date: Instant)
    ensures IsSubsequence(SessionsByDate(ss, date), ss)
  {
    if ss != [] {
      SessionsByDateIsSubsequence(ss[1..], date);
    }
  }

  /**
   * Every session of the day is kept as often as it occurs in the list, and
   * no session of another day is kept: with the order above, the result is
   * exactly the day's sessions.
   */
  lemma {:induction false} SessionsByDateCounts(ss: seq<TimerSession>, date: Instant)
    ensures forall s :: multiset(SessionsByDate(ss, date))[s]
                        == (if s.startTime.day == date.day then multiset(ss)[s] else 0)
  {
    if ss != [] {
      SessionsByDateCounts(ss[1..], date);
      assert ss == [ss[0]] + ss[1..];
    }
  }

  /** Filtering distributes over an append, which is how `addSession` grows the list. */
  lemma {:induction false} SessionsByDateAppend(ss: seq<TimerSession>, x: TimerSession, date: Instant)
    ensures SessionsByDate(ss + [x], date)
      == SessionsByDate(ss, date) + (if x.startTime.day == date.day then [x] else [])
  {
    if ss == [] {
      assert ss + [x] == [x];
    } else {
      assert (ss + [x])[1..] == ss[1..] + [x];
      SessionsByDateAppend(ss[1..], x, date);
    }
  }

  /** `daySessions.filter(s => s.isCompleted)`. */
  function Completed(ss: seq<TimerSession>): (r: seq<TimerSession>)
    ensures |r| <= |ss|
    ensures forall s :: s in r ==> s in ss && s.isCompleted
  {
    if ss == [] then []
    else if ss[0].isCompleted then [ss[0]] + Completed(ss[1..])
    else Completed(ss[1..])
  }

  lemma {:induction false} CompletedAppend(ss: seq<TimerSession>, x: TimerSession)
    ensures Completed(ss + [x]) == Completed(ss) + (if x.isCompleted then [x] else [])
  {
    if ss == [] {
      assert ss + [x] == [x];
    } else {
      assert (ss + [x])[1..] == ss[1..] + [x];
      CompletedAppend(ss[1..], x);
    }
  }

  /** `reduce((sum, s) => sum + s.duration, 0)`. */
  function TotalDuration(ss: seq<TimerSession>): int {
    if ss == [] then 0 else ss[0].duration + TotalDuration(ss[1..])
  }

  /** `s.focusScore || 0`: a missing score counts as zero. */
  function ScoreOrZero(s: TimerSession): int {
    s.focusScore.GetOr(0)
  }

  /** `reduce((sum, s) => sum + (s.focusScore || 0), 0)`. */
  function TotalFocus(ss: seq<TimerSession>): int {
    if ss == [] then 0 else ScoreOrZero(ss[0]) + TotalFocus(ss[1..])
  }

  lemma {:induction false} TotalsAppend(ss: seq<TimerSession>, x: TimerSession)
    ensures TotalDuration(ss + [x]) == TotalDuration(ss) + x.duration
    ensures TotalFocus(ss + [x]) == TotalFocus(ss) + ScoreOrZero(x)
  {
    if ss == [] {
      assert ss + [x] == [x];
    } else {
      assert (ss + [x])[1..] == ss[1..] + [x];
      TotalsAppend(ss[1..], x);
    }
  }

  /** If every score lies in `[lo, hi]`, the summed score lies in `[n * lo, n * hi]`. */
  lemma {:induction false} TotalFocusBounds(ss: seq<TimerSession>, lo: int, hi: int)
    requires forall s :: s in ss ==> lo <= ScoreOrZero(s) <= hi
    ensures |ss| * lo <= TotalFocus(ss) <= |ss| * hi
  {
    if ss != [] {
      var rest := ss[1..];
      assert forall s :: s in rest ==> s in ss;
      TotalFocusBounds(rest, lo, hi);
      assert ss[0] in ss;
      BoundsStep(|rest|, TotalFocus(rest), ScoreOrZero(ss[0]), lo, hi);
    }
  }

  /** One more value in `[lo, hi]` keeps a sum of `n` such values within bounds. */
  lemma BoundsStep(n: nat, t: int, x: int, lo: int, hi: int)
    requires n * lo <= t <= n * hi && lo <= x <= hi
    ensures (n + 1) * lo <= x + t <= (n + 1) * hi
  {
    assert (n + 1) * lo == n * lo + lo;
    assert (n + 1) * hi == n * hi + hi;
  }

  /**
   * `Math.round(sum / n)` for a positive count: `Math.round(x)` is
   * `floor(x + 1/2)`, and `floor((sum / n) + 1/2)` is `floor((2 * sum + n) / (2 * n))`,
   * which Dafny's division computes exactly for a positive divisor.
   */
  function RoundedMean(sum: int, n: int): (r: int)
    requires n > 0
    ensures n * (2 * r - 1) <= 2 * sum < n * (2 * r + 1)
  {
    var q := (2 * sum + n) / (2 * n);
    assert 2 * sum + n == 2 * n * q + (2 * sum + n) % (2 * n);
    q
  }

  /** `getDailyStats(date)`. */
  function GetDailyStats(ss: seq<TimerSession>, date: Instant): (st: DailyStats)
    ensures st.completedSessions <= st.totalSessions
  {
    var daySessions := SessionsByDate(ss, date);
    var completed := Completed(daySessions);
    DailyStats(
      |daySessions|,
      |completed|,
      TotalDuration(completed),
      if |completed| > 0 then RoundedMean(TotalFocus(completed), |completed|) else 0)
  }

  /** The positions in `ss` of the sessions that start on `day`. */
  ghost function DayIndices(ss: seq<TimerSession>, day: int): set<int> {
    set i | 0 <= i < |ss| && ss[i].startTime.day == day
  }

  /** The positions in `ss` of the completed sessions that start on `day`. */
  ghost function CompletedDayIndices(ss: seq<TimerSession>, day: int): set<int> {
    set i | 0 <= i < |ss| && ss[i].startTime.day == day && ss[i].isCompleted
  }

  lemma DayIndicesAppend(ss: seq<TimerSession>, x: TimerSession, day: int)
    ensures DayIndices(ss + [x], day)
      == DayIndices(ss, day) + (if x.startTime.day == day then {|ss|} else {})
    ensures CompletedDayIndices(ss + [x], day)
      == CompletedDayIndices(ss, day) + (if x.startTime.day == day && x.isCompleted then {|ss|} else {})
  {
    assert forall i :: 0 <= i < |ss| ==> (ss + [x])[i] == ss[i];
    assert (ss + [x])[|ss|] == x;
  }

  /**
   * The counts are over the given day only: `totalSessions` is the number of
   * positions in the list holding a session that starts on that day, and
   * `completedSessions` the number of those holding a completed one.
   */
  lemma {:induction false} DailyCountsAreDayCounts(ss: seq<TimerSession>, date: Instant)
    ensures GetDailyStats(ss, date).totalSessions == |DayIndices(ss, date.day)|
    ensures GetDailyStats(ss, date).completedSessions == |CompletedDayIndices(ss, date.day)|
  {
    if ss == [] {
      assert DayIndices(ss, date.day) == {};
      assert CompletedDayIndices(ss, date.day) == {};
    } else {
      var n := |ss| - 1;
      var init, x := ss[..n], ss[n];
      assert ss == init + [x];
      DailyCountsAreDayCounts(init, date);
      DayIndicesAppend(init, x, date.day);
      assert n !in DayIndices(init, date.day) && n !in CompletedDayIndices(init, date.day);
      SessionsByDateAppend(init, x, date);
      var day0 := SessionsByDate(init, date);
      CompletedAppend(day0, x);
      if x.startTime.day == date.day {
        assert SessionsByDate(ss, date) == day0 + [x];
      } else {
        assert SessionsByDate(ss, date) == day0;
      }
    }
  }

  /** With no completed session that day the average is 0: the division by zero is guarded. */
  lemma NoCompletedMeansZeroAverage(ss: seq<TimerSession>, date: Instant)
    requires forall s :: s in ss && s.startTime.day == date.day ==> !s.isCompleted
    ensures GetDailyStats(ss, date).completedSessions == 0
    ensures GetDailyStats(ss, date).averageFocusScore == 0
    ensures GetDailyStats(ss, date).totalTime == 0
  {
  }

  /** Dividing both sides of `n * a < n * b` by a positive `n`. */
  lemma MulLessCancel(n: int, a: int, b: int)
    requires n > 0 && n * a < n * b
    ensures a < b
  {
  }

  /** A rounded mean of values in `[lo, hi]` lies in `[lo, hi]`. */
  lemma RoundedMeanBetween(sum: int, n: int, r: int, lo: int, hi: int)
    requires n > 0 && n * lo <= sum <= n * hi
    requires n * (2 * r - 1) <= 2 * sum < n * (2 * r + 1)
    ensures lo <= r <= hi
  {
    assert n * (2 * hi + 1) == 2 * (n * hi) + n;
    MulLessCancel(n, 2 * r - 1, 2 * hi + 1);
    assert n * (2 * lo) == 2 * (n * lo);
    MulLessCancel(n, 2 * lo, 2 * r + 1);
  }

  /**
   * Otherwise the average is the mean focus score of the day's completed
   * sessions rounded to the nearest integer (halves round up), and like any
   * mean it lies between the smallest and the largest score.
   */
  lemma AverageIsRoundedMean(ss: seq<TimerSession>, date: Instant, lo: int, hi: int)
    requires GetDailyStats(ss, date).completedSessions > 0
    requires forall s :: s in ss && s.startTime.day == date.day && s.isCompleted ==> lo <= ScoreOrZero(s) <= hi
    ensures var st := GetDailyStats(ss, date);
      var sum := TotalFocus(Completed(SessionsByDate(ss, date)));
      && st.completedSessions * (2 * st.averageFocusScore - 1) <= 2 * sum
      && 2 * sum < st.completedSessions * (2 * st.averageFocusScore + 1)
      && lo <= st.averageFocusScore <= hi
  {
    var c := Completed(SessionsByDate(ss, date));
    var n, sum := |c|, TotalFocus(c);
    var r := RoundedMean(sum, n);
    assert GetDailyStats(ss, date).averageFocusScore == r;
    TotalFocusBounds(c, lo, hi);
    RoundedMeanBetween(sum, n, r, lo, hi);
  }

  /** A session of another day leaves the day's figures as they were. */
  lemma AddSessionOtherDay(ss: seq<TimerSession>, x: TimerSession, date: Instant)
    requires x.startTime.day != date.day
    ensures GetDailyStats(ss + [x], date) == GetDailyStats(ss, date)
  {
    SessionsByDateAppend(ss, x, date);
    assert SessionsByDate(ss + [x], date) == SessionsByDate(ss, date);
  }

  /**
   * A session of this day adds one to `totalSessions`; only a completed one
   * counts towards `completedSessions`, `totalTime` and the average.
   */
  lemma AddSessionSameDay(ss: seq<TimerSession>, x: TimerSession, date: Instant)
    requires x.startTime.day == date.day
    ensures var before, after := GetDailyStats(ss, date), GetDailyStats(ss + [x], date);
      && (!x.isCompleted ==> after == before.(totalSessions := before.totalSessions + 1))
      && (x.isCompleted ==>
            && after.totalSessions == before.totalSessions + 1
            && after.completedSessions == before.completedSessions + 1
            && after.totalTime == before.totalTime + x.duration)
  {
    var d0 := SessionsByDate(ss, date);
    SessionsByDateAppend(ss, x, date);
    assert SessionsByDate(ss + [x], date) == d0 + [x];
    CompletedAppend(d0, x);
    var c0 := Completed(d0);
    if x.isCompleted {
      TotalsAppend(c0, x);
      assert Completed(d0 + [x]) == c0 + [x];
    } else {
      assert Completed(d0 + [x]) == c0;
    }
  }

  /** The provider: its `sessions` state, replaced wholesale by each `setSessions`. */
  class SessionStore {
    var sessions: seq<TimerSession>

    /** `useState<TimerSession[]>([])`. */
    constructor()
      ensures sessions == []
    {
      sessions := [];
    }

    /** `addSession(session)`: the old list is kept as a prefix and the session is the new last element. */
    method AddSession(session: TimerSession)
      modifies this
      ensures sessions == old(sessions) + [session]
      ensures |sessions| == |old(sessions)| + 1
      ensures sessions[..|old(sessions)|] == old(sessions) && sessions[|sessions| - 1] == session
    {
      sessions := sessions + [session];
    }

    /**
     * `updateSession(id, updates)`: same length and order; every session with
     * the id gets the update merged in and every other session is untouched.
     */
    method UpdateSession(id: string, updates: SessionPatch)
      modifies this
      ensures sessions == UpdateAll(old(sessions), id, updates)
      ensures |sessions| == |old(sessions)|
      ensures forall i :: 0 <= i < |sessions| ==>
        sessions[i] == if old(sessions)[i].id == id then Merge(old(sessions)[i], updates) else old(sessions)[i]
      ensures (forall s :: s in old(sessions) ==> s.id != id) ==> sessions == old(sessions)
    {
      ghost var before := sessions;
      sessions := UpdateAll(sessions, id, updates);
      forall i | 0 <= i < |sessions|
        ensures sessions[i] == if before[i].id == id then Merge(before[i], updates) else before[i]
      {
        UpdateAllAt(before, id, updates, i);
      }
      if forall s :: s in before ==> s.id != id {
        UpdateAllNoMatch(before, id, updates);
      }
    }
  }
}
