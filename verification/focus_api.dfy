/** The focus-session route of the API: POST records a finished timer session and
    updates the per-user statistics, GET reports them. Ids and timestamps come
    from the clock in the original; here they are parameters. */
module FocusApi {
  import opened Common

  /** A recorded session. `mode` is a string: the route does not check it. */
  datatype Session = Session(id: string, userId: string, duration: int, mode: string, completedAt: string)

  datatype Stats = Stats(totalMinutes: int, streak: int, score: int)

  /** The statistics of a user the route has never seen. */
  const ZeroStats: Stats := Stats(0, 0, 0)

  /** What a handler answers, with its HTTP status. */
  datatype Response =
    | Saved(session: Session, updatedStats: Stats)
    | Report(stats: Stats, sessions: seq<Session>)
    | Failed(code: nat, error: string)
  {
    function Status(): nat
    {
      match this
      case Saved(_, _) => 201
      case Report(_, _) => 200
      case Failed(code, _) => code
    }
  }

  /** `!duration` is false: the duration is present and not 0. */
  predicate DurationGiven(d: Option<int>)
  {
    d.Some? && d.value != 0
  }

  /** The statistics GET reports for a user: the stored ones, or all zeros. */
  function StatsOf(userStats: map<string, Stats>, uid: string): Stats
  {
    if uid in userStats then userStats[uid] else ZeroStats
  }

  /** What a focus session adds: `Math.floor(duration / 60)` minutes, and one point
      of score capped at 100. */
  function AddFocus(st: Stats, duration: int): (r: Stats)
    ensures r.streak == st.streak
    ensures 60 * (r.totalMinutes - st.totalMinutes) <= duration < 60 * (r.totalMinutes - st.totalMinutes + 1)
    ensures r.score <= 100
    ensures st.score < 100 ==> r.score == st.score + 1
    ensures st.score >= 100 ==> r.score == 100
  {
    Stats(st.totalMinutes + duration / 60, st.streak, Min(100, st.score + 1))
  }

  function Min(a: int, b: int): int
  {
    if a <= b then a else b
  }

  /** The statistics of the posting user after a valid POST. */
  function AfterPost(st: Stats, duration: int, mode: string): (r: Stats)
    ensures r.streak == st.streak
    ensures mode != "focus" ==> r == st
    ensures mode == "focus" ==> r == AddFocus(st, duration)
  {
    if mode == "focus" then AddFocus(st, duration) else st
  }

  /** The test the sessions GET filters with. */
  function UserIs(uid: string): Session -> bool
  {
    (s: Session) => s.userId == uid
  }

  /** The sessions GET reports for a user, in the order they were recorded. */
  function SessionsOf(sessions: seq<Session>, uid: string): (r: seq<Session>)
    ensures Subsequence(r, sessions)
    ensures forall k :: 0 <= k < |r| ==> r[k].userId == uid && r[k] in sessions
    ensures forall k :: 0 <= k < |sessions| && sessions[k].userId == uid ==> sessions[k] in r
    ensures KeepsCounts(r, sessions, UserIs(uid))
  {
    FilterIsSubsequence(sessions, UserIs(uid));
    FilterCounts(sessions, UserIs(uid));
    Filter(sessions, UserIs(uid))
  }

  /** A run of focus sessions never lifts the score above 100, whatever the
      starting score was. */
  lemma {:induction false} ScoreCapped(st: Stats, durations: seq<int>)
    requires |durations| > 0
    ensures FocusRun(st, durations).score <= 100
    ensures FocusRun(st, durations).streak == st.streak
    decreases |durations|
  {
    if |durations| > 1 {
      ScoreCapped(AddFocus(st, durations[0]), durations[1..]);
    }
  }

  /** The statistics after a run of focus sessions, one after the other. */
  function FocusRun(st: Stats, durations: seq<int>): Stats
    decreases |durations|
  {
    if durations == [] then st else FocusRun(AddFocus(st, durations[0]), durations[1..])
  }

  /** The module-level `sessions` list and `userStats` record. */
  class FocusStore {
    var sessions: seq<Session>
    var userStats: map<string, Stats>

    /** Every stored score is at most 100. */
    ghost predicate ScoresAtMost100()
      reads this
    {
      forall uid :: uid in userStats ==> userStats[uid].score <= 100
    }

    constructor ()
      ensures sessions == [] && userStats == map["1" := Stats(165, 7, 85)]
      ensures ScoresAtMost100()
    {
      sessions := [];
      userStats := map["1" := Stats(165, 7, 85)];
    }

    /** GET: the user's statistics (zeros for an unknown user, which is not
        inserted) and that user's sessions. */
    method Get(userId: Option<string>) returns (r: Response)
      ensures r == Report(StatsOf(userStats, OrDefault(userId, "1")), SessionsOf(sessions, OrDefault(userId, "1")))
      ensures r.Status() == 200
      ensures OrDefault(userId, "1") !in userStats ==> r.stats == ZeroStats
    {
      var uid := OrDefault(userId, "1");
      var stats := if uid in userStats then userStats[uid] else ZeroStats;
      r := Report(stats, SessionsOf(sessions, uid));
    }

    /** POST: 400 when the duration is missing or 0 or the mode is missing;
        otherwise one session is appended, the user's statistics are created if
        need be and updated, and no other user's statistics change. */
    method Post(userId: Option<string>, duration: Option<int>, mode: Option<string>, id: string, now: string)
      returns (r: Response)
      modifies this
      ensures !DurationGiven(duration) || !Truthy(mode) ==>
        r == Failed(400, "Duration and mode are required")
        && sessions == old(sessions) && userStats == old(userStats)
      ensures DurationGiven(duration) && Truthy(mode) ==>
        var uid := OrDefault(userId, "1");
        && r.Saved? && r.Status() == 201
        && r.session == Session(id, uid, duration.value, mode.value, now)
        && sessions == old(sessions) + [r.session]
        && userStats == old(userStats)[uid := AfterPost(StatsOf(old(userStats), uid), duration.value, mode.value)]
        && r.updatedStats == userStats[uid]
      ensures old(ScoresAtMost100()) ==> ScoresAtMost100()
    {
      if !DurationGiven(duration) || !Truthy(mode) {
        return Failed(400, "Duration and mode are required");
      }
      var session := Session(id, OrDefault(userId, "1"), duration.value, mode.value, now);
      sessions := sessions + [session];
      var uid := OrDefault(userId, "1");
      if uid !in userStats {
        userStats := userStats[uid := ZeroStats];
      }
      if mode.value == "focus" {
        userStats := userStats[uid := AddFocus(userStats[uid], duration.value)];
      }
      r := Saved(session, userStats[uid]);
    }
  }
}
