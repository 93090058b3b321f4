/**
 * The per-user like-log throttle of the current server (`likeLogState`): after each like it
 * decides whether to print a progress line, which happens once 100 likes have accumulated
 * or more than 30 seconds have passed since the last line. Time is a parameter; the line
 * itself is reduced to a boolean.
 */
module LikeLog {
  import opened JsValues

  /** `likeLogState[userId] = { lastLikes, lastLog }` */
  datatype LogState = LogState(lastLikes: int, lastLog: int)

  /** Likes since the last line that force a new line (`likesSince >= 100`). */
  const LikeStep: int := 100
  /** Milliseconds after which any like forces a new line (`timeSince > 30000`). */
  const QuietMillis: int := 30000

  /** The throttle for one user, at a like that brought the user's total to `likes` at time
      `now`: whether a line is logged, and the user's state afterwards. A first like only
      starts tracking; afterwards a line is logged exactly when 100 likes have accumulated or
      more than 30 s have passed, and logging resets both fields. */
  function Step(state: Option<LogState>, likes: int, now: int): (r: (bool, LogState))
    ensures state.None? ==> r == (false, LogState(likes, now))
    ensures state.Some? ==>
      (r.0 <==> likes - state.value.lastLikes >= LikeStep || now - state.value.lastLog > QuietMillis)
    ensures r.0 ==> r.1 == LogState(likes, now)
    ensures state.Some? && !r.0 ==> r.1 == state.value
  {
    var s := if state.Some? then state.value else LogState(likes, now);
    var likesSince := likes - s.lastLikes;
    var timeSince := now - s.lastLog;
    if likesSince >= LikeStep || timeSince > QuietMillis then (true, LogState(likes, now))
    else (false, s)
  }

  /** `Step` on the whole `likeLogState` object: only the entry of `id` may change. */
  function Observe(log: map<string, LogState>, id: string, likes: int, now: int)
    : (r: (bool, map<string, LogState>))
    ensures r.1.Keys == log.Keys + {id}
    ensures forall k :: k in log && k != id ==> r.1[k] == log[k]
    ensures (r.0, r.1[id]) == Step(if id in log then Some(log[id]) else None, likes, now)
  {
    var (logged, s) := Step(if id in log then Some(log[id]) else None, likes, now);
    (logged, log[id := s])
  }

  /** How many lines one user's run of single likes, at times `times`, produces when the
      user had `likes` likes before the run. */
  function Logged(state: Option<LogState>, likes: int, times: seq<int>): nat
    decreases times
  {
    if times == [] then 0
    else
      var (logged, next) := Step(state, likes + 1, times[0]);
      (if logged then 1 else 0) + Logged(Some(next), likes + 1, times[1..])
  }

  /** Every time in `times` lies in the 30-second window that opens at `t0`. */
  ghost predicate Within(times: seq<int>, t0: int) {
    forall i :: 0 <= i < |times| ==> t0 <= times[i] <= t0 + QuietMillis
  }

  /** Inside one 30-second window, a tracked user gets a line every 100 likes and no more. */
  lemma {:induction false} SteadyRunLogs(s: LogState, likes: int, t0: int, times: seq<int>)
    requires 0 <= likes - s.lastLikes < LikeStep
    requires t0 <= s.lastLog <= t0 + QuietMillis && Within(times, t0)
    ensures Logged(Some(s), likes, times) == (likes - s.lastLikes + |times|) / LikeStep
    decreases times
  {
    if times != [] {
      var (logged, next) := Step(Some(s), likes + 1, times[0]);
      assert Within(times[1..], t0);
      SteadyRunLogs(next, likes + 1, t0, times[1..]);
    }
  }

  /** A burst of `n` single likes from an untracked user within 30 s of the first one logs
      `(n - 1) / 100` lines: the first like only starts tracking. */
  lemma BurstLogs(likes: int, times: seq<int>)
    requires times != [] && Within(times, times[0])
    ensures Logged(None, likes, times) == (|times| - 1) / LikeStep
  {
    var (logged, next) := Step(None, likes + 1, times[0]);
    assert Within(times[1..], times[0]);
    SteadyRunLogs(next, likes + 1, times[0], times[1..]);
  }

  /** 150 likes in quick succession produce exactly one line, not one per like. */
  lemma HundredFiftyLikesLogOnce(likes: int, times: seq<int>)
    requires |times| == 150 && Within(times, times[0])
    ensures Logged(None, likes, times) == 1
  {
    BurstLogs(likes, times);
  }
}
