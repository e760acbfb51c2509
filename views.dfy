/**
 * The derived fields every user-facing read recomputes
 * (`enrichUserWithGamesCount`, `calculateNextCaseTS`, `getGamesCount`).
 */
module Views {
  import opened Store

  /** CASE_COOLDOWN_MS: one day. */
  const CASE_COOLDOWN_MS: int := 24 * 60 * 60 * 1000

  /** UserDto: the stored user and the three derived fields. */
  datatype UserView = UserView(
    user: User,
    gamesCount: nat,
    hasOpenedDailyCase: bool,
    caseAvailable: bool,
    nextCaseTS: Option<Millis>)

  predicate IsDailyOf(e: Entry<CaseOpening>, userId: Id)
  {
    e.userId == userId && e.value.isDaily
  }

  /** getGamesCount: the number of game-history rows of the user. */
  function GamesCount(h: seq<Entry<GamePlay>>, userId: Id): (n: nat)
    ensures n <= |h|
    ensures n == 0 <==> forall j :: 0 <= j < |h| ==> h[j].userId != userId
  {
    Count(h, (e: Entry<GamePlay>) => e.userId == userId)
  }

  /** Every game-history row of the user adds exactly one to the count; other users' rows add nothing. */
  lemma GamesCountAfterPlay(h: seq<Entry<GamePlay>>, e: Entry<GamePlay>, userId: Id)
    ensures GamesCount(h + [e], userId) == GamesCount(h, userId) + (if e.userId == userId then 1 else 0)
  {
    CountAppend(h, e, (x: Entry<GamePlay>) => x.userId == userId);
  }

  /** The index of the user's latest daily case-history row. */
  function LatestDaily(h: seq<Entry<CaseOpening>>, userId: Id): Option<nat>
  {
    FindLast(h, (e: Entry<CaseOpening>) => IsDailyOf(e, userId))
  }

  /** calculateNextCaseTS: one cooldown after the user's latest daily case, or nothing without one. */
  function NextCaseTS(h: seq<Entry<CaseOpening>>, userId: Id): (r: Option<Millis>)
    ensures r.None? <==> forall k :: 0 <= k < |h| ==> !IsDailyOf(h[k], userId)
    ensures r.Some? ==>
      exists k :: 0 <= k < |h| && IsDailyOf(h[k], userId) &&
        r.value == h[k].createdAt + CASE_COOLDOWN_MS &&
        forall j :: k < j < |h| ==> !IsDailyOf(h[j], userId)
  {
    match LatestDaily(h, userId)
    case None => None
    case Some(k) => Some(h[k].createdAt + CASE_COOLDOWN_MS)
  }

  /** A daily row appended for the user restarts the cooldown from its own time. */
  lemma NextCaseTSAfterAppend(h: seq<Entry<CaseOpening>>, e: Entry<CaseOpening>, userId: Id)
    ensures NextCaseTS(h + [e], userId) ==
      if IsDailyOf(e, userId) then Some(e.createdAt + CASE_COOLDOWN_MS) else NextCaseTS(h, userId)
  {
    assert (h + [e])[..|h + [e]| - 1] == h;
  }

  /** The `caseAvailable` expression: no cooldown, or a cooldown that has run out. */
  predicate CaseAvailable(nextCaseTS: Option<Millis>, now: Millis): (b: bool)
    ensures nextCaseTS.None? ==> b
    ensures nextCaseTS.Some? ==> (b <==> nextCaseTS.value <= now)
  {
    nextCaseTS.None? || nextCaseTS.value <= now
  }

  /** Once a case is available it stays available as the clock moves on. */
  lemma CaseAvailableStays(nextCaseTS: Option<Millis>, now: Millis, later: Millis)
    requires now <= later
    ensures CaseAvailable(nextCaseTS, now) ==> CaseAvailable(nextCaseTS, later)
  {
  }

  /**
   * hasOpenedDailyCase: the user's latest daily case was opened on or after
   * the start of the day. It never holds without a daily case of today.
   */
  predicate HasOpenedDailyCase(h: seq<Entry<CaseOpening>>, userId: Id, startOfDay: Millis): (b: bool)
    ensures b ==> exists k :: 0 <= k < |h| && IsDailyOf(h[k], userId) && h[k].createdAt >= startOfDay
    ensures b ==> NextCaseTS(h, userId).Some?
  {
    match LatestDaily(h, userId)
    case None => false
    case Some(k) => h[k].createdAt >= startOfDay
  }

  /**
   * enrichUserWithGamesCount: the stored user with its games count, whether
   * it opened a daily case today, and the cooldown.
   */
  function Enrich(u: User, t: Tables, env: Env): (v: UserView)
    ensures v.user == u
    ensures v.gamesCount <= |t.gameHistory|
    ensures v.gamesCount == 0 <==> forall j :: 0 <= j < |t.gameHistory| ==> t.gameHistory[j].userId != u.id
    ensures v.nextCaseTS.None? <==> forall k :: 0 <= k < |t.caseHistory| ==> !IsDailyOf(t.caseHistory[k], u.id)
    ensures v.caseAvailable <==> v.nextCaseTS.None? || v.nextCaseTS.value <= env.now
    ensures v.hasOpenedDailyCase ==> v.nextCaseTS.Some?
  {
    var next := NextCaseTS(t.caseHistory, u.id);
    UserView(u, GamesCount(t.gameHistory, u.id),
             HasOpenedDailyCase(t.caseHistory, u.id, env.startOfDay),
             CaseAvailable(next, env.now), next)
  }

  /** Rows in insertion order are also in time order (the database clock does not run backwards). */
  ghost predicate Chronological<V>(h: seq<Entry<V>>)
  {
    forall i, j :: 0 <= i < j < |h| ==> h[i].createdAt <= h[j].createdAt
  }

  /**
   * On a chronological case history, a case is available exactly when every
   * daily case the user ever opened is at least one cooldown old.
   */
  lemma CaseAvailableIffCooldownsOver(h: seq<Entry<CaseOpening>>, userId: Id, now: Millis)
    requires Chronological(h)
    ensures CaseAvailable(NextCaseTS(h, userId), now) <==>
      forall k :: 0 <= k < |h| && IsDailyOf(h[k], userId) ==> h[k].createdAt + CASE_COOLDOWN_MS <= now
  {
    match LatestDaily(h, userId)
    case None =>
    case Some(last) =>
      assert NextCaseTS(h, userId) == Some(h[last].createdAt + CASE_COOLDOWN_MS);
      assert forall k :: last < k < |h| ==> !IsDailyOf(h[k], userId);
  }

  /**
   * On a chronological case history, `hasOpenedDailyCase` holds exactly when
   * some daily case of the user was opened on or after the start of the day.
   */
  lemma HasOpenedDailyCaseIff(h: seq<Entry<CaseOpening>>, userId: Id, startOfDay: Millis)
    requires Chronological(h)
    ensures HasOpenedDailyCase(h, userId, startOfDay) <==>
      exists k :: 0 <= k < |h| && IsDailyOf(h[k], userId) && h[k].createdAt >= startOfDay
  {
    match LatestDaily(h, userId)
    case None =>
    case Some(last) =>
      if exists k :: 0 <= k < |h| && IsDailyOf(h[k], userId) && h[k].createdAt >= startOfDay {
        var k :| 0 <= k < |h| && IsDailyOf(h[k], userId) && h[k].createdAt >= startOfDay;
        assert k <= last;
      }
  }
}
