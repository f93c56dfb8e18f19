/**
  The points ledger (hooks/usePoints.ts): total points, a newest-first history of
  awards, and statistics (level, streak, last activity, badges), mirrored into
  three `localStorage` keys.

  Each handler of the hook is a closure over the values of one render: every read
  of `points`, `stats` and `history` inside a handler sees the values it had on
  entry, also inside the `addPoints` calls it makes. History is updated through
  functional updates, which chain; points and stats through plain setters, where
  the last call wins. The class below runs each handler in that way.
 */
module Points {
  import opened Seqs
  import opened Text
  import opened Tasks

  const BasePoints: nat := 1000
  /** Milliseconds in a day. */
  const DayMs: nat := 86400000

  // ---------------------------------------------------------------------------
  // Levels
  // ---------------------------------------------------------------------------

  /** The integer square root: the largest `r` with `r * r <= n`. */
  function FloorSqrt(n: nat): (r: nat)
    ensures r * r <= n < (r + 1) * (r + 1)
    decreases n
  {
    if n < 4 then (if n == 0 then 0 else 1)
    else
      var h := 2 * FloorSqrt(n / 4);
      SqrtDoubled(n, FloorSqrt(n / 4), h);
      if (h + 1) * (h + 1) <= n then h + 1 else h
  }

  /** Doubling the root of `n / 4` gives `h` with `h² ≤ n < (h + 2)²`. */
  lemma SqrtDoubled(n: nat, s: nat, h: nat)
    requires s * s <= n / 4 < (s + 1) * (s + 1)
    requires h == 2 * s
    ensures h * h <= n < (h + 2) * (h + 2)
  {
    var q := n / 4;
    assert h * h == 4 * (s * s);
    assert (h + 2) * (h + 2) == 4 * ((s + 1) * (s + 1));
    assert 4 * q <= n < 4 * q + 4;
  }

  datatype LevelInfo = LevelInfo(level: nat, nextLevelPoints: nat)

  /**
    `calculateLevel`: `floor(sqrt(points / 1000)) + 1` and the square threshold of
    that level. `None` is JavaScript's NaN, which the square root of a negative
    total yields.
   */
  function CalculateLevel(points: int): (r: Option<LevelInfo>)
    ensures r.Some? <==> points >= 0
    ensures r.Some? ==> r.value.level >= 1
    ensures r.Some? ==> (r.value.level - 1) * (r.value.level - 1) * BasePoints <= points
    ensures r.Some? ==> points < r.value.level * r.value.level * BasePoints
    ensures r.Some? ==> r.value.nextLevelPoints == r.value.level * r.value.level * BasePoints
  {
    if points < 0 then None
    else
      var q := points / BasePoints;
      var k := FloorSqrt(q);
      assert k * k * BasePoints <= q * BasePoints <= points;
      assert (q + 1) * BasePoints <= (k + 1) * (k + 1) * BasePoints;
      Some(LevelInfo(k + 1, (k + 1) * (k + 1) * BasePoints))
  }

  lemma SquareMonotone(x: nat, y: nat)
    requires x <= y
    ensures x * x <= y * y
  {
    assert x * x <= x * y <= y * y;
  }

  /** The level is the one `l` whose band `[(l-1)^2 * 1000, l^2 * 1000)` holds the points. */
  lemma LevelUnique(points: int, l: nat)
    requires l >= 1
    requires (l - 1) * (l - 1) * BasePoints <= points < l * l * BasePoints
    ensures CalculateLevel(points).Some? && CalculateLevel(points).value.level == l
  {
    var m := CalculateLevel(points).value.level;
    if m < l {
      SquareMonotone(m, l - 1);
    } else if m > l {
      SquareMonotone(l, m - 1);
    }
  }

  /** More points never mean a lower level. */
  lemma LevelMonotone(p: int, q: int)
    requires 0 <= p <= q
    ensures CalculateLevel(p).value.level <= CalculateLevel(q).value.level
  {
    var a, b := CalculateLevel(p).value.level, CalculateLevel(q).value.level;
    if b < a {
      SquareMonotone(b, a - 1);
    }
  }

  // ---------------------------------------------------------------------------
  // Ledger records
  // ---------------------------------------------------------------------------

  /** A badge; `acquiredAt` is a time in milliseconds. */
  datatype Badge = Badge(
    id: string,
    name: string,
    description: string,
    icon: string,
    acquired: bool,
    acquiredAt: Option<int>)

  /** One award: `points` is the signed amount, `timestamp` a time in milliseconds. */
  datatype HistoryEntry = HistoryEntry(id: string, action: string, points: int, timestamp: int)

  /** `level` and `nextLevelPoints` are `None` when they hold NaN. */
  datatype Stats = Stats(
    level: Option<nat>,
    currentPoints: int,
    nextLevelPoints: Option<nat>,
    streak: int,
    lastActivity: int,
    badges: seq<Badge>)

  /** The two fresh ids (`crypto.randomUUID()`) an `addPoints` call may use. */
  datatype FreshIds = FreshIds(entry: string, bonus: string)

  const FirstTaskId: string := "first-task"
  const SpeedRunnerId: string := "speed-runner"

  const InitialBadges: seq<Badge> := [
    Badge(FirstTaskId, "始めの一歩", "最初のタスクを完了", "🎯", false, None),
    Badge(SpeedRunnerId, "スピードランナー", "24時間以内にタスクを完了", "⚡", false, None),
    Badge("perfect-week", "完璧な一週間", "7日連続でタスクを完了", "🌟", false, None),
    Badge("task-master", "タスクマスター", "合計10個のタスクを完了", "👑", false, None),
    Badge("high-achiever", "ハイアチーバー", "高優先度のタスクを5個完了", "🏆", false, None)
  ]

  /** The statistics a fresh ledger starts from, `now` being the time of the first render. */
  function InitialStats(now: int): Stats {
    Stats(Some(1), 0, Some(1000), 0, now, InitialBadges)
  }

  function BadgeIds(badges: seq<Badge>): seq<string> {
    Map(badges, (b: Badge) => b.id)
  }

  function SumPoints(h: seq<HistoryEntry>): int
    decreases |h|
  {
    if h == [] then 0 else h[0].points + SumPoints(h[1..])
  }

  lemma {:induction false} SumPointsAppend(a: seq<HistoryEntry>, b: seq<HistoryEntry>)
    ensures SumPoints(a + b) == SumPoints(a) + SumPoints(b)
    decreases |a|
  {
    if a == [] {
      assert a + b == b;
    } else {
      assert (a + b)[0] == a[0];
      assert (a + b)[1..] == a[1..] + b;
      SumPointsAppend(a[1..], b);
    }
  }

  // ---------------------------------------------------------------------------
  // One `addPoints` call, from the values its closure captured
  // ---------------------------------------------------------------------------

  /** The level `newPoints` reaches when that is above `current`: the level-up test. */
  function LevelReached(newPoints: int, current: Option<nat>): (r: Option<nat>)
    ensures r.Some? <==> CalculateLevel(newPoints).Some? && current.Some?
                         && CalculateLevel(newPoints).value.level > current.value
    ensures r.Some? ==> r.value == CalculateLevel(newPoints).value.level
  {
    match (CalculateLevel(newPoints), current)
    case (Some(info), Some(c)) => if info.level > c then Some(info.level) else None
    case _ => None
  }

  function LevelUpAction(level: nat): string {
    "レベル" + NatToString(level) + "達成ボーナス"
  }

  /** The history entries an award puts in front: the bonus entry first when the level rises. */
  function AwardEntries(p0: int, s0: Stats, action: string, delta: int, ids: FreshIds, now: int): seq<HistoryEntry> {
    var entry := HistoryEntry(ids.entry, action, delta, now);
    match LevelReached(p0 + delta, s0.level)
    case Some(l) => [HistoryEntry(ids.bonus, LevelUpAction(l), l * 100, now), entry]
    case None => [entry]
  }

  /** The total after an award: the delta, plus `level * 100` on a level-up. */
  function AwardedPoints(p0: int, s0: Stats, delta: int): int {
    match LevelReached(p0 + delta, s0.level)
    case Some(l) => p0 + delta + l * 100
    case None => p0 + delta
  }

  /**
    The statistics after an award: level, current points and threshold are those of
    `p0 + delta`, the total without the level-up bonus; everything else is `s0`.
   */
  function AwardedStats(p0: int, s0: Stats, delta: int): (r: Stats)
    ensures r.currentPoints == p0 + delta
    ensures r.level.Some? <==> p0 + delta >= 0
    ensures r.level.Some? ==> r.level.value == CalculateLevel(p0 + delta).value.level
    ensures r.nextLevelPoints.Some? <==> p0 + delta >= 0
    ensures r.nextLevelPoints.Some? ==> r.nextLevelPoints.value == CalculateLevel(p0 + delta).value.nextLevelPoints
    ensures r.streak == s0.streak && r.lastActivity == s0.lastActivity && r.badges == s0.badges
  {
    match CalculateLevel(p0 + delta)
    case Some(info) =>
      s0.(level := Some(info.level), currentPoints := p0 + delta, nextLevelPoints := Some(info.nextLevelPoints))
    case None =>
      s0.(level := None, currentPoints := p0 + delta, nextLevelPoints := None)
  }

  /**
    An award puts the action entry with its signed delta last among its entries,
    adds at most one level-up entry worth `level * 100` before it however many
    levels are crossed, and raises the total by exactly the sum of what it records.
   */
  lemma AwardShape(p0: int, s0: Stats, action: string, delta: int, ids: FreshIds, now: int)
    ensures var e := AwardEntries(p0, s0, action, delta, ids, now);
            && (|e| == 1 || |e| == 2)
            && e[|e| - 1] == HistoryEntry(ids.entry, action, delta, now)
            && (|e| == 2 <==> LevelReached(p0 + delta, s0.level).Some?)
            && (|e| == 2 ==> e[0].points == LevelReached(p0 + delta, s0.level).value * 100)
            && AwardedPoints(p0, s0, delta) == p0 + SumPoints(e)
  {
    var e := AwardEntries(p0, s0, action, delta, ids, now);
    assert SumPoints(e) == e[0].points + SumPoints(e[1..]);
    if |e| == 2 {
      assert SumPoints(e[1..]) == e[1].points + SumPoints(e[1..][1..]);
    }
  }

  /** Without a level-up the total moves by the delta alone, which may be negative. */
  lemma AwardWithoutLevelUp(p0: int, s0: Stats, delta: int)
    requires LevelReached(p0 + delta, s0.level).None?
    ensures AwardedPoints(p0, s0, delta) == p0 + delta
  {
  }

  /**
    The worked example of the ledger: 950 points keep level 1; 100 more reach
    level 2, add a 200-point bonus for a total of 1250, while the statistics show
    level 2 with 1050 current points.
   */
  lemma LevelUpExample()
    ensures var s0 := InitialStats(0);
            var s1 := AwardedStats(0, s0, 950);
            && AwardedPoints(0, s0, 950) == 950 && s1.level == Some(1)
            && AwardedPoints(950, s1, 100) == 1250
            && AwardedStats(950, s1, 100).level == Some(2)
            && AwardedStats(950, s1, 100).currentPoints == 1050
            && AwardedStats(950, s1, 100).nextLevelPoints == Some(4000)
  {
    LevelUnique(950, 1);
    LevelUnique(1050, 2);
  }

  // ---------------------------------------------------------------------------
  // Streaks
  // ---------------------------------------------------------------------------

  /** Whole days from `last` to `now`, rounded down (`Math.floor` of the quotient). */
  function ElapsedDays(last: int, now: int): (d: int)
    ensures d * DayMs <= now - last < (d + 1) * DayMs
  {
    (now - last) / DayMs
  }

  /** A second call less than a day after the first sees no elapsed day. */
  lemma SameDayNoElapsedDay(last: int, now: int)
    requires 0 <= now - last < DayMs
    ensures ElapsedDays(last, now) == 0
  {
  }

  /** `Math.min(streak * 10, 100)`: ten points per streak day, at most 100. */
  function StreakBonus(streak: int): (r: int)
    ensures r <= 100
    ensures streak >= 1 ==> 10 <= r
    ensures streak <= 10 ==> r == streak * 10
    ensures streak >= 10 ==> r == 100
  {
    if streak * 10 < 100 then streak * 10 else 100
  }

  function StreakAction(streak: int): string {
    IntToString(streak) + "日連続ログインボーナス"
  }

  /** The streak after `days` elapsed days: one more after exactly one day, else restarted at 1. */
  function StreakAfter(streak: int, days: int): (r: int)
    requires days != 0
    ensures days == 1 ==> r == streak + 1
    ensures days != 1 ==> r == 1
  {
    if days == 1 then streak + 1 else 1
  }

  // ---------------------------------------------------------------------------
  // Badges
  // ---------------------------------------------------------------------------

  function BadgeIndex(badges: seq<Badge>, id: string): (i: int)
    ensures -1 <= i < |badges|
    ensures i >= 0 ==> badges[i].id == id && forall j :: 0 <= j < i ==> badges[j].id != id
    ensures i == -1 ==> forall j :: 0 <= j < |badges| ==> badges[j].id != id
  {
    if |badges| == 0 then -1
    else if badges[0].id == id then 0
    else
      var j := BadgeIndex(badges[1..], id);
      if j < 0 then -1 else j + 1
  }

  /** `badges.find(b => b.id === id)?.acquired`, read as a boolean. */
  predicate IsAcquired(badges: seq<Badge>, id: string) {
    var i := BadgeIndex(badges, id);
    i >= 0 && badges[i].acquired
  }

  /** Marks the first badge with `id` acquired at `now`. */
  function Acquire(badges: seq<Badge>, id: string, now: int): (r: seq<Badge>)
    ensures |r| == |badges| && BadgeIds(r) == BadgeIds(badges)
  {
    var i := BadgeIndex(badges, id);
    if i < 0 then badges else badges[i := badges[i].(acquired := true, acquiredAt := Some(now))]
  }

  /** `Acquire` changes at most the first badge with the id. */
  lemma AcquireTouchesOnly(badges: seq<Badge>, id: string, now: int)
    ensures var r := Acquire(badges, id, now);
            forall j :: 0 <= j < |badges| && j != BadgeIndex(badges, id) ==> r[j] == badges[j]
  {
  }

  /** `b` is `prev` marked acquired at `now`, with its id, name, description and icon kept. */
  predicate StampedFrom(b: Badge, prev: Badge, now: int) {
    && b.acquired && b.acquiredAt == Some(now)
    && b.id == prev.id && b.name == prev.name && b.description == prev.description && b.icon == prev.icon
  }

  /**
    `Acquire` sets `acquired` and `acquiredAt` on the first badge with the id and
    keeps its other fields; a list without the id is returned unchanged.
   */
  lemma AcquireStamps(badges: seq<Badge>, id: string, now: int)
    ensures var i, r := BadgeIndex(badges, id), Acquire(badges, id, now);
            && (i >= 0 ==> StampedFrom(r[i], badges[i], now))
            && (i < 0 ==> r == badges)
  {
  }

  /** `Acquire` marks the badge acquired when the list has it. */
  lemma AcquireHolds(badges: seq<Badge>, id: string, now: int)
    requires BadgeIndex(badges, id) >= 0
    ensures IsAcquired(Acquire(badges, id, now), id)
  {
    BadgeIndexByIds(Acquire(badges, id, now), badges, id);
  }

  /** The first badge with an id depends only on the ids. */
  lemma BadgeIndexByIds(a: seq<Badge>, b: seq<Badge>, id: string)
    requires BadgeIds(a) == BadgeIds(b)
    ensures BadgeIndex(a, id) == BadgeIndex(b, id)
  {
    assert |a| == |BadgeIds(a)| == |b|;
    assert forall j :: 0 <= j < |a| ==> a[j].id == BadgeIds(a)[j] == b[j].id;
  }

  /** The speed-runner condition: created at most 24 hours before `now`. */
  predicate WithinADay(createdAt: Option<int>, now: int) {
    createdAt.Some? && now - createdAt.value <= 24 * 60 * 60 * 1000
  }

  /** Whether the first-task badge unlocks: it is not held yet. */
  predicate FirstTaskFires(badges: seq<Badge>) {
    !IsAcquired(badges, FirstTaskId)
  }

  /** Whether the speed-runner badge unlocks: not held yet, and the task is at most a day old. */
  predicate SpeedRunnerFires(badges: seq<Badge>, task: Task, now: int) {
    !IsAcquired(badges, SpeedRunnerId) && WithinADay(task.createdAt, now)
  }

  /** The badge list after `checkBadges`. */
  function UnlockBadges(badges: seq<Badge>, task: Task, now: int): (r: seq<Badge>)
    ensures |r| == |badges| && BadgeIds(r) == BadgeIds(badges)
  {
    var b1 := if FirstTaskFires(badges) then Acquire(badges, FirstTaskId, now) else badges;
    if SpeedRunnerFires(b1, task, now) then Acquire(b1, SpeedRunnerId, now) else b1
  }

  /** The badge check touches only the first-task and speed-runner badges. */
  lemma UnlockBadgesKeepsOthers(badges: seq<Badge>, task: Task, now: int)
    ensures var r := UnlockBadges(badges, task, now);
            forall i :: 0 <= i < |badges| && badges[i].id != FirstTaskId && badges[i].id != SpeedRunnerId ==> r[i] == badges[i]
  {
    var b1 := if FirstTaskFires(badges) then Acquire(badges, FirstTaskId, now) else badges;
    AcquireTouchesOnly(badges, FirstTaskId, now);
    AcquireTouchesOnly(b1, SpeedRunnerId, now);
  }

  /** The badge check leaves an acquired badge exactly as it was. */
  lemma UnlockBadgesKeepsAcquired(badges: seq<Badge>, task: Task, now: int)
    ensures var r := UnlockBadges(badges, task, now);
            forall i :: 0 <= i < |badges| && badges[i].acquired ==> r[i] == badges[i]
  {
    var b1 := if FirstTaskFires(badges) then Acquire(badges, FirstTaskId, now) else badges;
    AcquireTouchesOnly(badges, FirstTaskId, now);
    AcquireTouchesOnly(b1, SpeedRunnerId, now);
  }

  /** After the badge check the first-task badge is held. */
  lemma UnlockBadgesHoldsFirstTask(badges: seq<Badge>, task: Task, now: int)
    requires BadgeIndex(badges, FirstTaskId) >= 0
    ensures IsAcquired(UnlockBadges(badges, task, now), FirstTaskId)
  {
    var b1 := if FirstTaskFires(badges) then Acquire(badges, FirstTaskId, now) else badges;
    if FirstTaskFires(badges) {
      AcquireHolds(badges, FirstTaskId, now);
    }
    AcquireKeepsOther(b1, SpeedRunnerId, FirstTaskId, now);
  }

  /** After the badge check the speed-runner badge is held exactly when it was before or the task is at most a day old. */
  lemma UnlockBadgesHoldsSpeedRunner(badges: seq<Badge>, task: Task, now: int)
    requires BadgeIndex(badges, SpeedRunnerId) >= 0
    ensures IsAcquired(UnlockBadges(badges, task, now), SpeedRunnerId)
            <==> IsAcquired(badges, SpeedRunnerId) || WithinADay(task.createdAt, now)
  {
    var b1 := if FirstTaskFires(badges) then Acquire(badges, FirstTaskId, now) else badges;
    AcquireKeepsOther(badges, FirstTaskId, SpeedRunnerId, now);
    BadgeIndexByIds(b1, badges, SpeedRunnerId);
    if SpeedRunnerFires(b1, task, now) {
      AcquireHolds(b1, SpeedRunnerId, now);
    }
  }

  /** Every badge the check changes is the old badge stamped acquired at `now`. */
  lemma UnlockBadgesStamps(badges: seq<Badge>, task: Task, now: int)
    ensures var r := UnlockBadges(badges, task, now);
            forall i :: 0 <= i < |badges| ==> r[i] == badges[i] || StampedFrom(r[i], badges[i], now)
  {
    var b1 := if FirstTaskFires(badges) then Acquire(badges, FirstTaskId, now) else badges;
    AcquireTouchesOnly(badges, FirstTaskId, now);
    AcquireStamps(badges, FirstTaskId, now);
    AcquireTouchesOnly(b1, SpeedRunnerId, now);
    AcquireStamps(b1, SpeedRunnerId, now);
  }

  /**
    Acquiring the first-task badge leaves the speed-runner test unchanged, so
    `UnlockBadges` is the two acquisitions run one after the other.
   */
  lemma UnlockBadgesSteps(badges: seq<Badge>, task: Task, now: int)
    ensures var b1 := if FirstTaskFires(badges) then Acquire(badges, FirstTaskId, now) else badges;
            && BadgeIds(b1) == BadgeIds(badges)
            && (SpeedRunnerFires(b1, task, now) <==> SpeedRunnerFires(badges, task, now))
            && UnlockBadges(badges, task, now)
               == if SpeedRunnerFires(badges, task, now) then Acquire(b1, SpeedRunnerId, now) else b1
  {
    var b1 := if FirstTaskFires(badges) then Acquire(badges, FirstTaskId, now) else badges;
    BadgeIndexByIds(b1, badges, SpeedRunnerId);
    var i, j := BadgeIndex(badges, FirstTaskId), BadgeIndex(badges, SpeedRunnerId);
    if j >= 0 && i >= 0 {
      assert FirstTaskId[0] != SpeedRunnerId[0];
      assert i != j;
    }
  }

  /** Acquiring one badge leaves whether another is held unchanged. */
  lemma AcquireKeepsOther(badges: seq<Badge>, id: string, other: string, now: int)
    requires id != other
    ensures IsAcquired(Acquire(badges, id, now), other) == IsAcquired(badges, other)
  {
    var r := Acquire(badges, id, now);
    BadgeIndexByIds(r, badges, other);
  }

  /** A badge, once acquired, stays acquired through any later `checkBadges`. */
  lemma AcquiredBadgesStay(badges: seq<Badge>, task: Task, now: int, id: string)
    requires IsAcquired(badges, id)
    ensures IsAcquired(UnlockBadges(badges, task, now), id)
  {
    var r := UnlockBadges(badges, task, now);
    BadgeIndexByIds(r, badges, id);
  }

  /** A second `checkBadges` never unlocks the first-task badge again. */
  lemma FirstTaskOnlyOnce(badges: seq<Badge>, task: Task, now: int)
    requires BadgeIndex(badges, FirstTaskId) >= 0
    ensures !FirstTaskFires(UnlockBadges(badges, task, now))
  {
    UnlockBadgesHoldsFirstTask(badges, task, now);
  }

  /** The badge part of the ledger invariant: the five initial badges, in order, by id. */
  predicate HasInitialBadges(s: Stats) {
    BadgeIds(s.badges) == BadgeIds(InitialBadges)
  }

  lemma InitialBadgesFound(s: Stats)
    requires HasInitialBadges(s)
    ensures BadgeIndex(s.badges, FirstTaskId) == 0
    ensures BadgeIndex(s.badges, SpeedRunnerId) == 1
  {
    assert InitialBadges[0].id == FirstTaskId && InitialBadges[1].id == SpeedRunnerId;
    assert FirstTaskId[0] != SpeedRunnerId[0];
    BadgeIndexByIds(s.badges, InitialBadges, FirstTaskId);
    BadgeIndexByIds(s.badges, InitialBadges, SpeedRunnerId);
  }

  // ---------------------------------------------------------------------------
  // The ledger
  // ---------------------------------------------------------------------------

  class PointLedger {
    var points: int
    var history: seq<HistoryEntry>
    var stats: Stats
    /** The `'userPoints'`, `'pointHistory'` and `'userStats'` keys of `localStorage`. */
    var savedPoints: Option<int>
    var savedHistory: Option<seq<HistoryEntry>>
    var savedStats: Option<Stats>

    ghost predicate Valid()
      reads this
    {
      HasInitialBadges(stats)
    }

    /** The initial state of the hook, rendered at time `now`, before anything is loaded. */
    constructor (now: int)
      ensures Valid()
      ensures points == 0 && history == [] && stats == InitialStats(now)
      ensures savedPoints == None && savedHistory == None && savedStats == None
    {
      points := 0;
      history := [];
      stats := InitialStats(now);
      savedPoints, savedHistory, savedStats := None, None, None;
    }

    /**
      `addPoints` as run by a closure that captured `p0`, `s0` and `h0`: the new
      entries go in front of the current history; the total, the statistics and the
      three stored keys are overwritten.
     */
    method AddPointsWith(p0: int, s0: Stats, h0: seq<HistoryEntry>, action: string, delta: int, ids: FreshIds, now: int)
      modifies this
      ensures points == AwardedPoints(p0, s0, delta)
      ensures history == AwardEntries(p0, s0, action, delta, ids, now) + old(history)
      ensures stats == AwardedStats(p0, s0, delta)
      ensures savedPoints == Some(p0 + delta) && savedHistory == Some(h0) && savedStats == Some(stats)
    {
      var newPoints := p0 + delta;
      var entry := HistoryEntry(ids.entry, action, delta, now);
      var reached := LevelReached(newPoints, s0.level);
      if reached.Some? {
        var bonus := reached.value * 100;
        history := [HistoryEntry(ids.bonus, LevelUpAction(reached.value), bonus, now), entry] + history;
        points := newPoints + bonus;
      } else {
        history := [entry] + history;
        points := newPoints;
      }
      stats := AwardedStats(p0, s0, delta);
      savedPoints := Some(newPoints);
      savedHistory := Some(h0);
      savedStats := Some(stats);
    }

    /** `addPoints(action, delta)` called from outside any other handler. */
    method AddPoints(action: string, delta: int, ids: FreshIds, now: int)
      requires Valid()
      modifies this
      ensures Valid()
      ensures points == AwardedPoints(old(points), old(stats), delta)
      ensures history == AwardEntries(old(points), old(stats), action, delta, ids, now) + old(history)
      ensures stats == AwardedStats(old(points), old(stats), delta)
      ensures savedPoints == Some(old(points) + delta) && savedHistory == Some(old(history))
      ensures savedStats == Some(stats)
      ensures old(points) == SumPoints(old(history)) ==> points == SumPoints(history)
    {
      ghost var e := AwardEntries(points, stats, action, delta, ids, now);
      AwardShape(points, stats, action, delta, ids, now);
      SumPointsAppend(e, history);
      AddPointsWith(points, stats, history, action, delta, ids, now);
    }

    /**
      `updateStreak` at time `now`: nothing when no whole day has passed since the
      last activity; after exactly one day the streak grows by one and its bonus is
      awarded; otherwise the streak restarts at 1. In both changing cases the
      statistics are those captured on entry with the new streak and `now`.
     */
    method UpdateStreak(now: int, ids: FreshIds)
      requires Valid()
      modifies this
      ensures Valid()
      ensures var d := ElapsedDays(old(stats).lastActivity, now);
              d == 0 ==> && points == old(points) && history == old(history) && stats == old(stats)
                         && savedPoints == old(savedPoints) && savedHistory == old(savedHistory)
                         && savedStats == old(savedStats)
      ensures var d := ElapsedDays(old(stats).lastActivity, now);
              d != 0 ==> && stats == old(stats).(streak := StreakAfter(old(stats).streak, d), lastActivity := now)
                         && savedStats == Some(stats)
      ensures var d, bonus := ElapsedDays(old(stats).lastActivity, now), StreakBonus(old(stats).streak + 1);
              d == 1 ==> && points == AwardedPoints(old(points), old(stats), bonus)
                         && history == AwardEntries(old(points), old(stats), StreakAction(old(stats).streak + 1), bonus, ids, now)
                                       + old(history)
                         && savedPoints == Some(old(points) + bonus) && savedHistory == Some(old(history))
      ensures var d := ElapsedDays(old(stats).lastActivity, now);
              d != 0 && d != 1 ==> && points == old(points) && history == old(history)
                                   && savedPoints == old(savedPoints) && savedHistory == old(savedHistory)
      ensures old(points) == SumPoints(old(history)) ==> points == SumPoints(history)
    {
      var s0, p0, h0 := stats, points, history;
      var d := ElapsedDays(s0.lastActivity, now);
      if d == 0 {
        return;
      }
      var newStreak := s0.streak;
      if d == 1 {
        newStreak := newStreak + 1;
        var bonus := StreakBonus(newStreak);
        AwardShape(p0, s0, StreakAction(newStreak), bonus, ids, now);
        SumPointsAppend(AwardEntries(p0, s0, StreakAction(newStreak), bonus, ids, now), h0);
        AddPointsWith(p0, s0, h0, StreakAction(newStreak), bonus, ids, now);
      } else {
        newStreak := 1;
      }
      stats := s0.(streak := newStreak, lastActivity := now);
      savedStats := Some(stats);
    }

    /**
      `checkBadges(task)` at time `now`: unlocks the first-task badge (100 points)
      if not held, and the speed-runner badge (200 points) if not held and the task
      was created at most a day ago. The statistics, with the new badges, are
      written only when something unlocked.
     */
    method CheckBadges(task: Task, now: int, first: FreshIds, speed: FreshIds)
      requires Valid()
      modifies this
      ensures Valid()
      ensures points == BadgePoints(old(points), old(stats), task, now)
      ensures history == BadgeEntries(old(points), old(stats), task, now, first, speed) + old(history)
      ensures BadgeUnlocked(old(stats), task, now) ==>
                && stats == old(stats).(badges := UnlockBadges(old(stats).badges, task, now))
                && savedStats == Some(stats) && savedHistory == Some(old(history))
                && savedPoints == Some(old(points) + if SpeedRunnerFires(old(stats).badges, task, now) then 200 else 100)
      ensures !BadgeUnlocked(old(stats), task, now) ==>
                && stats == old(stats) && savedPoints == old(savedPoints)
                && savedHistory == old(savedHistory) && savedStats == old(savedStats)
    {
      var s0, p0, h0 := stats, points, history;
      AcquireKeepsOther(s0.badges, FirstTaskId, SpeedRunnerId, now);
      ghost var e1 := if FirstTaskFires(s0.badges) then AwardEntries(p0, s0, FirstTaskAction, 100, first, now) else [];
      ghost var e2 := if SpeedRunnerFires(s0.badges, task, now) then AwardEntries(p0, s0, SpeedRunnerAction, 200, speed, now) else [];
      var badges := s0.badges;
      var unlocked := false;
      if !IsAcquired(badges, FirstTaskId) {
        badges := Acquire(badges, FirstTaskId, now);
        AddPointsWith(p0, s0, h0, FirstTaskAction, 100, first, now);
        unlocked := true;
      }
      assert history == e1 + h0;
      if !IsAcquired(badges, SpeedRunnerId) && WithinADay(task.createdAt, now) {
        badges := Acquire(badges, SpeedRunnerId, now);
        AddPointsWith(p0, s0, h0, SpeedRunnerAction, 200, speed, now);
        unlocked := true;
      }
      assert history == e2 + (e1 + h0);
      assert e2 + (e1 + h0) == (e2 + e1) + h0;
      assert badges == UnlockBadges(s0.badges, task, now);
      if unlocked {
        stats := s0.(badges := badges);
        savedStats := Some(stats);
      }
    }

    /**
      `updateStreak` with the statistics written over those the award left, so the
      level the streak bonus reached is kept.
     */
    method UpdateStreakChained(now: int, ids: FreshIds)
      requires Valid()
      modifies this
      ensures Valid()
      ensures var d := ElapsedDays(old(stats).lastActivity, now);
              d == 0 ==> points == old(points) && history == old(history) && stats == old(stats)
      ensures var d, bonus := ElapsedDays(old(stats).lastActivity, now), StreakBonus(old(stats).streak + 1);
              d == 1 ==> && points == AwardedPoints(old(points), old(stats), bonus)
                         && stats == AwardedStats(old(points), old(stats), bonus).(streak := old(stats).streak + 1, lastActivity := now)
      ensures var d := ElapsedDays(old(stats).lastActivity, now);
              d != 0 && d != 1 ==> && points == old(points) && history == old(history)
                                   && stats == old(stats).(streak := 1, lastActivity := now)
      ensures old(points) == SumPoints(old(history)) ==> points == SumPoints(history)
    {
      var d := ElapsedDays(stats.lastActivity, now);
      if d == 0 {
        return;
      }
      var newStreak := 1;
      if d == 1 {
        newStreak := stats.streak + 1;
        AddPoints(StreakAction(newStreak), StreakBonus(newStreak), ids, now);
      }
      stats := stats.(streak := newStreak, lastActivity := now);
      savedStats := Some(stats);
    }

    /**
      `checkBadges` with each award reading the total, statistics and history the
      previous one left, so both awards reach the total.
     */
    method CheckBadgesChained(task: Task, now: int, first: FreshIds, speed: FreshIds)
      requires Valid()
      modifies this
      ensures Valid()
      ensures stats.badges == UnlockBadges(old(stats).badges, task, now)
      ensures !BadgeUnlocked(old(stats), task, now) ==>
                points == old(points) && history == old(history) && stats == old(stats)
      ensures old(points) == SumPoints(old(history)) ==> points == SumPoints(history)
    {
      UnlockBadgesSteps(stats.badges, task, now);
      var badges := stats.badges;
      var unlocked := false;
      if !IsAcquired(badges, FirstTaskId) {
        badges := Acquire(badges, FirstTaskId, now);
        AddPoints(FirstTaskAction, 100, first, now);
        unlocked := true;
      }
      if !IsAcquired(badges, SpeedRunnerId) && WithinADay(task.createdAt, now) {
        badges := Acquire(badges, SpeedRunnerId, now);
        AddPoints(SpeedRunnerAction, 200, speed, now);
        unlocked := true;
      }
      if unlocked {
        stats := stats.(badges := badges);
        savedStats := Some(stats);
      }
    }
  }

  const FirstTaskAction: string := "バッジ獲得: 始めの一歩"
  const SpeedRunnerAction: string := "バッジ獲得: スピードランナー"

  /** Whether `checkBadges` unlocks anything for these statistics. */
  predicate BadgeUnlocked(s0: Stats, task: Task, now: int) {
    FirstTaskFires(s0.badges) || SpeedRunnerFires(s0.badges, task, now)
  }

  /**
    The total after `checkBadges`: each award starts from the captured total `p0`,
    so when both badges unlock the speed-runner total overwrites the first-task one.
   */
  function BadgePoints(p0: int, s0: Stats, task: Task, now: int): int {
    if SpeedRunnerFires(s0.badges, task, now) then AwardedPoints(p0, s0, 200)
    else if FirstTaskFires(s0.badges) then AwardedPoints(p0, s0, 100)
    else p0
  }

  /** The entries `checkBadges` puts in front of the history, the latest award first. */
  function BadgeEntries(p0: int, s0: Stats, task: Task, now: int, first: FreshIds, speed: FreshIds): seq<HistoryEntry> {
    (if SpeedRunnerFires(s0.badges, task, now) then AwardEntries(p0, s0, SpeedRunnerAction, 200, speed, now) else [])
    + (if FirstTaskFires(s0.badges) then AwardEntries(p0, s0, FirstTaskAction, 100, first, now) else [])
  }

  /** A task finished at `now` that was created at `now`. */
  function TaskCreatedAt(now: int): Task {
    Task("t", "", "", Low, Done, "", [], 100, Some(now), None)
  }

  /**
    `checkBadges` as written, on a fresh ledger and a task created the same
    moment: both badges unlock and the history records 100 + 200 points, but the
    total is 200, because both awards start from the same captured total.
   */
  lemma BothBadgesLoseFirstAward(now: int, first: FreshIds, speed: FreshIds)
    ensures var s0, task := InitialStats(now), TaskCreatedAt(now);
            && FirstTaskFires(s0.badges) && SpeedRunnerFires(s0.badges, task, now)
            && SumPoints(BadgeEntries(0, s0, task, now, first, speed)) == 300
            && BadgePoints(0, s0, task, now) == 200
  {
    var s0, task := InitialStats(now), TaskCreatedAt(now);
    InitialBadgesFound(s0);
    LevelUnique(100, 1);
    LevelUnique(200, 1);
    var e := BadgeEntries(0, s0, task, now, first, speed);
    assert |e| == 2 && e[0].points == 200 && e[1].points == 100;
    assert SumPoints(e) == e[0].points + SumPoints(e[1..]);
    assert SumPoints(e[1..]) == e[1].points + SumPoints(e[1..][1..]);
  }

  /** The statistics of 990 points on day 0, a day before the worked examples below. */
  function StatsAt990(): Stats {
    AwardedStats(0, InitialStats(0), 990)
  }

  /**
    `updateStreak` as written: at 990 points one day later the 10-point streak
    bonus reaches level 2 and awards its 200-point bonus, yet the statistics keep
    level 1, so the very next award of 10 points reaches "level 2" again.
   */
  lemma StreakLevelBonusRepeats()
    ensures var s0 := StatsAt990();
            var bonus := StreakBonus(s0.streak + 1);
            var p1 := AwardedPoints(990, s0, bonus);
            var s1 := s0.(streak := StreakAfter(s0.streak, 1), lastActivity := DayMs);
            && ElapsedDays(s0.lastActivity, DayMs) == 1
            && LevelReached(990 + bonus, s0.level) == Some(2) && p1 == 1200
            && LevelReached(p1 + 10, s1.level) == Some(2)
  {
    LevelUnique(990, 1);
    LevelUnique(1000, 2);
    LevelUnique(1210, 2);
  }

  /** With the statistics the award left, the same next award reaches no new level. */
  lemma StreakLevelBonusOnce()
    ensures var s0 := StatsAt990();
            var bonus := StreakBonus(s0.streak + 1);
            var p1 := AwardedPoints(990, s0, bonus);
            var s1 := AwardedStats(990, s0, bonus).(streak := s0.streak + 1, lastActivity := DayMs);
            && p1 == 1200 && s1.level == Some(2)
            && LevelReached(p1 + 10, s1.level) == None
  {
    LevelUnique(990, 1);
    LevelUnique(1000, 2);
    LevelUnique(1210, 2);
  }
}
