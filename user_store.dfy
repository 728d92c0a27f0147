/**
 * The user's progress (src/stores/userStore.ts): total points, the level derived
 * from them, completed challenge ids, and the daily play streak.
 */
module UserStore {
  import opened Wrappers
  import opened Sequences
  import opened Types

  const PointsPerLevel: int := 1000

  /** The level shown for a point total: one more than the number of whole thousands. */
  function LevelFor(totalPoints: int): (level: int)
    ensures (level - 1) * PointsPerLevel <= totalPoints < level * PointsPerLevel
  {
    totalPoints / PointsPerLevel + 1
  }

  datatype UserState = UserState(
    totalPoints: int,
    completedChallenges: seq<string>,
    level: int,
    streak: int,
    lastPlayDate: Option<Day>)
  {
    /** What every action keeps: the level matches the points, ids are listed once,
        and a streak exists exactly when a play date is recorded. */
    predicate Valid() {
      && level == LevelFor(totalPoints)
      && NoDuplicates(completedChallenges)
      && streak >= 0
      && (lastPlayDate.None? <==> streak == 0)
    }

    /** `addPoints`: adds to the total and re-derives the level from the new total. */
    function AddPoints(points: int): (r: UserState)
      ensures r.totalPoints == totalPoints + points
      ensures r.level == LevelFor(totalPoints + points)
      ensures r.completedChallenges == completedChallenges
      ensures r.streak == streak && r.lastPlayDate == lastPlayDate
    {
      this.(totalPoints := totalPoints + points, level := LevelFor(totalPoints + points))
    }

    /** `completeChallenge`: records `id` at the end unless it is already recorded. */
    function CompleteChallenge(id: string): (r: UserState)
      ensures id in r.completedChallenges
      ensures id in completedChallenges ==> r == this
      ensures id !in completedChallenges ==> r == this.(completedChallenges := completedChallenges + [id])
      ensures forall x :: x in r.completedChallenges <==> x in completedChallenges || x == id
    {
      if id in completedChallenges then this
      else this.(completedChallenges := completedChallenges + [id])
    }

    /** `updateStreak`: nothing on the same day, one more after yesterday, otherwise a new streak of one. */
    function UpdateStreak(today: Day): (r: UserState)
      ensures lastPlayDate == Some(today) ==> r == this
      ensures lastPlayDate == Some(today - 1) ==> r.streak == streak + 1
      ensures lastPlayDate != Some(today) && lastPlayDate != Some(today - 1) ==> r.streak == 1
      ensures r.lastPlayDate == Some(today)
      ensures r.totalPoints == totalPoints && r.level == level
      ensures r.completedChallenges == completedChallenges
    {
      if lastPlayDate == Some(today) then this
      else if lastPlayDate == Some(today - 1) then this.(streak := streak + 1, lastPlayDate := Some(today))
      else this.(streak := 1, lastPlayDate := Some(today))
    }
  }

  /** The store's initial state, also what `resetProgress` restores. */
  const Initial := UserState(0, [], 1, 0, None)

  lemma InitialIsValid()
    ensures Initial.Valid()
  {
  }

  /** Every action keeps the state valid. */
  lemma ActionsPreserveValid(s: UserState, points: int, id: string, today: Day)
    requires s.Valid()
    ensures s.AddPoints(points).Valid()
    ensures s.CompleteChallenge(id).Valid()
    ensures s.UpdateStreak(today).Valid()
    ensures s.UpdateStreak(today).streak >= 1
  {
    if id !in s.completedChallenges {
      NoDuplicatesAppend(s.completedChallenges, id);
    }
  }

  /** The level depends on the total only, so two additions are one addition of the sum. */
  lemma AddPointsTwice(s: UserState, a: int, b: int)
    ensures s.AddPoints(a).AddPoints(b) == s.AddPoints(a + b)
  {
  }

  /** Earning points never lowers the level. */
  lemma LevelMonotone(x: int, y: int)
    requires x <= y
    ensures LevelFor(x) <= LevelFor(y)
  {
  }

  /** Completing the same challenge twice is completing it once. */
  lemma CompleteChallengeIdempotent(s: UserState, id: string)
    ensures s.CompleteChallenge(id).CompleteChallenge(id) == s.CompleteChallenge(id)
  {
  }

  /** Playing on each of `days` in turn. */
  function PlayOn(s: UserState, days: seq<Day>): UserState
  {
    if days == [] then s else PlayOn(s, days[..|days| - 1]).UpdateStreak(days[|days| - 1])
  }

  /** The `n` consecutive days starting at `start`. */
  function Run(start: Day, n: nat): (days: seq<Day>)
    ensures |days| == n && forall i :: 0 <= i < n ==> days[i] == start + i
  {
    seq(n, i => start + i)
  }

  /** Playing on `n` consecutive days adds `n` to a streak that reached the day
      before, and otherwise leaves a streak of exactly `n`. */
  lemma {:induction false} ConsecutiveDays(s: UserState, start: Day, n: nat)
    requires n >= 1 && s.lastPlayDate != Some(start)
    ensures PlayOn(s, Run(start, n)).lastPlayDate == Some(start + n - 1)
    ensures s.lastPlayDate == Some(start - 1) ==> PlayOn(s, Run(start, n)).streak == s.streak + n
    ensures s.lastPlayDate != Some(start - 1) ==> PlayOn(s, Run(start, n)).streak == n
  {
    var days := Run(start, n);
    if n > 1 {
      assert days[..n - 1] == Run(start, n - 1);
      ConsecutiveDays(s, start, n - 1);
    } else {
      assert days[..0] == [];
    }
  }

  /** A skipped day resets the streak to one, whatever it was. */
  lemma SkippedDayResets(s: UserState, today: Day)
    requires s.lastPlayDate.Some? && s.lastPlayDate.value < today - 1
    ensures s.UpdateStreak(today).streak == 1
  {
  }

  /** The zustand store: one mutable field per state component. */
  class Store {
    var totalPoints: int
    var completedChallenges: seq<string>
    var level: int
    var streak: int
    var lastPlayDate: Option<Day>

    function State(): UserState
      reads this
    {
      UserState(totalPoints, completedChallenges, level, streak, lastPlayDate)
    }

    constructor ()
      ensures State() == Initial
    {
      totalPoints, completedChallenges, level, streak, lastPlayDate := 0, [], 1, 0, None;
    }

    method AddPoints(points: int)
      modifies this
      ensures State() == old(State()).AddPoints(points)
    {
      var newTotalPoints := totalPoints + points;
      var newLevel := newTotalPoints / PointsPerLevel + 1;
      totalPoints, level := newTotalPoints, newLevel;
    }

    method CompleteChallenge(challengeId: string)
      modifies this
      ensures State() == old(State()).CompleteChallenge(challengeId)
    {
      if challengeId !in completedChallenges {
        completedChallenges := completedChallenges + [challengeId];
      }
    }

    method ResetProgress()
      modifies this
      ensures State() == Initial
    {
      totalPoints, completedChallenges, level, streak, lastPlayDate := 0, [], 1, 0, None;
    }

    /** `today` stands for `new Date().toDateString()`; yesterday is `today - 1`. */
    method UpdateStreak(today: Day)
      modifies this
      ensures State() == old(State()).UpdateStreak(today)
    {
      if lastPlayDate == Some(today) {
        return;
      }
      if lastPlayDate == Some(today - 1) {
        streak, lastPlayDate := streak + 1, Some(today);
      } else {
        streak, lastPlayDate := 1, Some(today);
      }
    }
  }
}
