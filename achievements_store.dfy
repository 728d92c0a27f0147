/**
 * Achievements and badges (src/stores/achievementsStore.ts): a fixed list of
 * achievements that unlock one way, either when a statistics check finds their
 * threshold met or by a manual unlock, with the ids and points they earned.
 */
module AchievementsStore {
  import opened Wrappers
  import opened Sequences

  datatype Category = Listening | Streak | Points | Challenges | Special

  /** One achievement; the `unlockedAt` timestamp is not modelled. */
  datatype Achievement = Achievement(
    id: string,
    title: string,
    description: string,
    icon: string,
    points: int,
    category: Category,
    requirement: int,
    unlocked: bool)

  /** The statistics handed to `checkAchievements`. */
  datatype Stats = Stats(totalPoints: int, completedChallenges: int, streak: int, totalListeningTime: int)

  const InitialAchievements: seq<Achievement> := [
    Achievement("first_listen", "First Steps", "Complete your first music challenge", "🎵", 10, Listening, 1, false),
    Achievement("music_lover", "Music Lover", "Complete 5 music challenges", "❤️", 50, Listening, 5, false),
    Achievement("music_master", "Music Master", "Complete 10 music challenges", "👑", 100, Listening, 10, false),
    Achievement("marathon_listener", "Marathon Listener", "Listen to music for 30 minutes total", "🏃‍♂️", 75, Listening, 1800, false),
    Achievement("point_collector", "Point Collector", "Earn 100 points", "💰", 25, Points, 100, false),
    Achievement("point_master", "Point Master", "Earn 500 points", "💎", 100, Points, 500, false),
    Achievement("point_legend", "Point Legend", "Earn 1000 points", "🌟", 200, Points, 1000, false),
    Achievement("daily_listener", "Daily Listener", "Listen to music for 3 days in a row", "📅", 30, Streak, 3, false),
    Achievement("week_warrior", "Week Warrior", "Listen to music for 7 days in a row", "⚔️", 75, Streak, 7, false),
    Achievement("streak_champion", "Streak Champion", "Listen to music for 30 days in a row", "🏆", 200, Streak, 30, false),
    Achievement("early_bird", "Early Bird", "Complete a challenge before 8 AM", "🌅", 25, Special, 1, false),
    Achievement("night_owl", "Night Owl", "Complete a challenge after 10 PM", "🦉", 25, Special, 1, false),
    Achievement("speed_demon", "Speed Demon", "Complete 3 challenges in one day", "⚡", 50, Special, 3, false)
  ]

  /** The threshold test of `checkAchievements` for a locked achievement, by category. */
  predicate ShouldUnlock(a: Achievement, stats: Stats) {
    match a.category
    case Listening =>
      if a.id == "first_listen" || a.id == "music_lover" || a.id == "music_master" then
        stats.completedChallenges >= a.requirement
      else if a.id == "marathon_listener" then
        stats.totalListeningTime >= a.requirement
      else false
    case Points => stats.totalPoints >= a.requirement
    case Streak => stats.streak >= a.requirement
    case Challenges => false  // the switch has no case for this category
    case Special => false     // handled separately, never by the check
  }

  /** Which statistic each category compares, in both directions. */
  lemma ShouldUnlockByCategory(a: Achievement, stats: Stats)
    ensures a.category == Points ==> (ShouldUnlock(a, stats) <==> stats.totalPoints >= a.requirement)
    ensures a.category == Streak ==> (ShouldUnlock(a, stats) <==> stats.streak >= a.requirement)
    ensures a.category == Listening && a.id in {"first_listen", "music_lover", "music_master"} ==>
      (ShouldUnlock(a, stats) <==> stats.completedChallenges >= a.requirement)
    ensures a.category == Listening && a.id == "marathon_listener" ==>
      (ShouldUnlock(a, stats) <==> stats.totalListeningTime >= a.requirement)
    ensures a.category == Special || a.category == Challenges ==> !ShouldUnlock(a, stats)
  {
  }

  /** The per-achievement step of the check (the `map` callback). */
  function Checked(a: Achievement, stats: Stats): (r: Achievement)
    ensures r.unlocked == (a.unlocked || ShouldUnlock(a, stats))
    ensures r == a.(unlocked := r.unlocked)
  {
    if !a.unlocked && ShouldUnlock(a, stats) then a.(unlocked := true) else a
  }

  function CheckedAll(achs: seq<Achievement>, stats: Stats): (r: seq<Achievement>)
    ensures |r| == |achs|
    ensures forall i :: 0 <= i < |achs| ==> r[i] == Checked(achs[i], stats)
  {
    if achs == [] then [] else CheckedAll(achs[..|achs| - 1], stats) + [Checked(achs[|achs| - 1], stats)]
  }

  /** Ids of the achievements the check unlocks, in list order (`newUnlocked`). */
  function NewlyUnlocked(achs: seq<Achievement>, stats: Stats): seq<string>
  {
    if achs == [] then []
    else
      var a := achs[|achs| - 1];
      NewlyUnlocked(achs[..|achs| - 1], stats) + (if !a.unlocked && ShouldUnlock(a, stats) then [a.id] else [])
  }

  /** The sum of `points` over the unlocked achievements. */
  function UnlockedPoints(achs: seq<Achievement>): int
  {
    if achs == [] then 0
    else
      var a := achs[|achs| - 1];
      UnlockedPoints(achs[..|achs| - 1]) + (if a.unlocked then a.points else 0)
  }

  /** Ids of the unlocked achievements, in list order. */
  function UnlockedIds(achs: seq<Achievement>): seq<string>
  {
    if achs == [] then []
    else
      var a := achs[|achs| - 1];
      UnlockedIds(achs[..|achs| - 1]) + (if a.unlocked then [a.id] else [])
  }

  function Ids(achs: seq<Achievement>): (ids: seq<string>)
    ensures |ids| == |achs| && forall i :: 0 <= i < |achs| ==> ids[i] == achs[i].id
  {
    seq(|achs|, i requires 0 <= i < |achs| => achs[i].id)
  }

  /** `achievements.find(a => a.id === id)`: the first achievement with that id. */
  function FindById(achs: seq<Achievement>, id: string): (r: Option<Achievement>)
    ensures r.None? <==> id !in Ids(achs)
    ensures r.Some? ==> r.value in achs && r.value.id == id
    ensures r.Some? ==>
      exists k :: 0 <= k < |achs| && achs[k] == r.value && forall j :: 0 <= j < k ==> achs[j].id != id
  {
    if achs == [] then None
    else
      var init := achs[..|achs| - 1];
      assert Ids(achs) == Ids(init) + [achs[|achs| - 1].id];
      var f := FindById(init, id);
      if f.Some? then f
      else if achs[|achs| - 1].id == id then Some(achs[|achs| - 1])
      else None
  }

  /** The `map` of `unlockAchievement`: sets the flag of every achievement with that id. */
  function MarkUnlocked(achs: seq<Achievement>, id: string): (r: seq<Achievement>)
    ensures |r| == |achs|
    ensures forall i :: 0 <= i < |achs| ==> r[i] == if achs[i].id == id then achs[i].(unlocked := true) else achs[i]
  {
    if achs == [] then []
    else
      var a := achs[|achs| - 1];
      MarkUnlocked(achs[..|achs| - 1], id) + [if a.id == id then a.(unlocked := true) else a]
  }

  datatype AchievementsState = AchievementsState(
    achievements: seq<Achievement>,
    unlockedAchievements: seq<string>,
    totalAchievementPoints: int)
  {
    /** Ids are unique, the unlocked list names exactly the unlocked achievements,
        once each, and the points total is their sum. */
    ghost predicate Valid() {
      && NoDuplicates(Ids(achievements))
      && NoDuplicates(unlockedAchievements)
      && (forall id :: id in unlockedAchievements <==> id in UnlockedIds(achievements))
      && totalAchievementPoints == UnlockedPoints(achievements)
    }

    /** `checkAchievements`: unlocks every locked achievement whose threshold is met;
        the store is written only when something was unlocked. */
    function CheckAchievements(stats: Stats): (r: AchievementsState)
      ensures |r.achievements| == |achievements|
      ensures forall i :: 0 <= i < |achievements| ==>
        r.achievements[i].unlocked == (achievements[i].unlocked || ShouldUnlock(achievements[i], stats))
      ensures forall i :: 0 <= i < |achievements| ==>
        r.achievements[i] == achievements[i].(unlocked := r.achievements[i].unlocked)
      ensures NewlyUnlocked(achievements, stats) == [] ==> r == this
      ensures NewlyUnlocked(achievements, stats) != [] ==>
        && r.unlockedAchievements == unlockedAchievements + NewlyUnlocked(achievements, stats)
        && r.totalAchievementPoints == UnlockedPoints(r.achievements)
    {
      var gained := NewlyUnlocked(achievements, stats);
      if |gained| > 0 then
        var updated := CheckedAll(achievements, stats);
        AchievementsState(updated, unlockedAchievements + gained, UnlockedPoints(updated))
      else
        NothingNewlyUnlocked(achievements, stats);
        this
    }

    /** `unlockAchievement`: a manual, one-time unlock of the achievement with that id. */
    function UnlockAchievement(id: string): (r: AchievementsState)
      ensures id in unlockedAchievements ==> r == this
      ensures id !in Ids(achievements) ==> r == this
      ensures id !in unlockedAchievements && id in Ids(achievements) ==>
        && r.achievements == MarkUnlocked(achievements, id)
        && r.unlockedAchievements == unlockedAchievements + [id]
        && r.totalAchievementPoints == totalAchievementPoints + FindById(achievements, id).value.points
    {
      if id in unlockedAchievements then this
      else
        var found := FindById(achievements, id);
        if found.None? then this
        else AchievementsState(MarkUnlocked(achievements, id), unlockedAchievements + [id],
                               totalAchievementPoints + found.value.points)
    }
  }

  /** The store's initial state, also what `resetAchievements` restores. */
  const Initial := AchievementsState(InitialAchievements, [], 0)

  // ---- lemmas about the list functions ----

  lemma {:induction false} NothingNewlyUnlocked(achs: seq<Achievement>, stats: Stats)
    requires NewlyUnlocked(achs, stats) == []
    ensures CheckedAll(achs, stats) == achs
  {
    if achs != [] {
      var init := achs[..|achs| - 1];
      NothingNewlyUnlocked(init, stats);
      assert achs == init + [achs[|achs| - 1]];
    }
  }

  lemma {:induction false} NewlyUnlockedAreLockedIds(achs: seq<Achievement>, stats: Stats)
    requires NoDuplicates(Ids(achs))
    ensures NoDuplicates(NewlyUnlocked(achs, stats))
    ensures forall x :: x in NewlyUnlocked(achs, stats) ==> x in Ids(achs) && x !in UnlockedIds(achs)
  {
    if achs != [] {
      var init, a := achs[..|achs| - 1], achs[|achs| - 1];
      assert Ids(achs) == Ids(init) + [a.id];
      NoDuplicatesPrefix(Ids(achs));
      NewlyUnlockedAreLockedIds(init, stats);
      UnlockedIdsAreIds(init);
      if !a.unlocked && ShouldUnlock(a, stats) {
        NoDuplicatesAppend(NewlyUnlocked(init, stats), a.id);
      }
    }
  }

  lemma {:induction false} UnlockedIdsAreIds(achs: seq<Achievement>)
    ensures forall x :: x in UnlockedIds(achs) ==> x in Ids(achs)
  {
    if achs != [] {
      var init := achs[..|achs| - 1];
      assert Ids(achs) == Ids(init) + [achs[|achs| - 1].id];
      UnlockedIdsAreIds(init);
    }
  }

  lemma {:induction false} UnlockedIdsOfChecked(achs: seq<Achievement>, stats: Stats)
    ensures forall x :: x in UnlockedIds(CheckedAll(achs, stats)) <==>
      x in UnlockedIds(achs) || x in NewlyUnlocked(achs, stats)
  {
    if achs != [] {
      var init := achs[..|achs| - 1];
      var c := CheckedAll(achs, stats);
      assert c[..|c| - 1] == CheckedAll(init, stats);
      UnlockedIdsOfChecked(init, stats);
    }
  }

  lemma {:induction false} NoneNewlyUnlockedAfterCheck(achs: seq<Achievement>, stats: Stats)
    ensures NewlyUnlocked(CheckedAll(achs, stats), stats) == []
  {
    if achs != [] {
      var init := achs[..|achs| - 1];
      var c := CheckedAll(achs, stats);
      assert c[..|c| - 1] == CheckedAll(init, stats);
      NoneNewlyUnlockedAfterCheck(init, stats);
    }
  }

  lemma MarkUnlockedAbsent(achs: seq<Achievement>, id: string)
    requires id !in Ids(achs)
    ensures MarkUnlocked(achs, id) == achs
  {
    var m := MarkUnlocked(achs, id);
    forall i | 0 <= i < |achs|
      ensures m[i] == achs[i]
    {
      assert Ids(achs)[i] == achs[i].id;
    }
  }

  /** With unique ids, unlocking a locked achievement adds its points exactly once. */
  lemma {:induction false} MarkUnlockedPoints(achs: seq<Achievement>, id: string)
    requires NoDuplicates(Ids(achs)) && id in Ids(achs) && id !in UnlockedIds(achs)
    ensures UnlockedPoints(MarkUnlocked(achs, id)) == UnlockedPoints(achs) + FindById(achs, id).value.points
    ensures forall x :: x in UnlockedIds(MarkUnlocked(achs, id)) <==> x in UnlockedIds(achs) || x == id
  {
    var init, a := achs[..|achs| - 1], achs[|achs| - 1];
    var m := MarkUnlocked(achs, id);
    assert m[..|m| - 1] == MarkUnlocked(init, id);
    assert Ids(achs) == Ids(init) + [a.id];
    NoDuplicatesPrefix(Ids(achs));
    if a.id == id {
      MarkUnlockedAbsent(init, id);
    } else {
      MarkUnlockedPoints(init, id);
    }
  }

  lemma {:induction false} IdsOfChecked(achs: seq<Achievement>, stats: Stats)
    ensures Ids(CheckedAll(achs, stats)) == Ids(achs)
  {
  }

  lemma IdsOfMarked(achs: seq<Achievement>, id: string)
    ensures Ids(MarkUnlocked(achs, id)) == Ids(achs)
  {
  }

  lemma {:induction false} AllLocked(achs: seq<Achievement>)
    requires forall i :: 0 <= i < |achs| ==> !achs[i].unlocked
    ensures UnlockedIds(achs) == [] && UnlockedPoints(achs) == 0
  {
    if achs != [] {
      AllLocked(achs[..|achs| - 1]);
    }
  }

  /** How the check's accumulators grow by one achievement. */
  lemma CheckStep(achs: seq<Achievement>, i: nat, stats: Stats)
    requires i < |achs|
    ensures CheckedAll(achs[..i + 1], stats) == CheckedAll(achs[..i], stats) + [Checked(achs[i], stats)]
    ensures NewlyUnlocked(achs[..i + 1], stats) == NewlyUnlocked(achs[..i], stats) +
      (if !achs[i].unlocked && ShouldUnlock(achs[i], stats) then [achs[i].id] else [])
  {
    assert achs[..i + 1][..i] == achs[..i];
  }

  lemma UnlockedPointsAppend(achs: seq<Achievement>, a: Achievement)
    ensures UnlockedPoints(achs + [a]) == UnlockedPoints(achs) + (if a.unlocked then a.points else 0)
  {
    assert (achs + [a])[..|achs|] == achs;
  }

  // ---- properties of the store ----

  /** The ids of the initial achievements. */
  const InitialIds: seq<string> := [
    "first_listen", "music_lover", "music_master", "marathon_listener", "point_collector",
    "point_master", "point_legend", "daily_listener", "week_warrior", "streak_champion",
    "early_bird", "night_owl", "speed_demon"]

  lemma InitialIdsListed()
    ensures Ids(InitialAchievements) == InitialIds
  {
  }

  /** No two initial achievements share an id. */
  lemma InitialIdsUnique()
    ensures NoDuplicates(InitialIds)
  {
  }

  lemma InitialIsValid()
    ensures Initial.Valid()
  {
    InitialIdsListed();
    InitialIdsUnique();
    AllLocked(InitialAchievements);
  }

  /** The check keeps the store valid. */
  lemma CheckPreservesValid(s: AchievementsState, stats: Stats)
    requires s.Valid()
    ensures s.CheckAchievements(stats).Valid()
  {
    var gained := NewlyUnlocked(s.achievements, stats);
    if gained != [] {
      IdsOfChecked(s.achievements, stats);
      NewlyUnlockedAreLockedIds(s.achievements, stats);
      NoDuplicatesConcat(s.unlockedAchievements, gained);
      UnlockedIdsOfChecked(s.achievements, stats);
    }
  }

  /** The check recomputes the points total from the flags; for a valid store with
      non-negative rewards it never goes down. */
  lemma CheckNeverLowersPoints(s: AchievementsState, stats: Stats)
    requires s.Valid()
    requires forall i :: 0 <= i < |s.achievements| ==> s.achievements[i].points >= 0
    ensures s.CheckAchievements(stats).totalAchievementPoints >= s.totalAchievementPoints
  {
    CheckedPointsGrow(s.achievements, stats);
  }

  lemma {:induction false} CheckedPointsGrow(achs: seq<Achievement>, stats: Stats)
    requires forall i :: 0 <= i < |achs| ==> achs[i].points >= 0
    ensures UnlockedPoints(CheckedAll(achs, stats)) >= UnlockedPoints(achs)
  {
    if achs != [] {
      var init := achs[..|achs| - 1];
      var c := CheckedAll(achs, stats);
      assert c[..|c| - 1] == CheckedAll(init, stats);
      CheckedPointsGrow(init, stats);
    }
  }

  /** A second check with the same statistics changes nothing. */
  lemma CheckIdempotent(s: AchievementsState, stats: Stats)
    ensures s.CheckAchievements(stats).CheckAchievements(stats) == s.CheckAchievements(stats)
  {
    NoneNewlyUnlockedAfterCheck(s.achievements, stats);
  }

  /** A manual unlock keeps the store valid. */
  lemma UnlockPreservesValid(s: AchievementsState, id: string)
    requires s.Valid()
    ensures s.UnlockAchievement(id).Valid()
  {
    if id !in s.unlockedAchievements && id in Ids(s.achievements) {
      IdsOfMarked(s.achievements, id);
      NoDuplicatesAppend(s.unlockedAchievements, id);
      MarkUnlockedPoints(s.achievements, id);
    }
  }

  /** Unlocking the same id a second time leaves the store as the first unlock left it,
      so its points are added at most once. */
  lemma UnlockIdempotent(s: AchievementsState, id: string)
    ensures s.UnlockAchievement(id).UnlockAchievement(id) == s.UnlockAchievement(id)
  {
  }

  /** The `map` callback of `checkAchievements` for one achievement: it returns the
      achievement as checked, and grows the list of new ids and the points total. */
  method CheckOne(a: Achievement, stats: Stats, newUnlocked: seq<string>, newTotalPoints: int)
    returns (next: Achievement, newUnlocked': seq<string>, newTotalPoints': int)
    ensures next == Checked(a, stats)
    ensures newUnlocked' == newUnlocked + (if !a.unlocked && ShouldUnlock(a, stats) then [a.id] else [])
    ensures newTotalPoints' == newTotalPoints + (if next.unlocked then next.points else 0)
  {
    next, newUnlocked', newTotalPoints' := a, newUnlocked, newTotalPoints;
    if a.unlocked {
      newTotalPoints' := newTotalPoints + a.points;
      return;
    }
    if ShouldUnlock(a, stats) {
      newUnlocked' := newUnlocked + [a.id];
      newTotalPoints' := newTotalPoints + a.points;
      next := a.(unlocked := true);
    }
  }

  /** The `map` of `checkAchievements` with its two accumulators: the checked list,
      the ids it unlocks in list order, and the points of everything unlocked after it. */
  method CheckAll(achs: seq<Achievement>, stats: Stats)
    returns (updated: seq<Achievement>, newUnlocked: seq<string>, newTotalPoints: int)
    ensures updated == CheckedAll(achs, stats)
    ensures newUnlocked == NewlyUnlocked(achs, stats)
    ensures newTotalPoints == UnlockedPoints(updated)
  {
    newUnlocked, newTotalPoints, updated := [], 0, [];
    var i := 0;
    while i < |achs|
      invariant 0 <= i <= |achs|
      invariant updated == CheckedAll(achs[..i], stats)
      invariant newUnlocked == NewlyUnlocked(achs[..i], stats)
      invariant newTotalPoints == UnlockedPoints(updated)
    {
      var next;
      next, newUnlocked, newTotalPoints := CheckOne(achs[i], stats, newUnlocked, newTotalPoints);
      CheckStep(achs, i, stats);
      UnlockedPointsAppend(updated, next);
      updated := updated + [next];
      i := i + 1;
    }
    assert achs[..i] == achs;
  }

  /** The zustand store. */
  class Store {
    var achievements: seq<Achievement>
    var unlockedAchievements: seq<string>
    var totalAchievementPoints: int

    function State(): AchievementsState
      reads this
    {
      AchievementsState(achievements, unlockedAchievements, totalAchievementPoints)
    }

    constructor ()
      ensures State() == Initial
    {
      achievements, unlockedAchievements, totalAchievementPoints := InitialAchievements, [], 0;
    }

    method CheckAchievements(stats: Stats)
      modifies this
      ensures State() == old(State()).CheckAchievements(stats)
    {
      var updated, newUnlocked, newTotalPoints := CheckAll(achievements, stats);
      if |newUnlocked| > 0 {
        achievements, unlockedAchievements, totalAchievementPoints :=
          updated, unlockedAchievements + newUnlocked, newTotalPoints;
      }
    }

    method UnlockAchievement(achievementId: string)
      modifies this
      ensures State() == old(State()).UnlockAchievement(achievementId)
    {
      if achievementId in unlockedAchievements {
        return;
      }
      var achievement := FindById(achievements, achievementId);
      if achievement.None? {
        return;
      }
      achievements, unlockedAchievements, totalAchievementPoints :=
        MarkUnlocked(achievements, achievementId), unlockedAchievements + [achievementId],
        totalAchievementPoints + achievement.value.points;
    }

    method ResetAchievements()
      modifies this
      ensures State() == Initial
    {
      achievements, unlockedAchievements, totalAchievementPoints := InitialAchievements, [], 0;
    }
  }
}
