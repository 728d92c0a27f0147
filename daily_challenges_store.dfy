/**
 * Daily challenges (src/stores/dailyChallengesStore.ts): three challenges drawn
 * from a template pool once per calendar day, with clamped progress and an
 * accumulated reward total.
 */
module DailyChallengesStore {
  import opened Wrappers
  import Text
  import opened Types

  datatype ChallengeType = ListenDuration | CompleteChallenges | EarnPoints | StreakType

  /** A generated challenge; the decorative `icon` is not modelled. */
  datatype DailyChallenge = DailyChallenge(
    id: string,
    title: string,
    description: string,
    challengeType: ChallengeType,
    requirement: int,
    reward: int,
    progress: int,
    completed: bool,
    date: Day)

  datatype Template = Template(
    title: string, description: string, challengeType: ChallengeType, requirement: int, reward: int)

  const ChallengeTemplates: seq<Template> := [
    Template("Morning Melody", "Listen to music for 5 minutes", ListenDuration, 300, 25),
    Template("Challenge Hunter", "Complete 2 music challenges", CompleteChallenges, 2, 50),
    Template("Point Collector", "Earn 100 points today", EarnPoints, 100, 30),
    Template("Music Marathon", "Listen to music for 15 minutes", ListenDuration, 900, 75),
    Template("Streak Keeper", "Maintain your listening streak", StreakType, 1, 20),
    Template("Challenge Master", "Complete 3 music challenges", CompleteChallenges, 3, 100)
  ]

  /** How many templates a day's draw takes (`shuffled.slice(0, 3)`). */
  const DailyCount: nat := 3

  /** The outcome of the random shuffle: the pool positions of the first three
      templates after shuffling, which are distinct because a shuffle permutes. */
  predicate ValidPicks(picks: seq<nat>) {
    && |picks| == DailyCount
    && (forall k :: 0 <= k < |picks| ==> picks[k] < |ChallengeTemplates|)
    && (forall k, l :: 0 <= k < l < |picks| ==> picks[k] != picks[l])
  }

  /** `daily_${now}_${index}`. */
  function DailyId(now: nat, index: nat): (id: string)
    ensures |id| >= 1 && id[|id| - 1] == Text.NatToString(index)[|Text.NatToString(index)| - 1]
  {
    "daily_" + Text.NatToString(now) + "_" + Text.NatToString(index)
  }

  /** Ids for different indices below 10 differ whatever the two clock readings,
      because they end in different digits. */
  lemma DailyIdsDistinct(now: nat, now': nat, k: nat, l: nat)
    requires k < l < 10
    ensures DailyId(now, k) != DailyId(now', l)
  {
    assert DailyId(now, k)[|DailyId(now, k)| - 1] == Text.DigitChar(k);
    assert DailyId(now', l)[|DailyId(now', l)| - 1] == Text.DigitChar(l);
  }

  function FromTemplate(t: Template, id: string, today: Day): (c: DailyChallenge)
    ensures c.id == id && c.date == today && c.progress == 0 && !c.completed
    ensures c.title == t.title && c.description == t.description && c.challengeType == t.challengeType
    ensures c.requirement == t.requirement && c.reward == t.reward
  {
    DailyChallenge(id, t.title, t.description, t.challengeType, t.requirement, t.reward, 0, false, today)
  }

  /** The `map` of `updateChallengeProgress` for one entry. */
  function ProgressEntry(c: DailyChallenge, id: string, progress: int, today: Day): (r: DailyChallenge)
    ensures !(c.id == id && c.date == today) ==> r == c
    ensures c.id == id && c.date == today ==>
      && r.progress == (if progress < c.requirement then progress else c.requirement)
      && r.progress <= c.requirement
      && r.completed == (progress >= c.requirement && !c.completed)
      && r == c.(progress := r.progress, completed := r.completed)
  {
    if c.id == id && c.date == today then
      var newProgress := if progress < c.requirement then progress else c.requirement;
      c.(progress := newProgress, completed := newProgress >= c.requirement && !c.completed)
    else c
  }

  /** The `map` of `completeChallenge` for one entry. */
  function CompleteEntry(c: DailyChallenge, id: string, today: Day): (r: DailyChallenge)
    ensures c.id == id && c.date == today && !c.completed ==> r == c.(completed := true, progress := c.requirement)
    ensures !(c.id == id && c.date == today && !c.completed) ==> r == c
  {
    if c.id == id && c.date == today && !c.completed then c.(completed := true, progress := c.requirement)
    else c
  }

  /** `dailyChallenges.find(c => c.id === id && c.date === today)`. */
  function FindToday(cs: seq<DailyChallenge>, id: string, today: Day): (r: Option<DailyChallenge>)
    ensures r.None? <==> forall i :: 0 <= i < |cs| ==> !(cs[i].id == id && cs[i].date == today)
    ensures r.Some? ==> r.value.id == id && r.value.date == today
    ensures r.Some? ==>
      exists i :: 0 <= i < |cs| && cs[i] == r.value && (forall j :: 0 <= j < i ==> !(cs[j].id == id && cs[j].date == today))
  {
    if cs == [] then None
    else if cs[0].id == id && cs[0].date == today then Some(cs[0])
    else
      var r := FindToday(cs[1..], id, today);
      assert forall i :: 1 <= i < |cs| ==> cs[i] == cs[1..][i - 1];
      r
  }

  datatype DailyState = DailyState(
    dailyChallenges: seq<DailyChallenge>,
    lastUpdateDate: Option<Day>,
    totalDailyRewards: int)
  {
    /** `generateDailyChallenges`: on a new day, replaces the list by fresh entries
        made from the drawn templates; on the same day does nothing. */
    function GenerateDailyChallenges(today: Day, nows: seq<nat>, picks: seq<nat>): (r: DailyState)
      requires ValidPicks(picks) && |nows| == DailyCount
      ensures lastUpdateDate == Some(today) ==> r == this
      ensures lastUpdateDate != Some(today) ==>
        && |r.dailyChallenges| == DailyCount
        && r.lastUpdateDate == Some(today)
        && r.totalDailyRewards == totalDailyRewards
        && forall k :: 0 <= k < DailyCount ==>
             var c, t := r.dailyChallenges[k], ChallengeTemplates[picks[k]];
             && c.id == DailyId(nows[k], k) && c.date == today && c.progress == 0 && !c.completed
             && c.title == t.title && c.description == t.description && c.challengeType == t.challengeType
             && c.requirement == t.requirement && c.reward == t.reward
    {
      if lastUpdateDate == Some(today) then this
      else
        var newChallenges := seq(DailyCount, k requires 0 <= k < DailyCount =>
          FromTemplate(ChallengeTemplates[picks[k]], DailyId(nows[k], k), today));
        this.(dailyChallenges := newChallenges, lastUpdateDate := Some(today))
    }

    /** `updateChallengeProgress`: rewrites the matching entries of today. */
    function UpdateChallengeProgress(id: string, progress: int, today: Day): (r: DailyState)
      ensures |r.dailyChallenges| == |dailyChallenges|
      ensures forall i :: 0 <= i < |dailyChallenges| ==>
        r.dailyChallenges[i] == ProgressEntry(dailyChallenges[i], id, progress, today)
      ensures r.lastUpdateDate == lastUpdateDate && r.totalDailyRewards == totalDailyRewards
    {
      this.(dailyChallenges := seq(|dailyChallenges|, i requires 0 <= i < |dailyChallenges| =>
        ProgressEntry(dailyChallenges[i], id, progress, today)))
    }

    /** `completeChallenge`: completes today's matching entries and adds the reward of
        the first of them, whether or not it was already completed. */
    function CompleteChallenge(id: string, today: Day): (r: DailyState)
      ensures FindToday(dailyChallenges, id, today).None? ==> r == this
      ensures FindToday(dailyChallenges, id, today).Some? ==>
        && r.totalDailyRewards == totalDailyRewards + FindToday(dailyChallenges, id, today).value.reward
        && |r.dailyChallenges| == |dailyChallenges|
        && (forall i :: 0 <= i < |dailyChallenges| ==> r.dailyChallenges[i] == CompleteEntry(dailyChallenges[i], id, today))
        && r.lastUpdateDate == lastUpdateDate
    {
      var found := FindToday(dailyChallenges, id, today);
      if found.None? then this
      else
        DailyState(
          seq(|dailyChallenges|, i requires 0 <= i < |dailyChallenges| => CompleteEntry(dailyChallenges[i], id, today)),
          lastUpdateDate,
          totalDailyRewards + found.value.reward)
    }
  }

  /** The store's initial state, also what `resetDailyChallenges` restores. */
  const Initial := DailyState([], None, 0)

  /** A second generation on the same day changes nothing. */
  lemma GenerateOncePerDay(s: DailyState, today: Day, nows: seq<nat>, nows': seq<nat>, picks: seq<nat>, picks': seq<nat>)
    requires ValidPicks(picks) && ValidPicks(picks') && |nows| == DailyCount && |nows'| == DailyCount
    ensures s.GenerateDailyChallenges(today, nows, picks).GenerateDailyChallenges(today, nows', picks')
         == s.GenerateDailyChallenges(today, nows, picks)
  {
  }

  /** A generation draws three different templates and gives them three different ids. */
  lemma GeneratedDistinct(s: DailyState, today: Day, nows: seq<nat>, picks: seq<nat>)
    requires ValidPicks(picks) && |nows| == DailyCount && s.lastUpdateDate != Some(today)
    ensures var cs := s.GenerateDailyChallenges(today, nows, picks).dailyChallenges;
      forall k, l :: 0 <= k < l < |cs| ==> cs[k].id != cs[l].id && ChallengeTemplates[picks[k]] != ChallengeTemplates[picks[l]]
  {
    var cs := s.GenerateDailyChallenges(today, nows, picks).dailyChallenges;
    forall k, l | 0 <= k < l < |cs|
      ensures cs[k].id != cs[l].id && ChallengeTemplates[picks[k]] != ChallengeTemplates[picks[l]]
    {
      DailyIdsDistinct(nows[k], nows[l], k, l);
    }
  }

  /** Progress stored by an update never exceeds the requirement, for valid or invalid input. */
  lemma ProgressNeverExceedsRequirement(s: DailyState, id: string, progress: int, today: Day)
    requires forall i :: 0 <= i < |s.dailyChallenges| ==> s.dailyChallenges[i].progress <= s.dailyChallenges[i].requirement
    ensures var cs := s.UpdateChallengeProgress(id, progress, today).dailyChallenges;
      forall i :: 0 <= i < |cs| ==> cs[i].progress <= cs[i].requirement
  {
  }

  /** As written, a progress update that reaches the requirement flips the flag of an
      entry that was already completed back to not completed; repeated updates alternate. */
  lemma ProgressUpdateTogglesCompletion(c: DailyChallenge, progress: int, today: Day)
    requires c.date == today && progress >= c.requirement
    ensures ProgressEntry(c, c.id, progress, today).completed == !c.completed
    ensures ProgressEntry(ProgressEntry(c, c.id, progress, today), c.id, progress, today).completed == c.completed
  {
  }

  /** As written, completing the same challenge again adds its reward again. */
  lemma RepeatedCompletionAddsRewardAgain(s: DailyState, id: string, today: Day)
    requires FindToday(s.dailyChallenges, id, today).Some?
    ensures var once := s.CompleteChallenge(id, today);
      && FindToday(once.dailyChallenges, id, today).Some?
      && once.CompleteChallenge(id, today).totalDailyRewards
         == s.totalDailyRewards + FindToday(s.dailyChallenges, id, today).value.reward
                                + FindToday(once.dailyChallenges, id, today).value.reward
  {
    var once := s.CompleteChallenge(id, today);
    var i :| 0 <= i < |s.dailyChallenges| && s.dailyChallenges[i].id == id && s.dailyChallenges[i].date == today;
    assert once.dailyChallenges[i].id == id && once.dailyChallenges[i].date == today;
  }

  /** Completing keeps the reward of the entry it finds: the first match of the day. */
  lemma CompletionKeepsReward(s: DailyState, id: string, today: Day)
    requires FindToday(s.dailyChallenges, id, today).Some?
    ensures FindToday(s.CompleteChallenge(id, today).dailyChallenges, id, today).value.reward
         == FindToday(s.dailyChallenges, id, today).value.reward
  {
    var cs := s.dailyChallenges;
    var cs' := s.CompleteChallenge(id, today).dailyChallenges;
    FindTodayOfCompleted(cs, cs', id, today);
  }

  lemma {:induction false} FindTodayOfCompleted(cs: seq<DailyChallenge>, cs': seq<DailyChallenge>, id: string, today: Day)
    requires |cs'| == |cs| && forall i :: 0 <= i < |cs| ==> cs'[i] == CompleteEntry(cs[i], id, today)
    requires FindToday(cs, id, today).Some?
    ensures FindToday(cs', id, today).Some?
    ensures FindToday(cs', id, today).value == CompleteEntry(FindToday(cs, id, today).value, id, today)
  {
    if !(cs[0].id == id && cs[0].date == today) {
      FindTodayOfCompleted(cs[1..], cs'[1..], id, today);
    }
  }

  /** The zustand store. */
  class Store {
    var dailyChallenges: seq<DailyChallenge>
    var lastUpdateDate: Option<Day>
    var totalDailyRewards: int

    function State(): DailyState
      reads this
    {
      DailyState(dailyChallenges, lastUpdateDate, totalDailyRewards)
    }

    constructor ()
      ensures State() == Initial
    {
      dailyChallenges, lastUpdateDate, totalDailyRewards := [], None, 0;
    }

    /** `today`, `nows` and `picks` stand for the clock and the random shuffle:
        `nows[k]` is what `Date.now()` returns while entry `k` is made. */
    method GenerateDailyChallenges(today: Day, nows: seq<nat>, picks: seq<nat>)
      requires ValidPicks(picks) && |nows| == DailyCount
      modifies this
      ensures State() == old(State()).GenerateDailyChallenges(today, nows, picks)
    {
      if lastUpdateDate == Some(today) {
        return;
      }
      dailyChallenges := seq(DailyCount, k requires 0 <= k < DailyCount =>
        FromTemplate(ChallengeTemplates[picks[k]], DailyId(nows[k], k), today));
      lastUpdateDate := Some(today);
    }

    method UpdateChallengeProgress(challengeId: string, progress: int, today: Day)
      modifies this
      ensures State() == old(State()).UpdateChallengeProgress(challengeId, progress, today)
    {
      var cs := dailyChallenges;
      dailyChallenges := seq(|cs|, i requires 0 <= i < |cs| => ProgressEntry(cs[i], challengeId, progress, today));
    }

    method CompleteChallenge(challengeId: string, today: Day)
      modifies this
      ensures State() == old(State()).CompleteChallenge(challengeId, today)
    {
      var cs := dailyChallenges;
      var updatedChallenges := seq(|cs|, i requires 0 <= i < |cs| => CompleteEntry(cs[i], challengeId, today));
      var completedChallenge := FindToday(dailyChallenges, challengeId, today);
      if completedChallenge.Some? {
        dailyChallenges, totalDailyRewards :=
          updatedChallenges, totalDailyRewards + completedChallenge.value.reward;
      }
    }

    method ResetDailyChallenges()
      modifies this
      ensures State() == Initial
    {
      dailyChallenges, lastUpdateDate, totalDailyRewards := [], None, 0;
    }
  }
}
