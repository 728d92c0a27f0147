# MusicRewards state model in Dafny

MusicRewards is a React Native app that plays music challenges and rewards the listener. It awards points and levels, keeps a daily streak, unlocks achievements, and issues three daily challenges a day. Its logic lives in small zustand stores. Each store is a record of fields that a few actions rewrite.

This project models those stores and their helpers:
- the user, achievements, daily-challenge, music, settings and theme stores;
- the `useChallenges` completion hook;
- the `useOptimisticUpdates` queue;
- the duration and difficulty-colour helpers of the challenge card and the web screen.

It then proves what the stores promise.

How each store is modelled:
- **The specification.** A value `datatype` (`UserState`, `AchievementsState`, ...) whose member functions are the store's actions. Each one states the whole new state.
- **The store itself.** A `class Store` with the source's fields. Its methods rewrite those fields. Each method's `ensures` ties the new state to the matching action.
  - The achievements check is a loop. It accumulates the unlocked ids and the points total, as the source's `map` callback does.
  - The optimistic-update `clearOldUpdates` and `rollbackAllUpdates` are loops too.
- **Lemmas.** Properties that relate several calls (idempotence, invariants kept, repeated rewards) are lemmas about the action functions.

The environment is passed in as parameters:
- `new Date().toDateString()` becomes a day number `today`, and "yesterday" is `today - 1`;
- `Date.now()` becomes `now`; when the daily challenges are generated it is read once per entry, so it becomes a list `nows` with one reading per entry;
- the random shuffle of the daily templates becomes `picks`, a caller-supplied list of three distinct template indices;
- each rollback callback is an opaque token (`Rollback`). Invoking it appends the token to `rollbackTrace`, so the trace records which rollbacks ran and in what order.

Some behaviour is modelled exactly as written:
- `completeChallenge` of the daily store adds the reward again for an entry that is already completed.
- `updateChallengeProgress` flips an already-completed entry back to not completed.
- `completeChallengeAction` awards a challenge's points again on every call.
- No capitalised difficulty value ever gets a colour on the web screen.
- web.tsx reads a `progress` field that `MusicChallenge` does not declare, so its progress bar never shows.
- The card's completed title is kept byte for byte, encoding damage included (`CompletedTitle` in challenge_card.dfy).

## Model

| member | source | states |
|---|---|---|
| Types.DifficultyName | src/types/index.ts:12 | the three declared difficulties are the strings "Easy", "Medium", "Hard" |
| Text.CanonicalIsNatToString | src/components/challenge/ChallengeCard.tsx:29 | a non-empty digit string without a leading zero (other than "0" itself) is the `toString` of its value |
| Text.TwoDigitsUnique | src/components/challenge/ChallengeCard.tsx:29 | two two-digit strings with the same value are the same string |
| Text.NatToString | src/components/challenge/ChallengeCard.tsx:29 | `toString` of a natural below 10^21: a non-empty digit string that parses back to the number, with no leading zero unless the number is 0, and a single digit exactly when the number is below 10 |
| Text.ParseLeadingZero | src/components/challenge/ChallengeCard.tsx:29 | a leading '0' does not change a digit string's value |
| Text.Repeat | src/components/challenge/ChallengeCard.tsx:29 | n copies of the fill character |
| Text.PadStart | src/components/challenge/ChallengeCard.tsx:29 | `padStart`: the result has length max(len, width), ends with the input and is filled with the pad character in front |
| Text.PadToTwoDigits | src/components/challenge/ChallengeCard.tsx:29 | padding a one- or two-digit string to width 2 with '0' gives two digits with the same value |
| Sequences.NoDuplicatesAppend | src/stores/userStore.ts:45-48 | appending an absent element keeps a list duplicate-free |
| Sequences.NoDuplicatesConcat | src/stores/achievementsStore.ts:233 | concatenating two duplicate-free lists with no common element is duplicate-free |
| UserStore.LevelFor | src/stores/userStore.ts:35 | the level is the unique L with (L-1)*1000 <= total < L*1000, i.e. floor(total/1000)+1 |
| UserStore.UserState.AddPoints | src/stores/userStore.ts:32-41 | the total grows by the points, the level is derived from the new total, and the list, streak and date are unchanged |
| UserStore.UserState.CompleteChallenge | src/stores/userStore.ts:43-50 | the id is afterwards in the list; an absent id is appended at the end, and a present one changes nothing |
| UserStore.UserState.UpdateStreak | src/stores/userStore.ts:62-82 | same day: no change; the day after the last play: streak+1; any other last date, or none: streak 1; the date becomes today and the points, level and list are kept |
| UserStore.InitialIsValid | src/stores/userStore.ts:25-29 | the initial state (0 points, level 1, no challenges, streak 0, no date) satisfies the store invariant |
| UserStore.ActionsPreserveValid | src/stores/userStore.ts:32-82 | every action keeps level == LevelFor(total), the list duplicate-free, and "streak 0 exactly when no date"; after updateStreak the streak is at least 1 |
| UserStore.AddPointsTwice | src/stores/userStore.ts:32-41 | adding a then b is the same as adding a+b |
| UserStore.LevelMonotone | src/stores/userStore.ts:35 | more points never give a lower level |
| UserStore.CompleteChallengeIdempotent | src/stores/userStore.ts:45 | completing the same challenge twice equals completing it once |
| UserStore.ConsecutiveDays | src/stores/userStore.ts:71-81 | playing on n consecutive days adds n to a streak that ended the day before, and otherwise leaves a streak of exactly n |
| UserStore.SkippedDayResets | src/stores/userStore.ts:76-80 | a gap of more than one day resets the streak to 1 |
| UserStore.Store.constructor | src/stores/userStore.ts:25-29 | a new store holds the initial state |
| UserStore.Store.AddPoints | src/stores/userStore.ts:32-41 | the fields become the AddPoints successor of the old state |
| UserStore.Store.CompleteChallenge | src/stores/userStore.ts:43-50 | the fields become the CompleteChallenge successor of the old state |
| UserStore.Store.ResetProgress | src/stores/userStore.ts:52-60 | the fields are exactly the initial state |
| UserStore.Store.UpdateStreak | src/stores/userStore.ts:62-82 | the fields become the UpdateStreak successor of the old state |
| AchievementsStore.ShouldUnlock | src/stores/achievementsStore.ts:196-215 | the category switch as a predicate; what it decides per category is stated by ShouldUnlockByCategory |
| AchievementsStore.ShouldUnlockByCategory | src/stores/achievementsStore.ts:198-215 | points and streak achievements unlock exactly when their stat reaches the requirement; first_listen, music_lover and music_master compare completed challenges, marathon_listener compares listening time; special and challenge achievements never unlock by a check |
| AchievementsStore.Checked | src/stores/achievementsStore.ts:190-227 | an achievement is unlocked after the check if it was before or its threshold is met, and nothing else about it changes |
| AchievementsStore.CheckedAll | src/stores/achievementsStore.ts:190-228 | the check visits every achievement in order and keeps the list's length |
| AchievementsStore.Ids | src/stores/achievementsStore.ts:246 | the ids of the list, position by position |
| AchievementsStore.FindById | src/stores/achievementsStore.ts:246 | `find` by id: none exactly when no achievement has the id, else the first achievement of the list with that id |
| AchievementsStore.MarkUnlocked | src/stores/achievementsStore.ts:249-251 | sets the flag of the achievements with the id and leaves the others unchanged |
| AchievementsStore.AchievementsState.CheckAchievements | src/stores/achievementsStore.ts:185-237 | no achievement is relocked, each locked one whose threshold is met is unlocked, and nothing else changes; if nothing new unlocks the store is unchanged; otherwise the new ids are appended in list order and the total is the sum of the unlocked points |
| AchievementsStore.AchievementsState.UnlockAchievement | src/stores/achievementsStore.ts:239-260 | an id already unlocked, or one no achievement has, changes nothing; otherwise its flag is set, the id appended and its points added |
| AchievementsStore.NewlyUnlocked | src/stores/achievementsStore.ts:187-218 | the `newUnlocked` accumulator as a function: the ids, in list order, of the locked achievements whose threshold passes; CheckAll returns it and NewlyUnlockedAreLockedIds states its properties |
| AchievementsStore.UnlockedPoints | src/stores/achievementsStore.ts:188-219 | the `newTotalPoints` accumulator as a function: the sum of points over the unlocked achievements of a list; CheckAll returns it for the checked list and UnlockedPointsAppend states how it grows |
| AchievementsStore.NothingNewlyUnlocked | src/stores/achievementsStore.ts:230-236 | when no threshold newly passes, the checked list is the old list |
| AchievementsStore.NewlyUnlockedAreLockedIds | src/stores/achievementsStore.ts:191-218 | the newly unlocked ids are distinct, existing and previously locked |
| AchievementsStore.UnlockedIdsAreIds | src/stores/achievementsStore.ts:6-16 | every unlocked id is the id of an achievement |
| AchievementsStore.UnlockedIdsOfChecked | src/stores/achievementsStore.ts:190-228 | after a check, an id is unlocked exactly when it was before or was newly unlocked |
| AchievementsStore.NoneNewlyUnlockedAfterCheck | src/stores/achievementsStore.ts:190-228 | a second check with the same statistics finds nothing new |
| AchievementsStore.MarkUnlockedAbsent | src/stores/achievementsStore.ts:246-247 | marking an id that no achievement has changes nothing |
| AchievementsStore.MarkUnlockedPoints | src/stores/achievementsStore.ts:249-259 | marking a locked id adds exactly its points to the unlocked sum and exactly that id to the unlocked ids |
| AchievementsStore.IdsOfChecked | src/stores/achievementsStore.ts:190-228 | a check keeps every id in place |
| AchievementsStore.IdsOfMarked | src/stores/achievementsStore.ts:249-251 | a manual unlock keeps every id in place |
| AchievementsStore.AllLocked | src/stores/achievementsStore.ts:180-182 | a list with nothing unlocked has no unlocked ids and zero unlocked points |
| AchievementsStore.CheckStep | src/stores/achievementsStore.ts:187-228 | one more step of the check's loop extends the checked list and the new ids by the current achievement |
| AchievementsStore.UnlockedPointsAppend | src/stores/achievementsStore.ts:188-219 | the unlocked sum grows by an appended achievement's points exactly when it is unlocked |
| AchievementsStore.InitialIdsListed | src/stores/achievementsStore.ts:36-174 | the ids of the initial achievements, in order |
| AchievementsStore.InitialIdsUnique | src/stores/achievementsStore.ts:36-174 | no two initial achievements share an id |
| AchievementsStore.InitialIsValid | src/stores/achievementsStore.ts:36-182 | the initial store (the 13 achievements, all locked, none listed, 0 points) satisfies the invariant: unique ids, the list names exactly the unlocked ones, and the total is their sum |
| AchievementsStore.CheckPreservesValid | src/stores/achievementsStore.ts:185-237 | a check keeps the store invariant |
| AchievementsStore.CheckNeverLowersPoints | src/stores/achievementsStore.ts:188-234 | with non-negative achievement points, a check never lowers the points total |
| AchievementsStore.CheckedPointsGrow | src/stores/achievementsStore.ts:190-228 | checking never lowers the sum of unlocked non-negative points |
| AchievementsStore.CheckIdempotent | src/stores/achievementsStore.ts:185-237 | a second check with the same statistics changes nothing |
| AchievementsStore.UnlockPreservesValid | src/stores/achievementsStore.ts:239-260 | a manual unlock keeps the store invariant, so its points are counted once |
| AchievementsStore.UnlockIdempotent | src/stores/achievementsStore.ts:242-244 | unlocking the same id twice equals unlocking it once |
| AchievementsStore.CheckOne | src/stores/achievementsStore.ts:190-227 | the `map` callback for one achievement: it returns the checked achievement, appends its id when it newly unlocks, and adds its points when it is unlocked afterwards |
| AchievementsStore.CheckAll | src/stores/achievementsStore.ts:186-228 | the loop over the list returns the checked list, the newly unlocked ids in list order, and the sum of the points unlocked afterwards |
| AchievementsStore.Store.constructor | src/stores/achievementsStore.ts:180-182 | a new store holds the initial state |
| AchievementsStore.Store.CheckAchievements | src/stores/achievementsStore.ts:185-237 | after running CheckAll, the fields equal CheckAchievements of the old state |
| AchievementsStore.Store.UnlockAchievement | src/stores/achievementsStore.ts:239-260 | the fields become the UnlockAchievement successor of the old state |
| AchievementsStore.Store.ResetAchievements | src/stores/achievementsStore.ts:262-268 | the fields are exactly the initial state |
| DailyChallengesStore.DailyId | src/stores/dailyChallengesStore.ts:108 | an id ends with the last digit of its index |
| DailyChallengesStore.DailyIdsDistinct | src/stores/dailyChallengesStore.ts:108 | ids made for different indices differ, whatever the clock readings they were made with |
| DailyChallengesStore.ProgressEntry | src/stores/dailyChallengesStore.ts:130-144 | only today's entry with the id changes: its progress becomes min(progress, requirement) and its completion becomes "requirement reached and not completed before" |
| DailyChallengesStore.CompleteEntry | src/stores/dailyChallengesStore.ts:151-160 | today's matching uncompleted entry becomes completed with progress equal to the requirement; every other entry is unchanged |
| DailyChallengesStore.FindToday | src/stores/dailyChallengesStore.ts:162-164 | `find` of the first entry with the id dated today; none exactly when there is no such entry |
| DailyChallengesStore.FromTemplate | src/stores/dailyChallengesStore.ts:107-118 | a new entry takes the given id, title, description, type, requirement and reward of its template, with progress 0, not completed and dated today |
| DailyChallengesStore.DailyState.GenerateDailyChallenges | src/stores/dailyChallengesStore.ts:94-124 | on the day of the last update nothing changes; otherwise there are exactly three fresh entries copied from the drawn templates, entry k with the id `daily_<nows[k]>_<k>` built from its own clock reading, with progress 0, not completed and dated today, the update date becomes today and the reward total is kept |
| DailyChallengesStore.DailyState.UpdateChallengeProgress | src/stores/dailyChallengesStore.ts:126-145 | each entry is rewritten by ProgressEntry, the length is kept, and the date and reward total are unchanged |
| DailyChallengesStore.DailyState.CompleteChallenge | src/stores/dailyChallengesStore.ts:147-172 | with no matching entry dated today nothing changes; otherwise the entries are completed by CompleteEntry and the reward of the first match is added, completed or not |
| DailyChallengesStore.GenerateOncePerDay | src/stores/dailyChallengesStore.ts:99-101 | generating twice on one day equals generating once, whatever the second draw and clock readings |
| DailyChallengesStore.GeneratedDistinct | src/stores/dailyChallengesStore.ts:104-123 | the generated entries have distinct ids and come from distinct templates |
| DailyChallengesStore.ProgressNeverExceedsRequirement | src/stores/dailyChallengesStore.ts:132 | if no entry's progress exceeds its requirement, none does after a progress update |
| DailyChallengesStore.ProgressUpdateTogglesCompletion | src/stores/dailyChallengesStore.ts:133-139 | a progress update reaching the requirement flips completion, and a second identical update flips it back |
| DailyChallengesStore.RepeatedCompletionAddsRewardAgain | src/stores/dailyChallengesStore.ts:162-170 | completing the same challenge twice adds its reward twice |
| DailyChallengesStore.CompletionKeepsReward | src/stores/dailyChallengesStore.ts:151-160 | completion does not change the matched entry's reward |
| DailyChallengesStore.FindTodayOfCompleted | src/stores/dailyChallengesStore.ts:151-164 | after completion, the lookup finds the completed form of what it found before |
| DailyChallengesStore.Store.constructor | src/stores/dailyChallengesStore.ts:89-91 | a new store is empty, with no update date and no rewards |
| DailyChallengesStore.Store.GenerateDailyChallenges | src/stores/dailyChallengesStore.ts:94-124 | the fields become the GenerateDailyChallenges successor of the old state, for the clock readings taken per entry |
| DailyChallengesStore.Store.UpdateChallengeProgress | src/stores/dailyChallengesStore.ts:126-145 | the fields become the UpdateChallengeProgress successor of the old state |
| DailyChallengesStore.Store.CompleteChallenge | src/stores/dailyChallengesStore.ts:147-172 | the fields become the CompleteChallenge successor of the old state |
| DailyChallengesStore.Store.ResetDailyChallenges | src/stores/dailyChallengesStore.ts:174-180 | the fields are exactly the initial state |
| MusicStore.ClampProgress | src/stores/musicStore.ts:121 | the result lies in [0, 100], equals the input when it is already there, and is 0 below and 100 above |
| MusicStore.SampleNotCompleted | src/stores/musicStore.ts:26-87 | no sample challenge is completed |
| MusicStore.MusicState.LoadChallenges | src/stores/musicStore.ts:100-102 | the list becomes the sample list, in which nothing is completed, and nothing else changes |
| MusicStore.MusicState.SetCurrentTrack | src/stores/musicStore.ts:104-106 | only the current track changes, to the argument |
| MusicStore.MusicState.SetIsPlaying | src/stores/musicStore.ts:108-110 | only the playing flag changes, to the argument |
| MusicStore.MusicState.SetCurrentPosition | src/stores/musicStore.ts:112-114 | only the position changes, to the argument |
| MusicStore.MusicState.UpdateProgress | src/stores/musicStore.ts:116-124 | the key holds the clamped progress, in [0, 100]; every other key is present as before with its old value |
| MusicStore.MarkEntry | src/stores/musicStore.ts:128-132 | one entry of the `map`: it is completed when it was or when it has the id, and every other field is kept |
| MusicStore.MusicState.MarkChallengeComplete | src/stores/musicStore.ts:126-134 | entries with the id become completed, the others are unchanged, and the length and order are kept |
| MusicStore.InitialProgressInRange | src/stores/musicStore.ts:93-97 | the initial progress map lies in [0, 100] |
| MusicStore.UpdateProgressKeepsRange | src/stores/musicStore.ts:116-124 | progress updates keep every stored value in [0, 100] |
| MusicStore.MarkChallengeCompleteIdempotent | src/stores/musicStore.ts:128-132 | marking twice equals marking once |
| MusicStore.LoadDiscardsCompletion | src/stores/musicStore.ts:100-102 | loading after a mark leaves every challenge not completed |
| MusicStore.Store.constructor | src/stores/musicStore.ts:93-97 | a new store holds the initial state |
| MusicStore.Store.LoadChallenges | src/stores/musicStore.ts:100-102 | the fields become the LoadChallenges successor of the old state |
| MusicStore.Store.SetCurrentTrack | src/stores/musicStore.ts:104-106 | the fields become the SetCurrentTrack successor of the old state |
| MusicStore.Store.SetIsPlaying | src/stores/musicStore.ts:108-110 | the fields become the SetIsPlaying successor of the old state |
| MusicStore.Store.SetCurrentPosition | src/stores/musicStore.ts:112-114 | the fields become the SetCurrentPosition successor of the old state |
| MusicStore.Store.UpdateProgress | src/stores/musicStore.ts:116-124 | the fields become the UpdateProgress successor of the old state |
| MusicStore.Store.MarkChallengeComplete | src/stores/musicStore.ts:126-134 | the fields become the MarkChallengeComplete successor of the old state |
| MusicStore.Store.ResetStore | src/stores/musicStore.ts:136-144 | the fields are exactly the initial state |
| SettingsStore.ClampVolume | src/stores/settingsStore.ts:56 | the result lies in [0, 1], equals the input when it is already there, and is 0 below and 1 above |
| SettingsStore.SettingsState.SetThemeMode | src/stores/settingsStore.ts:42 | only the theme mode changes, to the argument |
| SettingsStore.SettingsState.ToggleNotifications | src/stores/settingsStore.ts:44-46 | only the notifications flag changes, to its negation |
| SettingsStore.SettingsState.ToggleHapticFeedback | src/stores/settingsStore.ts:48-50 | only the haptic flag changes, to its negation |
| SettingsStore.SettingsState.ToggleAutoPlayNext | src/stores/settingsStore.ts:52-54 | only the auto-play flag changes, to its negation |
| SettingsStore.SettingsState.SetVolume | src/stores/settingsStore.ts:56 | only the volume changes; it lies in [0, 1] and equals the argument when that is in range |
| SettingsStore.SettingsState.SetLanguage | src/stores/settingsStore.ts:58 | only the language changes, to the argument |
| SettingsStore.SettingsState.ToggleSoundEffects | src/stores/settingsStore.ts:60-62 | only the sound-effects flag changes, to its negation |
| SettingsStore.TogglesAreInvolutions | src/stores/settingsStore.ts:44-62 | toggling any flag twice restores the settings |
| SettingsStore.VolumeStaysInRange | src/stores/settingsStore.ts:42-62 | volume in [0, 1] stays there under every setter and toggle |
| SettingsStore.SetVolumeIdempotent | src/stores/settingsStore.ts:56 | setting the same volume twice equals setting it once |
| SettingsStore.Store.constructor | src/stores/settingsStore.ts:33-39 | a new store holds dark mode, notifications, haptics and sound on, auto-play off, volume 0.8, language "en" |
| SettingsStore.Store.SetThemeMode | src/stores/settingsStore.ts:42 | the fields become the SetThemeMode successor of the old state |
| SettingsStore.Store.ToggleNotifications | src/stores/settingsStore.ts:44-46 | the fields become the ToggleNotifications successor of the old state |
| SettingsStore.Store.ToggleHapticFeedback | src/stores/settingsStore.ts:48-50 | the fields become the ToggleHapticFeedback successor of the old state |
| SettingsStore.Store.ToggleAutoPlayNext | src/stores/settingsStore.ts:52-54 | the fields become the ToggleAutoPlayNext successor of the old state |
| SettingsStore.Store.SetVolume | src/stores/settingsStore.ts:56 | the fields become the SetVolume successor of the old state |
| SettingsStore.Store.SetLanguage | src/stores/settingsStore.ts:58 | the fields become the SetLanguage successor of the old state |
| SettingsStore.Store.ToggleSoundEffects | src/stores/settingsStore.ts:60-62 | the fields become the ToggleSoundEffects successor of the old state |
| SettingsStore.Store.ResetSettings | src/stores/settingsStore.ts:64-72 | the fields are exactly the initial values |
| ThemeStore.Toggled | src/stores/themeStore.ts:23-27 | dark becomes light, light and auto become dark, and the result is never auto |
| ThemeStore.ToggleTwice | src/stores/themeStore.ts:23-27 | toggling twice restores dark or light, and takes auto to light |
| ThemeStore.Store.constructor | src/stores/themeStore.ts:17 | the initial mode is dark |
| ThemeStore.Store.SetThemeMode | src/stores/themeStore.ts:19-21 | the mode becomes the argument |
| ThemeStore.Store.ToggleTheme | src/stores/themeStore.ts:23-27 | the mode becomes Toggled of the old mode |
| UseChallenges.FindChallenge | src/hooks/useChallenges.ts:37 | `find` by id: none exactly when no challenge has the id, else the first challenge of the list with that id |
| UseChallenges.CompletionOutcome | src/hooks/useChallenges.ts:31-56 | an unknown id sets the error "Challenge not found" and leaves both stores unchanged; a known id clears the error, marks the challenge completed, records its id for the user and adds its points |
| UseChallenges.FindAfterMark | src/hooks/useChallenges.ts:37-43 | after marking, the lookup finds the same challenge, now completed |
| UseChallenges.RepeatedActionAwardsAgain | src/hooks/useChallenges.ts:42-49 | a second action for the same id awards its points again while the user's list does not grow |
| UseChallenges.ActionKeepsUserValid | src/hooks/useChallenges.ts:42-49 | the action keeps the user store's invariant, so the completed list stays duplicate-free |
| UseChallenges.ChallengesHook.constructor | src/hooks/useChallenges.ts:8-17 | the hook starts not loading and without error, over the given stores |
| UseChallenges.ChallengesHook.RefreshChallenges | src/hooks/useChallenges.ts:19-29 | the music store is reloaded with the sample list, and the hook ends not loading and without error |
| UseChallenges.ChallengesHook.CompleteChallengeAction | src/hooks/useChallenges.ts:31-56 | the two stores and the error end as CompletionOutcome says, and loading ends false |
| OptimisticUpdates.WithoutId | src/hooks/useOptimisticUpdates.ts:31 | `filter` by id: no kept entry has the id, every entry with another id is kept, and nothing new appears |
| OptimisticUpdates.Unexpired | src/hooks/useOptimisticUpdates.ts:50-56 | the kept entries are all at most maxAge old |
| OptimisticUpdates.Expired | src/hooks/useOptimisticUpdates.ts:50-56 | the evicted entries are all older than maxAge |
| OptimisticUpdates.Rollbacks | src/hooks/useOptimisticUpdates.ts:43 | the rollbacks of the entries, in list order |
| OptimisticUpdates.FindUpdate | src/hooks/useOptimisticUpdates.ts:35 | `find` of the first entry with the id; none exactly when there is none |
| OptimisticUpdates.WithoutAbsentId | src/hooks/useOptimisticUpdates.ts:30-32 | removing an id that no entry has changes nothing |
| OptimisticUpdates.WithoutIdConcat | src/hooks/useOptimisticUpdates.ts:30-32 | removal works segment by segment, so order is kept |
| OptimisticUpdates.WithoutIdIdempotent | src/hooks/useOptimisticUpdates.ts:30-32 | removing an id twice equals removing it once |
| OptimisticUpdates.EvictionPartitions | src/hooks/useOptimisticUpdates.ts:47-58 | the kept and the evicted entries together are exactly the old entries, as a multiset |
| OptimisticUpdates.EvictionCounts | src/hooks/useOptimisticUpdates.ts:47-58 | the kept and the evicted entries together are as many as the old entries |
| OptimisticUpdates.NothingStale | src/hooks/useOptimisticUpdates.ts:47-58 | when no entry is too old, eviction keeps everything and rolls nothing back |
| OptimisticUpdates.EvictionStep | src/hooks/useOptimisticUpdates.ts:50-56 | one more step of the filter appends the current entry to the kept or to the evicted entries |
| OptimisticUpdates.PendingUpdates.constructor | src/hooks/useOptimisticUpdates.ts:12 | the queue starts empty, with no rollback run |
| OptimisticUpdates.PendingUpdates.AddOptimisticUpdate | src/hooks/useOptimisticUpdates.ts:14-28 | exactly one entry with the id, data, rollback and time now is appended, even for a repeated id, and is returned |
| OptimisticUpdates.PendingUpdates.RemoveOptimisticUpdate | src/hooks/useOptimisticUpdates.ts:30-32 | every entry with the id is removed, the rest keep their order, and no rollback runs |
| OptimisticUpdates.PendingUpdates.RollbackUpdate | src/hooks/useOptimisticUpdates.ts:34-40 | with no match nothing happens; otherwise only the first match's rollback runs, then every entry with the id is removed |
| OptimisticUpdates.PendingUpdates.RollbackAllUpdates | src/hooks/useOptimisticUpdates.ts:42-45 | every pending rollback runs in list order and the queue ends empty |
| OptimisticUpdates.PendingUpdates.ClearOldUpdates | src/hooks/useOptimisticUpdates.ts:47-58 | the queue keeps exactly the entries at most maxAge old, in order, and the rollbacks of the evicted ones run in order |
| OptimisticUpdates.PendingUpdates.ClearOldUpdatesDefault | src/hooks/useOptimisticUpdates.ts:47 | ClearOldUpdates with the default maximum age of 30000 ms |
| ChallengeCard.DifficultyColor | src/components/challenge/ChallengeCard.tsx:13-24 | Easy gives success, Medium warning, Hard error, and any other string the secondary text colour |
| ChallengeCard.DeclaredTiersColoured | src/components/challenge/ChallengeCard.tsx:13-24 | every declared difficulty gets a colour of its own, never the fallback |
| ChallengeCard.SecondsPart | src/components/challenge/ChallengeCard.tsx:28-29 | the seconds are always exactly two digits whose value is seconds mod 60 |
| ChallengeCard.JoinedDuration | src/components/challenge/ChallengeCard.tsx:29 | minutes without a leading zero, a colon and two seconds digits below 60 read back as 60 times the minutes plus the seconds, with the only colon at the split |
| ChallengeCard.FormatDuration | src/components/challenge/ChallengeCard.tsx:26-30 | the text has exactly one colon, minutes without a leading zero before it, two digits below 60 after it, and 60 times the minutes plus the seconds gives back the duration |
| ChallengeCard.DurationTextUnique | src/components/challenge/ChallengeCard.tsx:26-30 | that form fixes the text: every text of that form for a duration is the formatted one |
| ChallengeCard.Card | src/components/challenge/ChallengeCard.tsx:11-76 | the button is disabled exactly for a completed challenge, which shows the completed title in the success variant; otherwise the play title in the primary variant; the bar shows exactly when the progress (0 by default) is positive; the badge has the difficulty colour and the duration is formatted |
| WebApp.DifficultyColor | src/app/web.tsx:25-32 | easy gives secondary, medium accent, hard primary, and any other string the secondary text colour |
| WebApp.DeclaredTiersUncoloured | src/app/web.tsx:25-32 | every declared difficulty, being capitalised, gets the fallback colour |
| WebApp.IsCompleted | src/app/web.tsx:70 | the web row counts a challenge as completed exactly when its id is in the user's completed list; Row states what follows from it |
| WebApp.ProgressShown | src/app/web.tsx:96 | the bar is drawn exactly for a present, positive progress; an absent value draws none; Row states that the web row never draws it |
| WebApp.Row | src/app/web.tsx:69-112 | a challenge whose id the user has completed shows the completed title in the secondary variant, otherwise the web play title in the primary variant; the duration is formatted as on the card; the badge falls back; the bar is never shown |
| WebApp.CompletionShownOnBothScreens | src/app/web.tsx:70-108 | after the completion action for a known id, both the card and the web row show that challenge as completed |

## Left out

- Persistence: the `persist`/AsyncStorage wrapping and `partialize` of every store are foreign I/O. Only the in-memory state is modelled.
- Audio playback, the points counters, the screen files, the presentational components, network polling and the theme constants are not part of this model.
- Clock and randomness: `Date`, `Date.now()` and `Math.random()` are parameters (`today`, `now`, `picks`).
- The calendar arithmetic of `toDateString` is not modelled. Days are plain integers.
- The `unlockedAt` ISO timestamps written by the achievements store are left out. They only record the clock.
- The `icon` strings of the daily-challenge templates are left out. They are decorative and hold encoding-damaged text.
- React state scheduling is not modelled:
  - each `set`/`setPendingUpdates` takes effect at once;
  - `rollbackUpdate` and `rollbackAllUpdates` read the queue as it is at the call, not as a stale closure would see it.
- UseChallenges.ChallengesHook.RefreshChallenges: the catch branch is not modelled, because loading the sample list cannot fail in the model.
- UseChallenges.ChallengesHook.CompleteChallengeAction: the catch branch for a throwing store call is not modelled, because no store action can fail in the model.
- Rollback callbacks are opaque tokens, not functions. What a rollback does to other state is not modelled; only which callbacks ran, and in what order, is recorded.
- JavaScript numbers can be NaN or fractional.
  - Points, streaks, requirements, progress and timestamps are integers here.
  - Stats.totalListeningTime is an integer here, although App.tsx fills it with the player's fractional `currentPosition`; the marathon threshold is compared on integers.
  - Durations are naturals.
  - Volume, position and music progress are reals without NaN.
- Number width is not modelled: integers here are unbounded, while JavaScript numbers are doubles.
  - Integers are exact in JavaScript only up to 2^53.
  - `toString` switches to exponent notation from 10^21 on, so Text.NatToString renders only values below that as JavaScript does.
  - The model takes points, clock readings and durations to stay below those limits.
- Web screen text that is left out:
  - the stats overview;
  - the upper-cased difficulty label;
  - the rounded progress text;
  - the `alert` of the play button.
- ChallengeCard.Card: the `onPlay` callback and the rounded percentage text are not modelled.
