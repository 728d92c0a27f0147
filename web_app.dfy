/**
 * What the web page shows per challenge (src/app/web.tsx): its own difficulty
 * colours, the shared duration format, completion taken from the user's list,
 * and the progress bar.
 */
module WebApp {
  import opened Wrappers
  import opened Types
  import ChallengeCard
  import MusicStore
  import UserStore
  import UseChallenges

  /** The page's `getDifficultyColor`, over lower-case tier names. */
  function DifficultyColor(difficulty: string): (c: ColorToken)
    ensures difficulty == "easy" ==> c == Secondary
    ensures difficulty == "medium" ==> c == Accent
    ensures difficulty == "hard" ==> c == Primary
    ensures difficulty !in {"easy", "medium", "hard"} ==> c == TextSecondary
  {
    if difficulty == "easy" then Secondary
    else if difficulty == "medium" then Accent
    else if difficulty == "hard" then Primary
    else TextSecondary
  }

  /** The declared tiers are capitalised, so on this page none of them is coloured. */
  lemma DeclaredTiersUncoloured(d: Difficulty)
    ensures DifficultyColor(DifficultyName(d)) == TextSecondary
  {
  }

  const CompletedTitle: string := "Completed ✓"
  const PlayTitle: string := "Play Challenge (Web Demo)"

  /** `completedChallenges.includes(challenge.id)`. */
  predicate IsCompleted(challenge: MusicChallenge, completedChallenges: seq<string>) {
    challenge.id in completedChallenges
  }

  /** The bar is drawn for a positive `challenge.progress`; an absent value
      (`undefined > 0`) draws none. */
  predicate ProgressShown(progress: Option<real>) {
    progress.Some? && progress.value > 0.0
  }

  datatype RowView = RowView(
    badgeColor: ColorToken,
    durationText: string,
    showProgress: bool,
    buttonTitle: string,
    buttonVariant: ChallengeCard.ButtonVariant)

  /** One challenge row.  The record it reads has no `progress` field, so the
      value of `challenge.progress` is absent. */
  function Row(challenge: MusicChallenge, completedChallenges: seq<string>): (v: RowView)
    ensures IsCompleted(challenge, completedChallenges) ==>
      v.buttonTitle == CompletedTitle && v.buttonVariant == ChallengeCard.SecondaryButton
    ensures !IsCompleted(challenge, completedChallenges) ==>
      v.buttonTitle == PlayTitle && v.buttonVariant == ChallengeCard.PrimaryButton
    ensures v.durationText == ChallengeCard.FormatDuration(challenge.duration)
    ensures v.badgeColor == TextSecondary
    ensures !v.showProgress
  {
    var completed := IsCompleted(challenge, completedChallenges);
    RowView(
      DifficultyColor(DifficultyName(challenge.difficulty)),
      ChallengeCard.FormatDuration(challenge.duration),
      ProgressShown(None),
      if completed then CompletedTitle else PlayTitle,
      if completed then ChallengeCard.SecondaryButton else ChallengeCard.PrimaryButton)
  }

  /** After a successful completion both screens show the challenge as completed:
      the card from the music store's flag, the page from the user's list. */
  lemma CompletionShownOnBothScreens(m: MusicStore.MusicState, u: UserStore.UserState, id: string, i: nat,
                                     progress: Option<real>)
    requires UseChallenges.FindChallenge(m.challenges, id).Some?
    requires i < |m.challenges| && m.challenges[i].id == id
    ensures var r := UseChallenges.CompletionOutcome(m, u, id);
      && ChallengeCard.Card(r.music.challenges[i], progress).buttonTitle == ChallengeCard.CompletedTitle
      && ChallengeCard.Card(r.music.challenges[i], progress).buttonDisabled
      && Row(r.music.challenges[i], r.user.completedChallenges).buttonTitle == CompletedTitle
  {
  }
}
