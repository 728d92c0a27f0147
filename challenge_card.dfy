/**
 * What the challenge card shows (src/components/challenge/ChallengeCard.tsx):
 * the difficulty badge colour, the `m:ss` duration, the progress bar and the
 * play button.  The duration format is shared with the web page.
 */
module ChallengeCard {
  import opened Wrappers
  import opened Types
  import opened Text

  /** The card's `getDifficultyColor`, over the capitalised tier names. */
  function DifficultyColor(difficulty: string): (c: ColorToken)
    ensures difficulty == "Easy" ==> c == Success
    ensures difficulty == "Medium" ==> c == Warning
    ensures difficulty == "Hard" ==> c == Error
    ensures difficulty !in {"Easy", "Medium", "Hard"} ==> c == TextSecondary
  {
    if difficulty == "Easy" then Success
    else if difficulty == "Medium" then Warning
    else if difficulty == "Hard" then Error
    else TextSecondary
  }

  /** Every declared tier gets its own status colour on the card. */
  lemma DeclaredTiersColoured(d: Difficulty, e: Difficulty)
    ensures DifficultyColor(DifficultyName(d)) != TextSecondary
    ensures d != e ==> DifficultyColor(DifficultyName(d)) != DifficultyColor(DifficultyName(e))
  {
  }

  /** The seconds part: `(seconds % 60).toString().padStart(2, '0')`. */
  function SecondsPart(seconds: nat): (r: string)
    ensures |r| == 2 && AllDigits(r) && ParseNat(r) == seconds % 60
  {
    var t := NatToString(seconds % 60);
    PadToTwoDigits(t);
    PadStart(t, 2, '0')
  }

  /** `formatDuration`: whole minutes, a colon, and the two-digit remaining seconds.
      The text reads back as the number of seconds. */
  function FormatDuration(seconds: nat): (r: string)
    ensures IsDurationText(r, seconds)
  {
    var minutes := NatToString(seconds / 60);
    var ss := SecondsPart(seconds);
    JoinedDuration(minutes, ss);
    minutes + ":" + ss
  }

  /** `r` is an `M:SS` text for `seconds`: digits with no leading zero, then the only
      colon, then exactly two digits below 60, and 60 times the minutes plus the seconds
      is `seconds`. */
  ghost predicate IsDurationText(r: string, seconds: nat) {
    var k := |r| - 3;
    && k >= 1 && r[k] == ':'
    && AllDigits(r[..k]) && AllDigits(r[k + 1..])
    && (forall i :: 0 <= i < |r| && i != k ==> r[i] != ':')
    && (r[0] == '0' ==> k == 1)
    && ParseNat(r[k + 1..]) < 60
    && 60 * ParseNat(r[..k]) + ParseNat(r[k + 1..]) == seconds
  }

  /** Minutes and two-digit seconds joined by a colon form a duration text. */
  lemma JoinedDuration(m: string, ss: string)
    requires |m| >= 1 && AllDigits(m) && (m[0] == '0' ==> |m| == 1)
    requires |ss| == 2 && AllDigits(ss) && ParseNat(ss) < 60
    ensures IsDurationText(m + ":" + ss, 60 * ParseNat(m) + ParseNat(ss))
  {
    var r := m + ":" + ss;
    assert r[..|m|] == m && r[|m| + 1..] == ss;
    forall i | 0 <= i < |r| && i != |m|
      ensures r[i] != ':'
    {
      if i < |m| {
        assert r[i] == m[i];
      } else {
        assert r[i] == ss[i - |m| - 1];
      }
    }
  }

  /** The duration text is unique: any `M:SS` text for `seconds` is the one the card
      shows. */
  lemma DurationTextUnique(r: string, seconds: nat)
    requires IsDurationText(r, seconds)
    ensures r == FormatDuration(seconds)
  {
    var k := |r| - 3;
    var m, ss := r[..k], r[k + 1..];
    DurationTextParts(r, seconds);
    CanonicalIsNatToString(m);
    DivMod60(ParseNat(m), ParseNat(ss), seconds);
    TwoDigitsUnique(ss, SecondsPart(seconds));
    assert m == NatToString(seconds / 60) && ss == SecondsPart(seconds);
  }

  /** The minutes and seconds of a duration text, split at its colon. */
  lemma DurationTextParts(r: string, seconds: nat)
    requires IsDurationText(r, seconds)
    ensures var k := |r| - 3;
      && k >= 1 && Canonical(r[..k]) && |r[k + 1..]| == 2 && AllDigits(r[k + 1..])
      && ParseNat(r[k + 1..]) < 60 && 60 * ParseNat(r[..k]) + ParseNat(r[k + 1..]) == seconds
      && r == r[..k] + ":" + r[k + 1..]
  {
    var k := |r| - 3;
    assert r[..k][0] == r[0];
    assert r == r[..k] + [r[k]] + r[k + 1..];
  }

  /** Minutes and seconds below 60 are the quotient and remainder by 60. */
  lemma DivMod60(q: nat, b: nat, seconds: nat)
    requires b < 60 && 60 * q + b == seconds
    ensures q == seconds / 60 && b == seconds % 60
  {
  }

  datatype ButtonVariant = PrimaryButton | SecondaryButton | SuccessButton

  /** The card's completed title as its source text holds it: the check mark U+2713
      stored as its UTF-8 bytes read back as Windows-1252 characters. */
  const CompletedTitle: string := "Completed \U{00E2}\U{0153}\U{201C}"
  const PlayTitle: string := "Play Challenge"

  /** What the card shows for a challenge and its optional progress. */
  datatype CardView = CardView(
    badgeColor: ColorToken,
    durationText: string,
    showProgress: bool,
    buttonTitle: string,
    buttonDisabled: bool,
    buttonVariant: ButtonVariant)

  /** The card: a completed challenge gets a disabled "Completed" button, any other
      an enabled "Play Challenge" one; the bar shows for a positive progress, which
      defaults to 0. */
  function Card(challenge: MusicChallenge, progress: Option<real>): (v: CardView)
    ensures v.buttonDisabled == challenge.completed
    ensures challenge.completed ==> v.buttonTitle == CompletedTitle && v.buttonVariant == SuccessButton
    ensures !challenge.completed ==> v.buttonTitle == PlayTitle && v.buttonVariant == PrimaryButton
    ensures v.showProgress <==> progress.Some? && progress.value > 0.0
    ensures v.badgeColor == DifficultyColor(DifficultyName(challenge.difficulty)) && v.badgeColor != TextSecondary
    ensures v.durationText == FormatDuration(challenge.duration)
  {
    var p := progress.GetOr(0.0);
    CardView(
      DifficultyColor(DifficultyName(challenge.difficulty)),
      FormatDuration(challenge.duration),
      p > 0.0,
      if challenge.completed then CompletedTitle else PlayTitle,
      challenge.completed,
      if challenge.completed then SuccessButton else PrimaryButton)
  }
}
