/** The shared record shapes of the app (src/types/index.ts) and the theme tokens they are drawn with. */
module Types {

  /** A calendar day; `new Date().toDateString()` is modelled as a day number. */
  type Day = int

  /** The declared difficulty tiers of a challenge. */
  datatype Difficulty = Easy | Medium | Hard

  /** The string value stored in a challenge's `difficulty` field. */
  function DifficultyName(d: Difficulty): (name: string)
    ensures name in {"Easy", "Medium", "Hard"}
  {
    match d
    case Easy => "Easy"
    case Medium => "Medium"
    case Hard => "Hard"
  }

  /** A playable music track with its point reward. */
  datatype MusicChallenge = MusicChallenge(
    id: string,
    title: string,
    artist: string,
    duration: nat,      // seconds
    points: int,
    audioUrl: string,
    completed: bool,
    description: string,
    difficulty: Difficulty,
    category: string)

  /** The theme setting shared by the settings store and the theme store. */
  datatype ThemeMode = Light | Dark | Auto

  /** Colour entries of the app theme, kept as opaque tokens. */
  datatype ColorToken = Primary | Secondary | Accent | Success | Warning | Error | TextSecondary
}
