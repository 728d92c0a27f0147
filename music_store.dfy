/**
 * Music challenges and playback state (src/stores/musicStore.ts): the challenge
 * list with completion marks, the current track and position, and a per-challenge
 * progress percentage.
 */
module MusicStore {
  import opened Wrappers
  import opened Types

  const SampleChallenges: seq<MusicChallenge> := [
    MusicChallenge("1", "Classical Masterpiece", "Beethoven", 180, 50,
      "https://www.soundhelix.com/examples/mp3/SoundHelix-Song-1.mp3", false,
      "Listen to this beautiful classical piece and earn points!", Easy, "Classical"),
    MusicChallenge("2", "Jazz Vibes", "Miles Davis", 240, 75,
      "https://www.soundhelix.com/examples/mp3/SoundHelix-Song-2.mp3", false,
      "Smooth jazz to relax and earn rewards.", Medium, "Jazz"),
    MusicChallenge("3", "Electronic Beats", "Deadmau5", 300, 100,
      "https://www.soundhelix.com/examples/mp3/SoundHelix-Song-3.mp3", false,
      "High-energy electronic music for maximum points!", Hard, "Electronic"),
    MusicChallenge("4", "Acoustic Serenade", "Ed Sheeran", 210, 60,
      "https://www.soundhelix.com/examples/mp3/SoundHelix-Song-4.mp3", false,
      "Beautiful acoustic guitar melodies.", Easy, "Acoustic"),
    MusicChallenge("5", "Rock Anthem", "Queen", 270, 80,
      "https://www.soundhelix.com/examples/mp3/SoundHelix-Song-5.mp3", false,
      "Epic rock song to get you pumped up!", Medium, "Rock")
  ]

  /** `Math.min(100, Math.max(0, progress))`. */
  function ClampProgress(progress: real): (r: real)
    ensures 0.0 <= r <= 100.0
    ensures 0.0 <= progress <= 100.0 ==> r == progress
    ensures progress < 0.0 ==> r == 0.0
    ensures progress > 100.0 ==> r == 100.0
  {
    var atLeastZero := if progress > 0.0 then progress else 0.0;
    if atLeastZero < 100.0 then atLeastZero else 100.0
  }

  /** The `map` of `markChallengeComplete` for one entry. */
  function MarkEntry(c: MusicChallenge, id: string): (r: MusicChallenge)
    ensures r.completed == (c.completed || c.id == id)
    ensures r.(completed := c.completed) == c
  {
    if c.id == id then c.(completed := true) else c
  }

  /** Every sample challenge starts not completed. */
  lemma SampleNotCompleted()
    ensures forall i :: 0 <= i < |SampleChallenges| ==> !SampleChallenges[i].completed
  {
  }

  datatype MusicState = MusicState(
    challenges: seq<MusicChallenge>,
    currentTrack: Option<MusicChallenge>,
    isPlaying: bool,
    currentPosition: real,
    challengeProgress: map<string, real>)
  {
    /** Every stored progress percentage lies in [0, 100]. */
    ghost predicate ProgressInRange() {
      forall id :: id in challengeProgress ==> 0.0 <= challengeProgress[id] <= 100.0
    }

    /** `loadChallenges`: the sample list replaces the current one, completion marks included. */
    function LoadChallenges(): (r: MusicState)
      ensures r.challenges == SampleChallenges
      ensures forall i :: 0 <= i < |r.challenges| ==> !r.challenges[i].completed
      ensures r == this.(challenges := r.challenges)
    {
      this.(challenges := SampleChallenges)
    }

    function SetCurrentTrack(track: Option<MusicChallenge>): (r: MusicState)
      ensures r.currentTrack == track && r == this.(currentTrack := r.currentTrack)
    {
      this.(currentTrack := track)
    }

    function SetIsPlaying(playing: bool): (r: MusicState)
      ensures r.isPlaying == playing && r == this.(isPlaying := r.isPlaying)
    {
      this.(isPlaying := playing)
    }

    function SetCurrentPosition(position: real): (r: MusicState)
      ensures r.currentPosition == position && r == this.(currentPosition := r.currentPosition)
    {
      this.(currentPosition := position)
    }

    /** `updateProgress`: stores the clamped percentage under `id` and keeps every other key. */
    function UpdateProgress(id: string, progress: real): (r: MusicState)
      ensures id in r.challengeProgress && r.challengeProgress[id] == ClampProgress(progress)
      ensures 0.0 <= r.challengeProgress[id] <= 100.0
      ensures forall k :: k != id ==> (k in r.challengeProgress <==> k in challengeProgress)
      ensures forall k :: k != id && k in challengeProgress ==> r.challengeProgress[k] == challengeProgress[k]
      ensures r == this.(challengeProgress := r.challengeProgress)
    {
      this.(challengeProgress := challengeProgress[id := ClampProgress(progress)])
    }

    /** `markChallengeComplete`: sets `completed` on the entries with that id, in place. */
    function MarkChallengeComplete(id: string): (r: MusicState)
      ensures |r.challenges| == |challenges|
      ensures forall i :: 0 <= i < |challenges| && challenges[i].id == id ==>
        r.challenges[i] == challenges[i].(completed := true)
      ensures forall i :: 0 <= i < |challenges| && challenges[i].id != id ==> r.challenges[i] == challenges[i]
      ensures r == this.(challenges := r.challenges)
    {
      var cs := challenges;
      this.(challenges := seq(|cs|, i requires 0 <= i < |cs| => MarkEntry(cs[i], id)))
    }
  }

  /** The store's initial state, also what `resetStore` restores. */
  const Initial := MusicState(SampleChallenges, None, false, 0.0, map[])

  lemma InitialProgressInRange()
    ensures Initial.ProgressInRange()
  {
  }

  /** Progress updates keep every stored percentage in range. */
  lemma UpdateProgressKeepsRange(s: MusicState, id: string, progress: real)
    requires s.ProgressInRange()
    ensures s.UpdateProgress(id, progress).ProgressInRange()
  {
  }

  /** Marking the same challenge twice is marking it once. */
  lemma MarkChallengeCompleteIdempotent(s: MusicState, id: string)
    ensures s.MarkChallengeComplete(id).MarkChallengeComplete(id) == s.MarkChallengeComplete(id)
  {
    var once := s.MarkChallengeComplete(id);
    assert once.MarkChallengeComplete(id).challenges == once.challenges;
  }

  /** Reloading the list after a completion discards the mark. */
  lemma LoadDiscardsCompletion(s: MusicState, id: string)
    ensures forall i :: 0 <= i < |SampleChallenges| ==>
      !s.MarkChallengeComplete(id).LoadChallenges().challenges[i].completed
  {
  }

  /** The zustand store. */
  class Store {
    var challenges: seq<MusicChallenge>
    var currentTrack: Option<MusicChallenge>
    var isPlaying: bool
    var currentPosition: real
    var challengeProgress: map<string, real>

    function State(): MusicState
      reads this
    {
      MusicState(challenges, currentTrack, isPlaying, currentPosition, challengeProgress)
    }

    constructor ()
      ensures State() == Initial
    {
      challenges, currentTrack, isPlaying, currentPosition, challengeProgress :=
        SampleChallenges, None, false, 0.0, map[];
    }

    method LoadChallenges()
      modifies this
      ensures State() == old(State()).LoadChallenges()
    {
      challenges := SampleChallenges;
    }

    method SetCurrentTrack(track: Option<MusicChallenge>)
      modifies this
      ensures State() == old(State()).SetCurrentTrack(track)
    {
      currentTrack := track;
    }

    method SetIsPlaying(playing: bool)
      modifies this
      ensures State() == old(State()).SetIsPlaying(playing)
    {
      isPlaying := playing;
    }

    method SetCurrentPosition(position: real)
      modifies this
      ensures State() == old(State()).SetCurrentPosition(position)
    {
      currentPosition := position;
    }

    method UpdateProgress(challengeId: string, progress: real)
      modifies this
      ensures State() == old(State()).UpdateProgress(challengeId, progress)
    {
      challengeProgress := challengeProgress[challengeId := ClampProgress(progress)];
    }

    method MarkChallengeComplete(challengeId: string)
      modifies this
      ensures State() == old(State()).MarkChallengeComplete(challengeId)
    {
      var cs := challenges;
      challenges := seq(|cs|, i requires 0 <= i < |cs| => MarkEntry(cs[i], challengeId));
    }

    method ResetStore()
      modifies this
      ensures State() == Initial
    {
      challenges, currentTrack, isPlaying, currentPosition, challengeProgress :=
        SampleChallenges, None, false, 0.0, map[];
    }
  }
}
