/**
 * Challenge completion as the hook `useChallenges` composes it
 * (src/hooks/useChallenges.ts): look the challenge up, then update the music
 * store and the user store, or report that it was not found.
 */
module UseChallenges {
  import opened Wrappers
  import opened Types
  import opened Sequences
  import MusicStore
  import UserStore

  /** The message of the error thrown for an unknown id. */
  const ChallengeNotFound: string := "Challenge not found"

  /** `challenges.find(c => c.id === challengeId)`: the first challenge with that id. */
  function FindChallenge(cs: seq<MusicChallenge>, id: string): (r: Option<MusicChallenge>)
    ensures r.None? <==> forall i :: 0 <= i < |cs| ==> cs[i].id != id
    ensures r.Some? ==> r.value.id == id && r.value in cs
    ensures r.Some? ==>
      exists k :: 0 <= k < |cs| && cs[k] == r.value && forall j :: 0 <= j < k ==> cs[j].id != id
  {
    if cs == [] then None
    else if cs[0].id == id then Some(cs[0])
    else
      assert forall i :: 1 <= i < |cs| ==> cs[i] == cs[1..][i - 1];
      FindChallenge(cs[1..], id)
  }

  /** What the action leaves behind: both stores and the hook's `error`. */
  datatype Outcome = Outcome(music: MusicStore.MusicState, user: UserStore.UserState, error: Option<string>)

  /** `completeChallengeAction`: an unknown id only sets the error; a known one marks
      the challenge, records it for the user and awards its points, with no check that
      it was completed before. */
  function CompletionOutcome(m: MusicStore.MusicState, u: UserStore.UserState, id: string): (r: Outcome)
    ensures FindChallenge(m.challenges, id).None? ==> r == Outcome(m, u, Some(ChallengeNotFound))
    ensures FindChallenge(m.challenges, id).Some? ==>
      && r.error == None
      && r.music == m.MarkChallengeComplete(id)
      && (forall i :: 0 <= i < |r.music.challenges| && r.music.challenges[i].id == id ==> r.music.challenges[i].completed)
      && id in r.user.completedChallenges
      && r.user.totalPoints == u.totalPoints + FindChallenge(m.challenges, id).value.points
      && r.user == u.CompleteChallenge(id).AddPoints(FindChallenge(m.challenges, id).value.points)
  {
    match FindChallenge(m.challenges, id)
    case None => Outcome(m, u, Some(ChallengeNotFound))
    case Some(challenge) =>
      Outcome(m.MarkChallengeComplete(id), u.CompleteChallenge(id).AddPoints(challenge.points), None)
  }

  /** After marking, the lookup finds the same challenge record as before, now completed. */
  lemma {:induction false} FindAfterMark(cs: seq<MusicChallenge>, cs': seq<MusicChallenge>, id: string)
    requires |cs'| == |cs|
    requires forall i :: 0 <= i < |cs| ==> cs'[i] == MusicStore.MarkEntry(cs[i], id)
    requires FindChallenge(cs, id).Some?
    ensures FindChallenge(cs', id) == Some(FindChallenge(cs, id).value.(completed := true))
  {
    if cs[0].id != id {
      FindAfterMark(cs[1..], cs'[1..], id);
    }
  }

  /** Repeating the action for a known id awards the points a second time, while the
      user's list of completed challenges does not grow. */
  lemma RepeatedActionAwardsAgain(m: MusicStore.MusicState, u: UserStore.UserState, id: string)
    requires FindChallenge(m.challenges, id).Some?
    ensures var once := CompletionOutcome(m, u, id);
      var twice := CompletionOutcome(once.music, once.user, id);
      && twice.error == None
      && twice.user.totalPoints == u.totalPoints + 2 * FindChallenge(m.challenges, id).value.points
      && twice.user.completedChallenges == once.user.completedChallenges
  {
    var once := CompletionOutcome(m, u, id);
    FindAfterMark(m.challenges, once.music.challenges, id);
  }

  /** The action keeps a valid user state valid, so the completed list stays duplicate-free. */
  lemma ActionKeepsUserValid(m: MusicStore.MusicState, u: UserStore.UserState, id: string)
    requires u.Valid()
    ensures CompletionOutcome(m, u, id).user.Valid()
    ensures NoDuplicates(CompletionOutcome(m, u, id).user.completedChallenges)
  {
    if FindChallenge(m.challenges, id).Some? {
      UserStore.ActionsPreserveValid(u, 0, id, 0);
      UserStore.ActionsPreserveValid(u.CompleteChallenge(id), FindChallenge(m.challenges, id).value.points, id, 0);
    }
  }

  /** The hook's own state and the two stores it drives. */
  class ChallengesHook {
    var loading: bool
    var error: Option<string>
    const music: MusicStore.Store
    const user: UserStore.Store

    constructor (music: MusicStore.Store, user: UserStore.Store)
      ensures this.music == music && this.user == user
      ensures !loading && error == None
    {
      this.music, this.user := music, user;
      loading, error := false, None;
    }

    method RefreshChallenges()
      modifies this, music
      ensures !loading && error == None
      ensures music.State() == old(music.State()).LoadChallenges()
    {
      loading := true;
      error := None;
      music.LoadChallenges();
      loading := false;
    }

    method CompleteChallengeAction(challengeId: string)
      modifies this, music, user
      ensures !loading
      ensures Outcome(music.State(), user.State(), error)
           == CompletionOutcome(old(music.State()), old(user.State()), challengeId)
    {
      loading := true;
      error := None;
      var challenge := FindChallenge(music.challenges, challengeId);
      if challenge.None? {
        error := Some(ChallengeNotFound);
      } else {
        music.MarkChallengeComplete(challengeId);
        user.CompleteChallenge(challengeId);
        user.AddPoints(challenge.value.points);
      }
      loading := false;
    }
  }
}
