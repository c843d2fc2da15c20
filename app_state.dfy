/** The shared state container (RoomWhisper/Models/AppState.swift): the lists
    the views render from, a few UI flags, and the three mutations the feed
    and the polls use. */
module App {
  import opened Collections
  import opened Models

  datatype Tab = Campus | Whispers | Create | Verified | Profile

  // ---------------------------------------------------------------- Likes

  /** A whisper's count covers the viewer's own like: never negative, and at
      least one while the whisper is liked. */
  predicate LikeConsistent(w: Whisper) {
    w.likes >= 0 && (w.isLiked ==> w.likes >= 1)
  }

  predicate AllLikesConsistent(ws: seq<Whisper>) {
    forall j :: 0 <= j < |ws| ==> LikeConsistent(ws[j])
  }

  /** The like button's effect on one whisper: the count moves by one towards
      the new state of the flag, and nothing else changes. */
  function LikeToggled(w: Whisper): (r: Whisper)
    ensures r.isLiked == !w.isLiked
    ensures r.likes == if w.isLiked then w.likes - 1 else w.likes + 1
    ensures r == w.(likes := r.likes, isLiked := r.isLiked)
  {
    w.(likes := w.likes + (if w.isLiked then -1 else 1), isLiked := !w.isLiked)
  }

  /** `toggleLike(for:)` on the list: the first whisper carrying the id is
      toggled; with no such whisper the list is left as it is. */
  function ToggleLikeIn(ws: seq<Whisper>, whisperId: string): (r: seq<Whisper>)
    ensures |r| == |ws|
    ensures forall j :: 0 <= j < |ws| ==> r[j].id == ws[j].id
    ensures FirstIndex(ws, WhisperId, whisperId).None? ==> r == ws
    ensures FirstIndex(ws, WhisperId, whisperId).Some? ==>
      var k := FirstIndex(ws, WhisperId, whisperId).value;
      && r[k].isLiked == !ws[k].isLiked
      && r[k].likes == (if ws[k].isLiked then ws[k].likes - 1 else ws[k].likes + 1)
      && r[k] == ws[k].(likes := r[k].likes, isLiked := r[k].isLiked)
      && forall j :: 0 <= j < |ws| && j != k ==> r[j] == ws[j]
  {
    match FirstIndex(ws, WhisperId, whisperId)
    case None => ws
    case Some(k) => ws[k := LikeToggled(ws[k])]
  }

  /** Two taps on the same heart restore the list exactly, count and flag. */
  lemma ToggleLikeTwice(ws: seq<Whisper>, whisperId: string)
    ensures ToggleLikeIn(ToggleLikeIn(ws, whisperId), whisperId) == ws
  {
  }

  /** Toggling keeps every like count consistent with its flag; in particular
      no count goes negative. */
  lemma ToggleLikeKeepsLikesConsistent(ws: seq<Whisper>, whisperId: string)
    requires AllLikesConsistent(ws)
    ensures AllLikesConsistent(ToggleLikeIn(ws, whisperId))
  {
  }

  // ---------------------------------------------------------------- Votes

  /** A poll whose vote vector matches its options and holds no negative count. */
  predicate PollWellFormed(p: Poll) {
    |p.votes| == |p.options| && forall j :: 0 <= j < |p.votes| ==> p.votes[j] >= 0
  }

  /** What `voteInPoll` needs in order not to trap: if a poll with the id
      exists, the option index is inside the first such poll's vote vector. */
  predicate CanVote(ps: seq<Poll>, pollId: string, optionIndex: nat) {
    match FirstIndex(ps, PollId, pollId)
    case None => true
    case Some(k) => optionIndex < |ps[k].votes|
  }

  /** `voteInPoll` on the list: one more vote for one option of the first poll
      carrying the id; with no such poll the list is left as it is. */
  function VoteInPolls(ps: seq<Poll>, pollId: string, optionIndex: nat): (r: seq<Poll>)
    requires CanVote(ps, pollId, optionIndex)
    ensures |r| == |ps|
    ensures forall j :: 0 <= j < |ps| ==> r[j].id == ps[j].id && |r[j].votes| == |ps[j].votes|
    ensures FirstIndex(ps, PollId, pollId).None? ==> r == ps
    ensures FirstIndex(ps, PollId, pollId).Some? ==>
      var k := FirstIndex(ps, PollId, pollId).value;
      && r[k].votes[optionIndex] == ps[k].votes[optionIndex] + 1
      && (forall o :: 0 <= o < |ps[k].votes| && o != optionIndex ==> r[k].votes[o] == ps[k].votes[o])
      && r[k] == ps[k].(votes := r[k].votes)
      && TotalVotes(r[k]) == TotalVotes(ps[k]) + 1
      && forall j :: 0 <= j < |ps| && j != k ==> r[j] == ps[j]
  {
    match FirstIndex(ps, PollId, pollId)
    case None => ps
    case Some(k) =>
      var votes := ps[k].votes;
      SumIncrement(votes, optionIndex);
      ps[k := ps[k].(votes := votes[optionIndex := votes[optionIndex] + 1])]
  }

  /** Voting keeps every poll well formed. */
  lemma VoteKeepsPollsWellFormed(ps: seq<Poll>, pollId: string, optionIndex: nat)
    requires CanVote(ps, pollId, optionIndex)
    requires forall j :: 0 <= j < |ps| ==> PollWellFormed(ps[j])
    ensures forall j :: 0 <= j < |ps| ==> PollWellFormed(VoteInPolls(ps, pollId, optionIndex)[j])
  {
  }

  /** `n` calls of `voteInPoll` with the same arguments, one after the other.
      Nothing stops the second call: the mutation never sets `hasVoted`, so
      each call adds one more vote. */
  function VotedTimes(ps: seq<Poll>, pollId: string, optionIndex: nat, n: nat): (r: seq<Poll>)
    requires CanVote(ps, pollId, optionIndex)
    ensures |r| == |ps|
    ensures forall j :: 0 <= j < |ps| ==> r[j].id == ps[j].id && |r[j].votes| == |ps[j].votes|
    ensures CanVote(r, pollId, optionIndex)
    ensures FirstIndex(ps, PollId, pollId).Some? ==>
      var k := FirstIndex(ps, PollId, pollId).value;
      && r[k].votes[optionIndex] == ps[k].votes[optionIndex] + n
      && r[k].hasVoted == ps[k].hasVoted
      && TotalVotes(r[k]) == TotalVotes(ps[k]) + n
  {
    if n == 0 then ps
    else
      var before := VotedTimes(ps, pollId, optionIndex, n - 1);
      FirstIndexSameKeys(ps, PollId, before, PollId, pollId);
      var r := VoteInPolls(before, pollId, optionIndex);
      FirstIndexSameKeys(ps, PollId, r, PollId, pollId);
      r
  }

  // ---------------------------------------------------------------- The container

  class AppState {
    var selectedTab: Tab
    var selectedBuilding: Option<Building>
    var currentUser: Option<User>
    var isAnonymousMode: bool
    var whispers: seq<Whisper>
    var verifiedPosts: seq<VerifiedPost>
    var polls: seq<Poll>

    /** A fresh container: campus tab, no building chosen, nobody signed in,
        anonymous mode, and the given initial content. */
    constructor (initialWhispers: seq<Whisper>, initialPosts: seq<VerifiedPost>, initialPolls: seq<Poll>)
      ensures selectedTab == Campus && selectedBuilding == None && currentUser == None
      ensures isAnonymousMode
      ensures whispers == initialWhispers && verifiedPosts == initialPosts && polls == initialPolls
    {
      selectedTab := Campus;
      selectedBuilding := None;
      currentUser := None;
      isAnonymousMode := true;
      whispers := initialWhispers;
      verifiedPosts := initialPosts;
      polls := initialPolls;
    }

    /** `addWhisper`: the new whisper goes in front; every older one moves
        back by one place. */
    method AddWhisper(w: Whisper)
      modifies this`whispers
      ensures whispers == [w] + old(whispers)
      ensures whispers[0] == w && forall j :: 0 <= j < |old(whispers)| ==> whispers[j + 1] == old(whispers)[j]
    {
      whispers := [w] + whispers;
    }

    /** `toggleLike(for:)`: adjust the count, then flip the flag, of the first
        whisper with the id. */
    method ToggleLike(whisperId: string)
      modifies this`whispers
      ensures whispers == ToggleLikeIn(old(whispers), whisperId)
      ensures AllLikesConsistent(old(whispers)) ==> AllLikesConsistent(whispers)
    {
      var index := FindFirst(whispers, WhisperId, whisperId);
      if index.Some? {
        var k := index.value;
        whispers := whispers[k := whispers[k].(likes := whispers[k].likes + (if whispers[k].isLiked then -1 else 1))];
        whispers := whispers[k := whispers[k].(isLiked := !whispers[k].isLiked)];
      }
      if AllLikesConsistent(old(whispers)) {
        ToggleLikeKeepsLikesConsistent(old(whispers), whisperId);
      }
    }

    /** `voteInPoll(pollId:optionIndex:)`: one more vote for the option of the
        first poll with the id. An index outside that poll's votes would trap. */
    method VoteInPoll(pollId: string, optionIndex: nat)
      requires CanVote(polls, pollId, optionIndex)
      modifies this`polls
      ensures polls == VoteInPolls(old(polls), pollId, optionIndex)
    {
      var index := FindFirst(polls, PollId, pollId);
      if index.Some? {
        var k := index.value;
        polls := polls[k := polls[k].(votes := polls[k].votes[optionIndex := polls[k].votes[optionIndex] + 1])];
      }
    }
  }
}
