/**
 * The vote toggle of the HTML vote view (comments/views.py): a user's vote
 * on a comment is added when there is none, removed when it has the same
 * type, and has its type changed otherwise.  The API vote action
 * (comments/api_views.py) is meant to do the same; as it is written it never
 * removes, which ApiViews states separately.  `CastVote` states the toggle on the rows of the
 * vote table; the lemmas below say what it does to the counts, the score,
 * each user's own vote and the one-vote-per-user constraint.
 */
module Ledger {
  import opened Wrappers
  import opened Models

  datatype VoteAction = Added | Changed | Removed

  datatype Ballot = Ballot(votes: seq<Vote>, action: VoteAction)

  /** The rows with row `i` taken out (`vote.delete()`). */
  function RemoveAt(votes: seq<Vote>, i: nat): (r: seq<Vote>)
    requires i < |votes|
    ensures |r| == |votes| - 1
    ensures forall k :: 0 <= k < i ==> r[k] == votes[k]
    ensures forall k :: i <= k < |r| ==> r[k] == votes[k + 1]
  {
    votes[..i] + votes[i + 1..]
  }

  /**
   * The toggle, for a vote type that has already been checked.  The action
   * is decided by the user's current vote, in both directions; adding and
   * removing change the number of rows by one, a change keeps it.
   */
  function CastVote(votes: seq<Vote>, user: UserId, comment: CommentId, voteType: string): (b: Ballot)
    ensures b.action == Added <==> GetUserVote(votes, user, comment).None?
    ensures b.action == Removed <==> GetUserVote(votes, user, comment) == Some(voteType)
    ensures b.action == Changed <==>
              GetUserVote(votes, user, comment).Some? && GetUserVote(votes, user, comment) != Some(voteType)
    ensures |b.votes| == match b.action
                         case Added => |votes| + 1
                         case Removed => |votes| - 1
                         case Changed => |votes|
  {
    match FindVote(votes, user, comment)
    case None => Ballot(votes + [Vote(user, comment, voteType)], Added)
    case Some(i) =>
      if votes[i].voteType == voteType then Ballot(RemoveAt(votes, i), Removed)
      else Ballot(votes[i := Vote(user, comment, voteType)], Changed)
  }

  // ---- counting lemmas ------------------------------------------------------

  function Indicator(b: bool): nat {
    if b then 1 else 0
  }

  lemma {:induction false} CountAppend(votes: seq<Vote>, v: Vote, comment: CommentId, voteType: string)
    ensures CountVotes(votes + [v], comment, voteType) ==
            CountVotes(votes, comment, voteType) + Indicator(IsVoteOn(v, comment, voteType))
  {
    if votes != [] {
      assert (votes + [v])[1..] == votes[1..] + [v];
      CountAppend(votes[1..], v, comment, voteType);
    }
  }

  lemma {:induction false} CountRemove(votes: seq<Vote>, i: nat, comment: CommentId, voteType: string)
    requires i < |votes|
    ensures CountVotes(RemoveAt(votes, i), comment, voteType) ==
            CountVotes(votes, comment, voteType) - Indicator(IsVoteOn(votes[i], comment, voteType))
  {
    if i == 0 {
      assert RemoveAt(votes, 0) == votes[1..];
    } else {
      assert RemoveAt(votes, i)[1..] == RemoveAt(votes[1..], i - 1);
      CountRemove(votes[1..], i - 1, comment, voteType);
    }
  }

  lemma {:induction false} CountReplace(votes: seq<Vote>, i: nat, v: Vote, comment: CommentId, voteType: string)
    requires i < |votes|
    ensures CountVotes(votes[i := v], comment, voteType) ==
            CountVotes(votes, comment, voteType) - Indicator(IsVoteOn(votes[i], comment, voteType))
              + Indicator(IsVoteOn(v, comment, voteType))
  {
    if i > 0 {
      assert votes[i := v][1..] == votes[1..][i - 1 := v];
      CountReplace(votes[1..], i - 1, v, comment, voteType);
    }
  }

  // ---- the toggle's effects -------------------------------------------------

  /** The toggle keeps one vote per (user, comment). */
  lemma CastVoteKeepsUnique(votes: seq<Vote>, user: UserId, comment: CommentId, voteType: string)
    requires UniqueVotes(votes)
    ensures UniqueVotes(CastVote(votes, user, comment, voteType).votes)
  {
    var b := CastVote(votes, user, comment, voteType);
    match FindVote(votes, user, comment)
    case None =>
      forall i, j | 0 <= i < j < |b.votes|
        ensures !IsVoteBy(b.votes[j], b.votes[i].user, b.votes[i].comment)
      {
        if j == |votes| {
          assert b.votes[i] == votes[i];
        }
      }
    case Some(k) =>
      if votes[k].voteType != voteType {
        forall i, j | 0 <= i < j < |b.votes|
          ensures !IsVoteBy(b.votes[j], b.votes[i].user, b.votes[i].comment)
        {
          assert IsVoteBy(b.votes[k], votes[k].user, votes[k].comment);
        }
      }
  }

  /** Afterwards the user's vote is the new type, or none when it was toggled off. */
  lemma CastVoteUserVote(votes: seq<Vote>, user: UserId, comment: CommentId, voteType: string)
    requires UniqueVotes(votes)
    ensures var b := CastVote(votes, user, comment, voteType);
            GetUserVote(b.votes, user, comment) == if b.action == Removed then None else Some(voteType)
  {
    var b := CastVote(votes, user, comment, voteType);
    CastVoteKeepsUnique(votes, user, comment, voteType);
    match FindVote(votes, user, comment)
    case None =>
      UserVoteIsTheVote(b.votes, |votes|);
    case Some(k) =>
      if votes[k].voteType == voteType {
        forall m | 0 <= m < |b.votes| ensures !IsVoteBy(b.votes[m], user, comment) {
          if m >= k {
            assert b.votes[m] == votes[m + 1];
          }
        }
      } else {
        UserVoteIsTheVote(b.votes, k);
      }
  }

  lemma CastVoteOthersAbsent(votes: seq<Vote>, user: UserId, comment: CommentId, voteType: string,
                             otherUser: UserId, otherComment: CommentId)
    requires otherUser != user || otherComment != comment
    requires FindVote(votes, otherUser, otherComment).None?
    ensures GetUserVote(CastVote(votes, user, comment, voteType).votes, otherUser, otherComment).None?
  {
    var b := CastVote(votes, user, comment, voteType);
    forall m | 0 <= m < |b.votes| ensures !IsVoteBy(b.votes[m], otherUser, otherComment) {
      match FindVote(votes, user, comment)
      case None =>
      case Some(k) =>
        if votes[k].voteType == voteType && m >= k {
          assert b.votes[m] == votes[m + 1];
        }
    }
  }

  /** Nobody else's vote, and no vote on another comment, changes. */
  lemma CastVoteOthersUnchanged(votes: seq<Vote>, user: UserId, comment: CommentId, voteType: string,
                                otherUser: UserId, otherComment: CommentId)
    requires UniqueVotes(votes)
    requires otherUser != user || otherComment != comment
    ensures GetUserVote(CastVote(votes, user, comment, voteType).votes, otherUser, otherComment) ==
            GetUserVote(votes, otherUser, otherComment)
  {
    var b := CastVote(votes, user, comment, voteType);
    CastVoteKeepsUnique(votes, user, comment, voteType);
    match FindVote(votes, otherUser, otherComment)
    case None =>
      CastVoteOthersAbsent(votes, user, comment, voteType, otherUser, otherComment);
    case Some(j) =>
      match FindVote(votes, user, comment)
      case None =>
        UserVoteIsTheVote(b.votes, j);
      case Some(k) =>
        if votes[k].voteType == voteType {
          var j' := if j < k then j else j - 1;
          assert b.votes[j'] == votes[j];
          UserVoteIsTheVote(b.votes, j');
        } else {
          UserVoteIsTheVote(b.votes, j);
        }
  }

  /**
   * The effect on every count: only the counts of `comment` move, by one
   * for the type added or removed, and a change moves one vote from the old
   * type to the new one.
   */
  lemma CastVoteCounts(votes: seq<Vote>, user: UserId, comment: CommentId, voteType: string,
                       c: CommentId, t: string)
    ensures var b := CastVote(votes, user, comment, voteType);
            var before := CountVotes(votes, c, t);
            var previous := GetUserVote(votes, user, comment);
            CountVotes(b.votes, c, t) ==
              if c != comment then before
              else match b.action
                   case Added => before + Indicator(t == voteType)
                   case Removed => before - Indicator(t == voteType)
                   case Changed => before - Indicator(previous == Some(t)) + Indicator(t == voteType)
  {
    match FindVote(votes, user, comment)
    case None =>
      CountAppend(votes, Vote(user, comment, voteType), c, t);
    case Some(i) =>
      if votes[i].voteType == voteType {
        CountRemove(votes, i, c, t);
      } else {
        CountReplace(votes, i, Vote(user, comment, voteType), c, t);
      }
  }

  /** Changing an up vote to a down vote lowers the score by two, and the reverse raises it by two. */
  lemma ChangeMovesScoreByTwo(votes: seq<Vote>, user: UserId, comment: CommentId, voteType: string)
    requires voteType == Up || voteType == Down
    requires GetUserVote(votes, user, comment) == Some(if voteType == Up then Down else Up)
    ensures CastVote(votes, user, comment, voteType).action == Changed
    ensures Score(CastVote(votes, user, comment, voteType).votes, comment) ==
            Score(votes, comment) + (if voteType == Up then 2 else -2)
  {
    CastVoteCounts(votes, user, comment, voteType, comment, Up);
    CastVoteCounts(votes, user, comment, voteType, comment, Down);
  }

  /** Voting twice with the same type when there was no vote leaves the vote table as it was. */
  lemma DoubleVoteRestoresRows(votes: seq<Vote>, user: UserId, comment: CommentId, voteType: string)
    requires GetUserVote(votes, user, comment).None?
    ensures var once := CastVote(votes, user, comment, voteType);
            once.action == Added &&
            CastVote(once.votes, user, comment, voteType) == Ballot(votes, Removed)
  {
    var once := CastVote(votes, user, comment, voteType);
    assert FindVote(votes, user, comment).None?;
    assert IsVoteBy(once.votes[|votes|], user, comment);
    forall k | 0 <= k < |votes| ensures !IsVoteBy(once.votes[k], user, comment) {
      assert once.votes[k] == votes[k];
    }
    assert FindVote(once.votes, user, comment) == Some(|votes|);
    assert RemoveAt(once.votes, |votes|) == votes;
  }

  /**
   * Voting twice with the type the user already has removes and re-adds the
   * vote: every count, hence every score, is as before.
   */
  lemma DoubleVoteRestoresCounts(votes: seq<Vote>, user: UserId, comment: CommentId, voteType: string,
                                 c: CommentId, t: string)
    requires UniqueVotes(votes)
    requires GetUserVote(votes, user, comment) == Some(voteType)
    ensures var twice := CastVote(CastVote(votes, user, comment, voteType).votes, user, comment, voteType);
            twice.action == Added && CountVotes(twice.votes, c, t) == CountVotes(votes, c, t)
  {
    var once := CastVote(votes, user, comment, voteType);
    CastVoteUserVote(votes, user, comment, voteType);
    CastVoteCounts(votes, user, comment, voteType, c, t);
    CastVoteCounts(once.votes, user, comment, voteType, c, t);
  }
}
