/**
 * The voting domain: voters, candidates, scores, the scoreboard and the
 * `VotingMachine` aggregate whose `vote` tallies one ballot.
 */
module Domain {
  import opened Wrappers

  datatype Voter = Voter(name: string)

  datatype Candidate = Candidate(name: string)

  datatype Score = Score(value: nat)

  /** The voters who have already voted. */
  datatype AttendenceSheet = AttendenceSheet(voters: set<Voter>)

  /** One submission; no candidate means a blank vote. */
  datatype BallotPaper = BallotPaper(voter: Voter, candidate: Option<Candidate>)

  datatype VoteOutcome =
    | AcceptedVote(voter: Voter, candidate: Candidate)
    | BlankVote(voter: Voter)
    | InvalidVote(voter: Voter)
    | HasAlreadyVoted(voter: Voter)

  /** The tally: one score per candidate of the fixed list, plus the blank and invalid counts. */
  datatype Scoreboard = Scoreboard(scores: map<Candidate, Score>, blankScore: Score, invalidScore: Score)

  /** The value of a `VotingMachine`: what a storage holds and what reading it gives back. */
  datatype Snapshot = Snapshot(voters: AttendenceSheet, scoreboard: Scoreboard)

  // ---------------------------------------------------------------------------
  // The tally invariant
  // ---------------------------------------------------------------------------

  /** The sum of all candidates' scores. */
  ghost function SumScores(scores: map<Candidate, Score>): nat
    decreases |scores|
  {
    if scores == map[] then 0
    else
      var c :| c in scores;
      scores[c].value + SumScores(scores - {c})
  }

  /** Every ballot counted is counted once: scores plus blank plus invalid equal the voters who voted. */
  ghost predicate Consistent(s: Snapshot)
  {
    SumScores(s.scoreboard.scores) + s.scoreboard.blankScore.value + s.scoreboard.invalidScore.value
      == |s.voters.voters|
  }

  /** The sum does not depend on which candidate is taken out first. */
  lemma {:induction false} SumScoresWithout(scores: map<Candidate, Score>, c: Candidate)
    requires c in scores
    ensures SumScores(scores) == scores[c].value + SumScores(scores - {c})
    decreases |scores|
  {
    var d :| d in scores && SumScores(scores) == scores[d].value + SumScores(scores - {d});
    if d != c {
      SumScoresWithout(scores - {d}, c);
      SumScoresWithout(scores - {c}, d);
      assert scores - {d} - {c} == scores - {c} - {d};
    }
  }

  /** One more vote for a listed candidate adds one to the sum. */
  lemma SumScoresIncrement(scores: map<Candidate, Score>, c: Candidate)
    requires c in scores
    ensures SumScores(scores[c := Score(scores[c].value + 1)]) == SumScores(scores) + 1
  {
    var bumped := scores[c := Score(scores[c].value + 1)];
    SumScoresWithout(scores, c);
    SumScoresWithout(bumped, c);
    assert bumped - {c} == scores - {c};
  }

  /** A board whose counters are all zero, with nobody on the attendance sheet, is consistent. */
  lemma {:induction false} FreshMachineConsistent(board: Scoreboard)
    requires forall c :: c in board.scores ==> board.scores[c] == Score(0)
    requires board.blankScore == Score(0) && board.invalidScore == Score(0)
    ensures Consistent(Snapshot(AttendenceSheet({}), board))
    decreases |board.scores|
  {
    if board.scores != map[] {
      var c :| c in board.scores;
      SumScoresWithout(board.scores, c);
      FreshMachineConsistent(board.(scores := board.scores - {c}));
    }
  }

  // ---------------------------------------------------------------------------
  // Scoreboard::new
  // ---------------------------------------------------------------------------

  /** The initial board: each listed candidate once, every counter at zero. */
  method NewScoreboard(candidates: seq<Candidate>) returns (board: Scoreboard)
    ensures board.scores.Keys == set c | c in candidates
    ensures forall c :: c in board.scores ==> board.scores[c] == Score(0)
    ensures board.blankScore == Score(0) && board.invalidScore == Score(0)
  {
    var scores: map<Candidate, Score> := map[];
    for i := 0 to |candidates|
      invariant scores.Keys == set c | c in candidates[..i]
      invariant forall c :: c in scores ==> scores[c] == Score(0)
    {
      assert candidates[..i + 1] == candidates[..i] + [candidates[i]];
      scores := scores[candidates[i] := Score(0)];
    }
    assert candidates[..|candidates|] == candidates;
    board := Scoreboard(scores, Score(0), Score(0));
  }

  // ---------------------------------------------------------------------------
  // What one ballot does
  // ---------------------------------------------------------------------------

  /**
   * The outcome of a ballot, decided in a fixed order: a voter already on the
   * sheet is turned away; otherwise no candidate is a blank vote, a listed
   * candidate an accepted vote, and anything else an invalid vote.
   */
  function Classify(s: Snapshot, ballot: BallotPaper): (outcome: VoteOutcome)
    ensures outcome.voter == ballot.voter
    ensures outcome.HasAlreadyVoted? <==> ballot.voter in s.voters.voters
    ensures outcome.BlankVote? <==> ballot.voter !in s.voters.voters && ballot.candidate.None?
    ensures outcome.AcceptedVote? <==>
      ballot.voter !in s.voters.voters && ballot.candidate.Some? && ballot.candidate.value in s.scoreboard.scores
    ensures outcome.InvalidVote? <==>
      ballot.voter !in s.voters.voters && ballot.candidate.Some? && ballot.candidate.value !in s.scoreboard.scores
    ensures outcome.AcceptedVote? ==> ballot.candidate == Some(outcome.candidate)
  {
    if ballot.voter in s.voters.voters then HasAlreadyVoted(ballot.voter)
    else
      match ballot.candidate
      case None => BlankVote(ballot.voter)
      case Some(c) => if c in s.scoreboard.scores then AcceptedVote(ballot.voter, c) else InvalidVote(ballot.voter)
  }

  /** The state once an outcome is recorded: the voter joins the sheet and the one counter the outcome names goes up by one. */
  function Record(s: Snapshot, outcome: VoteOutcome): (r: Snapshot)
    requires outcome.AcceptedVote? ==> outcome.candidate in s.scoreboard.scores
    ensures outcome.HasAlreadyVoted? ==> r == s
    ensures !outcome.HasAlreadyVoted? ==> r.voters.voters == s.voters.voters + {outcome.voter}
    ensures r.scoreboard.scores.Keys == s.scoreboard.scores.Keys
  {
    var board := s.scoreboard;
    var sheet := AttendenceSheet(s.voters.voters + {outcome.voter});
    match outcome
    case HasAlreadyVoted(_) => s
    case BlankVote(_) => Snapshot(sheet, board.(blankScore := Score(board.blankScore.value + 1)))
    case InvalidVote(_) => Snapshot(sheet, board.(invalidScore := Score(board.invalidScore.value + 1)))
    case AcceptedVote(_, c) =>
      Snapshot(sheet, board.(scores := board.scores[c := Score(board.scores[c].value + 1)]))
  }

  /** The machine after one ballot, and the outcome reported for it. */
  function Voted(s: Snapshot, ballot: BallotPaper): (r: (Snapshot, VoteOutcome))
    ensures r.1.voter == ballot.voter
    ensures ballot.voter in r.0.voters.voters
    ensures r.0 == s <==> ballot.voter in s.voters.voters
  {
    var outcome := Classify(s, ballot);
    (Record(s, outcome), outcome)
  }

  /** Casting ballots one after another. */
  function VotedAll(s: Snapshot, ballots: seq<BallotPaper>): Snapshot
    decreases |ballots|
  {
    if ballots == [] then s else VotedAll(Voted(s, ballots[0]).0, ballots[1..])
  }

  /** A ballot changes exactly one counter, by one, and only when its voter is new; the candidate list never changes. */
  lemma VoteChangesOneCounter(s: Snapshot, ballot: BallotPaper)
    ensures var (after, outcome) := Voted(s, ballot);
      && ballot.voter in after.voters.voters
      && after.voters.voters == s.voters.voters + {ballot.voter}
      && after.scoreboard.scores.Keys == s.scoreboard.scores.Keys
      && (outcome.HasAlreadyVoted? ==> after == s)
      && (forall c :: c in s.scoreboard.scores && outcome != AcceptedVote(ballot.voter, c) ==>
            after.scoreboard.scores[c] == s.scoreboard.scores[c])
      && (outcome.AcceptedVote? ==>
            after.scoreboard.scores[outcome.candidate].value == s.scoreboard.scores[outcome.candidate].value + 1)
      && after.scoreboard.blankScore.value == s.scoreboard.blankScore.value + (if outcome.BlankVote? then 1 else 0)
      && after.scoreboard.invalidScore.value == s.scoreboard.invalidScore.value + (if outcome.InvalidVote? then 1 else 0)
  {
  }

  /** `vote` keeps the tally invariant. */
  lemma VoteKeepsConsistent(s: Snapshot, ballot: BallotPaper)
    requires Consistent(s)
    ensures Consistent(Voted(s, ballot).0)
  {
    var outcome := Classify(s, ballot);
    if !outcome.HasAlreadyVoted? {
      assert |s.voters.voters + {ballot.voter}| == |s.voters.voters| + 1;
    }
    if outcome.AcceptedVote? {
      SumScoresIncrement(s.scoreboard.scores, outcome.candidate);
    }
  }

  /** Every state reached from a consistent one by a run of ballots is consistent. */
  lemma {:induction false} VotedAllKeepsConsistent(s: Snapshot, ballots: seq<BallotPaper>)
    requires Consistent(s)
    ensures Consistent(VotedAll(s, ballots))
    decreases |ballots|
  {
    if ballots != [] {
      VoteKeepsConsistent(s, ballots[0]);
      VotedAllKeepsConsistent(Voted(s, ballots[0]).0, ballots[1..]);
    }
  }

  /** Nobody ever leaves the attendance sheet: a run of ballots only adds voters. */
  lemma {:induction false} VotedAllKeepsVoters(s: Snapshot, ballots: seq<BallotPaper>)
    ensures s.voters.voters <= VotedAll(s, ballots).voters.voters
    decreases |ballots|
  {
    if ballots != [] {
      VotedAllKeepsVoters(Voted(s, ballots[0]).0, ballots[1..]);
    }
  }

  /**
   * Once a voter's ballot is in, every later ballot of theirs, whatever other
   * ballots came in between, is turned away and changes nothing.
   */
  lemma SecondBallotRejected(s: Snapshot, first: BallotPaper, between: seq<BallotPaper>, second: BallotPaper)
    requires second.voter == first.voter
    ensures var later := VotedAll(Voted(s, first).0, between);
      Voted(later, second) == (later, HasAlreadyVoted(first.voter))
  {
    VotedAllKeepsVoters(Voted(s, first).0, between);
  }

  // ---------------------------------------------------------------------------
  // The aggregate
  // ---------------------------------------------------------------------------

  class VotingMachine {
    var voters: AttendenceSheet
    var scoreboard: Scoreboard

    constructor (voters: AttendenceSheet, scoreboard: Scoreboard)
      ensures Value() == Snapshot(voters, scoreboard)
    {
      this.voters := voters;
      this.scoreboard := scoreboard;
    }

    function Value(): Snapshot
      reads this
    {
      Snapshot(voters, scoreboard)
    }

    /** Tallies one ballot in place and reports its outcome. */
    method Vote(ballot: BallotPaper) returns (outcome: VoteOutcome)
      modifies this
      ensures (Value(), outcome) == Voted(old(Value()), ballot)
      ensures Consistent(old(Value())) ==> Consistent(Value())
    {
      ghost var before := Value();
      var voter := ballot.voter;
      if voter !in voters.voters {
        if ballot.candidate.None? {
          scoreboard := scoreboard.(blankScore := Score(scoreboard.blankScore.value + 1));
          voters := AttendenceSheet(voters.voters + {voter});
          outcome := BlankVote(voter);
        } else {
          var candidate := ballot.candidate.value;
          if candidate in scoreboard.scores {
            var score := scoreboard.scores[candidate];
            scoreboard := scoreboard.(scores := scoreboard.scores[candidate := Score(score.value + 1)]);
            voters := AttendenceSheet(voters.voters + {voter});
            outcome := AcceptedVote(voter, candidate);
          } else {
            scoreboard := scoreboard.(invalidScore := Score(scoreboard.invalidScore.value + 1));
            voters := AttendenceSheet(voters.voters + {voter});
            outcome := InvalidVote(voter);
          }
        }
      } else {
        outcome := HasAlreadyVoted(voter);
      }
      if Consistent(before) {
        VoteKeepsConsistent(before, ballot);
      }
    }
  }
}
