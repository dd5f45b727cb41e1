/**
 * The repository's own test cases, replayed against the model: each method
 * builds the stores and controllers its test builds and states, as its
 * postcondition, what the test checks.
 */
module Scenarios {
  import opened Wrappers
  import opened Text
  import opened Domain
  import opened MemoryStorage
  import opened FileStorage
  import opened Storages
  import opened UseCases
  import opened Interfaces

  /** A board listing one candidate with the given score, and nothing blank or invalid. */
  function OneCandidate(candidate: string, score: nat): Scoreboard
  {
    Scoreboard(map[Candidate(candidate) := Score(score)], Score(0), Score(0))
  }

  /** The machine the tests start from: nobody has voted, one candidate at zero. */
  function Opening(candidate: string): Snapshot
  {
    Snapshot(AttendenceSheet({}), OneCandidate(candidate, 0))
  }

  /** A memory store gives back the machine it was created with. */
  method MemoryStoreKeepsMachine() returns (stored: Result<Snapshot>)
    ensures stored == Ok(Opening("moi"))
  {
    var store := new MemoryStore(Opening("moi"));
    stored := store.GetVotingMachine();
  }

  /** A file store created twice on the same path reads back the same machine both times. */
  method FileStoreCreatedTwice() returns (first: Result<Snapshot>, second: Result<Snapshot>)
    ensures first == second == Ok(Opening("moi"))
  {
    var disk := new Disk(map[]);
    var store := FileStore.Create(Opening("moi"), "test.json", disk);
    var store2 := FileStore.Create(Opening("moi"), "test.json", disk);
    first := store.GetVotingMachine();
    second := store2.GetVotingMachine();
  }

  /** A first ballot for a listed candidate is accepted and counted. */
  method NormalVote() returns (outcome: Result<VoteOutcome>, stored: Result<Snapshot>)
    ensures outcome == Ok(AcceptedVote(Voter("Malo"), Candidate("Macron")))
    ensures stored.Ok? && stored.value.scoreboard == OneCandidate("Macron", 1)
  {
    var memory := new MemoryStore(Opening("Macron"));
    var controller := new VotingController(Memory(memory));
    outcome := controller.Vote(VoteFormOf(BallotPaper(Voter("Malo"), Some(Candidate("Macron")))));
    stored := controller.GetVotingMachine();
  }

  /** A voter already on the sheet is turned away and the board is left as it was. */
  method AlreadyVoted() returns (outcome: Result<VoteOutcome>, stored: Result<Snapshot>)
    ensures outcome == Ok(HasAlreadyVoted(Voter("Malo")))
    ensures stored.Ok? && stored.value.scoreboard == OneCandidate("Macron", 1)
  {
    var memory := new MemoryStore(Snapshot(AttendenceSheet({Voter("Malo")}), OneCandidate("Macron", 1)));
    var controller := new VotingController(Memory(memory));
    outcome := controller.Vote(VoteFormOf(BallotPaper(Voter("Malo"), Some(Candidate("Macron")))));
    stored := controller.GetVotingMachine();
  }

  /** A ballot for a candidate missing from the board is counted as invalid. */
  method ControllerInvalidVote() returns (outcome: Result<VoteOutcome>, stored: Result<Snapshot>)
    ensures outcome == Ok(InvalidVote(Voter("Malo")))
    ensures stored.Ok? && stored.value.scoreboard == Scoreboard(map[], Score(0), Score(1))
  {
    var memory := new MemoryStore(Snapshot(AttendenceSheet({}), Scoreboard(map[], Score(0), Score(0))));
    var controller := new VotingController(Memory(memory));
    outcome := controller.Vote(VoteFormOf(BallotPaper(Voter("Malo"), Some(Candidate("Macron")))));
    stored := controller.GetVotingMachine();
  }

  /** A ballot without a candidate is counted as blank and leaves the candidates' scores alone. */
  method ControllerBlankVote() returns (outcome: Result<VoteOutcome>, stored: Result<Snapshot>)
    ensures outcome == Ok(BlankVote(Voter("Malo")))
    ensures stored.Ok? && stored.value.scoreboard == Scoreboard(map[Candidate("Macron") := Score(0)], Score(1), Score(0))
  {
    var memory := new MemoryStore(Opening("Macron"));
    var controller := new VotingController(Memory(memory));
    outcome := controller.Vote(VoteFormOf(BallotPaper(Voter("Malo"), None)));
    stored := controller.GetVotingMachine();
  }

  /** The three command keywords are single, distinct, non-empty words, as in both lexicon tables. */
  predicate Keywords(lexicon: Lexicon)
  {
    && lexicon.vote != "" && lexicon.voters != "" && lexicon.scores != ""
    && SpaceFree(lexicon.vote) && SpaceFree(lexicon.voters) && SpaceFree(lexicon.scores)
    && lexicon.vote != lexicon.voters && lexicon.vote != lexicon.scores && lexicon.voters != lexicon.scores
  }

  /** A controller over a memory store holding the opening machine for one candidate. */
  method OpeningController(candidate: string) returns (controller: VotingController)
    ensures fresh(controller.store.Repr())
    ensures controller.store.Stored() == Ok(Opening(candidate))
  {
    var memory := new MemoryStore(Opening(candidate));
    controller := new VotingController(Memory(memory));
  }

  /** The empty line answers with the help text. */
  method NoCommand(lexicon: Lexicon, candidate: string) returns (answer: Result<string>)
    requires Keywords(lexicon)
    ensures answer == Ok(lexicon.help)
  {
    var controller := OpeningController(candidate);
    ParseEmptyLine(lexicon);
    answer := HandleLine("", controller, lexicon);
  }

  /** Before any vote the roll is the title alone. */
  method ShowVoters(lexicon: Lexicon, candidate: string) returns (answer: Result<string>)
    requires Keywords(lexicon)
    ensures answer == Ok(lexicon.votersTitle)
  {
    var controller := OpeningController(candidate);
    assert Parse(lexicon.voters, lexicon) == ListVoters by {
      SplitSpaceFree(lexicon.voters);
    }
    assert Reply(ListVoters, Opening(candidate), lexicon) == lexicon.votersTitle by {
      assert VoterNames(AttendenceSheet({})) == {};
    }
    answer := HandleLine(lexicon.voters, controller, lexicon);
  }

  /** Before any vote the tally lists the one candidate and the two other counters at zero. */
  method ShowScores(lexicon: Lexicon, candidate: string) returns (answer: Result<string>)
    requires Keywords(lexicon)
    ensures answer == Ok(lexicon.scoresTitle + candidate + ": 0\n" + lexicon.blank + ": 0\n" + lexicon.invalid + ": 0")
  {
    var controller := OpeningController(candidate);
    assert Parse(lexicon.scores, lexicon) == ListScores by {
      SplitSpaceFree(lexicon.scores);
    }
    OpeningTally(lexicon, candidate);
    answer := HandleLine(lexicon.scores, controller, lexicon);
  }

  /** The tally of the opening board: one line for the candidate, then blank and invalid at zero. */
  lemma OpeningTally(lexicon: Lexicon, candidate: string)
    ensures Reply(ListScores, Opening(candidate), lexicon)
      == lexicon.scoresTitle + candidate + ": 0\n" + lexicon.blank + ": 0\n" + lexicon.invalid + ": 0"
  {
    var board := OneCandidate(candidate, 0);
    assert CandidateNames(board) == {candidate};
    assert Ascending({candidate}) == [candidate];
    assert ScoreLines([candidate], board.scores) == candidate + ": 0\n";
  }

  /** `voter v c`, for a listed candidate `c`, casts an accepted vote and answers with its sentence. */
  method VoteLine(lexicon: Lexicon, voter: string, candidate: string) returns (answer: Result<string>)
    requires Keywords(lexicon)
    requires voter != "" && SpaceFree(voter) && candidate != "" && SpaceFree(candidate)
    ensures answer == Ok(voter + " " + lexicon.acceptedVote + " " + candidate + ".")
  {
    var controller := OpeningController(candidate);
    var ballot := BallotPaper(Voter(voter), Some(Candidate(candidate)));
    var line := Join([lexicon.vote, voter, candidate]);
    assert Parse(line, lexicon) == Cast(ballot) by {
      ParseVoteFor(lexicon, voter, candidate, []);
      assert [lexicon.vote, voter, candidate] + [] == [lexicon.vote, voter, candidate];
    }
    assert Voted(Opening(candidate), ballot).1 == AcceptedVote(Voter(voter), Candidate(candidate));
    AcceptedSentence(lexicon, voter, candidate);
    answer := HandleLine(line, controller, lexicon);
  }

  /** The sentence for an accepted vote, written out. */
  lemma AcceptedSentence(lexicon: Lexicon, voter: string, candidate: string)
    ensures ShowVoteOutcome(AcceptedVote(Voter(voter), Candidate(candidate)), lexicon)
      == voter + " " + lexicon.acceptedVote + " " + candidate + "."
  {
    var phrase := lexicon.acceptedVote + " " + candidate + ".";
    assert OutcomePhrase(AcceptedVote(Voter(voter), Candidate(candidate)), lexicon) == phrase;
    assert voter + " " + phrase == voter + " " + lexicon.acceptedVote + " " + candidate + ".";
  }

  /** `voter v` casts a blank vote and answers with its sentence. */
  method VoteBlankLine(lexicon: Lexicon, voter: string, candidate: string) returns (answer: Result<string>)
    requires Keywords(lexicon)
    requires voter != "" && SpaceFree(voter)
    ensures answer == Ok(voter + " " + lexicon.blankVote)
  {
    var controller := OpeningController(candidate);
    var ballot := BallotPaper(Voter(voter), None);
    var line := lexicon.vote + " " + voter;
    assert Parse(line, lexicon) == Cast(ballot) by {
      ParseBlankVote(lexicon, voter);
    }
    assert Voted(Opening(candidate), ballot).1 == BlankVote(Voter(voter));
    answer := HandleLine(line, controller, lexicon);
  }

  /** `voter` alone answers that the voter is missing. */
  method MissingVoterLine(lexicon: Lexicon, candidate: string) returns (answer: Result<string>)
    requires Keywords(lexicon)
    ensures answer == Ok(lexicon.candidateMissing)
  {
    var controller := OpeningController(candidate);
    ParseMissingVoter(lexicon);
    answer := HandleLine(lexicon.vote, controller, lexicon);
  }

  /** A line whose first word is none of the keywords answers with the invalid-command text. */
  method InvalidCommandLine(lexicon: Lexicon, word: string, candidate: string) returns (answer: Result<string>)
    requires Keywords(lexicon)
    requires word != "" && SpaceFree(word)
    requires word != lexicon.vote && word != lexicon.voters && word != lexicon.scores
    ensures answer == Ok(lexicon.invalidCommand)
  {
    var controller := OpeningController(candidate);
    assert Parse(word, lexicon) == Unknown by {
      SplitSpaceFree(word);
    }
    answer := HandleLine(word, controller, lexicon);
  }
}
