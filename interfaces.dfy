/**
 * The textual command protocol shared by the line-oriented front ends: a line
 * is split into words, dispatched to vote / voters / scores / help, and the
 * answer is rendered with the phrases of a lexicon.
 */
module Interfaces {
  import opened Wrappers
  import opened Text
  import opened Domain
  import opened UseCases
  import opened Storages
  import opened FileStorage

  /** The phrases of one display language. */
  datatype Lexicon = Lexicon(
    blankVote: string,
    hasAlreadyVoted: string,
    acceptedVote: string,
    invalidVote: string,
    vote: string,
    blank: string,
    invalid: string,
    voters: string,
    votersTitle: string,
    scores: string,
    scoresTitle: string,
    invalidCommand: string,
    help: string,
    candidateMissing: string)

  // ---------------------------------------------------------------------------
  // Rendering
  // ---------------------------------------------------------------------------

  /** One sentence per outcome: the voter's name, then the outcome's phrase. */
  function ShowVoteOutcome(outcome: VoteOutcome, lexicon: Lexicon): (text: string)
    ensures |outcome.voter.name| < |text| && text[..|outcome.voter.name| + 1] == outcome.voter.name + " "
    ensures outcome.AcceptedVote? ==> text[|text| - 1] == '.'
  {
    outcome.voter.name + " " + OutcomePhrase(outcome, lexicon)
  }

  /** The phrase that follows the voter's name in the rendering of an outcome. */
  function OutcomePhrase(outcome: VoteOutcome, lexicon: Lexicon): string
  {
    match outcome
    case AcceptedVote(_, candidate) => lexicon.acceptedVote + " " + candidate.name + "."
    case BlankVote(_) => lexicon.blankVote
    case InvalidVote(_) => lexicon.invalidVote
    case HasAlreadyVoted(_) => lexicon.hasAlreadyVoted
  }

  /**
   * The rendering is the voter's name, a space, and the outcome's phrase, so a
   * client splitting the answer on spaces reads the voter back as its first word.
   */
  lemma OutcomeTextNamesVoter(outcome: VoteOutcome, lexicon: Lexicon)
    requires SpaceFree(outcome.voter.name)
    ensures ShowVoteOutcome(outcome, lexicon) == outcome.voter.name + " " + OutcomePhrase(outcome, lexicon)
    ensures Split(ShowVoteOutcome(outcome, lexicon))[0] == outcome.voter.name
  {
    var phrase := OutcomePhrase(outcome, lexicon);
    assert ShowVoteOutcome(outcome, lexicon) == outcome.voter.name + " " + phrase;
    SplitFirstWord(outcome.voter.name, phrase);
  }

  predicate StartsWith(s: string, prefix: string)
  {
    |prefix| <= |s| && s[..|prefix|] == prefix
  }

  /**
   * The three fixed phrases differ from each other, and none of them reads
   * as the beginning of an accepted-vote phrase.
   */
  predicate Unambiguous(lexicon: Lexicon)
  {
    && lexicon.blankVote != lexicon.invalidVote
    && lexicon.blankVote != lexicon.hasAlreadyVoted
    && lexicon.invalidVote != lexicon.hasAlreadyVoted
    && !StartsWith(lexicon.blankVote, lexicon.acceptedVote + " ")
    && !StartsWith(lexicon.invalidVote, lexicon.acceptedVote + " ")
    && !StartsWith(lexicon.hasAlreadyVoted, lexicon.acceptedVote + " ")
  }

  /** The accepted-vote phrase is the lexicon's phrase, a space, and the candidate's name with a full stop. */
  lemma AcceptedPhrase(outcome: VoteOutcome, lexicon: Lexicon)
    requires outcome.AcceptedVote?
    ensures var phrase := OutcomePhrase(outcome, lexicon);
      var prefix := lexicon.acceptedVote + " ";
      && StartsWith(phrase, prefix)
      && |phrase| == |prefix| + |outcome.candidate.name| + 1
      && phrase[|prefix|..|phrase| - 1] == outcome.candidate.name
  {
  }

  /**
   * Under an unambiguous lexicon, the rendering of an outcome whose voter's
   * name has no space determines the outcome: two outcomes that render alike
   * are the same outcome.
   */
  lemma ShowVoteOutcomeInjective(a: VoteOutcome, b: VoteOutcome, lexicon: Lexicon)
    requires SpaceFree(a.voter.name) && SpaceFree(b.voter.name)
    requires Unambiguous(lexicon)
    requires ShowVoteOutcome(a, lexicon) == ShowVoteOutcome(b, lexicon)
    ensures a == b
  {
    OutcomeTextNamesVoter(a, lexicon);
    OutcomeTextNamesVoter(b, lexicon);
    var name := a.voter.name;
    var text := ShowVoteOutcome(a, lexicon);
    assert b.voter.name == name;
    var pa, pb := OutcomePhrase(a, lexicon), OutcomePhrase(b, lexicon);
    assert pa == text[|name| + 1..];
    assert pb == text[|name| + 1..];
    if a.AcceptedVote? {
      AcceptedPhrase(a, lexicon);
    }
    if b.AcceptedVote? {
      AcceptedPhrase(b, lexicon);
    }
  }

  function VoterNames(sheet: AttendenceSheet): set<string>
  {
    set v | v in sheet.voters :: v.name
  }

  function CandidateNames(board: Scoreboard): set<string>
  {
    set c | c in board.scores :: c.name
  }

  lemma NamedCandidatesListed(board: Scoreboard)
    ensures forall name :: name in CandidateNames(board) ==> Candidate(name) in board.scores
  {
  }

  /** One `- name` line per voter, in the given order. */
  function VoterLines(names: seq<string>): string
  {
    if names == [] then "" else VoterLines(names[..|names| - 1]) + "- " + names[|names| - 1] + "\n"
  }

  /** The line of one candidate: its name and its score in decimal. */
  function ScoreLine(name: string, score: Score): string
  {
    name + ": " + NatToString(score.value) + "\n"
  }

  /** One `name: score` line per candidate, in the given order. */
  function ScoreLines(names: seq<string>, scores: map<Candidate, Score>): string
    requires forall i :: 0 <= i < |names| ==> Candidate(names[i]) in scores
  {
    if names == [] then ""
    else
      var name := names[|names| - 1];
      ScoreLines(names[..|names| - 1], scores) + ScoreLine(name, scores[Candidate(name)])
  }

  /** The roll: the title, then every voter in ascending order of name. */
  ghost function AttendenceSheetText(sheet: AttendenceSheet, lexicon: Lexicon): string
  {
    lexicon.votersTitle + VoterLines(Ascending(VoterNames(sheet)))
  }

  /** The tally: the title, every candidate in ascending order of name, then the blank and the invalid count. */
  ghost function ScoreboardText(board: Scoreboard, lexicon: Lexicon): string
  {
    NamedCandidatesListed(board);
    lexicon.scoresTitle + ScoreLines(Ascending(CandidateNames(board)), board.scores)
      + lexicon.blank + ": " + NatToString(board.blankScore.value) + "\n"
      + lexicon.invalid + ": " + NatToString(board.invalidScore.value)
  }

  /** Appending one voter's line to a roll that lists `names` gives the roll that lists `names + [name]`. */
  lemma VoterLinesAppend(title: string, res: string, names: seq<string>, name: string)
    requires res == title + VoterLines(names)
    ensures res + ("- " + name + "\n") == title + VoterLines(names + [name])
  {
    assert (names + [name])[..|names|] == names;
  }

  lemma AllListedAppend(names: seq<string>, name: string, scores: map<Candidate, Score>)
    requires forall i :: 0 <= i < |names| ==> Candidate(names[i]) in scores
    requires Candidate(name) in scores
    ensures forall i :: 0 <= i < |names + [name]| ==> Candidate((names + [name])[i]) in scores
  {
  }

  /** Appending one candidate's line to a tally that lists `names` gives the tally that lists `names + [name]`. */
  lemma ScoreLinesAppend(title: string, res: string, names: seq<string>, name: string, scores: map<Candidate, Score>)
    requires forall i :: 0 <= i < |names| ==> Candidate(names[i]) in scores
    requires Candidate(name) in scores
    requires res == title + ScoreLines(names, scores)
    ensures res + ScoreLine(name, scores[Candidate(name)]) == title + ScoreLines(names + [name], scores)
  {
  }

  /** Halfway through the roll: `res` lists the voters walked so far, in ascending order. */
  ghost predicate RollSoFar(sheet: AttendenceSheet, lexicon: Lexicon, res: string, rest: set<string>)
  {
    exists done :: Walked(VoterNames(sheet), done, rest) && res == lexicon.votersTitle + VoterLines(done)
  }

  lemma RollStep(sheet: AttendenceSheet, lexicon: Lexicon, res: string, rest: set<string>, name: string)
    requires RollSoFar(sheet, lexicon, res, rest)
    requires IsLeast(name, rest)
    ensures RollSoFar(sheet, lexicon, res + ("- " + name + "\n"), rest - {name})
  {
    var done :| Walked(VoterNames(sheet), done, rest) && res == lexicon.votersTitle + VoterLines(done);
    WalkStep(VoterNames(sheet), done, rest, name);
    VoterLinesAppend(lexicon.votersTitle, res, done, name);
  }

  lemma RollDone(sheet: AttendenceSheet, lexicon: Lexicon, res: string)
    requires RollSoFar(sheet, lexicon, res, {})
    ensures res == AttendenceSheetText(sheet, lexicon)
  {
    var done :| Walked(VoterNames(sheet), done, {}) && res == lexicon.votersTitle + VoterLines(done);
    WalkDone(VoterNames(sheet), done);
  }

  /** Halfway through the tally: `res` lists the candidates walked so far, in ascending order, with their scores. */
  ghost predicate TallySoFar(board: Scoreboard, lexicon: Lexicon, res: string, rest: set<string>)
  {
    NamedCandidatesListed(board);
    exists done :: Walked(CandidateNames(board), done, rest)
      && (forall i :: 0 <= i < |done| ==> Candidate(done[i]) in board.scores)
      && res == lexicon.scoresTitle + ScoreLines(done, board.scores)
  }

  lemma TallyStep(board: Scoreboard, lexicon: Lexicon, res: string, rest: set<string>, name: string)
    requires TallySoFar(board, lexicon, res, rest)
    requires IsLeast(name, rest)
    ensures Candidate(name) in board.scores
    ensures TallySoFar(board, lexicon, res + ScoreLine(name, board.scores[Candidate(name)]), rest - {name})
  {
    var done :| Walked(CandidateNames(board), done, rest)
      && (forall i :: 0 <= i < |done| ==> Candidate(done[i]) in board.scores)
      && res == lexicon.scoresTitle + ScoreLines(done, board.scores);
    assert name in CandidateNames(board) by {
      WalkRemaining(CandidateNames(board), done, rest, name);
    }
    NamedCandidatesListed(board);
    ScoreLinesAppend(lexicon.scoresTitle, res, done, name, board.scores);
    WalkStep(CandidateNames(board), done, rest, name);
    AllListedAppend(done, name, board.scores);
  }

  lemma TallyDone(board: Scoreboard, lexicon: Lexicon, res: string)
    requires TallySoFar(board, lexicon, res, {})
    ensures res + lexicon.blank + ": " + NatToString(board.blankScore.value) + "\n"
      + lexicon.invalid + ": " + NatToString(board.invalidScore.value) == ScoreboardText(board, lexicon)
  {
    var done :| Walked(CandidateNames(board), done, {})
      && (forall i :: 0 <= i < |done| ==> Candidate(done[i]) in board.scores)
      && res == lexicon.scoresTitle + ScoreLines(done, board.scores);
    WalkDone(CandidateNames(board), done);
  }

  method ShowAttendenceSheet(sheet: AttendenceSheet, lexicon: Lexicon) returns (res: string)
    ensures res == AttendenceSheetText(sheet, lexicon)
  {
    res := lexicon.votersTitle;
    var rest := VoterNames(sheet);
    WalkStart(rest);
    assert RollSoFar(sheet, lexicon, res, rest) by {
      assert res == lexicon.votersTitle + VoterLines([]);
    }
    while rest != {}
      invariant RollSoFar(sheet, lexicon, res, rest)
      decreases rest
    {
      LeastExists(rest);
      var name :| IsLeast(name, rest);
      RollStep(sheet, lexicon, res, rest, name);
      res := res + ("- " + name + "\n");
      rest := rest - {name};
    }
    RollDone(sheet, lexicon, res);
  }

  method ShowScoreboard(board: Scoreboard, lexicon: Lexicon) returns (res: string)
    ensures res == ScoreboardText(board, lexicon)
  {
    res := lexicon.scoresTitle;
    var rest := CandidateNames(board);
    WalkStart(rest);
    assert TallySoFar(board, lexicon, res, rest) by {
      assert res == lexicon.scoresTitle + ScoreLines([], board.scores);
    }
    while rest != {}
      invariant TallySoFar(board, lexicon, res, rest)
      decreases rest
    {
      LeastExists(rest);
      var name :| IsLeast(name, rest);
      TallyStep(board, lexicon, res, rest, name);
      res := res + ScoreLine(name, board.scores[Candidate(name)]);
      rest := rest - {name};
    }
    TallyDone(board, lexicon, res);
    res := res + lexicon.blank + ": " + NatToString(board.blankScore.value) + "\n";
    res := res + lexicon.invalid + ": " + NatToString(board.invalidScore.value);
  }

  // ---------------------------------------------------------------------------
  // Dispatch
  // ---------------------------------------------------------------------------

  /** What a line asks for. */
  datatype Command =
    | Cast(ballot: BallotPaper)
    | MissingVoter
    | ListVoters
    | ListScores
    | Help
    | Unknown

  /**
   * The first three space-separated words decide: the vote keyword with a voter
   * and a candidate, with a voter only, or with nothing; then the voters and
   * scores keywords; then the empty line; anything else is unknown.
   */
  function Parse(line: string, lexicon: Lexicon): (command: Command)
    ensures command.Cast? ==> command.ballot.voter.name != ""
    ensures command.Cast? && command.ballot.candidate.Some? ==> command.ballot.candidate.value.name != ""
  {
    var words := Split(line);
    var first, second, third := Field(words, 0), Field(words, 1), Field(words, 2);
    if first == lexicon.vote then
      if second != "" && third != "" then Cast(BallotPaper(Voter(second), Some(Candidate(third))))
      else if second != "" then Cast(BallotPaper(Voter(second), None))
      else MissingVoter
    else if first == lexicon.voters then ListVoters
    else if first == lexicon.scores then ListScores
    else if line == "" then Help
    else Unknown
  }

  /** The names on a ballot read from a line never hold a space, since they are fields of the split. */
  lemma ParsedNamesSpaceFree(line: string, lexicon: Lexicon)
    ensures Parse(line, lexicon).Cast? ==> SpaceFree(Parse(line, lexicon).ballot.voter.name)
    ensures Parse(line, lexicon).Cast? && Parse(line, lexicon).ballot.candidate.Some? ==>
      SpaceFree(Parse(line, lexicon).ballot.candidate.value.name)
  {
    SplitJoin(line);
  }

  /** `vote v c`, whatever follows, casts a ballot for `c` by `v`. */
  lemma ParseVoteFor(lexicon: Lexicon, voter: string, candidate: string, extra: seq<string>)
    requires SpaceFree(lexicon.vote) && SpaceFree(voter) && SpaceFree(candidate)
    requires voter != "" && candidate != ""
    requires forall i :: 0 <= i < |extra| ==> SpaceFree(extra[i])
    ensures Parse(Join([lexicon.vote, voter, candidate] + extra), lexicon)
      == Cast(BallotPaper(Voter(voter), Some(Candidate(candidate))))
  {
    var words := [lexicon.vote, voter, candidate] + extra;
    SplitThreeWords(lexicon.vote, voter, candidate, extra);
    assert Field(words, 0) == lexicon.vote && Field(words, 1) == voter && Field(words, 2) == candidate;
    ParseVoteFields(Join(words), lexicon, voter, candidate);
  }

  /** A line whose first three fields are the vote keyword, a voter and a candidate casts that ballot. */
  lemma ParseVoteFields(line: string, lexicon: Lexicon, voter: string, candidate: string)
    requires Field(Split(line), 0) == lexicon.vote
    requires Field(Split(line), 1) == voter && Field(Split(line), 2) == candidate
    requires voter != "" && candidate != ""
    ensures Parse(line, lexicon) == Cast(BallotPaper(Voter(voter), Some(Candidate(candidate))))
  {
  }

  /** `vote v` casts a blank ballot by `v`. */
  lemma ParseBlankVote(lexicon: Lexicon, voter: string)
    requires SpaceFree(lexicon.vote) && SpaceFree(voter) && voter != ""
    ensures Parse(lexicon.vote + " " + voter, lexicon) == Cast(BallotPaper(Voter(voter), None))
  {
    JoinSplit([lexicon.vote, voter]);
  }

  /** `vote` alone asks for the missing voter and casts nothing. */
  lemma ParseMissingVoter(lexicon: Lexicon)
    requires SpaceFree(lexicon.vote)
    ensures Parse(lexicon.vote, lexicon) == MissingVoter
  {
    SplitSpaceFree(lexicon.vote);
  }

  /** The empty line asks for help, as long as no keyword is empty. */
  lemma ParseEmptyLine(lexicon: Lexicon)
    requires lexicon.vote != "" && lexicon.voters != "" && lexicon.scores != ""
    ensures Parse("", lexicon) == Help
  {
  }

  /** Words after the third are ignored. */
  lemma ParseIgnoresExtraWords(lexicon: Lexicon, words: seq<string>, extra: seq<string>)
    requires |words| == 3
    requires forall i :: 0 <= i < |words| ==> SpaceFree(words[i])
    requires forall i :: 0 <= i < |extra| ==> SpaceFree(extra[i])
    ensures Parse(Join(words + extra), lexicon) == Parse(Join(words), lexicon)
  {
    JoinSplit(words + extra);
    JoinSplit(words);
    assert Join(words) != "" && Join(words + extra) != "";
  }

  /** The answer to every command that casts nothing, from the machine read before dispatch. */
  ghost function Reply(command: Command, machine: Snapshot, lexicon: Lexicon): string
    requires !command.Cast?
  {
    match command
    case MissingVoter => lexicon.candidateMissing
    case ListVoters => AttendenceSheetText(machine.voters, lexicon)
    case ListScores => ScoreboardText(machine.scoreboard, lexicon)
    case Help => lexicon.help
    case Unknown => lexicon.invalidCommand
  }

  /** Submits a ballot through the controller and renders its outcome; a failed read of the store fails the line. */
  method CastBallot(ballot: BallotPaper, controller: VotingController, lexicon: Lexicon) returns (r: Result<string>)
    modifies controller.store.Repr()
    ensures old(controller.store.Stored()).Err? ==>
      r == Err(old(controller.store.Stored()).error) && unchanged(controller.store.Repr())
    ensures old(controller.store.Stored()).Ok? ==>
      var (after, outcome) := Voted(old(controller.store.Stored()).value, BallotPaperOf(VoteFormOf(ballot)));
      r == Ok(ShowVoteOutcome(outcome, lexicon)) && controller.store.Stored() == Ok(after)
      && (controller.store.File? ==>
            controller.store.file.disk.files ==
            old(controller.store.file.disk.files)[controller.store.file.filepath := Json(VotingMachineDaoOf(after))])
  {
    var outcome :- controller.Vote(VoteFormOf(ballot));
    r := Ok(ShowVoteOutcome(outcome, lexicon));
  }

  /**
   * Answers one line. The machine is read first, and a failed read fails the
   * line; only the two vote forms go through the controller's `Vote`.
   */
  method HandleLine(line: string, controller: VotingController, lexicon: Lexicon) returns (r: Result<string>)
    modifies controller.store.Repr()
    ensures old(controller.store.Stored()).Err? ==>
      r == Err(old(controller.store.Stored()).error) && unchanged(controller.store.Repr())
    ensures old(controller.store.Stored()).Ok? && Parse(line, lexicon).Cast? ==>
      var (after, outcome) := Voted(old(controller.store.Stored()).value, Parse(line, lexicon).ballot);
      r == Ok(ShowVoteOutcome(outcome, lexicon)) && controller.store.Stored() == Ok(after)
      && (controller.store.File? ==>
            controller.store.file.disk.files ==
            old(controller.store.file.disk.files)[controller.store.file.filepath := Json(VotingMachineDaoOf(after))])
    ensures old(controller.store.Stored()).Ok? && !Parse(line, lexicon).Cast? ==>
      r == Ok(Reply(Parse(line, lexicon), old(controller.store.Stored()).value, lexicon))
      && unchanged(controller.store.Repr())
  {
    var machine :- controller.GetVotingMachine();
    var words := Split(line);
    var first, second, third := Field(words, 0), Field(words, 1), Field(words, 2);
    if first == lexicon.vote {
      if second != "" && third != "" {
        var ballot := BallotPaper(Voter(second), Some(Candidate(third)));
        BallotRoundTrip(ballot);
        r := CastBallot(ballot, controller, lexicon);
      } else if second != "" {
        var ballot := BallotPaper(Voter(second), None);
        BallotRoundTrip(ballot);
        r := CastBallot(ballot, controller, lexicon);
      } else {
        r := Ok(lexicon.candidateMissing);
      }
    } else if first == lexicon.voters {
      var text := ShowAttendenceSheet(machine.voters, lexicon);
      r := Ok(text);
    } else if first == lexicon.scores {
      var text := ShowScoreboard(machine.scoreboard, lexicon);
      r := Ok(text);
    } else if line == "" {
      r := Ok(lexicon.help);
    } else {
      r := Ok(lexicon.invalidCommand);
    }
  }
}
