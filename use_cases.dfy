/**
 * The use cases: the form a front end submits, its conversion to and from a
 * ballot, and the controller that runs a vote as read, tally, write back
 * against a storage.
 */
module UseCases {
  import opened Wrappers
  import opened Domain
  import opened Storages
  import opened FileStorage

  /** A submitted form: the candidate is a string, empty for a blank vote. */
  datatype VoteForm = VoteForm(voter: string, candidate: string)

  /** `From<BallotPaper> for VoteForm`: no candidate becomes the empty string. */
  function VoteFormOf(ballot: BallotPaper): (form: VoteForm)
    ensures form.voter == ballot.voter.name
    ensures ballot.candidate.None? ==> form.candidate == ""
    ensures ballot.candidate.Some? ==> form.candidate == ballot.candidate.value.name
  {
    VoteForm(ballot.voter.name, match ballot.candidate case Some(c) => c.name case None => "")
  }

  /** `From<VoteForm> for BallotPaper`: the empty candidate string is a blank vote. */
  function BallotPaperOf(form: VoteForm): (ballot: BallotPaper)
    ensures ballot.voter == Voter(form.voter)
    ensures ballot.candidate.None? <==> form.candidate == ""
    ensures ballot.candidate.Some? ==> ballot.candidate.value == Candidate(form.candidate)
  {
    if form.candidate == "" then BallotPaper(Voter(form.voter), None)
    else BallotPaper(Voter(form.voter), Some(Candidate(form.candidate)))
  }

  /** Form to ballot and back gives the same form. */
  lemma FormRoundTrip(form: VoteForm)
    ensures VoteFormOf(BallotPaperOf(form)) == form
  {
  }

  /** Ballot to form and back is the identity, except that a candidate with an empty name comes back as a blank vote. */
  lemma BallotRoundTrip(ballot: BallotPaper)
    ensures BallotPaperOf(VoteFormOf(ballot)) ==
      if ballot.candidate == Some(Candidate("")) then BallotPaper(ballot.voter, None) else ballot
  {
  }

  class VotingController {
    const store: Storage

    constructor (store: Storage)
      ensures this.store == store
    {
      this.store := store;
    }

    /**
     * Reads the machine, tallies the ballot, writes the machine back. A failed
     * read is returned as it is and nothing is written.
     */
    method Vote(form: VoteForm) returns (r: Result<VoteOutcome>)
      modifies store.Repr()
      ensures old(store.Stored()).Err? ==> r == Err(old(store.Stored()).error) && unchanged(store.Repr())
      ensures old(store.Stored()).Ok? ==> r == Ok(Voted(old(store.Stored()).value, BallotPaperOf(form)).1)
      ensures old(store.Stored()).Ok? ==> store.Stored() == Ok(Voted(old(store.Stored()).value, BallotPaperOf(form)).0)
      ensures old(store.Stored()).Ok? && store.File? ==>
        store.file.disk.files == old(store.file.disk.files)[store.file.filepath :=
          Json(VotingMachineDaoOf(Voted(old(store.Stored()).value, BallotPaperOf(form)).0))]
    {
      ghost var files := if store.File? then store.file.disk.files else map[];
      var stored :- store.GetVotingMachine();
      var machine := new VotingMachine(stored.voters, stored.scoreboard);
      var outcome := machine.Vote(BallotPaperOf(form));
      var after := machine.Value();
      assert (after, outcome) == Voted(stored, BallotPaperOf(form));
      assert store.File? ==> store.file.disk.files == files;
      store.PutVotingMachine(after);
      r := Ok(outcome);
    }

    /** Reads the stored machine without changing anything. */
    method GetVotingMachine() returns (r: Result<Snapshot>)
      ensures r == store.Stored()
    {
      r := store.GetVotingMachine();
    }
  }
}
