/** The in-memory storage: one field holding the aggregate's value. */
module MemoryStorage {
  import opened Wrappers
  import opened Domain

  class MemoryStore {
    var votingMachine: Snapshot

    constructor (machine: Snapshot)
      ensures votingMachine == machine
    {
      votingMachine := machine;
    }

    /** Gives back (a copy of) the stored machine; never fails and changes nothing. */
    method GetVotingMachine() returns (r: Result<Snapshot>)
      ensures r == Ok(votingMachine)
    {
      r := Ok(votingMachine);
    }

    /** Replaces the stored machine, whatever it was. */
    method PutVotingMachine(machine: Snapshot)
      modifies this
      ensures votingMachine == machine
    {
      votingMachine := machine;
    }
  }
}
