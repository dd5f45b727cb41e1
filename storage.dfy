/**
 * The storage capability shared by the two stores: read the whole aggregate,
 * replace it wholesale. The two implementations are the two variants of
 * `Storage`, and each operation dispatches on the variant.
 */
module Storages {
  import opened Wrappers
  import opened Domain
  import opened MemoryStorage
  import opened FileStorage

  datatype Storage = Memory(memory: MemoryStore) | File(file: FileStore) {

    /** The objects the store's operations may change. */
    ghost function Repr(): set<object>
    {
      match this
      case Memory(m) => {m}
      case File(f) => {f.disk}
    }

    /** What the next `GetVotingMachine` returns. */
    function Stored(): Result<Snapshot>
      reads Repr()
    {
      match this
      case Memory(m) => Ok(m.votingMachine)
      case File(f) => f.Stored()
    }

    method GetVotingMachine() returns (r: Result<Snapshot>)
      ensures r == Stored()
      ensures Memory? ==> r.Ok?
    {
      match this
      case Memory(m) =>
        r := m.GetVotingMachine();
      case File(f) =>
        r := f.GetVotingMachine();
    }

    /** After a put, the next get returns the machine that was put. */
    method PutVotingMachine(machine: Snapshot)
      modifies Repr()
      ensures Stored() == Ok(machine)
      ensures File? ==> file.disk.files == old(file.disk.files)[file.filepath := Json(VotingMachineDaoOf(machine))]
    {
      match this
      case Memory(m) =>
        m.PutVotingMachine(machine);
      case File(f) =>
        f.PutVotingMachine(machine);
    }
  }
}
