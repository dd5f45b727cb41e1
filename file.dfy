/**
 * The file-backed storage. The aggregate is converted to a plain shape of
 * strings and counts (the DAO records) before it is written as a document,
 * and converted back after it is read. The file system is a map from paths
 * to contents; the JSON text itself is abstracted to the document it holds.
 */
module FileStorage {
  import opened Wrappers
  import opened Domain

  datatype ScoreboardDao = ScoreboardDao(scores: map<string, nat>, blankScores: nat, invalidScores: nat)

  datatype VotingMachineDao = VotingMachineDao(voters: set<string>, scoreboard: ScoreboardDao)

  // ---------------------------------------------------------------------------
  // The conversions, as values
  // ---------------------------------------------------------------------------

  function ScoreboardDaoOf(board: Scoreboard): (dao: ScoreboardDao)
    ensures dao.scores.Keys == set c | c in board.scores :: c.name
    ensures forall c :: c in board.scores ==> dao.scores[c.name] == board.scores[c].value
    ensures dao.blankScores == board.blankScore.value && dao.invalidScores == board.invalidScore.value
  {
    ScoreboardDao(map c | c in board.scores :: c.name := board.scores[c].value,
                  board.blankScore.value, board.invalidScore.value)
  }

  function ScoreboardOf(dao: ScoreboardDao): (board: Scoreboard)
    ensures board.scores.Keys == set name | name in dao.scores :: Candidate(name)
    ensures forall name :: name in dao.scores ==> board.scores[Candidate(name)] == Score(dao.scores[name])
    ensures board.blankScore == Score(dao.blankScores) && board.invalidScore == Score(dao.invalidScores)
  {
    Scoreboard(map name | name in dao.scores :: Candidate(name) := Score(dao.scores[name]),
               Score(dao.blankScores), Score(dao.invalidScores))
  }

  function VotingMachineDaoOf(machine: Snapshot): (dao: VotingMachineDao)
    ensures dao.voters == set v | v in machine.voters.voters :: v.name
    ensures |dao.voters| == |machine.voters.voters|
    ensures dao.scoreboard == ScoreboardDaoOf(machine.scoreboard)
  {
    var names := set v | v in machine.voters.voters :: v.name;
    NamesCount(machine.voters.voters);
    VotingMachineDao(names, ScoreboardDaoOf(machine.scoreboard))
  }

  function VotingMachineOf(dao: VotingMachineDao): (machine: Snapshot)
    ensures machine.voters.voters == set name | name in dao.voters :: Voter(name)
    ensures machine.scoreboard == ScoreboardOf(dao.scoreboard)
  {
    Snapshot(AttendenceSheet(set name | name in dao.voters :: Voter(name)), ScoreboardOf(dao.scoreboard))
  }

  /** Distinct voters have distinct names, so the DAO keeps one name per voter. */
  lemma {:induction false} NamesCount(voters: set<Voter>)
    ensures |set v | v in voters :: v.name| == |voters|
    decreases |voters|
  {
    if voters != {} {
      var v :| v in voters;
      NamesCount(voters - {v});
      assert (set w | w in voters :: w.name) == (set w | w in voters - {v} :: w.name) + {v.name};
    }
  }

  /** Scoreboard to DAO and back gives the same scoreboard. */
  lemma ScoreboardRoundTrip(board: Scoreboard)
    ensures ScoreboardOf(ScoreboardDaoOf(board)) == board
  {
  }

  /** DAO to scoreboard and back gives the same DAO. */
  lemma ScoreboardDaoRoundTrip(dao: ScoreboardDao)
    ensures ScoreboardDaoOf(ScoreboardOf(dao)) == dao
  {
  }

  /** Machine to DAO and back gives an equal machine. */
  lemma VotingMachineRoundTrip(machine: Snapshot)
    ensures VotingMachineOf(VotingMachineDaoOf(machine)) == machine
  {
    ScoreboardRoundTrip(machine.scoreboard);
    var back := VotingMachineOf(VotingMachineDaoOf(machine));
    assert back.voters.voters == machine.voters.voters by {
      forall v | v in machine.voters.voters ensures v in back.voters.voters {
        assert v == Voter(v.name);
      }
    }
  }

  /** DAO to machine and back gives the same DAO. */
  lemma VotingMachineDaoRoundTrip(dao: VotingMachineDao)
    ensures VotingMachineDaoOf(VotingMachineOf(dao)) == dao
  {
    ScoreboardDaoRoundTrip(dao.scoreboard);
    var back := VotingMachineDaoOf(VotingMachineOf(dao));
    assert back.voters == dao.voters by {
      forall name | name in dao.voters ensures name in back.voters {
        assert Voter(name).name == name;
      }
    }
  }

  // ---------------------------------------------------------------------------
  // The conversions as the source writes them: loops filling a fresh collection
  // ---------------------------------------------------------------------------

  method ScoreboardToDao(board: Scoreboard) returns (dao: ScoreboardDao)
    ensures dao == ScoreboardDaoOf(board)
  {
    var scores: map<string, nat> := map[];
    var rest := board.scores.Keys;
    while rest != {}
      invariant rest <= board.scores.Keys
      invariant scores == map c | c in board.scores.Keys - rest :: c.name := board.scores[c].value
      decreases rest
    {
      var c :| c in rest;
      scores := scores[c.name := board.scores[c].value];
      rest := rest - {c};
    }
    dao := ScoreboardDao(scores, board.blankScore.value, board.invalidScore.value);
  }

  method ScoreboardFromDao(dao: ScoreboardDao) returns (board: Scoreboard)
    ensures board == ScoreboardOf(dao)
  {
    var scores: map<Candidate, Score> := map[];
    var rest := dao.scores.Keys;
    while rest != {}
      invariant rest <= dao.scores.Keys
      invariant scores == map name | name in dao.scores.Keys - rest :: Candidate(name) := Score(dao.scores[name])
      decreases rest
    {
      var name :| name in rest;
      scores := scores[Candidate(name) := Score(dao.scores[name])];
      rest := rest - {name};
    }
    board := Scoreboard(scores, Score(dao.blankScores), Score(dao.invalidScores));
  }

  method VotingMachineToDao(machine: Snapshot) returns (dao: VotingMachineDao)
    ensures dao == VotingMachineDaoOf(machine)
  {
    var voters: set<string> := {};
    var rest := machine.voters.voters;
    while rest != {}
      invariant rest <= machine.voters.voters
      invariant voters == set v | v in machine.voters.voters - rest :: v.name
      decreases rest
    {
      var voter :| voter in rest;
      voters := voters + {voter.name};
      rest := rest - {voter};
    }
    var scoreboard := ScoreboardToDao(machine.scoreboard);
    dao := VotingMachineDao(voters, scoreboard);
  }

  method VotingMachineFromDao(dao: VotingMachineDao) returns (machine: Snapshot)
    ensures machine == VotingMachineOf(dao)
  {
    var voters: set<Voter> := {};
    var rest := dao.voters;
    while rest != {}
      invariant rest <= dao.voters
      invariant voters == set name | name in dao.voters - rest :: Voter(name)
      decreases rest
    {
      var name :| name in rest;
      voters := voters + {Voter(name)};
      rest := rest - {name};
    }
    var scoreboard := ScoreboardFromDao(dao.scoreboard);
    machine := Snapshot(AttendenceSheet(voters), scoreboard);
  }

  // ---------------------------------------------------------------------------
  // The store
  // ---------------------------------------------------------------------------

  /** What a file holds: a well-formed document, or anything else. */
  datatype FileContent = Json(document: VotingMachineDao) | Malformed

  /** The file system: the content of every existing path. */
  class Disk {
    var files: map<string, FileContent>

    constructor (files: map<string, FileContent>)
      ensures this.files == files
    {
      this.files := files;
    }
  }

  /** The path `FileStore::new` uses. */
  const FilePath: string := "machine.json"

  class FileStore {
    const filepath: string
    const disk: Disk

    constructor Open(filepath: string, disk: Disk)
      ensures this.filepath == filepath && this.disk == disk
    {
      this.filepath := filepath;
      this.disk := disk;
    }

    /** Writes the initial machine only when nothing exists at the path yet. */
    static method Create(machine: Snapshot, filepath: string, disk: Disk) returns (store: FileStore)
      modifies disk
      ensures fresh(store) && store.filepath == filepath && store.disk == disk
      ensures filepath in old(disk.files) ==> disk.files == old(disk.files)
      ensures filepath !in old(disk.files) ==>
        disk.files == old(disk.files)[filepath := Json(VotingMachineDaoOf(machine))]
      ensures filepath !in old(disk.files) ==> store.Stored() == Ok(machine)
    {
      if filepath !in disk.files {
        var document := VotingMachineToDao(machine);
        disk.files := disk.files[filepath := Json(document)];
        VotingMachineRoundTrip(machine);
      }
      store := new FileStore.Open(filepath, disk);
    }

    /** `Storage::new` for files: `Create` at the fixed path. */
    static method New(machine: Snapshot, disk: Disk) returns (store: FileStore)
      modifies disk
      ensures fresh(store) && store.filepath == FilePath && store.disk == disk
      ensures FilePath in old(disk.files) ==> disk.files == old(disk.files)
      ensures FilePath !in old(disk.files) ==>
        disk.files == old(disk.files)[FilePath := Json(VotingMachineDaoOf(machine))]
    {
      store := Create(machine, FilePath, disk);
    }

    /** What reading the file gives: the decoded machine, or why there is none. */
    function Stored(): Result<Snapshot>
      reads disk
    {
      if filepath !in disk.files then Err(FileNotFound(filepath))
      else
        match disk.files[filepath]
        case Malformed => Err(Undecodable(filepath))
        case Json(document) => Ok(VotingMachineOf(document))
    }

    method GetVotingMachine() returns (r: Result<Snapshot>)
      ensures r == Stored()
      ensures r.Ok? <==> filepath in disk.files && disk.files[filepath].Json?
    {
      if filepath !in disk.files {
        return Err(FileNotFound(filepath));
      }
      match disk.files[filepath]
      case Malformed =>
        r := Err(Undecodable(filepath));
      case Json(document) =>
        var machine := VotingMachineFromDao(document);
        r := Ok(machine);
    }

    /** Overwrites the file with the machine's document; reading it back gives the machine. */
    method PutVotingMachine(machine: Snapshot)
      modifies disk
      ensures disk.files == old(disk.files)[filepath := Json(VotingMachineDaoOf(machine))]
      ensures Stored() == Ok(machine)
    {
      var document := VotingMachineToDao(machine);
      disk.files := disk.files[filepath := Json(document)];
      VotingMachineRoundTrip(machine);
    }
  }
}
