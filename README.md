# rustMoment voting machine, modelled in Dafny

rustMoment is a small electronic ballot box. A `VotingMachine` holds an
attendance sheet and a scoreboard: one score per candidate, a blank count and
an invalid count. A `VotingController` runs each vote as a cycle: read the
machine from a storage (in memory or in a JSON file), tally one ballot, write
the machine back. A line-oriented text protocol (`vote <voter> [candidate]`,
`voters`, `scores`) sits in front of the controller. It answers with
sentences taken from a lexicon.

The model follows the program's layers, one Dafny module each:

- `Domain` (domain.dfy) holds the value types, the `VotingMachine` class and
  `NewScoreboard`.
  - `VotingMachine.Vote` updates the machine in place. It is proved against
    the pure specification `Voted` (built from `Classify` and `Record`).
  - The tally invariant is proved about `Voted`: candidate scores plus blank
    plus invalid equal the number of voters on the sheet.
- `MemoryStorage` (memory.dfy) is the in-memory store: a class with one
  mutable field.
- `FileStorage` (file.dfy) holds the DAO records and their four conversions.
  Each conversion is written twice: as a function (its specification) and as
  the loop the source runs. It also holds the file store, over a `Disk` that
  maps paths to contents.
- `Storages` (storage.dfy) holds the storage capability as a datatype with
  one variant per store.
- `UseCases` (use_cases.dfy) holds the `VoteForm` ↔ `BallotPaper`
  conversions and the `VotingController` class.
- `Interfaces` (interfaces.dfy) holds the text protocol:
  - rendering of outcomes, of the voter roll and of the scores;
  - the parse of a line into a `Command`;
  - `HandleLine`.
- `Text` (text.dfy) holds the parts of Rust's standard library the protocol
  relies on:
  - the lexicographic order of `String` keys in a `BTreeSet` or `BTreeMap`;
  - `str::split(' ')`;
  - the decimal rendering of a `usize`.
- `Scenarios` (scenarios.dfy) replays the repository's unit tests through the
  model's contracts.
- `Wrappers` (wrappers.dfy) holds `Option` and the `Result` that stands for
  `anyhow::Result`.

Modelling choices:

- **The storage interface.** Rust's `Storage` is a trait. Here it is the
  datatype `Storage = Memory(MemoryStore) | File(FileStore)`, and each
  operation dispatches on the variant. Dafny traits are not used in this
  model. The trait's own file, src/storage.rs, is not part of this model; its
  three operations are read off the two implementations and their callers.
- **Reading gives a value.** A store hands out the machine as a `Snapshot`
  value, which is the source's `clone()`. The controller builds a fresh
  `VotingMachine` object from it, votes on it and writes its value back.
- **The file system.** The disk is a mutable map from paths to contents. A
  content is either a well-formed document (`Json(dao)`) or anything else
  (`Malformed`). The JSON text is abstracted to the document it holds.
- **Counts are `nat`.** Names are strings. The `Display` of `Voter`,
  `Candidate` and `Score` is taken to print the bare name or number, as the
  tests expect.

## Model

| member | source | states |
|---|---|---|
| Domain.NewScoreboard | src/domain/scoreboard.rs:14-25 | Keys are exactly the listed candidates, so a repeated candidate gives one entry. Every candidate starts at 0, as do blank and invalid. |
| Domain.FreshMachineConsistent | src/domain/scoreboard.rs:14-25 | A board whose counters are all zero, with an empty attendance sheet, satisfies the tally invariant. |
| Domain.Classify | src/domain/voting_machine.rs:18-41 | Checks run in the source's order, with an iff for each variant. A voter on the sheet is turned away. Otherwise no candidate is blank, a listed candidate is accepted, and anything else is invalid. The outcome carries the ballot's voter. |
| Domain.VoteChangesOneCounter | src/domain/voting_machine.rs:20-40 | After a ballot the voter is on the sheet and the candidate keys are unchanged. A repeat voter changes nothing. Otherwise exactly the outcome's counter rises by one and every other score is kept. |
| Domain.VoteKeepsConsistent | src/domain/voting_machine.rs:20-37 | One ballot preserves "sum of scores + blank + invalid = number of voters who voted". |
| Domain.VotedAllKeepsConsistent | src/domain/voting_machine.rs:18-41 | Any run of ballots from a consistent machine ends in a consistent machine. |
| Domain.Record | src/domain/voting_machine.rs:21-37 | Recording a turned-away voter changes nothing. Any other outcome adds exactly its voter to the sheet. The candidate keys never change. |
| Domain.Voted | src/domain/voting_machine.rs:18-41 | `Voted` is `Record` applied after `Classify`. The outcome names the ballot's voter, and the voter is on the sheet afterwards. The machine is left as it was exactly when the voter was already on the sheet. |
| Domain.VotedAllKeepsVoters | src/domain/voting_machine.rs:21-37 | A run of ballots never removes anyone from the attendance sheet. |
| Domain.SecondBallotRejected | src/domain/voting_machine.rs:20 | Once a voter's ballot is in, any later ballot of theirs yields `HasAlreadyVoted` and leaves the machine as it was, whatever ballots of other voters came in between. |
| Domain.VotingMachine.constructor | src/domain/voting_machine.rs:14-16 | The new machine holds exactly the given sheet and board. |
| Domain.VotingMachine.Vote | src/domain/voting_machine.rs:18-41 | The in-place update yields the state and outcome of the specification `Voted`, and it preserves the tally invariant. |
| MemoryStorage.MemoryStore.constructor | src/storages/memory.rs:12-16 | The store holds the given machine. |
| MemoryStorage.MemoryStore.GetVotingMachine | src/storages/memory.rs:18-20 | Returns `Ok` of the stored machine. It never fails and changes nothing. |
| MemoryStorage.MemoryStore.PutVotingMachine | src/storages/memory.rs:22-25 | Afterwards the store holds exactly the machine put, whatever it held before. |
| FileStorage.ScoreboardDaoOf | src/storages/file.rs:72-84 | The DAO's keys are exactly the candidates' names, each with the same count. Blank and invalid are copied. |
| FileStorage.ScoreboardOf | src/storages/file.rs:86-98 | Each DAO name becomes a candidate with the same score. Blank and invalid are copied. |
| FileStorage.VotingMachineDaoOf | src/storages/file.rs:106-116 | The DAO's voter set holds the sheet's names and has the sheet's size. The board is converted as above. |
| FileStorage.VotingMachineOf | src/storages/file.rs:118-130 | Each DAO name becomes a voter on the sheet. The board is converted back. |
| FileStorage.NamesCount | src/storages/file.rs:108-111 | Distinct voters have distinct names, so the name set has as many elements as the sheet. |
| FileStorage.ScoreboardRoundTrip | src/storages/file.rs:72-98 | Scoreboard → DAO → Scoreboard is the identity. |
| FileStorage.ScoreboardDaoRoundTrip | src/storages/file.rs:72-98 | DAO → Scoreboard → DAO is the identity. |
| FileStorage.VotingMachineRoundTrip | src/storages/file.rs:106-130 | Machine → DAO → machine gives an equal machine. |
| FileStorage.VotingMachineDaoRoundTrip | src/storages/file.rs:106-130 | DAO → machine → DAO is the identity. |
| FileStorage.ScoreboardToDao | src/storages/file.rs:72-84 | The loop that inserts one entry per candidate computes `ScoreboardDaoOf`. |
| FileStorage.ScoreboardFromDao | src/storages/file.rs:86-98 | The loop that inserts one entry per name computes `ScoreboardOf`. |
| FileStorage.VotingMachineToDao | src/storages/file.rs:106-116 | The loop over the sheet computes `VotingMachineDaoOf`. |
| FileStorage.VotingMachineFromDao | src/storages/file.rs:118-130 | The loop over the DAO's names computes `VotingMachineOf`. |
| FileStorage.FileStore.Open | src/storages/file.rs:35-37 | The store remembers its path and its disk. |
| FileStorage.FileStore.Create | src/storages/file.rs:29-38 | If a file already exists at the path, nothing is written and the old content stays. Otherwise exactly that path gets the machine's document, and reading it back gives the machine. |
| FileStorage.FileStore.New | src/storages/file.rs:43-45 | `Create` at the fixed path `machine.json`. |
| FileStorage.FileStore.GetVotingMachine | src/storages/file.rs:47-55 | Returns the decoded machine. A missing file or an undecodable content is an error. Succeeds exactly when the path holds a document. |
| FileStorage.FileStore.PutVotingMachine | src/storages/file.rs:57-62 | Overwrites only this path with the machine's document. The next read returns exactly that machine. |
| Storages.Storage.GetVotingMachine | src/storages/memory.rs:18-20 | Dispatches the read to either store. It returns what the store holds, and the memory variant never fails. |
| Storages.Storage.PutVotingMachine | src/storages/file.rs:57-62 | Dispatches the write to either store. The next read returns exactly the machine written. For a file store only its own path changes on the disk. |
| UseCases.VoteFormOf | src/use_cases.rs:19-31 | The voter name is kept. No candidate becomes the empty string, and a candidate becomes its name. |
| UseCases.BallotPaperOf | src/use_cases.rs:33-47 | The voter name is kept. The candidate is `None` exactly when the string is empty, and otherwise `Some` of that name. |
| UseCases.FormRoundTrip | src/use_cases.rs:19-47 | Form → ballot → form is the identity. |
| UseCases.BallotRoundTrip | src/use_cases.rs:19-47 | Ballot → form → ballot is the identity, except that `Some(Candidate(""))` comes back as `None`. |
| UseCases.VotingController.constructor | src/use_cases.rs:55-57 | The controller works on the given store. |
| UseCases.VotingController.Vote | src/use_cases.rs:59-64 | If the read fails, the error is returned and nothing is written. Otherwise the store then holds exactly the machine `Voted` derives from the one read, and that same outcome is returned. For a file store only its own path changes on the disk. |
| UseCases.VotingController.GetVotingMachine | src/use_cases.rs:66-68 | Returns what the store holds and changes nothing. |
| Text.Ascending | src/interfaces/cli_interfaces.rs:12 | The order a `BTreeSet<String>` iterates in. It holds every element once, in strictly ascending lexicographic order. |
| Text.Split | src/interfaces/cli_interfaces.rs:45 | `split(' ')` always yields at least one field. |
| Text.SplitJoin | src/interfaces/cli_interfaces.rs:45 | The fields hold no space, and joining them with single spaces gives the line back. |
| Text.JoinSplit | src/interfaces/cli_interfaces.rs:45 | Splitting the join of space-free words gives the words back. |
| Text.SplitFirstWord | src/interfaces/cli_interfaces.rs:45-46 | A space-free word followed by a space is the first field, and the rest splits on its own. |
| Text.NatToString | src/interfaces/cli_interfaces.rs:21-24 | A count renders as at least one decimal digit, with no leading zero except for 0 itself. |
| Text.NatToStringRoundTrip | src/interfaces/cli_interfaces.rs:21-24 | Reading the rendered digits back gives the count. |
| Interfaces.ShowVoteOutcome | src/interfaces/mod.rs:10-19 | Each of the four outcomes renders as a sentence that starts with the voter's name and a space. An accepted vote's sentence ends with a full stop. |
| Interfaces.OutcomeTextNamesVoter | src/interfaces/mod.rs:10-19 | Every outcome renders as the voter's name, a space and the outcome's phrase. So the first word of the answer is the voter. |
| Interfaces.AcceptedPhrase | src/interfaces/mod.rs:12-14 | An accepted vote's phrase is the lexicon's phrase, a space, the candidate's name and a full stop. |
| Interfaces.ShowVoteOutcomeInjective | src/interfaces/mod.rs:10-19 | Under a lexicon whose phrases cannot be confused, two outcomes that render alike are the same outcome. Both renderings then say the same voter, kind and candidate. |
| Interfaces.ShowAttendenceSheet | src/interfaces/cli_interfaces.rs:10-16 | The loop returns the title followed by `- name\n` for every voter, in ascending order. |
| Interfaces.ShowScoreboard | src/interfaces/cli_interfaces.rs:18-26 | The loop returns the title and `name: n\n` per candidate in ascending order. Then comes the blank line, then the invalid line with no final newline. |
| Interfaces.VoterLinesAppend | src/interfaces/cli_interfaces.rs:12-14 | Appending one voter's line to a roll of `names` gives the roll of `names + [name]`. |
| Interfaces.ScoreLinesAppend | src/interfaces/cli_interfaces.rs:20-22 | Appending one candidate's line to a tally of `names` gives the tally of `names + [name]`. |
| Interfaces.Parse | src/interfaces/cli_interfaces.rs:45-73 | Only the first three fields matter, and a missing field is empty. A cast ballot always has a non-empty voter name and, if any, a non-empty candidate name. |
| Interfaces.ParsedNamesSpaceFree | src/interfaces/cli_interfaces.rs:45-61 | The voter and candidate names of a cast ballot never hold a space, since they are fields of the split line. |
| Interfaces.ParseVoteFor | src/interfaces/cli_interfaces.rs:49-55 | `vote v c …` with non-empty `v` and `c` casts `(v, Some(c))`, whatever follows. |
| Interfaces.ParseBlankVote | src/interfaces/cli_interfaces.rs:56-61 | `vote v` casts a blank ballot for `v`. |
| Interfaces.ParseMissingVoter | src/interfaces/cli_interfaces.rs:62-63 | `vote` alone casts nothing and asks for the voter. |
| Interfaces.ParseEmptyLine | src/interfaces/cli_interfaces.rs:69-70 | The empty line asks for help. |
| Interfaces.ParseIgnoresExtraWords | src/interfaces/cli_interfaces.rs:45-48 | Words after the third never change the command. |
| Interfaces.CastBallot | src/interfaces/cli_interfaces.rs:55 | The ballot goes through the controller's `Vote`, and the answer is the rendered outcome. A failed read is returned as it is. For a file store only its own path changes on the disk. |
| Interfaces.HandleLine | src/interfaces/cli_interfaces.rs:39-75 | A failed read fails the line and writes nothing. A vote command stores the `Voted` machine and answers with the rendered outcome; for a file store only its own path changes on the disk. Every other command leaves the store untouched and answers with the help text, the invalid-command text, the missing-voter text, or the roll or tally of the machine read. |
| Scenarios.MemoryStoreKeepsMachine | src/storages/mod.rs:4-35 | A memory store reads back the machine it was created with. |
| Scenarios.FileStoreCreatedTwice | src/storages/file.rs:155-178 | Two `create` calls on the same path read back the same machine. |
| Scenarios.NormalVote | src/use_cases.rs:88-141 | A first ballot for a listed candidate is accepted, and the stored board shows a score of 1. |
| Scenarios.AlreadyVoted | src/use_cases.rs:143-197 | A ballot from a voter already on the sheet is turned away, and the stored board is unchanged. |
| Scenarios.ControllerInvalidVote | src/use_cases.rs:199-250 | A ballot for a candidate the board does not list yields `InvalidVote`, and the stored board has no candidates, blank 0 and invalid 1. |
| Scenarios.ControllerBlankVote | src/use_cases.rs:252-305 | A ballot without a candidate yields `BlankVote`, and the stored board keeps the candidate at 0 with blank 1 and invalid 0. |
| Scenarios.NoCommand | src/interfaces/cli_interfaces.rs:93-117 | The empty line answers with the help text. |
| Scenarios.ShowVoters | src/interfaces/cli_interfaces.rs:119-143 | Before any vote the roll is the title alone. |
| Scenarios.ShowScores | src/interfaces/cli_interfaces.rs:145-169 | Before any vote the tally is the title, `c: 0`, and blank and invalid at 0. |
| Scenarios.VoteLine | src/interfaces/cli_interfaces.rs:171-197 | `vote v c` for a listed candidate answers `v <accepted> c.`. |
| Scenarios.VoteBlankLine | src/interfaces/cli_interfaces.rs:199-225 | `vote v` answers `v <blank>`. |
| Scenarios.MissingVoterLine | src/interfaces/cli_interfaces.rs:227-251 | `vote` alone answers with the missing-voter text. |
| Scenarios.InvalidCommandLine | src/interfaces/cli_interfaces.rs:253-277 | A first word that is no keyword answers with the invalid-command text. |

## Left out

- The network, stdio and web front ends (src/services/*) and the HTML/axum
  glue are sockets, task spawning and templating. The model is sequential,
  so the lost update between two unsynchronised read–tally–write cycles is
  not modelled. Each controller call is taken as one atomic step.
- The bootstrap is left out: command-line parsing, `main`, and the stdin loop
  in src/app_builder.rs, which repeats the dispatch modelled by `HandleLine`.
- The `println!` calls inside `vote` are console output only.
- Real file I/O and JSON encoding are left out. Opening, creating, reading
  and writing a file are updates of the `Disk` map, and serde's text is
  abstracted to the document it encodes.
- A write or create that fails (disk full, permissions) is not modelled.
  Every put and create succeeds.
- UseCases.VotingController.Vote does not restate the tally invariant. It
  follows from its postcondition through `Domain.VoteKeepsConsistent`, which
  `Domain.VotingMachine.Vote` also ensures.
- `usize` overflow of the `+= 1` counters is not modelled. Counts are
  unbounded naturals.
- The two lexicon tables (French and English) are left out. The lexicon is a
  parameter: a record of the fourteen phrases that `Lexicon` declares.
  - The protocol scenarios therefore state each test for any lexicon whose
    three keywords are distinct single words, and for any space-free voter
    and candidate names.
  - They do not check the French literals. The invalid-command test expects
    a phrase without the trailing newline the French table has.
- The command protocol passes `controller.clone()` to `vote`. The model lets
  the vote act on the controller's own store, which is what the file store
  (one shared file) does. With a cloned in-memory store, the vote would be
  lost once the clone is dropped; that is not modelled.
- `VotingMachine::get_scoreboard` and `get_voter` are field reads. The model
  reads the `Snapshot` fields directly.
- `show_vote_outcome` exists twice, in src/interfaces/mod.rs:10-19 and
  src/interfaces/cli_interfaces.rs:28-37. The two copies are identical, so
  one function `ShowVoteOutcome` models both.
- Domain tests that only restate the four `vote` branches are not replayed.
  `Domain.Classify` and `Domain.VoteChangesOneCounter` cover them for all
  inputs.

Behaviour one might expect that the code does not have; the model follows
the code:

- **Create over an unreadable file.** `create` does not fail when a file
  exists but cannot be decoded. The code (src/storages/file.rs:30) only
  checks that the path exists, so `Create` succeeds and leaves the content
  as it was. The next read reports it as undecodable.
- **Atomic writes.** Writes are not atomic: the code recreates the file and
  writes into it. The model's write is a single update of the disk map, and
  failed writes are left out (see above).
- **Empty voter names.** Nothing in the controller rejects them. The text
  protocol never produces one (`Interfaces.Parse` ensures a non-empty
  voter), but the controller accepts any `VoteForm`, as the code does.
