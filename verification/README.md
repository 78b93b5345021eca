# The proof-request pipeline of the TEE prover server, as a verified step machine

A request enters through `submit_request`, which reads the shared secret of an earlier
`hello`, decrypts and validates the call, inserts a row and sends the request into a
bounded queue. A spawned file job writes `./tmp_<uuid>/input.json`; a second queue leads to
a spawned witness job; a third queue leads to one proof worker, which stores the proof in
the row and removes the folder. Any number of handlers and jobs interleave, all of them
share one table, one directory tree and one LRU store, no UPDATE looks at the old status,
and reading a secret does not consume it.

The project models this as one state machine and proves what holds in every state that any
schedule can reach. `Machine.dfy` has one action for what one job does between two points
at which it may be suspended; the outcomes of foreign programs, files and the database are
part of the action. `Jobs.dfy`, `Sessions.dfy`, `Answers.dfy` and `Flow.dfy` hold the parts of the
inductive invariant, `JobSteps.dfy` its preservation action by action, `Runs.dfy` the
induction over runs, `Frames.dfy` what each action leaves alone, `Handlers.dfy` the calls and
their handlers, `Theorems.dfy`, `Drain.dfy`, `Replies.dfy`, `Sources.dfy`, `Faults.dfy` and
`Removal.dfy` the results. `Lru.dfy` is the agreement
cache as a value with its theorems over operation traces, `Proofs.dfy` the table with its
notification trigger, `Paths.dfy` the path arithmetic and the startup table of circuits.
`Store.dfy`, `Parts.dfy` and `Server.dfy` are the objects that change in place; every `On...`
method of `Server` but `OnFault`, a part of several, is one action and changes the value of
the object exactly as the machine says, and `Perform` and `Run` put them together.

Two facts carry the rest. The primary key lets one handler through per request, and from
there the request is passed on linearly, so that one place at a time holds it
(`Theorems.Ownership`). And the textual form of request identifiers is injective, so the
folder of one request is never that of another (`Paths.NamesInjective`, used by
`Parts.Workspace`, which keeps the tree by path and is proved equal to a tree by request).

## Assumptions

- A database error means that the statement had no effect.
- Channels stay open, handlers are not cancelled, and the process does not stop in between.
- Standard error of the two witness commands is UTF-8.
- The bytes of `input.json` are in the file when `FileGenerator::run` returns. The code calls
  `write` once and does not flush (src/generator/file_generator.rs:38-42), and
  `tokio::fs::File` hands the buffer to a blocking thread; both that `write` takes the whole
  buffer and that this thread is done in time are assumed. `Theorems.FreshFolders` depends
  on it.
- When the server starts, a `./tmp_<uuid>` folder belongs to a request that has a row. The
  table itself need not be empty.
- A witness program that reports success and wrote a file wrote a witness for the input it
  read; a prover that reports success and wrote both files wrote a proof for the witness it
  read. Either may fail, may write nothing, and may answer differently each time.
- Directory entries are plain names.
- `Utc::now()` does not run backwards from one reading to the next. It is read before the
  statement that stores it, and statements of different requests may be carried out in any
  order: a task carries the time it has read until its statement is done.

## Where the code and its documentation differ

The README of the repository gives `/zkeys` as the default folder of proving keys (line 83);
the code has `./zkeys` (src/args.rs:22). It matters: the path of a key is joined to that
folder twice, and the path given to the prover is the one that startup checked exactly when
the folder is absolute or empty (`Paths.DoubleJoin`, `Theorems.ProverKey`); the default of
the code is neither (`Paths.RelativeKeyFolderDoubles`). The container passes `/zkeys`.

## Model

| member | source | states |
|---|---|---|
| Theorems.Provenance | src/main.rs:116-204 | In every reachable state a row with a proof is an unchanged row of an earlier run, or its proof and public inputs were made with the key of the circuit of its one admitted submission, from a witness for that submission's inputs. |
| Theorems.Ownership | src/server.rs:366-401 | No two places (handler after INSERT, three queues, file and witness jobs, worker) hold one request; no request is ever admitted twice; the admitted ones are exactly the rows of this run. |
| Theorems.LifecycleAndColumns | src/db/mod.rs:52-163 | The statuses written for a row form one of the allowed histories; proof, public inputs, reason and the three stamps are set exactly as the status says; the stamps of a row are in order of time, though each is read before its statement and statements of different rows commit in any order; the descriptive columns are those of the submission. |
| Sources.RowSources | src/db/mod.rs:25-163 | The contents of a row come from actions of the run: the creation time was read by the handler of the admitted call, the witness time when the witness program of the request ended, proof, public inputs and proof time are what its prover left and what was read then, and the reason is the last fault an action of its own reported, in its words. |
| Sources.ProverOutcome | src/db/mod.rs:76-125 | After a successful prover, both files present and well-formed go on to be stored as they parse; otherwise the job fails with the first of the four things that went wrong. |
| Sources.FileOutcomes | src/generator/file_generator.rs:34-42 | An existing folder is left as it is, a created file is empty whatever was there, a written one holds the submitted inputs; a folder is removed, or what is left of it stays. |
| Sources.LeftBehind | src/utils.rs:34-38 | A folder of this run that nobody holds is there exactly if an action failed to remove it; a row whose job has ended is not terminal exactly if the database refused to fail it. |
| Theorems.RowMoves | src/db/mod.rs:123-163 | A step leaves a row alone or takes its status one allowed step on: terminal rows and rows of earlier runs never change. |
| Theorems.Conservation | src/utils.rs:34-38 | The rows of this run are partitioned: each is held at exactly one place or its job has ended, never both; ended is the same as settled, and each job ends once. A row that is not terminal is held unless the database refused to fail it; what is held and not being cleaned up is not terminal. |
| Theorems.NotificationReplay | setup.sql:18-56 | Every statement was notified, and the last payload per request rebuilds the table from the rows the run started with. |
| Theorems.NoLeftovers | src/main.rs:191-202 | But for requests of earlier runs, the folders of requests that nobody holds are exactly those whose removal failed. |
| Theorems.FreshFolders | src/generator/file_generator.rs:31-43 | A file job never finds a folder; from writing the input to storing the proof the folder holds exactly the submitted input, and the prover works on the witness in the folder. |
| Theorems.FilesStable | src/generator/witness_generator.rs:52-59 | In one step, each file of a folder changes only by the stage of the same request that writes it, until the folder is removed. |
| Theorems.WitnessStable | src/generator/proof_generator.rs:23-30 | Over a run: from the successful end of a witness program to the start of its prover, `output.wtns` is the file that program left, or still missing if it left none, and it is the file the prover reads. |
| Theorems.Isolation | src/utils.rs:30-32 | An action for one request leaves row, folder, history, admission and marks of every other request as they are. |
| Handlers.SubmitOutcome | src/server.rs:152-165 | A call with a nonce of other than 12 or a tag of other than 16 bytes changes nothing; any other gets a handler of its own. |
| Replies.ReadOutcome | src/server.rs:169-262 | When a handler reads its key, the call goes on to the INSERT with its submission, key and time if it decrypts under the key present (32 bytes long) to a submission of an admitted type and a known circuit, and is refused otherwise. |
| Replies.InsertOutcome | src/server.rs:366-388 | An INSERT the database carries out for a request without a row admits the call and writes the pending row; any other is refused and leaves no trace in the table. |
| Replies.ValidCall | src/server.rs:169-402 | Over runs: a valid call whose INSERT is carried out for a request without a row, whatever happens in between, is admitted with what it decrypts to, and answered with success by the time the server is idle. |
| Replies.CallsAnswered | src/server.rs:166-402 | Every call with the right lengths is in the hands of its handler or has been answered, never both and never twice; in an idle server all have been. |
| Replies.AdmittedAnswered | src/server.rs:388-402 | The handler of an admitted call is on its way to answer with success or has done so; in an idle server it has. |
| Theorems.SessionKey | src/server.rs:152-206 | What is admitted is a call that was made, with a 12-byte nonce and a 16-byte tag; the admitted submission is what the call decrypts and parses to, with an admitted type and a known circuit, under the secret of the latest successful `hello` of that request before the key was read. |
| Theorems.OneSuccess | src/server.rs:366-402 | A call is answered with success if and only if it is the one that was admitted; of all calls for a request, racing or not, at most one is. |
| Theorems.AgreementConsumed | src/server.rs:378-402 | After a call has returned, an agreement present for its request was made by a later `hello` than its removal. |
| Removal.RemovalTakes | src/server.rs:401 | The removal of a call takes whatever agreement is present for its request and no other: the one that was there when the call looked for its key, unless a `hello` was accepted since; then, and only then, one the call never saw. |
| Removal.RemovalRace | src/store.rs:41-44 | From any start, two calls for one request that do not decrypt lead to a state in which one of them is about to remove the agreement of a later `hello` that no call has read. |
| Removal.RaceRefuses | src/server.rs:170-179 | After that removal a call that is valid under the secret of the accepted `hello` finds no key and is refused. |
| Theorems.AgreementSurvives | src/main.rs:93 | Within a run, after an accepted `hello` or a successful read of a key, an agreement left alone is still there with the same secret if fewer than a thousand others were agreed on or read since; exactly then when nothing was removed. |
| Theorems.RunLikeMap | src/store.rs:20-44 | In a run that never has more than a thousand live agreements, every `hello` is accepted or refused and every read of a key answered as by a plain insert-if-absent map. |
| Theorems.NoPanic | src/main.rs:159-160 | The key lookup of the witness job never fails; every job up to the end of the witness program carries the circuit name of the submission, every later one up to the prover the key path of that circuit. |
| Theorems.RunArtifacts | src/generator/witness_generator.rs:23-28 | When the startup loop has built the table: a job on its way to the witness carries the circuit of its submission, and a folder of that circuit was listed; the program the job runs, which `Provenance` speaks of, is the one inside such a folder if and only if the folder ends in `_cpp`. A later job has a key that existed at startup and carries its path if and only if the folder of keys is absolute or empty. |
| Theorems.ProverKey | src/main.rs:159-171 | The key path given to the prover is the one checked at startup if and only if the folder of keys is absolute or empty. |
| Theorems.BoundedAndOrdered | src/main.rs:46-48 | No queue exceeds ten entries, only the worker proves, and it finishes requests in the order in which they entered its queue. |
| Drain.StepDecreases | src/main.rs:116-204 | Every action that is not a new call leaves strictly less work. |
| Drain.RunsEnd | src/main.rs:116-204 | A run without new calls is no longer than the work outstanding at its start, under any schedule. |
| Drain.SendsAndStatements | src/main.rs:46-48 | A send is enabled exactly while fewer than ten entries wait in its queue; statements and removals wait for nothing and may go either way. |
| Drain.Progress | src/main.rs:116-204 | While anything is in flight, some action other than a call is enabled: full queues cannot block everyone. |
| Drain.Drains | src/main.rs:116-204 | Any scheduler and outside world that keep answering bring the server to an idle state. |
| Drain.Drained | src/main.rs:187-203 | In an idle server a row of this run is terminal if and only if its failing was not refused and carries a proof if and only if its request met no fault, a folder is left if and only if its removal failed, and the worker is done with all it was sent. |
| Faults.Blame | src/main.rs:123-200 | A row of this run is failed only if a program, file operation or statement of its own job reported a fault, and carries a proof only if none did; exactly so once its job has ended. |
| Faults.FaultFree | src/main.rs:116-204 | In a run without faults that has come to rest, every row of the run carries a proof made for its submission, and no folder is left but those that could not be removed. |
| Faults.SolvableKept | src/main.rs:116-204 | If every request in flight or about to be admitted has a witness and each of its witnesses a proof, every action other than a new call leaves that so. |
| Faults.FaultlessProgress | src/main.rs:116-204 | If every request in flight or about to be admitted has a witness and each of its witnesses a proof, then while anything is in flight some action other than a call is enabled that reports no fault. |
| Faults.CompletesUnder | src/main.rs:116-204 | After a run without faults that has left only such requests, every scheduler that goes on without faults while that is possible brings the server to rest, within the work there was, with a proof in every row of the run. |
| Faults.Completes | src/main.rs:116-204 | There is such a scheduler: after a run without faults that has left only such requests, a continuation without calls and faults ends at rest with a proof in every row of the run. Nothing is asked of inputs that nobody has submitted. |
| Faults.NeverProven | src/main.rs:155-203 | A request none of whose witnesses has a proof never gets one, and its job ends by a fault of its own. |
| Runs.InvKept | src/main.rs:111-205 | Every action keeps the whole invariant. |
| Runs.RunInv | src/main.rs:111-205 | The invariant holds after every run. |
| JobSteps.NobodyHolds | setup.sql:2 | A request without a row is held nowhere, so a successful INSERT creates the only job. |
| JobSteps.InsertRowJobs | src/server.rs:366-386 | The INSERT, granted or refused, keeps the invariant of jobs, rows and folders. |
| JobSteps.AwaitWitnessJobs | src/main.rs:155-181 | Either end of the witness program keeps the invariant of jobs, rows and folders. |
| JobSteps.AwaitProofJobs | src/main.rs:191-200 | Either end of the prover, and reading its files back, keeps the invariant; what is about to be stored was made for the submission. |
| JobSteps.StoreProofJobs | src/db/mod.rs:123-142 | Storing a proof, or failing to, keeps the invariant, with provenance. |
| JobSteps.FailRowJobs | src/db/mod.rs:144-163 | Failing a row, or being refused, keeps the invariant. |
| JobSteps.RemoveDirJobs | src/utils.rs:34-38 | Removing the folder, or failing to, ends the job and leaves its request settled. |
| Sessions.HelloSessions | src/server.rs:126-139 | A `hello`, accepted or refused, keeps what is known of session keys and returned calls. |
| Sessions.ReadKeySessions | src/server.rs:169-272 | Reading the key and validating the call keeps it; the key read is the latest secret. |
| Sessions.RemoveAgreementSessions | src/server.rs:401 | The removal on every exit keeps it; the returned call has consumed its agreement. |
| Answers.InsertRowAnswers | src/server.rs:366-386 | The INSERT decides, for one handler only, that its call will succeed. |
| Sessions.StoreOfRun | src/store.rs:20-44 | Along a run the store is driven by nothing but its three operations, in the order of the run. |
| Flow.RecvProofFlow | src/main.rs:188-189 | Receiving keeps the single worker, the order of its queue and the bounds. |
| Proofs.UpdateReplay | setup.sql:22-41 | An UPDATE keeps a listener's copy exact if and only if it changes the status or changes nothing. |
| Lru.NeverOverwritten | src/store.rs:27-31 | A key looked up after an operation has the value it had before, unless the operation inserted it when absent. |
| Lru.Survival | src/store.rs:20-44 | The entry touched last survives a window in which it is left alone and fewer than the capacity of other keys are touched; without removals, exactly then. |
| Lru.AnswersLikeMap | src/store.rs:20-44 | On traces whose live agreements fit the capacity, every answer is that of a plain insert-if-absent map. |
| Store.LruStore.InsertNewAgreement | src/store.rs:20-34 | Duplicates are refused without effect, other inserts may evict the least recently used entry. |
| Store.LruStore.GetSharedSecret | src/store.rs:36-39 | Returns the secret and makes its entry the most recent; a miss changes nothing. |
| Store.LruStore.RemoveAgreement | src/store.rs:41-44 | Removes exactly the entry of the request. |
| Paths.HyphenatedRoundTrip | src/utils.rs:30-32 | The hyphenated form of a request identifier (section 4 of RFC 9562) can be read back. |
| Paths.NamesInjective | src/utils.rs:30-32 | Distinct requests have distinct textual keys and distinct folders. |
| Paths.Groups | src/utils.rs:30-32 | The textual form has its digits in groups of eight, four, four, four and twelve; the folder is `./tmp_` and that. |
| Paths.TextForm | src/utils.rs:30-32 | The digits are lower case, high half first, shown at one identifier. |
| Paths.JoinText | src/main.rs:79 | Joining an absolute path gives that path; any other follows the base after exactly one separator. |
| Paths.DoubleJoin | src/main.rs:79-160 | Joining the folder of keys twice gives the path joined once if and only if the folder is absolute or empty. |
| Paths.RelativeKeyFolderDoubles | src/args.rs:22 | With the default folder of the code the path given to the prover is another one. |
| Paths.FolderListed | src/main.rs:72-77 | The folder the witness stage goes back to for a name is a listed one if and only if a listed folder of that name ends in `_cpp`. |
| Paths.ExeInFolder | src/generator/witness_generator.rs:23-26 | The program run for a circuit is the one inside a folder of that circuit if and only if the folder ends in `_cpp`. |
| Paths.StripThenAppend | src/generator/witness_generator.rs:23-26 | Cutting four characters and appending `_cpp` gives the folder back if and only if its name ends in `_cpp`. |
| Paths.BuildZkeyTable | src/main.rs:68-87 | The startup loop succeeds if and only if every listed folder has at least four characters and, without its last four, names an existing `<name>.zkey` in the folder of keys; the table then has exactly these entries. |
| Paths.KeysDistinct | src/main.rs:77-86 | Different circuits of the startup table have different key paths. |
| Paths.ProgramText | src/generator/witness_generator.rs:23-26 | The program of a circuit is `<name>_cpp/<name>` in the folder of circuits. |
| Paths.ArtifactsCoherent | src/main.rs:72-87 | For folders named with `_cpp` and an absolute folder of keys, the later stages go back to the folder and the key path that startup saw. |
| Parts.Workspace.Write | src/generator/file_generator.rs:31-43 | Writing under the path of one request changes the folder of that request and no other. |
| Parts.Workspace.Remove | src/utils.rs:37 | Removing the path of one request removes the folder of that request and no other. |
| Parts.ProofsTable.CreateProofStatus | src/db/mod.rs:12-50 | Succeeds if and only if the database answers and the key is new; inserts the pending row and notifies it. |
| Parts.ProofsTable.UpdateRow | setup.sql:18-50 | Replaces one row; notifies it only if the status differs. |
| Parts.ProofsTable.SetWitnessGenerated | src/db/mod.rs:52-74 | Sets status and witness time of the row, whatever its status was. |
| Parts.ProofsTable.UpdateProof | src/db/mod.rs:123-142 | Sets proof, public inputs, status and proof time of the row, whatever its status was. |
| Parts.ProofsTable.FailProof | src/db/mod.rs:144-163 | Sets status and reason of the row, whatever its status was; which reason a row ends up with is `Sources.RowSources`. |
| Parts.Channel.Send | src/main.rs:46-48 | Appends to what was sent; the buffer stays within ten entries and equals what was sent and not received. |
| Parts.Channel.Receive | src/main.rs:46-48 | Takes the oldest entry not yet received. |
| Server.Server.constructor | src/main.rs:89-99 | The server starts from any rows and any folders that requests of earlier runs have left, in a state from which all runs start. |
| Server.Server.OnHello | src/server.rs:126-139 | The insert of `hello`, accepted if and only if no agreement was present. |
| Server.Server.OnSubmit | src/server.rs:152-165 | A call with a wrong nonce or tag length has no effect. |
| Server.Server.OnReadKey | src/server.rs:169-272 | Reads the key and validates the call, up to reading the clock for the INSERT. |
| Server.Server.OnInsertRow | src/server.rs:366-386 | Inserts the row or goes on to remove the agreement. |
| Server.Server.OnSendFile | src/server.rs:388-390 | Passes the request into the first queue. |
| Server.Server.OnRemoveAgreement | src/server.rs:401-402 | Removes the agreement and returns. |
| Server.Server.OnMakeDir | src/generator/file_generator.rs:34 | Makes the folder; one that exists is left as it is. |
| Server.Server.OnWriteInput | src/generator/file_generator.rs:38-42 | Writes the submitted input. |
| Server.Server.OnAwaitWitness | src/main.rs:155-181 | The end of the witness program, the key lookup, reading the clock, and the failure path. |
| Server.Server.OnMarkWitness | src/main.rs:162-166 | Sets the witness status or starts the cleanup. |
| Server.Server.OnStartProof | src/generator/proof_generator.rs:23-30 | Requires the witness file before the prover starts. |
| Server.Server.OnAwaitProof | src/db/mod.rs:76-125 | The end of the prover; reads both files back, parses them and reads the clock, or starts the cleanup. |
| Server.Server.OnStoreProof | src/db/mod.rs:126-142 | Stores what was read back, or starts the cleanup. |
| Server.Server.OnFailRow | src/utils.rs:34-36 | First half of the cleanup. |
| Server.Server.OnRemoveDir | src/main.rs:201-202 | Removes the folder, after success and after failure. |
| Server.Server.Run | src/main.rs:111-205 | A whole run under any schedule ends in the state the machine computes, with the invariant. |

## Left out

- Texts of errors from libraries, programs and the database: parameters of the actions and of the environment; the texts the code puts around them are modelled.
- Key agreement, AES-GCM and attestation tokens: library and network calls; decryption and parsing are uninterpreted partial functions, and `hello` is modelled from the insert of its secret on.
- The witness program, `chmod` and the prover: foreign processes, modelled by what they may answer; the existence check of the witness executable is part of the `chmod` action.
- JSON-RPC plumbing, response texts, Secret Manager, argument parsing and printing.
- The ten proof types and the build features: one opaque number and one admission predicate.
- Columns `version`, `user_defined_data` and `self_defined_data`, which the INSERT names and setup.sql does not create, and `identifier`, which nothing sets.
- The branches taken when a channel is closed, and the loss of in-memory work when the process stops.
- Partial writes, directory permissions, and a `create_dir_all` that fails half-way.
- PostgreSQL limits and pool size: the table is a map with a primary key and atomic single-row statements; a refused UPDATE is an action outcome.
- Names of folders are sequences of characters; the byte-index cut of src/main.rs:77 agrees with the model for ASCII names.
- The internals of the LRU library: the cache is a lookup table with a recency list.
