# Proofs about the study controller, the installer, the scorer and two protocols

This Dafny project models four parts of the repository and proves what they promise over
every input, every run and every crash point.

**The study controller and its ledger** (`Ledger`, `LedgerText`, `StudyEvents`,
`StudyMachine`, `StudyHistory`, `StudyDisk`, `StudyRuns`, `StudyRecovery`,
`StudyPromises`, `StudyController`). The journal is a hash-chained ledger with an
external anchor and numbered checkpoints; runs have write-once start and terminal
receipts. `StudyDisk` lists the durable operations, each atomic, and the invariant of
every state a death between two of them can leave. `StudyRunController` is the class
whose methods perform them: the process dies when its durable operations run out
(`fuse`), never otherwise, and a fresh process (`Restart`) goes on from the disk. With
enough operations left the answer of every public method is stated by the disk it found:
`Recovered` is the state once every published start is journaled, and `ReserveAnswer`,
`BeginAnswer`, `TerminalAnswer`, `ReleaseAnswer` and `SealAnswer` say in which states
each call succeeds and with which reason it is turned down otherwise; `RecoveryCost`
bounds the operations that recovery takes. `StudyMachine.Step` is the abstract machine;
the replayer `DeriveState` is a loop proved equal to it, and the writer's methods are
proved to append only what it accepts. `Sound()` says that the disk is reachable and
that no run was ever launched twice. The schedule and `maxParallel` are parameters.

**The installer** (`InstallFiles`, `InstallCas`, `InstallRollback`, `InstallDriver`,
`AgentsGuidance`, `TomlScan`, `ConfigRewrite`, `ConfigBlock`, `ConfigUpdate`). The file
system maps paths to objects with an identity and a payload. Between any two installer
steps others may create, edit, move or delete at public names (`Meddle`), any step may
be interrupted (`interrupts`, which also records the `Point` where the latest interrupt
fell), and any rename, write or read may fail of itself (`faults`; `failed` is the
latest such step, what it raised, and the target whose activation it belongs to).
`FileSystem.Valid()` holds at the end of every method whatever others do: every object
they ever put or could see at a public name is still somewhere, unchanged unless they
changed it. On a `Quiet()` system disturbed at most once, by an interrupt or a failing
step, `Install` either installs everything, with every legacy object in its archive and
every other public name as it was (`Installed`), or is rolled back, and then every
public name is back and nothing is reported if and only if the interrupt point and the
failing step are `Recoverable`: the point is none of the three gaps of the journal, and
the step is not `Lost` to the mutation it belongs to. What is left otherwise is stated
exactly (`Leaves`). The two text rewriters work on the characters of AGENTS.md and
config.toml.

**The scorer and its validator** (`Rounding`, `Ordering`, `ScoreFigures`,
`ScoreContract`, `RunRecords`, `PublicPlan`, `Tallies`, `Pairing`, `Scorer`,
`ScoringResults`, `FigureSources`, `PairSources`). Two separate calculations of the same
statistics over `real`, every rounded value an integer number of millionths, ties to
even. The square root is any `a.sqrt` with `a.Exact()`: non-negative, squaring to its
argument. What the figures mean is stated apart from the code that computes them:
`FigureSources` and `PairSources` write each one over the fields of the runs, and
`ScoreFigures` says what the intervals and the percentiles are.

**The broker and the index migration** (`GuestPaths`, `BrokerEvents`, `Broker`,
`BrokerCodec`, `Migration`, `MigrationStore`). Tool calls over a ledger file of text
lines, across restarts, by a process that may die before any append and whose appends
may fail, before or after the event is written; and three documents published and
replaced one at a time by a process that may die between any two. Of a broker event only
the working directory is free text: the premise `Carries` says that a line holds a raw
separator exactly when that text does, as identifiers, digests and numbers never do.
`BrokerCodec` gives an encoding that meets it, and what is assumed of canonical JSON
(`Sound`).

Digests are free constructors (`Sha(document)`, `OfEntry(body)`, `OfAnchor(body)`), so
they are injective and never the zero digest. Clocks, operating-system failures, other
processes and interrupts are nondeterministic choices.

## What the proofs found

Each of these holds of the code as it is, the figures of the scorer taken as exact reals;
the rows named give the exact condition.

- A ledger entry that `append_ledger_event` accepts may be unreadable: canonical JSON
  leaves U+0085, U+2028 and U+2029 raw, and only the old bytes are measured against the
  size cap. Read-back works if and only if neither happens (`AppendReadsBack`).
- The broker hands such text to its ledger: it accepts a working directory of `a`, any
  one of these characters, and `b`, and once a command that ran there is recorded no
  process can read the ledger again (`SeparatorBreaksTheLedger`). Left alone, a call is
  closed and the ledger stays acceptable if and only if the directory holds no such
  separator, or no command was recorded, and the grown file fits the size cap
  (`CallTool`).
- `score_runs` refuses its own document when a summary's three cost totals all lie on the
  same kind of rounding tie, for instance half a millionth of a dollar each
  (`CostsAccepted`, `HalfMicroDollarsAreRefused`, `ScoredExactlyWhen`). One component in
  whole millionths rules it out (`WholeCostsNeverTie`). In exact arithmetic, and
  for accepted inputs, that is the only refusal besides a counter out of range.
- One third against two thirds reaches the tolerance of the paired difference exactly
  (`ToleranceIsAttained`), so that is where binary floating point differs: with three
  pairs the program's rounded difference misses by slightly more than a millionth, and
  it refuses a score that `ScoredExactlyWhen` accepts.
- The installer's journal has gaps: between an archive move and its entry, and after two
  and after three of the four statements that record a replaced target. An interrupt in
  the first or the second leaves that object where it is and rollback reports success;
  in the third it leaves the new object and reports that the original is unavailable
  (`Point.Gap`, `UnmarkedInput`). Every other single interrupt before the commit is
  undone exactly (`Install`, `ExactlyUndone`).
- A step that fails of itself may be taken for somebody else's change: any failing step
  inside the guarded part of a tree's activation (the copy, the renames, the reads), and
  for a prompt a failing rename of the target or of the new file, or a read that finds a
  change, makes rollback leave the target alone and report it, even with the new tree in
  place (`Lost`; `TreeInput`, `PromptInput`). After every other failing step before the
  commit, and every one of config.toml and AGENTS.md, rollback is exact (`Install`,
  `ExactlyUndone`).
- The AGENTS.md size limit is checked on the old content only, so a rendered file can be
  refused by the next installation: rendering is idempotent exactly while the result fits
  (`RenderIsIdempotent`).
- A config.toml written for a path with three literal quotes in a row is refused by the
  next installation, and for one-line paths that is the only case (`UpdateIsIdempotent`).
- A foreign file at the output path is noticed only after the seal is prepared: the
  journal then stays prepared and every later `seal` is refused until the file goes
  (`Seal`, refusal `OutputDiffers`). Likewise a release that died after publishing its
  quarantine manifest can be repeated only with the same reason until the anchor moves:
  another reason is refused (`ReleasePrestart`, refusal `ManifestDiffers`), while the same
  one may still be refused over the artifacts it moves, which the model leaves out.
- The state an activation returns as the installed one is read after the swap, so it may
  be an object another process put there in between. And a program holding the old file
  open may still write to it after the recheck: `PreimageKept` therefore promises the
  retained object's identity always, and its payload when nobody holds it open.

## Model

| member | source | states |
|---|---|---|
| Ledger.ValidateEntries | tools/proof_plane/common.py:895-935 | The validation loop accepts exactly the well-chained ledgers: consecutive indices, each entry linked to its predecessor's digest, the first to the zero digest, each digest that of its body |
| Ledger.PrefixValid | tools/proof_plane/common.py:895-935 | Every prefix of a valid ledger is valid |
| Ledger.AppendValid | tools/proof_plane/common.py:620-652 | Appending the entry the writer builds keeps any valid ledger valid |
| Ledger.HeadDeterminesLedger | tools/proof_plane/common.py:895-935 | Two valid ledgers with the same head digest are the same ledger |
| Ledger.CreateLedgerAnchor | tools/proof_plane/common.py:835-851 | An anchor is created exactly for a valid ledger in the state the caller pinned, at revision 0 with no predecessor, and records its count and head |
| Ledger.AdvanceLedgerAnchor | tools/proof_plane/common.py:854-892 | The anchor advances exactly when it is valid, the caller's expected count, head and anchor digest match it, and the longer ledger still holds its head; the new anchor follows it by one revision |
| Ledger.AdvanceKeepsAnchoredPrefix | tools/proof_plane/common.py:854-892 | Whenever the anchor may advance, the ledger it recorded is a proper prefix of the new one |
| Ledger.AnchorChainGrows | tools/proof_plane/common.py:745-788 | Along any chain of anchors, revisions count up from zero and every earlier ledger is a prefix of every later one, longer by at least a step each |
| LedgerText.SplitAfterNewline | tools/proof_plane/common.py:895-902 | Text after a newline is split into lines independently of what comes before it, for all ten line breaks of `splitlines` |
| LedgerText.AppendReadsBack | tools/proof_plane/common.py:620-652 | Reading the grown file gives the old entries and exactly the new one if and only if its encoding holds no raw separator and the file still fits the cap |
| LedgerText.LedgerFile.Append | tools/proof_plane/common.py:620-652 | Appending refuses exactly an unreadable file, never rewrites an earlier byte, and leaves a file whose next reading is stated exactly |
| LedgerText.LedgerFile.Read | tools/proof_plane/common.py:655-688 | Reading succeeds exactly on a file within the cap whose every line decodes into a valid chain, and returns those entries |
| StudyMachine.ApplyEntry | tools/proof_plane/controller.py:1720-1909 | The replayer's checks on one entry, in their order, take exactly the abstract machine's step or refuse with it |
| StudyMachine.DeriveState | tools/proof_plane/controller.py:1700-1953 | The replayer's pass accepts exactly the journals the abstract machine can step through, one event at a time, and ends in its state |
| StudyMachine.CountActive | tools/proof_plane/controller.py:1752-1780 | The count taken against the ceiling is the number of reserved or started cells |
| StudyMachine.FirstPending | tools/proof_plane/controller.py:1752-1780 | The cell found is pending and every earlier one is not |
| StudyMachine.ReplayShape | tools/proof_plane/controller.py:1700-1953 | A live state has one cell per scheduled run, and a prepared or recorded seal means every cell is done and the two agree |
| StudyMachine.LastMove | tools/proof_plane/controller.py:1752-1909 | An accepted entry moves the cell of its own run by its own transition and leaves every other cell as it was |
| StudyHistory.Tally | tools/proof_plane/controller.py:1752-1867 | A run's cell says exactly how often it was started and ended, and that it was reserved once more than released unless pending |
| StudyHistory.StartedAtMostOnce | tools/proof_plane/controller.py:1781-1815 | In every accepted journal two started events of one run are the same entry |
| StudyHistory.Stories | tools/proof_plane/controller.py:1752-1867 | Every cell's recorded reservation, start and end are entries of the journal in that order, with no release after the reservation |
| StudyHistory.ReleasedReservationIsStale | tools/proof_plane/controller.py:866-905 | A reservation that was released is never again the live one of its run, even after the same run is reserved anew |
| StudyHistory.WindowBound | tools/proof_plane/controller.py:1752-1780 | With H the highest ordinal ever reserved, pending cells up to H plus active cells never exceed `maxParallel`, at least H - maxParallel of the first H are done, and nothing beyond H was ever reserved, through any releases |
| StudyHistory.SealedJournalIsComplete | tools/proof_plane/controller.py:1868-1909 | A sealed journal holds exactly one start and one end of every scheduled run, in the order reserved, started, ended |
| StudyHistory.NothingFollowsSealed | tools/proof_plane/controller.py:1746-1747 | The sealed event is the last entry of any accepted journal |
| StudyHistory.SealedWasPrepared | tools/proof_plane/controller.py:1868-1909 | What a journal seals is exactly a seal it recorded as prepared |
| StudyDisk.JustifiedIsAccepted | tools/proof_plane/controller.py:757-1343 | Every event that meets its writer's guard is accepted by the replayer on the journal it is appended to |
| StudyDisk.AppendKeepsEvidence | tools/proof_plane/controller.py:1607-1668 | Appending a justified event keeps every receipt and manifest the journal refers to present and matching |
| StudyDisk.OpKeepsInv | tools/proof_plane/controller.py:1356-1427 | Every durable operation keeps the invariant of the disk, so every state a crash leaves has it |
| StudyRuns.ReachableInv | tools/proof_plane/controller.py:1356-1427 | Every disk reachable by any run of the operations has the invariant |
| StudyRuns.LagIsAtMostOne | tools/proof_plane/controller.py:1356-1405 | In every reachable state (journal length - anchor count) + (anchor revision - newest checkpoint revision) is 0 or 1 |
| StudyRuns.RunGrows | tools/proof_plane/controller.py:1393-1405 | Along any run the journal of every earlier state is a prefix, and no start, terminal, manifest or output of it is lost or changed |
| StudyRuns.StartReceiptIsClaimed | tools/proof_plane/controller.py:1295-1343 | A start receipt on disk means its run's cell is held, running or done under that very reservation digest, never pending |
| StudyRuns.ConsumedForever | tools/proof_plane/controller.py:1781-1867 | A cell once started keeps its reservation and start in every extension of the journal, and a finished cell never changes |
| StudyRuns.SealedDocumentIsComplete | tools/proof_plane/controller.py:1221-1293 | The document of a sealed study is on disk under the sealed digest and has, for every scheduled run in its place, the start receipt its cell records, by the frozen inputs, and the terminal receipt of that very start |
| StudyRuns.ReleasesAreExplained | tools/proof_plane/controller.py:1607-1668 | Every journaled release has its quarantine manifest on disk, for the same run, reason and time |
| StudyRuns.DecisionsSurviveTheRunner | tools/proof_plane/controller.py:980-1044 | A decision of the controller stays justified when a runner publishes a terminal receipt or a stranger places a file elsewhere before it acts |
| StudyRecovery.CrashStatesRecover | tools/proof_plane/controller.py:1356-1391 | Every state a crash can leave is recoverable: the journal is the anchored one or that plus exactly one event, and catching up settles journal, anchor and checkpoints without changing the journal |
| StudyRecovery.RepairCompletes | tools/proof_plane/controller.py:1467-1518 | On every reachable disk the checkpoints lack at most the newest, and publishing that one completes the trail |
| StudyController.StudyRunController.Durable | tools/proof_plane/common.py:289-395 | One durable operation happens completely or not at all, and not exactly when the process has none left; an enabled one keeps the disk reachable |
| StudyController.StudyRunController.IndexCheckpoints | tools/proof_plane/controller.py:1427-1475 | The checkpoint files are indexed by revision exactly when each is valid and no two share a revision |
| StudyController.StudyRunController.LinkedChain | tools/proof_plane/controller.py:1485-1518 | The walk accepts exactly an index whose revisions run from 0 to the anchor's, each linked to the digest before it and the last to the anchor |
| StudyController.StudyRunController.ValidateCheckpointChain | tools/proof_plane/controller.py:1467-1518 | On any disk it only ever adds the anchor's own checkpoint, goes on exactly with an accepted chain, and fails only when even the repaired set is not one |
| StudyController.StudyRunController.LoadJournalAndCatchUp | tools/proof_plane/controller.py:1356-1391 | On any disk at all it goes on only when the disk is recoverable and then has caught up, leaving the journal alone; on a reachable one it fails only by dying or finding no journal |
| StudyController.StudyRunController.AppendEvent | tools/proof_plane/controller.py:1393-1405 | One append adds exactly the one entry, then anchor and checkpoint follow; it fails only by dying, in between leaves a prefix-preserving, recoverable disk, and takes at most three durable operations |
| StudyController.StudyRunController.ValidateReferencedArtifacts | tools/proof_plane/controller.py:1607-1668 | Accepts exactly when every receipt, manifest and output the state refers to is on disk with the recorded contents |
| StudyController.StudyRunController.Refresh | tools/proof_plane/controller.py:1700-1953 | The state returned is the replay of the journal with its artifacts in place; it fails only when there is none such, and on a reachable disk with a journal never |
| StudyController.StudyRunController.ReconcilePublishedStarts | tools/proof_plane/controller.py:1295-1343 | Appends exactly the started events of the held runs whose start receipt is on disk: the state returned is the old one with just those cells running, at the cost of at most three operations for each of `maxParallel` |
| StudyController.StudyRunController.Enter | tools/proof_plane/controller.py:749-755 | What every call does first: on a reachable disk, unless it dies, it succeeds exactly on an initialized study, with the recovered state |
| StudyController.RecoveryKeepsRoom | tools/proof_plane/controller.py:1295-1343 | Recovery changes neither the pending cells nor the number of active ones nor the seal, and finds no study exactly where none was initialized |
| StudyController.StudyRunController.Initialize | tools/proof_plane/controller.py:708-747 | From any crash of an earlier initialization, with enough operations left, it reaches a live, settled journal: every cell pending if there was none, the recovered state otherwise; it journals nothing but the first event and published starts |
| StudyController.StudyRunController.Status | tools/proof_plane/controller.py:749-755 | With enough operations left it reports the recovered state of any initialized study, having recorded every published start and changed nothing else |
| StudyController.StudyRunController.ReserveNext | tools/proof_plane/controller.py:757-812 | With enough operations left: an open study with a pending cell and fewer than `maxParallel` active ones gives a handle for the earliest pending cell, and journals exactly that reservation; a full or exhausted one gives nothing, one being sealed or sealed refuses as such, and neither changes anything but by recovery. Death only when the operations run out |
| StudyController.StudyRunController.BeginReservedAttempt | tools/proof_plane/controller.py:814-978 | With enough operations left it succeeds exactly for a fitting plan and a handle whose cell is held, and refuses a mismatched plan, a stale handle and a running cell each as such; success publishes exactly the one start receipt and its event, under a live handle, and no run is launched twice over all histories and crashes |
| StudyController.StudyRunController.RecordStart | tools/proof_plane/controller.py:918-978 | Publishes the start receipt of a held run and journals it, or dies in a state that is reachable and recoverable |
| StudyController.StudyRunController.RecordTerminal | tools/proof_plane/controller.py:980-1044 | With enough operations left it succeeds exactly when the run was started and its published receipt belongs to that start, journaling its digest unless it is there, and refuses an unknown, a pending and a merely reserved run and any other receipt each as such |
| StudyController.StudyRunController.RecordEnd | tools/proof_plane/controller.py:1020-1044 | Journals the end of a running run under the digest of its accepted receipt |
| StudyController.StudyRunController.ReleasePrestart | tools/proof_plane/controller.py:1046-1168 | With enough operations left it gives back a held cell, with a manifest naming this reason on disk and exactly that release journaled, unless an earlier release of the run left another manifest; it refuses a running and an inactive cell as such, and then changes nothing but by recovery |
| StudyController.StudyRunController.RecordRelease | tools/proof_plane/controller.py:1143-1168 | Journals the release of a held run under its published manifest |
| StudyController.StudyRunController.Seal | tools/proof_plane/controller.py:1185-1293 | With enough operations left it succeeds on a study whose runs are all done, unless another document sits at the path or the seal is prepared or recorded for another path, and refuses each of these and unfinished runs as such; the document sealed has every run's receipts, and a seal prepared before any crash is the one recorded |
| StudyController.StudyRunController.PrepareSeal | tools/proof_plane/controller.py:1221-1260 | The prepared seal names the path and the digest of the document, or is the one already prepared; on a reachable disk it refuses exactly a seal prepared for another path |
| StudyController.StudyRunController.PublishAndRecord | tools/proof_plane/controller.py:1261-1293 | Publishes the prepared document, or finds exactly it published, and records that seal; on a reachable disk it refuses exactly another document at the path |
| StudyController.LaunchesPersist | tools/proof_plane/controller.py:814-978 | Launched runs stay distinct and consumed as the journal grows |
| StudyController.NewLaunch | tools/proof_plane/controller.py:866-978 | A run that just began had not been launched before |
| StudyController.PreparedPersists | tools/proof_plane/controller.py:1868-1909 | Once a seal is prepared, every extension of the journal has exactly that one |
| InstallFiles.FileSystem.Rename | scripts/install.py:1682-1750 | A rename onto a free name moves the one object or changes nothing, keeps every object others may know, and its status tells which, unless interrupted; it may fail of itself |
| InstallFiles.FileSystem.Meddle | scripts/install.py:608-739 | Whatever others do at public names, objects at private names stay, and no object they knew is lost by the installer |
| InstallFiles.MovedIsSound | scripts/install.py:1682-1750 | Renaming onto a free name keeps every identity and every exposed object |
| InstallCas.RestoreOrRetain | scripts/install.py:608-632 | The displaced object goes back to a free target, or to the retained name when the target was recreated; never over another object |
| InstallCas.Attempt | scripts/install.py:646-729 | However it stops, every object is conserved; success means the retained object is the expected preimage; disturbed at most once by an interrupt or a failing step, it stops in one of the listed places and says what it raised for the step that failed |
| InstallCas.CheckDisplaced | scripts/install.py:662-680 | What was moved aside goes on only as the expected preimage; anything else goes back to its free target or is retained |
| InstallCas.KeepPreimage | scripts/install.py:701-728 | The displaced preimage is rechecked before it is retained; success means it is the expected object; left alone, a failure names the failing read or rename |
| InstallCas.CleanUp | scripts/install.py:730-739 | Discards only the installer's own staged copy and puts back or retains what is still displaced |
| InstallCas.ActivateStagedFileCas | scripts/install.py:635-739 | Against any adversary nothing foreign is overwritten or deleted and success retains the expected preimage; disturbed at most once it ends untouched or activated with the preimage retained, and nothing between, and reports a detected change exactly for the steps that `Detects` lists |
| InstallCas.CopytreeReplaceCas | scripts/install.py:1774-1896 | The same for a tree, whose every failing step is reported as a detected change |
| InstallCas.Withdraw | scripts/install.py:1852-1896 | After any failure the displaced tree goes back to its free target, or to the retained name when the new tree is already in place |
| InstallRollback.InstallTransaction.RetainPath | scripts/install.py:2116-2127 | Every retained name is new |
| InstallRollback.InstallTransaction.ExpectRollbackState | scripts/install.py:2186-2216 | Its four statements run in order, each after a point where an interrupt may fall; the result says how many ran, the journal has exactly those, and the file system records the point |
| InstallRollback.InstallTransaction.Classify | scripts/install.py:2266-2341 | Reads an interrupted mutation as activated, untouched or neither, exactly as the files are |
| InstallRollback.InstallTransaction.ReconcileOne | scripts/install.py:2266-2341 | Journals an interrupted mutation as done, drops it, or marks the target to be preserved, exactly by its verdict |
| InstallRollback.ReconcileKeepsJournal | scripts/install.py:2266-2341 | Reconciling any interrupt point of an activation leaves a journal that is true of the files and nothing pending for that target |
| InstallRollback.InstallTransaction.Reconcile | scripts/install.py:2266-2341 | After reconciling, nothing is pending and the journal is true; no file was touched |
| InstallRollback.InstallTransaction.Quarantine | scripts/install.py:2569-2635 | Moves the installed object aside only if it is the expected one, and otherwise puts it back or retains it; no foreign object is lost |
| InstallRollback.InstallTransaction.PutBack | scripts/install.py:2637-2709 | Puts the original at its target and retains the object it replaces |
| InstallRollback.InstallTransaction.RestoreTarget | scripts/install.py:2512-2712 | Left alone, a mutated target gets exactly its original back and the installed object is retained; an unmutated one is not touched; exactly a target that is preserved or lacks its original is reported and left as it is |
| InstallRollback.InstallTransaction.RestoreReplaced | scripts/install.py:2569-2709 | Left alone, setting the installed object aside and putting the original back ends with both where they belong |
| InstallRollback.InstallTransaction.RestoreArchive | scripts/install.py:2469-2511 | Moves an archived object back to its free source |
| InstallRollback.InstallTransaction.RestoreArchives | scripts/install.py:2469-2511 | Left alone, every archived source is back, newest first, without error |
| InstallRollback.InstallTransaction.Rollback | scripts/install.py:2460-2737 | Left alone, from any true journal, every public name holds exactly what its journal is true to, exactly the blocked targets are reported, newest first, and the transaction's own directory is gone; against others every object is conserved |
| InstallRollback.ReportsOf | scripts/install.py:2512-2540 | With at most one blocked target the reports are that one, or none |
| InstallRollback.ArchivesThenTargets | scripts/install.py:2460-2737 | With the archives back, every snapshot target is still ready to be restored |
| InstallDriver.AnnouncedIsJournaled | scripts/install.py:2221-2252 | A mutation announced before it starts is a true journal entry wherever it stops |
| InstallDriver.EndingIsRecognised | scripts/install.py:2266-2341 | Every ending of an activation disturbed at most once is one the reconciler reads as activated or untouched |
| InstallDriver.NotedStops | scripts/install.py:2186-2216 | After none or one of the four statements, and after all four, the journal is true to the original files; after two it is true to the new object and says nothing of it, after three it is true to the new object and reports it |
| InstallDriver.PreservedStops | scripts/install.py:2218-2219 | A target marked to be preserved is reported, and the journal is true to whatever it holds |
| InstallDriver.Installer.Mutate | scripts/install.py:2186-2252 | Replacing one target changes no other public name; it succeeds with the new payload and a true journal, or stops where the interrupt fell or its own step failed, with the journal that stop has |
| InstallDriver.Installer.Conclude | scripts/install.py:2186-2203 | Recording a result runs some number of the four statements: the journal has exactly those, the interrupt point names that number, and the stop is the one of that number |
| InstallDriver.Installer.Settle | scripts/install.py:3684-3695 | A failing activation is preserved exactly after a detected change of a prompt or a tree, and a finished one is recorded |
| InstallDriver.Installer.Archive | scripts/install.py:2356-2458 | Archiving keeps the journal true, through any one interrupt or failing step, except when an interrupt falls between the move and its entry: then the object is in the archive and the journal does not know |
| InstallDriver.Installer.ArchiveAll | scripts/install.py:2356-2458 | Left alone, when it succeeds every legacy source is gone and its archive holds what the source held, and every other public name holds what it held |
| InstallDriver.Installer.Commit | scripts/install.py:2739-2809 | Left alone, it ends without complaint exactly when every replaced target's original is still retained, and drops the transaction's own directory and nothing else |
| InstallDriver.Installer.Install | scripts/install.py:3558-3850 | A whole installation, left alone and disturbed at most once by an interrupt or a failing step, leaves the new payload at every target, every legacy object in its archive and every other public name as it was, or is rolled back; every public name is then back exactly and nothing is reported if and only if the interrupt fell in none of the three gaps of the journal and no failed step is lost to its own mutation; undisturbed it commits; whatever others do, no object they know is lost |
| InstallDriver.Installer.Perform | scripts/install.py:3558-3820 | Snapshots, archives and replacements in order: they all succeed, with every legacy object moved and no other name touched, or stop where the interrupt fell or the step failed, with the journal that stop has |
| InstallDriver.ExactlyUndone | scripts/install.py:2186-2458 | From the point where the interrupt fell and the step that failed alone: rollback leaves the original files and reports nothing if and only if the point is no gap and no mutation loses that step |
| InstallDriver.UnmarkedInput | scripts/install.py:2186-2203 | The journal that two of the four statements leave for config.toml: rollback leaves the new file and reports nothing |
| InstallDriver.TreeInput | scripts/install.py:1852-1896 | The journal of an announced tree, preserved after the rename that retains its original failed: the new tree stays and is reported, though nobody else acted |
| InstallDriver.PromptInput | scripts/install.py:3684-3690 | The same for a prompt that could not be moved aside: every file is as it was and a concurrent change is reported |
| AgentsGuidance.Find | scripts/install.py:783-812 | The first occurrence of a marker at or after a position, or none |
| AgentsGuidance.PlacedIsFixed | scripts/install.py:783-812 | Content that holds the current block once, on lines of its own, is rendered unchanged, or refused when too large |
| AgentsGuidance.RenderPlaces | scripts/install.py:742-812 | Every rendered content holds exactly one block between one pair of markers alone on their lines, and every byte outside the old block is unchanged; a new block comes after an empty line, with the dominant line break |
| AgentsGuidance.RenderAccepts | scripts/install.py:783-812 | A content within the limit is rendered exactly when it has no marker at all, or one opening marker before one closing marker, each alone on its line |
| AgentsGuidance.DominantIsMostCommon | scripts/install.py:750-766 | The line break of a new block is the most common one of the content, CRLF before LF before CR on a tie |
| AgentsGuidance.RenderIsIdempotent | scripts/install.py:783-812 | Rendering twice is rendering once exactly while the result fits the size limit; beyond it the second is refused |
| TomlScan.FlattenLines | scripts/install.py:2831-2831 | Splitting into lines that keep their breaks loses nothing |
| TomlScan.UncommentedTail | scripts/install.py:1063-1083 | Space after a line is part of the line or of its comment, and changes nothing else |
| TomlScan.DeltaTail | scripts/install.py:1086-1113 | Space after a value changes no bracket depth |
| TomlScan.SplitTail | scripts/install.py:1116-1136 | Space after a line is space after its value; the key is the same |
| TomlScan.LiteralScan | scripts/install.py:1063-1136 | A literal string is opaque to the scanners: nothing in it is a comment, a bracket, an equals sign or an escape |
| TomlScan.LiteralPart | scripts/install.py:1043-1048 | A literal key part reads as its own characters, up to the closing quote |
| ConfigRewrite.KeyPartsNamed | scripts/install.py:1012-1060 | A dotted key that parses has at least one part and keeps the parts read so far |
| ConfigRewrite.ReadTail | scripts/install.py:2840-2925 | What a line is to the scanner does not depend on the space or line break at its end |
| ConfigRewrite.RemoveExistingStackBlocks | scripts/install.py:2812-2944 | The loop over four flags computes the specified pass, with each refusal for its own reason |
| ConfigRewrite.StepAgrees | scripts/install.py:2840-2925 | One turn of the four flags drops a line exactly when the reference, which tracks only a table and an open key, gives it a jstack or gstack owner |
| ConfigRewrite.OwnedIsUnderAServer | scripts/install.py:2840-2925 | A key counts as a stack server's exactly when it names `mcp_servers.jstack` or `mcp_servers.gstack` or something under them |
| ConfigRewrite.StripsTheServersLines | scripts/install.py:2812-2944 | The stripped text is the input without exactly the lines of jstack and gstack tables, dotted keys and their array values |
| ConfigRewrite.OtherFilesAreKept | scripts/install.py:2812-2944 | A file whose lines mention no server table and leave no array open is left as it is |
| ConfigRewrite.KeepsJoined | scripts/install.py:2928-2944 | Joined into one text, where a bare CR may meet an LF, the kept lines are all kept again |
| ConfigRewrite.KeepsTrimmed | scripts/install.py:3551-3552 | They still are after the text's final space became one empty line |
| ConfigBlock.JsonScan | scripts/install.py:2951-2958 | A path written as a JSON string is opaque to the scanners: it opens no comment and no bracket |
| ConfigBlock.JsonTriple | scripts/install.py:2951-2958 | It holds three quotes in a row exactly when the path holds three literal ones |
| ConfigBlock.BlockLines | scripts/install.py:2965-2971 | The block is five whole lines for every one-line path |
| ConfigUpdate.BlockDropped | scripts/install.py:2840-2925 | Scanned after kept lines, the block is dropped whole |
| ConfigUpdate.StrippingTwice | scripts/install.py:2812-2944 | Stripping a stripped text takes nothing more, and no line of it belongs to a jstack or gstack server |
| ConfigUpdate.UpdateIsIdempotent | scripts/install.py:3551-3552 | Rewriting twice is rewriting once exactly when neither path holds three literal quotes in a row; otherwise the second is refused as a multiline string |
| ConfigUpdate.UpdateIsLocal | scripts/install.py:3551-3552 | In the rewritten file the servers' lines are exactly those of the new block, and the others are the old file's other lines, trimmed |
| ConfigUpdate.PathReadsBack | scripts/install.py:968-1060 | A path written into the block reads back, by the TOML basic-string rules of the same file, as that path and nothing more |
| Rounding.RoundEven | evals/runner/score.py:26-27 | The result is the nearest integer, the even one of two equally near |
| Rounding.NearestUnique | evals/runner/score.py:26-27 | Nearest, ties to even, leaves no choice |
| Rounding.RoundOfThree | evals/runner/score.py:320-343 | A rounded sum of three is within one of the sum of the roundings, except exactly when all three tie the same way |
| Ordering.SortBy | evals/runner/score.py:361-364 | Sorting rearranges and loses nothing |
| Ordering.SortOrders | evals/runner/score.py:361-364 | The result is ordered by its key |
| Ordering.FirstDifferenceDecides | evals/runner/score.py:442-443 | The order of keys is that of code points: a string before its extensions, otherwise by the first difference |
| Ordering.SortForgetsOrder | evals/runner/score.py:442-443 | With distinct keys the sorted list does not depend on the order of the input |
| Ordering.AllDistinct | evals/runner/contracts.py:348-384 | One pass with a growing set decides whether all keys differ |
| ScoreFigures.WilsonContains | evals/runner/score.py:30-55 | The raw proportion lies inside its Wilson interval, for every proportion and sample size |
| ScoreFigures.WilsonRoots | evals/runner/score.py:30-55 | The unclamped ends of the Wilson interval both solve n (p - x)^2 = z^2 x (1 - x) for x, the lower one first |
| ScoreFigures.HoeffdingSquares | evals/runner/score.py:105-113 | The Hoeffding margin is the number whose square times the sample size is 2 ln 40 |
| ScoreFigures.PercentilesOrdered | evals/runner/score.py:58-79 | The interpolated median is at most the ninetieth percentile, and both stay within any bounds of the sample |
| ScoreFigures.PercentileRanks | evals/runner/score.py:58-71 | A percentile lies at its position in the sorted sample, between the two neighbours of that position and dividing their gap as the position does |
| ScoreFigures.TimingRanks | evals/runner/score.py:73-78 | A timing gives the size of the sample and its median and ninetieth percentile, in whatever order the values come |
| ScoreContract.RateFitsItself | evals/runner/contracts.py:866-903 | For every proportion p in [0, 1] and every sample size, the rounded rate and Wilson interval the scorer writes pass every check the validator makes against p |
| ScoreContract.RateEnds | evals/runner/score.py:30-55 | The interval of a rate is the two solutions of Wilson's equation, cut to [0, 1] and rounded |
| ScoreContract.IntervalContains | evals/runner/contracts.py:877-903 | Clamped and rounded, an interval stays within its bounds and contains the rounded rate |
| ScoreContract.DifferenceAccepted | evals/runner/contracts.py:1022-1072 | The paired difference is within one millionth of the difference of the rounded rates, in exact arithmetic |
| ScoreContract.ToleranceIsAttained | evals/runner/contracts.py:1022-1072 | One third against two thirds reaches that tolerance exactly, which is where binary floats exceed it |
| ScoreContract.MeanFits | evals/runner/contracts.py:1045-1072 | Every mean of differences in [-1, 1] lies in its rounded Hoeffding interval and passes the validator's recomputation from the rounded mean |
| ScoreContract.UpliftAccepted | evals/runner/contracts.py:1022-1072 | The scorer's uplift passes every uplift check for all pair outcomes, exactly while its counts are in range |
| ScoreContract.UpliftEnds | evals/runner/score.py:105-113 | The interval of a paired difference is the mean give or take the Hoeffding margin, cut to [-1, 1] and rounded |
| ScoreContract.UpliftsArePinned | evals/runner/contracts.py:1022-1072 | The checks pin a mode's figures to its counts: two accepted ones with the same counts differ by at most six millionths, and their intervals by two |
| ScoreContract.HoeffdingClose | evals/runner/contracts.py:1022-1072 | The interval recomputed from the rounded mean differs by at most one millionth at each end |
| ScoreContract.DeltaAccepted | evals/runner/contracts.py:906-917 | A mean of bounded coverage differences passes its checks |
| ScoreContract.DeltasReconcile | evals/runner/contracts.py:1075-1145 | Weighted means of the two conditions reconcile with the overall mean |
| ScoreContract.AmountsReconcile | evals/runner/contracts.py:1075-1145 | Rounded amounts of the two conditions add up to the rounded whole within tolerance |
| ScoreContract.CostsAccepted | evals/runner/contracts.py:964-990 | Three costs and their total pass exactly when the three do not tie the same way |
| ScoreContract.HalfMicroDollarsAreRefused | evals/runner/contracts.py:964-990 | Half a millionth of a dollar in each component is refused |
| PublicPlan.ValidatePlan | evals/runner/contracts.py:328-421 | The loops decide exactly the plan conditions: sorted distinct ids, distinct slots, and for a public plan complete pairs |
| PublicPlan.GroupRuns | evals/runner/contracts.py:388-396 | Grouping refuses exactly a task with two shapes, and otherwise files every run under its study |
| PublicPlan.CheckPublic | evals/runner/contracts.py:387-421 | The grouped form of the public conditions decides exactly their statement over the plain list |
| PublicPlan.PublicPlanIsComplete | evals/runner/contracts.py:328-421 | An accepted public plan holds exactly one plain and one JStack run for each task, mode and repetition, repetitions running from 1 to at least 3 |
| PublicPlan.PublicPlanHasAtLeast216Runs | evals/runner/contracts.py:328-421 | Hence at least 216 runs for the 18 family and kind slots |
| Tallies.TallyIsSane | evals/runner/contracts.py:557-763 | For every accepted run and review each counter is non-negative and no numerator counter exceeds its denominator, except false findings |
| Tallies.TallySplits | evals/runner/score.py:251-343 | Split by condition, the counters add up: nothing is lost or counted twice |
| Tallies.SummarizeRuns | evals/runner/score.py:251-343 | The accumulating loop computes the summary of the summed counters, and fails exactly when false findings exceed reported ones |
| Tallies.SummaryAccepted | evals/runner/contracts.py:1009-1019 | A summary of accepted envelopes passes every check exactly when its counters are in range and its costs do not tie |
| Tallies.SummariesReconcile | evals/runner/contracts.py:1075-1145 | The overall summary reconciles with the two conditions' summaries in every field |
| Pairing.EveryRunIsRepresented | evals/runner/score.py:165-230 | 2 * pairs + unmatched is the number of runs of the mode |
| Pairing.GroupingFails | evals/runner/score.py:170-177 | Filing fails exactly when two runs of the mode claim one condition of one pair |
| Pairing.GroupRuns | evals/runner/score.py:170-177 | The loop that files runs by pair computes that grouping |
| Pairing.CountPairs | evals/runner/score.py:179-220 | The walk over the pairs counts exactly the matched, the unmatched and each condition's successes, and fails exactly on an incomparable pair |
| Pairing.UpliftForMode | evals/runner/score.py:165-230 | The figures of a mode are those of its grouped pairs, however the pairs are visited |
| Scorer.ScoreRuns | evals/runner/score.py:346-485 | The procedure returns exactly the specified score or refuses |
| Scorer.CheckInputs | evals/runner/score.py:354-440 | The input checks decide exactly: valid envelopes, distinct ids, one review per run, runs matching the plan, studies replicated |
| Scorer.CheckRepetitions | evals/runner/score.py:372-430 | Real studies are accepted exactly with equal repetitions in both conditions, at least three |
| Scorer.IndexReviews | evals/runner/score.py:431-440 | Reviews are filed by run exactly when no run is reviewed twice |
| Scorer.ScorerMeetsValidator | evals/runner/contracts.py:1148-1212 | The score built from accepted envelopes passes every check of the validator exactly when its counters stay in range and no summary's costs tie |
| Scorer.ScoringForgetsOrder | evals/runner/score.py:346-485 | Permuting the runs and the reviews gives the same score, or refuses both |
| ScoringResults.ScoredExactlyWhen | evals/runner/score.py:346-485 | In exact arithmetic, for accepted inputs, exactly when a score that passes its own validator is returned |
| ScoringResults.WholeCostsNeverTie | evals/runner/contracts.py:964-990 | Costs in whole millionths, in even one component, never tie |
| ScoringResults.PlannedRunsAreDistinct | evals/runner/score.py:139-162 | Runs that match an accepted plan repeat no run id |
| ScoringResults.EveryPlannedRunIsScored | evals/runner/score.py:139-162 | Every expected run was scored and nothing else |
| ScoringResults.PublicPairsAreMatched | evals/runner/score.py:170-187 | Under a public plan no pair is left unmatched |
| ScoringResults.PublicScoreMatchesEveryRun | evals/runner/score.py:346-485 | A public score counts every run in a matched pair, at least 216 runs |
| ScoringResults.ScoreNamesItsInputs | evals/runner/score.py:442-485 | A score names this manifest and exactly these runs and reviews, sorted by run id, and an evidence class just when all runs share it |
| ScoringResults.StudiesRepeat | evals/runner/score.py:372-430 | In accepted inputs every real study, the runs of one task measured alike, repeats 1 to n under both conditions, n at least 3 |
| ScoringResults.RepetitionsExactly | evals/runner/score.py:372-430 | The repetitions are accepted exactly when every study but a development mock repeats 1 to n under both conditions, for some n of at least 3 |
| ScoringResults.DistinctRunsExactly | evals/runner/score.py:368-419 | Runs are refused as repeated exactly when two share an id, or a task, mode, host, condition and repetition |
| ScoringResults.EveryRunHasOneReview | evals/runner/score.py:431-440 | Every accepted run has exactly one review, the one that names it |
| ScoringResults.FinishedRunsKeepTheirLimits | evals/runner/contracts.py:726-738 | No accepted run that completed, or passed its blockers, exceeded its time, token, tool or cost limit |
| ScoringResults.ReviewsAreMajorities | evals/runner/contracts.py:764-846 | An accepted review's verdict is that of two of its people, all of them different |
| ScoringResults.RunsFollowThePlan | evals/runner/score.py:116-162 | Every accepted run has the plan entry that agrees with it in all fifteen planned fields |
| FigureSources.CounterIsSum | evals/runner/score.py:251-343 | Every counter of the one accumulating pass is the separate sum over the runs of what it counts |
| FigureSources.AmountIsTotal | evals/runner/score.py:251-343 | So is every amount |
| FigureSources.FindingSources | evals/runner/score.py:251-343 | Recall, patch and false-discovery rates are the sums of detected over known, patched over attempted, and the reviews' false findings over reported |
| FigureSources.CompletionSources | evals/runner/score.py:251-343 | The completion rate is the runs that finished whole, unblocked and accepted, over all runs |
| FigureSources.RegressionSources | evals/runner/score.py:251-343 | The regression rates are the sums of the runs' clean, patched and assertion counts |
| FigureSources.EffortSources | evals/runner/score.py:251-343 | Tokens, tool calls, interceptions, incidents and rollbacks are their own sums over the runs |
| FigureSources.VerdictSources | evals/runner/score.py:251-343 | Accepted, rejected and escaped reviews are sums over the reviews of the runs |
| FigureSources.CostSources | evals/runner/score.py:320-343 | Each cost, their total and the review minutes are the amounts of all runs added exactly and rounded once |
| FigureSources.StatusSources | evals/runner/score.py:251-343 | All runs count as attempted and included, and the four statuses as the runs that have them |
| FigureSources.CoverageSources | evals/runner/score.py:81-91 | For line, branch and mutation coverage, the sample is the runs with both values, and the mean is that of candidate minus baseline over exactly those, rounded once |
| FigureSources.TimingSources | evals/runner/score.py:58-79 | Wall-clock, active and queue times each give the number of runs and the two percentiles of that field's own values |
| PairSources.UpliftSources | evals/runner/score.py:165-230 | The pairs of a mode are the ids with a run of either condition, each side's successes the pairs whose run finished whole, unblocked and accepted, and the difference JStack minus plain over the pairs, rounded once |
| PairSources.PairsFitExactly | evals/runner/score.py:165-215 | A mode has figures exactly when no two runs claim one place and the two runs of every pair differ in nothing but what the candidate did, and in limits only in operational mode |
| BrokerEvents.RestoreToolCalls | tools/proof_plane/broker.py:519-656 | The replay loop returns the number of starts exactly when the abstract replay accepts the ledger |
| BrokerEvents.ReplayReadsTheLedger | tools/proof_plane/broker.py:519-656 | An accepted ledger started exactly the ordinals from 1 to its number of starts, and the restored tables of starts, commands and results are what the ledger says |
| BrokerEvents.RunsLeaveEvidence | tools/proof_plane/broker.py:772-794 | The evidence recorded under an ordinal is, in order, that of its command events |
| GuestPaths.PathKeepsSeparators | tools/proof_plane/broker.py:160-168 | Normalizing a working directory keeps every raw separator and brings none in |
| GuestPaths.RefusedExactly | tools/proof_plane/broker.py:160-168 | A guest path is refused exactly when it is over 1000 characters, holds a backslash or a null character, is absolute, or has a component `..` |
| GuestPaths.NormalFormIsFixed | tools/proof_plane/broker.py:160-168 | The normal form of an accepted path is accepted as itself, relative, and without `..` |
| Broker.BrokerLedger.Append | tools/proof_plane/common.py:620-652 | An append is refused exactly on an unreadable file; afterwards the file is readable if and only if the event's text holds no raw separator and the file fits the cap |
| Broker.BrokerLedger.Read | tools/proof_plane/common.py:655-688 | Reading gives every event ever appended, or nothing exactly when one of them holds a raw separator or the file exceeds the cap |
| Broker.WholeExactly | tools/proof_plane/broker.py:388-409 | A call that added only its own events keeps the ledger free of separators exactly when its directory is, or none of its commands was recorded |
| Broker.SeparatorBreaksTheLedger | tools/proof_plane/broker.py:160-168 | `a`, any of the three raw separators, `b` is accepted as a directory, and the ledger that records a command there parses to nothing |
| Broker.ProofBroker.Restart | tools/proof_plane/broker.py:510-517 | A new process starts exactly on a readable ledger that replay accepts, with the counter at the number of starts |
| Broker.ProofBroker.ReserveCall | tools/proof_plane/broker.py:749-770 | Reserves exactly the next ordinal within the limit, leaving a ledger that replay accepts; when it fails nothing was started, or the start was written all the same; on an accepted ledger below the limit, left alone, it never fails |
| Broker.ProofBroker.Execute | tools/proof_plane/broker.py:231-409 | Runs the command line its caller is at and records it with the call's own arguments, environment, time limit and directory; or raises, with nothing recorded or in an append that failed after writing, and says which; when every command can be run, left alone, it raises only on an unreadable ledger |
| Broker.ProofBroker.ExecuteCall | tools/proof_plane/broker.py:796-841 | Runs the tool's one to three command lines in order, a patch's second exactly when its check exited with zero, and says how many were recorded, however it ends |
| Broker.ProofBroker.RecordToolResult | tools/proof_plane/broker.py:772-794 | Closes the call with exactly its own commands' count and digest, as succeeded only when all of its commands ran; when it fails the call is open, or closed so by an append that failed after writing; left alone it fails only by death or on an unreadable ledger |
| Broker.ProofBroker.CallTool | tools/proof_plane/broker.py:846-858 | However a call ends, replay accepts what was written, starts stay within the limit, and a started call is open or closed with exactly its own commands: closed as succeeded when it returns, as failed when execution raises, open when the process dies; left alone, it is closed on an acceptable ledger if and only if no recorded command names a directory with a raw separator and the grown file fits the cap, and when every command can be run it never ends as raised |
| Broker.SucceededCall | tools/proof_plane/broker.py:796-841 | A call closed as succeeded recorded its tool's own command lines in order, each with the call's arguments: two for a patch if and only if its check exited with zero, and all of them for every other tool |
| BrokerCodec.LineReads | tools/proof_plane/common.py:135-146 | Each encoded line is one entry's only, and no line is the beginning of another |
| BrokerCodec.CodecExists | tools/proof_plane/common.py:135-146 | There is an encoding that decodes to what was encoded, decodes no proper prefix, escapes control characters, and holds a raw separator exactly when the free text does |
| Migration.OnlyTier1CommitsChange | tools/proof_plane/corpus_artifacts.py:910-999 | Only the Tier-1 rows' commits and the self digest of the index change |
| Migration.AfterIsRewritten | tools/proof_plane/corpus_artifacts.py:910-999 | The new index is the old one with the commits of the Tier-1 rows set to the target, row by row, under its own digest |
| Migration.AfterIsAccepted | tools/proof_plane/corpus_artifacts.py:910-999 | The replacement of an accepted index is accepted and reads as migrated, never as unmigrated |
| Migration.MigratedIndexIsBacked | tools/proof_plane/corpus_artifacts.py:516-630 | Every slot has a row of the new index, and every row agrees with its slot and with the archive it names; historical rows are the reviewed source, Tier-1 ones what Git reproduces |
| Migration.ReceiptTaskCount | tools/proof_plane/corpus_artifacts.py:910-999 | The receipt lists one task for each Tier-1 row |
| Migration.ReceiptIsTrue | tools/proof_plane/corpus_artifacts.py:955-1087 | The receipt names both indexes by their digests and the twelve Tier-1 tasks in order, each from its previous commit to the target, with its project's family, kind and path, Git's tree, inventory and blob count, and the archive and content of its row |
| MigrationStore.SourceIndexStore.DocumentsAreOrdered | tools/proof_plane/corpus_artifacts.py:1145-1304 | In every state on the way, a receipt implies the new index and the backup, and the new index implies the backup |
| MigrationStore.SourceIndexStore.CheckIndex | tools/proof_plane/corpus_artifacts.py:516-630 | The loop accepts exactly the indexes that count 18 artifacts and whose accepted, ordered, distinct rows fill every slot under their own digest |
| MigrationStore.SourceIndexStore.EditRows | tools/proof_plane/corpus_artifacts.py:910-960 | The in-place edit of a copy rewrites exactly the Tier-1 rows, and fails exactly when one is not reproduced from Git |
| MigrationStore.SourceIndexStore.Build | tools/proof_plane/corpus_artifacts.py:910-999 | A pair is built exactly when every Tier-1 row is reproduced from Git, and it is the migrated index and the receipt for it |
| MigrationStore.SourceIndexStore.ReplaceIndex | tools/proof_plane/corpus_artifacts.py:1090-1142 | The index is replaced only while it is still the one that was read |
| MigrationStore.SourceIndexStore.Choose | tools/proof_plane/corpus_artifacts.py:1145-1240 | The pre-migration index is the backup if there is one and the index itself otherwise, in every state a crash can leave |
| MigrationStore.SourceIndexStore.Migrate | tools/proof_plane/corpus_artifacts.py:1145-1304 | Rerun from any crash point with three steps left it reaches the same three documents; it never replaces a backup or receipt, dies only when its steps run out, and success means exactly the documents of the pre-migration index whose digests the caller gave: the index rewritten and backed by its archives, the receipt true of both indexes |

## Left out

- ConfigUpdate.UpdateIsIdempotent: assumes paths without U+0085, U+2028 and U+2029, which JSON leaves raw and `splitlines` breaks at; for other paths the written value spans lines.
- InstallDriver.Installer.Install: what a stop leaves is stated for at most one disturbance, an interrupt or a failing step, on a system where nobody else acts; a second one, in the clean-up or the rollback, can stop those half way, and then only conservation is stated.
- InstallCas.CopytreeReplaceCas: the ancestry checks and the directory creation before the guarded part are not modelled; their failure is no detected change. The activation copy is the staged tree; files its ignore list leaves out, as a cache directory in the mastery tree would be, are not modelled, and with one the reconciler would recognise neither ending.
- InstallDriver.Installer.Commit: does not model the search for unclassified retained objects nor the renaming of the retained directory to `install-preimages-latest`.
- InstallRollback.InstallTransaction.Rollback: does not model removing empty directories nor undoing the Graphify runtime.
- InstallFiles.FileSystem.Rename: permissions, links, ownership, ACLs and `fsync` are not modelled; a rename without replacement is one atomic step.
- StudyController.StudyRunController.ValidateReferencedArtifacts: does not model the contents of quarantined artifacts nor the per-run attempt ledgers.
- StudyController.StudyRunController.BeginReservedAttempt: does not model the attempt ledger and its genesis anchor, nor the refusal over what they already hold.
- StudyController.StudyRunController.RecordTerminal: the caller's receipt path is not modelled; the receipt is the one published for the run. `reconcile_terminal_receipts` is a loop over it.
- StudyController.StudyRunController.ReleasePrestart: does not model moving the preparation artifacts, only the manifest that lists them; nor the refusal when an artifact is in both trees.
- StudyController.StudyRunController.Seal: the digest of the terminal set and that of its file are one digest; building the terminal set is a function of frozen inputs and receipts.
- StudyController.StudyRunController.Durable: an operation that fails while the process lives on is not modelled; the call would raise where it now dies, with the same disk.
- StudyController.StudyRunController.Status: does not model the lifecycle classification of active cells nor the `state.json` cache, which nothing reads back.
- Broker.ProofBroker.ExecuteCall: running a command is a nondeterministic outcome; of argument normalisation only the working directory is modelled, sandboxing and output draining are not, and one broker process at a time uses a ledger.
- Broker.ProofBroker.Append: an append that fails writes nothing or the whole line; one cut off within the line leaves a file that no reader accepts.
- Broker.ProofBroker.CallTool: its condition on a lasting ledger is stated for a process that finishes its five appends and shares the ledger with nobody; the directory is taken normalized, and a path is a sequence of code points.
- MigrationStore.SourceIndexStore.EditRows: reproducing a Git tree and building its archive is a parameter, the proof expected of each Tier-1 row.
- AgentsGuidance.RenderPlaces: the wording of the guidance is a parameter whose lines hold no angle bracket and no line break; reading, decoding and writing the file are not modelled.
- ConfigRewrite.RemoveExistingStackBlocks: the checks by the TOML parser before and after the pass, and the plugin-id fallback, are not modelled; they can only refuse.
- ScoringResults.ScoredExactlyWhen: holds of exact arithmetic; the program's binary floats also refuse three pairs at one third against two thirds, by less than 1e-16 more than the tolerance.
- Scorer.ScoreRuns: schema versions and the claim boundary are constants and are not in the document; figures are exact reals, so binary floating-point error is not modelled.
- Tallies.SummarizeRuns: field-shape checks of envelopes and reviews are the predicates `ValidRun` and `ValidReview`, from the outcome constraints on; identifiers, digests and timestamps are opaque.
- The per-run attempt ledgers, the batch lifecycle, attempt bundles and builder attestation are orchestration and equality checks over modules not modelled.
- Torn ledger lines, stray temporary files in the checkpoint directory and concurrent controllers: a torn line or stray name fails closed, and the path lock admits one process.
- SHA-256, canonical JSON and RFC 3339: digests are injective, and of JSON only what ledger lines and the config block need is modelled.
- JSON-RPC framing, tar building, Git plumbing, Graphify provisioning and subprocesses are input and output.
