# back_in_py in Dafny

back_in_py is a Python 2 script that takes snapshot-style backups with rsync.
Each run goes through a list of machines. For each machine it rotates four
generation directories `<root><name>/<type>.0` … `.3`: it drops `.3`, renames
`.2` to `.3` and `.1` to `.2`, then makes a hard-link copy of `.0` into `.1`.
It then runs rsync into `.0` and touches a heartbeat file. Around the loop,
the backup drive is remounted read-write when mounting is managed, and
remounted read-only on the way out.

This project models that core and proves properties of the model:

- `Settings`: the fixed locations and executables, the backup types (`hourly`, `daily`), the machine record, and the run configuration. The configuration is the values of the option globals `_type`, `_dry_run` and `_mount`.
- `Paths`: the two-argument `os.path.join` of Python 2's posixpath, `backup_path`, `backup_instance_prefix`, the generation paths `<prefix>.<k>`, and the heartbeat path.
- `Sources`: `get_sources`, as a loop proved against an element-wise specification.
- `Rsync`: `rsync_args`, as a method with two loops, proved equal to a reference argument vector whose layout lemmas give the shape.
- `Rotation`: the four guarded steps of `shuffle_backups`, on an abstract disk that maps paths to snapshot values. There are lemmas for the ring shift, its frame, interrupted rotations, and double rotations.
- `MountControl`: `clean_exit` and `remount_backup_drive` as pure outcomes. The result of every mount command is an input.
- `Options`: the option loop of `main` over the pairs that getopt returns.
- `Driver`: the class `Host`.
  - Its fields are the mount state, the snapshot directories, the machine directories, and the log of every command handed to `execute_command`.
  - Its methods model `remount_backup_drive`, `clean_exit`, `shuffle_backups` and `main` from the root check on.
  - Each method is proved against the functions of the modules above.

What the operating system answers is passed in as an input:

- the root check;
- whether each mount command reports an error;
- for each machine's turn, a `Faults` value: whether `mkdir`, `rmtree`, either rename or `cp` fails, and what the rsync run leaves in generation 0 (`received`: a new snapshot, or nothing when `.0` stays as it was).

How control leaves a call is a value of `Flow`:

- `Running`: the call returns normally.
- `Exited(arg)`: `sys.exit(arg)`.
- `Crashed`: an uncaught exception ends the process.

The machine loop of `main` is stated through `Driver.LoopOutcome`. A dry run reaches every machine and changes no directory. A real run goes on up to the first machine whose rotation raises and stops there. Every machine before it has had its turn (`Driver.DiskAfter`, `Driver.MachineDirs`). The raising rotation leaves the steps it completed (`Rotation.ShuffleSteps`). When no rotation raises, every machine has had its turn.

## Where the code and its own comments disagree

The model follows the code in each of these cases.

- **Normal completion exits with status 1.** `clean_exit` takes `status=0` and `msg=""` (back_in_py.py:141). The root check passes its text as `msg` (back_in_py.py:359). The closing call passes the text `"\nFinished backing up!"` as the status (back_in_py.py:400), and so do back_in_py.py:192 and 333. `sys.exit` given a string prints it and exits with status 1, so a complete run reports failure. `MountControl.MessagesExitWithOne` states the status.
- **An exception skips the read-only remount.** The comment at back_in_py.py:149 says the drive is made read-only before exiting, and back_in_py.py:398-399 says `clean_exit` is used for that reason. Nothing catches an exception from `shuffle_backups` (back_in_py.py:373). A failing `mkdir`, `rmtree` or rename therefore ends the process before the closing `clean_exit`, and the drive stays read-write when mounting is managed. `Driver.Host.BackUp` states this outcome.
- **A failing read-only remount recurses.** `clean_exit` and `remount_backup_drive` call each other with the drive still read-write (back_in_py.py:150-151, 191-192). When every read-only remount fails, the recursion ends in an exception with the drive read-write (`MountControl.ExitCrashesWhenAllRemountsFail`). The promise of back_in_py.py:149 therefore holds only when some remount succeeds (`MountControl.ExitLeavesReadOnly`).
- **Sources are not checked.** The comment at back_in_py.py:227 says `get_sources` first makes sure sources are defined. The code checks nothing: an empty list gives an empty result, and rsync then gets no source argument (`Sources.GetSources`, `Rsync.RsyncArgvLayout`).
- **The heartbeat misses its target.** The comment at back_in_py.py:389 says the mtime of `hourly.0` is updated. The path touched is `'%shourly.0' % backup_path(machine)` (back_in_py.py:391). `backup_path` has no trailing separator, so for a plain machine name the file touched is `<root><name>hourly.0`, not generation 0. It is always the hourly name, whatever the type of the run. `Paths.HeartbeatTarget` proves both facts.
- **`-d` and `-r` change nothing.** The usage text offers them for the device and the backup root (back_in_py.py:24-25). They assign locals of `main`, not the module globals (back_in_py.py:342, 345). The device and the root stay the constants. `Options.IgnoredOptions` states this.

## Model

| member | source | states |
|---|---|---|
| Settings.ParseType | back_in_py.py:329-333 | a --type argument is accepted exactly when it is one of TYPE_CHOICES, and the accepted type is spelled as the argument |
| Settings.TypeNameRoundTrip | back_in_py.py:51-52 | every backup type is one of the choices and parses back to itself |
| Settings.SourcesFor | back_in_py.py:230-234 | definition: the list stored under the key '<type>_sources' of a machine |
| Settings.ExitStatus | back_in_py.py:152-155 | definition: sys.exit with an integer exits with it; with a string it prints it and exits 1 |
| Paths.Join | back_in_py.py:204 | definition: posixpath.join of two parts; an absolute second part replaces the first, otherwise one separator is added only when the first part is non-empty and lacks one |
| Paths.JoinLayout | back_in_py.py:204 | os.path.join ends with its second part; an absolute second part replaces the first; otherwise the first part is kept as a prefix, with exactly one separator between the parts and one added only when the first part lacks it |
| Paths.BackupPath | back_in_py.py:198-204 | definition: backup_path, the join of BACKUP_ROOT and the machine's name |
| Paths.InstancePrefix | back_in_py.py:207-216 | definition: backup_instance_prefix, the join of backup_path and the run's type |
| Paths.GenPath | back_in_py.py:255-272 | definition: the '%s.<k>' paths of the four generations |
| Paths.HeartbeatPath | back_in_py.py:391 | definition: the '%shourly.0' format applied to backup_path, whatever the run's type |
| Paths.InstancePrefixLayout | back_in_py.py:198-216 | for a plain machine name the machine directory is root + name and the instance prefix is root + name + "/" + type; an absolute name escapes the root |
| Paths.GenPathInjective | back_in_py.py:255-272 | two generation paths are equal exactly when their prefixes and their indices are |
| Paths.HeartbeatTarget | back_in_py.py:389-391 | the touched path is the hourly generation 0 exactly when the machine directory ends with a separator; for a plain name it is root + name + "hourly.0" and never generation 0 |
| Paths.ExampleLayout | back_in_py.py:207-216 | the instance prefix of machine host1 for a daily run under the default root |
| Sources.Qualify | back_in_py.py:231-234 | definition: a local address keeps a source unchanged, any other prefixes it with IP + ":" |
| Sources.Resolved | back_in_py.py:230-234 | definition: every configured source qualified, in order |
| Sources.GetSources | back_in_py.py:219-236 | the result has one entry per configured source of the run's type, in order; a local machine's sources pass unchanged, any other's are prefixed with IP + ":" |
| Sources.QualifyRecoverable | back_in_py.py:234 | a remote source can be split back into the address, the colon and the configured source |
| Sources.ResolvedInjective | back_in_py.py:230-234 | two resolved entries are equal exactly when the configured sources are |
| Sources.ResolutionExamples | back_in_py.py:231-234 | "local" leaves a source unchanged; an address is prefixed to it |
| Rsync.RsyncArgv | back_in_py.py:284-300 | definition: base flags, the dry-run flag when asked for, one exclude per pattern, the resolved sources and generation 0 of the instance prefix |
| Rsync.BuildRsyncArgs | back_in_py.py:275-306 | the vector built by the loops equals the reference vector: base flags, dry-run flag, excludes, resolved sources, destination |
| Rsync.RsyncArgvLayout | back_in_py.py:284-300 | the base flags come first; "--dry-run" follows them when requested; then one "--exclude=" + pattern per pattern in order, the resolved sources in order and generation 0 of the instance prefix last; the length is their total |
| Rsync.BaseFlagsAreNotDryRun | back_in_py.py:285-288 | no base flag, local or remote, is "--dry-run" |
| Rsync.ExcludesAreNotDryRun | back_in_py.py:293-294 | no exclude argument is "--dry-run" |
| Rsync.DryRunFlagCount | back_in_py.py:285-294 | among the options before the sources, "--dry-run" occurs once in a dry run and never otherwise |
| Rotation.Apply | back_in_py.py:255-272 | definition: one step taken successfully: drop .3, rename .2 to .3, rename .1 to .2, or copy .0 into .1 when .0 exists |
| Rotation.RunSteps | back_in_py.py:255-272 | definition: steps taken in order |
| Rotation.Rotated | back_in_py.py:255-272 | definition: the four steps, without the copy when cp fails |
| Rotation.Raises | back_in_py.py:248-265 | definition: shuffle_backups raises exactly when mkdir of a missing machine directory fails, or the rmtree or a rename of an existing generation fails |
| Rotation.StepsBeforeRaise | back_in_py.py:255-265 | the number of generation steps completed before the one that raises; at most two |
| Rotation.ShuffleSteps | back_in_py.py:248-265 | the number of steps completed when shuffle_backups raises: none when mkdir fails; at most two |
| Rotation.CreatedDirs | back_in_py.py:248-251 | definition: the machine directory is added unless it is missing and mkdir fails |
| Rotation.StepGenerations | back_in_py.py:255-272 | each guarded step changes the four generations of its prefix as the one-step shift says |
| Rotation.StepFrame | back_in_py.py:255-272 | a step touches only generations 1 to 3 of its prefix and creates no other directory |
| Rotation.RunFrame | back_in_py.py:255-272 | any sequence of steps leaves every path outside generations 1 to 3 as it was and creates no other directory |
| Rotation.RotationStages | back_in_py.py:255-272 | the four generations after each of the four steps |
| Rotation.RotationGuards | back_in_py.py:259-269 | the directory each later step checks exists exactly when it existed before the rotation |
| Rotation.RotationShifts | back_in_py.py:255-272 | a rotation that raises nothing yields .0 unchanged, .1 a copy of the old .0 (none if cp failed or there was no .0), .2 the old .1 and .3 the old .2; the old .3 is gone and nothing else changes |
| Rotation.InterruptedRotationKeepsNewest | back_in_py.py:255-265 | whichever step raises, generation 0 is as it was, every path outside generations 1 to 3 keeps its snapshot, and no directory is created outside them |
| Rotation.TwoRotations | back_in_py.py:239-272 | after two rotations with no transfer in between, .3 holds what .1 held before both |
| Rotation.RotationKeepsContiguous | back_in_py.py:239-272 | a complete rotation keeps the present generations a prefix of 0..3, and creates none on a first run |
| MountControl.MountArgv | back_in_py.py:188-190 | definition: the 'mount -o remount,<flag> DEVICE ROOT' vector |
| MountControl.Farewell | back_in_py.py:152-155 | definition: the status when msg is empty, otherwise msg + " Exiting..." |
| MountControl.RemountFailure | back_in_py.py:192 | definition: the "Could not remount" message clean_exit receives as its status |
| MountControl.ExitRun | back_in_py.py:141-155 | clean_exit never returns, and issues at most one mount command per remount attempt it is given |
| MountControl.RemountRun | back_in_py.py:178-195 | definition: remount_backup_drive does nothing without mount management, issues one mount command otherwise, and hands a failure to clean_exit |
| MountControl.ExitLeavesReadOnly | back_in_py.py:141-155 | when the drive is read-only, or some read-only remount succeeds, clean_exit exits with the drive read-only; it remounts only from read-write, once per failure plus the success, and exits with the original status unless a remount failed first |
| MountControl.ExitedMeansReadOnly | back_in_py.py:141-155 | whatever the remounts report, clean_exit reaches sys.exit only with the drive read-only |
| MountControl.ExitCrashesWhenAllRemountsFail | back_in_py.py:150-151 | when every read-only remount fails, the mutual recursion ends in an exception with the drive read-write, after one mount command per attempt |
| MountControl.ExitRemountsIffNotReadOnly | back_in_py.py:150-151 | with mounting managed, clean_exit issues a remount exactly when the drive is not read-only |
| MountControl.RemountOutcomes | back_in_py.py:178-195 | without mount management remount_backup_drive does nothing; on success the state becomes the requested mode; a failure from read-only exits with the failure message and the state unchanged; only a failure leaves the call |
| MountControl.MessagesExitWithOne | back_in_py.py:152-155 | clean_exit given a message, as status or as msg, ends the process with status 1; with neither it exits 0 |
| Options.Handle | back_in_py.py:323-345 | definition: one pass of the option loop: help and a bad --type end the process, --type, --dry-run and --mount set their global, anything else changes nothing |
| Options.Options | back_in_py.py:323-345 | definition: the option loop from the default globals, stopping at the first option that ends the process |
| Options.ReadOptions | back_in_py.py:323-345 | the loop over the option pairs computes the option fold |
| Options.QuitIsFinal | back_in_py.py:325-333 | once an option has made main exit, later options change nothing |
| Options.QuitCharacterized | back_in_py.py:325-333 | main exits in the option loop exactly when some option is help or a bad --type, with the status of the first such option |
| Options.DryRunCharacterized | back_in_py.py:335-336 | dry run is on exactly when some option asks for it |
| Options.MountCharacterized | back_in_py.py:338-339 | mount management is on exactly when some option asks for it |
| Options.HandleKeepsKind | back_in_py.py:325-345 | an option other than --type keeps the backup type |
| Options.KindDefault | back_in_py.py:52 | without --type the backup type stays daily |
| Options.KindIsLastType | back_in_py.py:329-331 | the backup type is the one the last --type names |
| Options.IgnoredOptions | back_in_py.py:341-345 | -d, -r, -v and -q leave the outcome as it was |
| Driver.Argv | back_in_py.py:188-191 | definition: the argument vector execute_command receives for each kind of command |
| Driver.CopyArgv | back_in_py.py:271-272 | definition: the 'cp -al <prefix>.0 <prefix>.1' vector |
| Driver.Stamp | back_in_py.py:391 | definition: the touch of the heartbeat path |
| Driver.TransferPlan | back_in_py.py:367-391 | definition: the rsync run and the heartbeat of every machine, in machine order |
| Driver.MachineCommands | back_in_py.py:367-396 | definition: a machine's turn issues the cp when the run is real and .0 exists, then its rsync and its touch |
| Driver.Synced | back_in_py.py:377-379 | definition: what the rsync run leaves in generation 0 |
| Driver.Turn | back_in_py.py:370-379 | definition: a real turn whose rotation raises nothing: the rotation, then the transfer |
| Driver.DiskAfter | back_in_py.py:367-379 | definition: the disk after the first n machines have had their real turns |
| Driver.MachineDirs | back_in_py.py:248-251 | definition: the machine directories after the first n machines have been rotated |
| Driver.MachineLog | back_in_py.py:367-396 | definition: the commands of the first n machines' turns, each on the disk the earlier turns left |
| Driver.RaisesAt | back_in_py.py:367-373 | definition: whether the rotation of the i-th machine raises, every earlier machine having had its turn |
| Driver.InterruptedAt | back_in_py.py:239-265 | definition: the disk and machine directories the raising rotation of the i-th machine leaves |
| Driver.LoopOutcome | back_in_py.py:367-396 | definition: a dry run reaches every machine and changes nothing; a real run stops exactly at the first machine whose rotation raises, with every earlier turn done and that rotation partly done, and otherwise reaches every machine |
| Driver.HarmlessRunCompletes | back_in_py.py:367-373 | when no mkdir, rmtree or rename fails, the loop reaches every machine |
| Driver.LoopOutcomeDeterminate | back_in_py.py:367-396 | the machines reached, the disk and the machine directories at the end of the loop are determined by its inputs |
| Driver.TurnShifts | back_in_py.py:255-300 | after a real turn .0 holds what rsync left (the old .0 if nothing), .1 the old .0 (none if cp failed), .2 the old .1 and .3 the old .2 |
| Driver.RepeatedMachineCopies | back_in_py.py:269-272 | a machine listed twice gets a cp -al on its second turn once rsync has filled its generation 0, even on an empty drive |
| Driver.MachineCommandsTransfers | back_in_py.py:367-396 | a machine's turn hands over its rsync vector and then its heartbeat, and never remounts |
| Driver.MachineLogTransfers | back_in_py.py:367-396 | the transfers of the machine loop are two per machine, rsync then touch, in machine order; the loop never remounts |
| Driver.CleanRun | back_in_py.py:367-379 | definition: the disk and directories after n turns, or none once a rotation raises |
| Driver.CleanRunAfter | back_in_py.py:367-379 | a run of n turns without an exception leaves DiskAfter and MachineDirs |
| Driver.CleanRunPasses | back_in_py.py:367-373 | a run of n turns without an exception passes only machines whose rotations do not raise |
| Driver.CleanRunPassesAll | back_in_py.py:367-373 | the same for every machine before the n-th |
| Driver.NextTurn | back_in_py.py:367-379 | a turn that raises nothing carries the run on by one machine |
| Driver.StopsAt | back_in_py.py:367-373 | definition: the i-th rotation raised after a clean run of the earlier machines |
| Driver.StoppedOutcome | back_in_py.py:367-373 | a loop stopped by the raising rotation of the i-th machine ends as LoopOutcome says |
| Driver.CompletedOutcome | back_in_py.py:367-396 | a loop that reached every machine ends as LoopOutcome says |
| Driver.DryTurn | back_in_py.py:370-391 | in a dry run a machine's turn is exactly its rsync and its touch |
| Driver.DryRunLog | back_in_py.py:367-396 | a dry run issues exactly the transfer plan, with no hard-link copies |
| Driver.WholeLoopLog | back_in_py.py:367-396 | a loop that reached every machine issued the transfer plan's transfers, and exactly the plan in a dry run |
| Driver.ClosingRemount | back_in_py.py:149-151 | the closing clean_exit of a run that left the drive read-write issues the read-only remount |
| Driver.Opening | back_in_py.py:362-363 | definition: the read-write remount when it is asked for |
| Driver.OpeningIsNoTransfer | back_in_py.py:362-363 | the commands before the loop hold the read-write remount exactly when it is asked for, and no transfer |
| Driver.RunLog | back_in_py.py:361-400 | a run's log has the transfers of its machine loop and holds the read-write remount only if the opening does |
| Driver.Host.constructor | back_in_py.py:133-134 | the process starts with the drive read-only and no command issued |
| Driver.Host.Remount | back_in_py.py:178-195 | remount_backup_drive ends as RemountRun says, logging the mount command and the remounts of the clean_exit a failure leads to |
| Driver.Host.CleanExit | back_in_py.py:141-155 | clean_exit ends as ExitRun says, logging only read-only remounts |
| Driver.Host.Shuffle | back_in_py.py:239-272 | shuffle_backups raises exactly when mkdir of a missing machine directory or a guarded rmtree or rename fails; the machine directory exists afterwards unless its mkdir failed; without a raise the disk is rotated and a cp is logged exactly when .0 existed; a raise logs nothing and leaves the disk after exactly the steps ShuffleSteps counts |
| Driver.Host.ShiftGenerations | back_in_py.py:253-272 | the four guarded steps raise exactly when a guarded rmtree or rename fails; otherwise they give the rotated disk and log the cp when .0 existed; a raise leaves the disk after the steps StepsBeforeRaise counts |
| Driver.Host.OpenRun | back_in_py.py:361-363 | the read-write remount is asked for only when mounting is managed and the run is real; it ends the process exactly when that remount fails, with the drive read-only |
| Driver.Host.BackUp | back_in_py.py:356-400 | main from the root check on: exits for a non-root process; never exits with the drive read-write; every machine reached gets its rsync and touch in order; the read-write remount happens exactly when mounting is managed and the run is real; the machine loop ends as LoopOutcome says, so a real run stops exactly at the first raising rotation with the disk and machine directories it left, and then the drive stays read-write when mounting is managed; a dry run changes no directory and issues only the transfers; a complete run ends with the flow and mount state of ExitRun, and its log is the opening, the machine loop's commands and ExitRun's read-only remounts, so a complete real run that manages mounting asks for the read-only remount |
| Driver.Host.BackUpAsRoot | back_in_py.py:361-400 | the same guarantees for a process running as root, including the whole log of a complete run: the opening, the machine loop's commands and the read-only remounts of ExitRun |
| Driver.Host.BackUpAndExit | back_in_py.py:365-400 | the loop and the closing clean_exit: the loop ends as LoopOutcome says; the log grows by the loop's commands and then read-only remounts only; an early stop leaves the mount state unchanged; a complete loop ends with the flow, mount state and remount count of ExitRun |
| Driver.Host.CloseRun | back_in_py.py:398-400 | the closing clean_exit ends as ExitRun says: its flow, the mount state it leaves and its number of read-only remounts, which are all it adds to the log |
| Driver.Host.BackUpMachines | back_in_py.py:365-396 | the machine loop ends as LoopOutcome says; it stops early exactly when a rotation raises; it logs the commands of every machine reached; a dry run logs exactly the transfer plan |
| Driver.Host.TakeTurns | back_in_py.py:367-396 | the loop gives every machine its turn until a rotation raises, stopping as StopsAt says |
| Driver.Host.Progress | back_in_py.py:367-396 | definition: after i turns without an exception the log and the disk are MachineLog and CleanRun of i |
| Driver.Host.Advance | back_in_py.py:367-396 | one turn carries Progress on by one machine or stops as StopsAt says, logging nothing more |
| Driver.Host.BackUpMachine | back_in_py.py:367-396 | one turn: rotation unless a dry run, then rsync and touch; the rotation raises exactly as Raises says and a raise logs nothing more and leaves the disk after ShuffleSteps steps; otherwise the disk is Turn of the old one |
| Driver.Host.Transmit | back_in_py.py:375-391 | a turn's rsync vector and its heartbeat are logged in this order, and a real transfer leaves in generation 0 what rsync wrote |

## Left out

- `execute_command` and process spawning (back_in_py.py:158-175) are not modelled. A command handed to it is recorded in the log. Its answer becomes an input only where the code acts on it (mount errors) or where it decides what is on disk (a failing cp, what rsync writes into `.0`). The answers of rsync and touch only reach the logger.
- The filesystem effects of `cp -al`, `rmtree`, `rename`, `mkdir`, `mount` and rsync are reduced to an abstract map from path to snapshot value. The hard-link copy is ".1 takes the value of .0"; inode sharing and what the files hold are outside the model. What rsync leaves in `.0` is the input `received`.
- Rotation.Rotated: a failing `cp -al` is modelled as leaving no `.1` at all. A copy that fails part-way and leaves a partial `.1` tree is not modelled.
- Driver.Host.Transmit: the file the heartbeat `touch` creates is not a snapshot directory and is not recorded on the disk; only the command is logged.
- getopt, the usage text and loading the machine file (back_in_py.py:317-322, 347-354) are left out. The model takes the option pairs and the machine list as inputs.
- Lines 347-357 are indented with a tab, which Python 2 counts as eight columns, so they sit inside the option loop. Three consequences are not modelled. The machine file is read once per option. With no options at all, `machines` is never bound, and line 367 raises UnboundLocalError after the root check. Without a MACHINE_FILE argument, `args[0]` raises IndexError at line 350 in the first pass of the option loop. The model always starts the machine loop with the given list.
- A machine record is assumed to carry every key the code reads (`name`, `IP`, `exclude`, `<type>_sources`); a missing key, which raises KeyError, is not modelled.
- Logging (back_in_py.py:119-126 and every `log.*` call) and the dry-run `print` (back_in_py.py:303-304) produce output only.
- The root check `os.getuid()` (back_in_py.py:358-359) is a boolean input of `Driver.Host.BackUp`.
- MountControl.ExitRun: the interpreter's recursion limit is modelled as running out of the given remount results; the actual depth at which Python raises is not modelled. Given no results at all from the read-write state, ExitRun crashes before any remount, which the program cannot do; the contracts that promise a remount (`MountControl.ExitRemountsIffNotReadOnly`, `Driver.ClosingRemount`, `Driver.Host.BackUp`) require at least one result.
- MountControl.MessagesExitWithOne: an integer status is kept as given, not reduced modulo 256 by the operating system.
- Driver.Host.Transmit: `rsync_args` and the two `execute_command` calls for rsync and touch are recorded as one append of both commands.
