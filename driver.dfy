/**
 * The process state of back_in_py and the procedures that change it:
 * remount_backup_drive and clean_exit (the mount state), shuffle_backups (the
 * generation directories) and the backup part of main. Every command handed
 * to execute_command is recorded in the log; what the outside world
 * answers is passed in.
 */
module Driver {
  import opened Wrappers
  import opened Settings
  import opened Paths
  import opened Sources
  import opened Rsync
  import opened Rotation
  import opened MountControl

  /** The hard-link copy of generation 0 into generation 1. */
  function CopyArgv(p: string): seq<string>
  {
    [CP, "-al", GenPath(p, 0), GenPath(p, 1)]
  }

  /** A command main hands to execute_command. */
  datatype Command =
    | Mount(mode: MountState)      // the remount of the backup drive
    | HardLink(prefix: string)     // the hard-link copy of generation 0 of prefix
    | Transfer(args: seq<string>)  // an rsync run with these arguments
    | Heartbeat(path: string)      // the touch of a heartbeat file

  /** The argument vector execute_command receives for c. */
  function Argv(c: Command): seq<string>
  {
    match c
    case Mount(mode) => MountArgv(mode)
    case HardLink(prefix) => CopyArgv(prefix)
    case Transfer(args) => args
    case Heartbeat(path) => [TOUCH, path]
  }

  /** The heartbeat command of main for m. */
  function Stamp(m: Machine): Command
  {
    Heartbeat(HeartbeatPath(m))
  }

  function Repeat(c: Command, n: nat): (r: seq<Command>)
    ensures |r| == n && forall i :: 0 <= i < n ==> r[i] == c
  {
    seq(n, _ => c)
  }

  /** The commands whose results main only logs: rsync transfers and heartbeats. */
  predicate IsTransfer(c: Command)
  {
    c.Transfer? || c.Heartbeat?
  }

  /** The transfer and heartbeat commands of a log, in order. */
  function Transfers(log: seq<Command>): seq<Command>
    decreases |log|
  {
    if log == [] then []
    else Transfers(log[..|log| - 1]) + (if IsTransfer(log[|log| - 1]) then [log[|log| - 1]] else [])
  }

  /** The two commands main issues for every machine it reaches, in machine order. */
  function TransferPlan(ms: seq<Machine>, cfg: RunConfig): seq<Command>
    decreases |ms|
  {
    if ms == [] then []
    else TransferPlan(ms[..|ms| - 1], cfg) + [Transfer(RsyncArgv(ms[|ms| - 1], cfg)), Stamp(ms[|ms| - 1])]
  }

  /** The faults the operating system produces for the i-th machine (none past the end). */
  function FaultsAt(faults: seq<Faults>, i: nat): Faults
  {
    if i < |faults| then faults[i] else NO_FAULTS
  }

  /** What the rsync run into generation 0 of prefix p leaves there, if anything. */
  function Synced(d: Disk, p: string, received: Option<Snapshot>): Disk
  {
    match received
    case None => d
    case Some(s) => d[GenPath(p, 0) := s]
  }

  /** One real turn of a machine whose rotation raises nothing: the rotation, then the transfer. */
  function Turn(d: Disk, p: string, f: Faults): Disk
  {
    Synced(Rotated(d, p, f.linkFails), p, f.received)
  }

  /** The disk after the first n machines of ms have had their real turns in order without an exception. */
  function DiskAfter(d: Disk, ms: seq<Machine>, cfg: RunConfig, faults: seq<Faults>, n: nat): Disk
    requires n <= |ms|
  {
    if n == 0 then d
    else Turn(DiskAfter(d, ms, cfg, faults, n - 1), InstancePrefix(ms[n - 1], cfg.kind), FaultsAt(faults, n - 1))
  }

  /** The machine directories after the first n machines of ms have been rotated without an exception. */
  function MachineDirs(dirs: set<string>, ms: seq<Machine>, n: nat): set<string>
    requires n <= |ms|
  {
    if n == 0 then dirs else MachineDirs(dirs, ms, n - 1) + {BackupPath(ms[n - 1])}
  }

  /** Whether the rotation of the i-th machine raises, every earlier machine having had its turn. */
  predicate RaisesAt(d: Disk, dirs: set<string>, ms: seq<Machine>, cfg: RunConfig, faults: seq<Faults>, i: nat)
    requires i < |ms|
  {
    Raises(DiskAfter(d, ms, cfg, faults, i), MachineDirs(dirs, ms, i), BackupPath(ms[i]),
           InstancePrefix(ms[i], cfg.kind), FaultsAt(faults, i))
  }

  /** The disk and the machine directories the raising rotation of the i-th machine leaves behind. */
  predicate InterruptedAt(d: Disk, dirs: set<string>, ms: seq<Machine>, cfg: RunConfig, faults: seq<Faults>, i: nat,
                          disk: Disk, made: set<string>)
    requires i < |ms|
  {
    var before, known := DiskAfter(d, ms, cfg, faults, i), MachineDirs(dirs, ms, i);
    var dir, p, f := BackupPath(ms[i]), InstancePrefix(ms[i], cfg.kind), FaultsAt(faults, i);
    && disk == RunSteps(before, p, ROTATION[..ShuffleSteps(before, known, dir, p, f)])
    && made == CreatedDirs(known, dir, f)
  }

  /**
   * How the machine loop of main ends, from disk d and machine directories
   * dirs, with attempted machines reached and the disk and directories then
   * being disk and made. A dry run reaches every machine and changes nothing.
   * A real run goes on up to the first machine whose rotation raises and stops
   * there, with that rotation partly done; when none raises, every machine has
   * had its turn.
   */
  predicate LoopOutcome(d: Disk, dirs: set<string>, ms: seq<Machine>, cfg: RunConfig, faults: seq<Faults>,
                        attempted: nat, disk: Disk, made: set<string>)
  {
    && attempted <= |ms|
    && (cfg.dryRun ==> attempted == |ms| && disk == d && made == dirs)
    && (!cfg.dryRun ==>
          && (forall i :: 0 <= i < attempted ==> !RaisesAt(d, dirs, ms, cfg, faults, i))
          && (attempted == |ms| ==> disk == DiskAfter(d, ms, cfg, faults, |ms|) && made == MachineDirs(dirs, ms, |ms|))
          && (attempted < |ms| ==>
                RaisesAt(d, dirs, ms, cfg, faults, attempted) && InterruptedAt(d, dirs, ms, cfg, faults, attempted, disk, made)))
  }

  /** Faults under which shuffle_backups cannot raise: only cp and rsync go wrong. */
  predicate Harmless(f: Faults)
  {
    !f.mkdirFails && !f.removeFails && !f.rename2Fails && !f.rename1Fails
  }

  /** When no mkdir, rmtree or rename fails, the loop reaches every machine. */
  lemma HarmlessRunCompletes(d: Disk, dirs: set<string>, ms: seq<Machine>, cfg: RunConfig, faults: seq<Faults>,
                             attempted: nat, disk: Disk, made: set<string>)
    requires LoopOutcome(d, dirs, ms, cfg, faults, attempted, disk, made)
    requires forall i :: 0 <= i < |faults| ==> Harmless(faults[i])
    ensures attempted == |ms|
  {
    if attempted < |ms| {
      assert false;
    }
  }

  /** The loop's outcome is determined by its inputs: machines reached, disk and directories. */
  lemma LoopOutcomeDeterminate(d: Disk, dirs: set<string>, ms: seq<Machine>, cfg: RunConfig, faults: seq<Faults>,
                               a1: nat, disk1: Disk, made1: set<string>, a2: nat, disk2: Disk, made2: set<string>)
    requires LoopOutcome(d, dirs, ms, cfg, faults, a1, disk1, made1)
    requires LoopOutcome(d, dirs, ms, cfg, faults, a2, disk2, made2)
    ensures a1 == a2 && disk1 == disk2 && made1 == made2
  {
    if !cfg.dryRun && a1 != a2 {
      assert false;
    }
  }

  /**
   * A turn keeps the last snapshot as generation 1 while the transfer writes
   * generation 0: .0 is what rsync left (the old .0 if it left nothing), .1
   * the old .0 (none if cp failed), .2 the old .1 and .3 the old .2.
   */
  lemma TurnShifts(d: Disk, p: string, f: Faults)
    ensures var g := Generations(d, p);
      Generations(Turn(d, p, f), p) ==
        [if f.received.Some? then f.received else g[0], if f.linkFails then None else g[0], g[1], g[2]]
  {
    RotationShifts(d, p, f.linkFails);
    GenPathsDistinct(p);
  }

  /**
   * A machine named twice, even on a drive with no snapshot of it yet: once
   * rsync has filled its generation 0, the second turn starts with cp -al.
   */
  lemma RepeatedMachineCopies(d: Disk, m: Machine, cfg: RunConfig, faults: seq<Faults>)
    requires !cfg.dryRun && 0 < |faults| && faults[0].received.Some?
    ensures HardLink(InstancePrefix(m, cfg.kind)) in MachineLog(d, [m, m], cfg, faults, 2)
  {
    var p := InstancePrefix(m, cfg.kind);
    var first := DiskAfter(d, [m, m], cfg, faults, 1);
    assert DiskAfter(d, [m, m], cfg, faults, 0) == d;
    assert first == Turn(d, p, FaultsAt(faults, 0));
    assert GenPath(p, 0) in first;
    var log := MachineLog(d, [m, m], cfg, faults, 2);
    assert log == MachineLog(d, [m, m], cfg, faults, 1) + ([HardLink(p)] + [Transfer(RsyncArgv(m, cfg)), Stamp(m)]);
    assert log[|MachineLog(d, [m, m], cfg, faults, 1)|] == HardLink(p);
  }

  /** The commands main issues for m, the disk being d when m's turn comes. */
  function MachineCommands(d: Disk, m: Machine, cfg: RunConfig): seq<Command>
  {
    var p := InstancePrefix(m, cfg.kind);
    (if !cfg.dryRun && GenPath(p, 0) in d then [HardLink(p)] else []) + [Transfer(RsyncArgv(m, cfg)), Stamp(m)]
  }

  /** The commands of the machine loop of main for the first n machines of ms when no rotation raises. */
  function MachineLog(d: Disk, ms: seq<Machine>, cfg: RunConfig, faults: seq<Faults>, n: nat): seq<Command>
    requires n <= |ms|
  {
    if n == 0 then []
    else MachineLog(d, ms, cfg, faults, n - 1) + MachineCommands(DiskAfter(d, ms, cfg, faults, n - 1), ms[n - 1], cfg)
  }

  predicate NoReadWriteRemount(log: seq<Command>)
  {
    forall i :: 0 <= i < |log| ==> log[i] != Mount(ReadWrite)
  }

  lemma TransfersSnoc(log: seq<Command>, c: Command)
    ensures Transfers(log + [c]) == Transfers(log) + if IsTransfer(c) then [c] else []
  {
    assert (log + [c])[..|log|] == log;
  }

  /** Transfers distributes over concatenation. */
  lemma {:induction false} TransfersAppend(a: seq<Command>, b: seq<Command>)
    ensures Transfers(a + b) == Transfers(a) + Transfers(b)
    decreases |b|
  {
    if b == [] {
      assert a + b == a;
    } else {
      var n := |b| - 1;
      TransfersAppend(a, b[..n]);
      assert a + b == (a + b[..n]) + [b[n]];
      assert b[..n] + [b[n]] == b;
      TransfersSnoc(a + b[..n], b[n]);
      TransfersSnoc(b[..n], b[n]);
    }
  }

  lemma NoReadWriteRemountAppend(a: seq<Command>, b: seq<Command>)
    ensures NoReadWriteRemount(a + b) <==> NoReadWriteRemount(a) && NoReadWriteRemount(b)
  {
    assert forall i :: 0 <= i < |b| ==> (a + b)[|a| + i] == b[i];
    assert forall i :: 0 <= i < |a| ==> (a + b)[i] == a[i];
  }

  lemma Associative<T>(a: seq<T>, b: seq<T>, c: seq<T>)
    ensures a + b + c == a + (b + c)
  {
  }

  /** Remount commands are no transfers, and read-only ones are not the read-write remount. */
  lemma {:induction false} RemountsAreNoTransfers(mode: MountState, k: nat)
    ensures Transfers(Repeat(Mount(mode), k)) == []
    ensures mode == ReadOnly ==> NoReadWriteRemount(Repeat(Mount(mode), k))
    decreases k
  {
    if k > 0 {
      RemountsAreNoTransfers(mode, k - 1);
      assert Repeat(Mount(mode), k) == Repeat(Mount(mode), k - 1) + [Mount(mode)];
      TransfersSnoc(Repeat(Mount(mode), k - 1), Mount(mode));
    }
  }

  /** A turn of the loop without a hard-link copy: two transfers. */
  lemma PairTransfers(t: Command, u: Command)
    requires IsTransfer(t) && IsTransfer(u)
    ensures Transfers([] + [t, u]) == [t, u]
  {
    assert [] + [t, u] == [t, u];
    assert [t][..0] == [];
    assert Transfers([t]) == [t];
    assert [t, u][..1] == [t];
  }

  /** A turn of the loop with a hard-link copy: the copy is no transfer. */
  lemma CopyPairTransfers(h: Command, t: Command, u: Command)
    requires h.HardLink? && IsTransfer(t) && IsTransfer(u)
    ensures Transfers([h] + [t, u]) == [t, u]
  {
    assert [h] + [t, u] == [h, t, u];
    assert [h][..0] == [];
    assert Transfers([h]) == [];
    assert [h, t][..1] == [h];
    assert Transfers([h, t]) == [t];
    assert [h, t, u][..2] == [h, t];
  }

  /** A machine's turn hands over its rsync run and then its heartbeat, and never remounts. */
  lemma MachineCommandsTransfers(d: Disk, m: Machine, cfg: RunConfig)
    ensures Transfers(MachineCommands(d, m, cfg)) == [Transfer(RsyncArgv(m, cfg)), Stamp(m)]
    ensures NoReadWriteRemount(MachineCommands(d, m, cfg))
  {
    var p := InstancePrefix(m, cfg.kind);
    var t, u := Transfer(RsyncArgv(m, cfg)), Stamp(m);
    if !cfg.dryRun && GenPath(p, 0) in d {
      CopyPairTransfers(HardLink(p), t, u);
    } else {
      PairTransfers(t, u);
    }
  }

  /** The loop's transfers are the plan: two per machine, in machine order; it never remounts. */
  lemma {:induction false} MachineLogTransfers(d: Disk, ms: seq<Machine>, cfg: RunConfig, faults: seq<Faults>, n: nat)
    requires n <= |ms|
    ensures Transfers(MachineLog(d, ms, cfg, faults, n)) == TransferPlan(ms[..n], cfg)
    ensures NoReadWriteRemount(MachineLog(d, ms, cfg, faults, n))
    decreases n
  {
    if n > 0 {
      MachineLogTransfers(d, ms, cfg, faults, n - 1);
      var before := MachineLog(d, ms, cfg, faults, n - 1);
      var turn := MachineCommands(DiskAfter(d, ms, cfg, faults, n - 1), ms[n - 1], cfg);
      MachineCommandsTransfers(DiskAfter(d, ms, cfg, faults, n - 1), ms[n - 1], cfg);
      TransfersAppend(before, turn);
      NoReadWriteRemountAppend(before, turn);
      TransferPlanSnoc(ms, n, cfg);
    }
  }

  /** One more machine of the plan: its rsync run and its heartbeat. */
  lemma TransferPlanSnoc(ms: seq<Machine>, n: nat, cfg: RunConfig)
    requires 0 < n <= |ms|
    ensures TransferPlan(ms[..n], cfg) == TransferPlan(ms[..n - 1], cfg) + [Transfer(RsyncArgv(ms[n - 1], cfg)), Stamp(ms[n - 1])]
  {
    assert ms[..n][..n - 1] == ms[..n - 1];
  }

  /**
   * The disk and the machine directories after the first n machines of ms
   * have had their real turns, or None when one of their rotations raises.
   */
  function CleanRun(d: Disk, dirs: set<string>, ms: seq<Machine>, cfg: RunConfig, faults: seq<Faults>, n: nat)
    : Option<(Disk, set<string>)>
    requires n <= |ms|
  {
    if n == 0 then Some((d, dirs))
    else
      match CleanRun(d, dirs, ms, cfg, faults, n - 1)
      case None => None
      case Some((disk, made)) =>
        var dir, p, f := BackupPath(ms[n - 1]), InstancePrefix(ms[n - 1], cfg.kind), FaultsAt(faults, n - 1);
        if Raises(disk, made, dir, p, f) then None else Some((Turn(disk, p, f), made + {dir}))
  }

  /** A run without an exception leaves DiskAfter and MachineDirs. */
  lemma {:induction false} CleanRunAfter(d: Disk, dirs: set<string>, ms: seq<Machine>, cfg: RunConfig,
                                        faults: seq<Faults>, n: nat)
    requires n <= |ms| && CleanRun(d, dirs, ms, cfg, faults, n).Some?
    ensures CleanRun(d, dirs, ms, cfg, faults, n).value == (DiskAfter(d, ms, cfg, faults, n), MachineDirs(dirs, ms, n))
    decreases n
  {
    if n > 0 {
      CleanRunAfter(d, dirs, ms, cfg, faults, n - 1);
    }
  }

  /** A run without an exception passes machines whose rotations do not raise. */
  lemma {:induction false} CleanRunPasses(d: Disk, dirs: set<string>, ms: seq<Machine>, cfg: RunConfig,
                                         faults: seq<Faults>, n: nat, k: nat)
    requires k < n <= |ms| && CleanRun(d, dirs, ms, cfg, faults, n).Some?
    ensures !RaisesAt(d, dirs, ms, cfg, faults, k)
    decreases n
  {
    if k < n - 1 {
      CleanRunPasses(d, dirs, ms, cfg, faults, n - 1, k);
    } else {
      CleanRunAfter(d, dirs, ms, cfg, faults, n - 1);
    }
  }

  lemma CleanRunPassesAll(d: Disk, dirs: set<string>, ms: seq<Machine>, cfg: RunConfig, faults: seq<Faults>, n: nat)
    requires n <= |ms| && CleanRun(d, dirs, ms, cfg, faults, n).Some?
    ensures forall k :: 0 <= k < n ==> !RaisesAt(d, dirs, ms, cfg, faults, k)
  {
    forall k | 0 <= k < n
      ensures !RaisesAt(d, dirs, ms, cfg, faults, k)
    {
      CleanRunPasses(d, dirs, ms, cfg, faults, n, k);
    }
  }

  /** A turn that does not raise carries the run on by one machine. */
  lemma NextTurn(d: Disk, dirs: set<string>, ms: seq<Machine>, cfg: RunConfig, faults: seq<Faults>, i: nat,
                 before: Disk, known: set<string>, after: Disk, made: set<string>)
    requires i < |ms| && CleanRun(d, dirs, ms, cfg, faults, i) == Some((before, known))
    requires var p, f := InstancePrefix(ms[i], cfg.kind), FaultsAt(faults, i);
      && !Raises(before, known, BackupPath(ms[i]), p, f)
      && after == Turn(before, p, f) && made == CreatedDirs(known, BackupPath(ms[i]), f)
    ensures CleanRun(d, dirs, ms, cfg, faults, i + 1) == Some((after, made))
  {
  }

  /**
   * The i-th machine's rotation raised after a clean run of the machines before
   * it, which left disk before and machine directories known, and the rotation
   * left disk and made.
   */
  ghost predicate StopsAt(d: Disk, dirs: set<string>, ms: seq<Machine>, cfg: RunConfig, faults: seq<Faults>, i: nat,
                          before: Disk, known: set<string>, disk: Disk, made: set<string>)
  {
    && !cfg.dryRun && i < |ms| && CleanRun(d, dirs, ms, cfg, faults, i) == Some((before, known))
    && var dir, p, f := BackupPath(ms[i]), InstancePrefix(ms[i], cfg.kind), FaultsAt(faults, i);
      && Raises(before, known, dir, p, f)
      && disk == RunSteps(before, p, ROTATION[..ShuffleSteps(before, known, dir, p, f)])
      && made == CreatedDirs(known, dir, f)
  }

  /** The loop stopping at the i-th machine, whose rotation raised, ends as LoopOutcome says. */
  lemma StoppedOutcome(d: Disk, dirs: set<string>, ms: seq<Machine>, cfg: RunConfig, faults: seq<Faults>, i: nat,
                       before: Disk, known: set<string>, disk: Disk, made: set<string>)
    requires StopsAt(d, dirs, ms, cfg, faults, i, before, known, disk, made)
    ensures LoopOutcome(d, dirs, ms, cfg, faults, i, disk, made)
  {
    CleanRunAfter(d, dirs, ms, cfg, faults, i);
    CleanRunPassesAll(d, dirs, ms, cfg, faults, i);
  }

  /** The loop reaching the end of the machines ends as LoopOutcome says. */
  lemma CompletedOutcome(d: Disk, dirs: set<string>, ms: seq<Machine>, cfg: RunConfig, faults: seq<Faults>,
                         disk: Disk, made: set<string>)
    requires cfg.dryRun ==> disk == d && made == dirs
    requires !cfg.dryRun ==> CleanRun(d, dirs, ms, cfg, faults, |ms|) == Some((disk, made))
    ensures LoopOutcome(d, dirs, ms, cfg, faults, |ms|, disk, made)
  {
    if !cfg.dryRun {
      CleanRunAfter(d, dirs, ms, cfg, faults, |ms|);
      CleanRunPassesAll(d, dirs, ms, cfg, faults, |ms|);
    }
  }

  /** In a dry run a machine's turn is its two transfers. */
  lemma DryTurn(d: Disk, m: Machine, cfg: RunConfig)
    requires cfg.dryRun
    ensures MachineCommands(d, m, cfg) == [Transfer(RsyncArgv(m, cfg)), Stamp(m)]
  {
    assert [] + [Transfer(RsyncArgv(m, cfg)), Stamp(m)] == [Transfer(RsyncArgv(m, cfg)), Stamp(m)];
  }

  /** A dry run issues exactly the transfer plan. */
  lemma {:induction false} DryRunLog(d: Disk, ms: seq<Machine>, cfg: RunConfig, faults: seq<Faults>, n: nat)
    requires cfg.dryRun && n <= |ms|
    ensures MachineLog(d, ms, cfg, faults, n) == TransferPlan(ms[..n], cfg)
    decreases n
  {
    if n > 0 {
      DryRunLog(d, ms, cfg, faults, n - 1);
      DryTurn(DiskAfter(d, ms, cfg, faults, n - 1), ms[n - 1], cfg);
      TransferPlanSnoc(ms, n, cfg);
    }
  }

  /** The log of a machine loop that reached every machine. */
  lemma WholeLoopLog(d: Disk, ms: seq<Machine>, cfg: RunConfig, faults: seq<Faults>)
    ensures ms[..|ms|] == ms
    ensures Transfers(MachineLog(d, ms, cfg, faults, |ms|)) == TransferPlan(ms, cfg)
    ensures NoReadWriteRemount(MachineLog(d, ms, cfg, faults, |ms|))
    ensures cfg.dryRun ==> MachineLog(d, ms, cfg, faults, |ms|) == TransferPlan(ms, cfg)
  {
    assert ms[..|ms|] == ms;
    MachineLogTransfers(d, ms, cfg, faults, |ms|);
    if cfg.dryRun {
      DryRunLog(d, ms, cfg, faults, |ms|);
    }
  }

  /** The transfers of a run's log are those of its machine loop. */
  lemma RunLogTransfers(start: seq<Command>, plan: seq<Command>, rest: seq<Command>)
    requires Transfers(start) == [] && Transfers(rest) == []
    ensures Transfers(start + plan + rest) == Transfers(plan)
  {
    var tp := Transfers(plan);
    TransfersAppend(start, plan);
    assert Transfers(start + plan) == tp by {
      assert [] + tp == tp;
    }
    TransfersAppend(start + plan, rest);
    assert tp + [] == tp;
  }

  /** A read-write remount in a run's log can only be the one before the loop. */
  lemma RunLogRemounts(start: seq<Command>, plan: seq<Command>, rest: seq<Command>)
    requires NoReadWriteRemount(plan) && NoReadWriteRemount(rest)
    ensures Mount(ReadWrite) in start + plan + rest <==> Mount(ReadWrite) in start
  {
    NoReadWriteRemountAppend(plan, rest);
    assert Mount(ReadWrite) !in plan + rest;
    assert start + plan + rest == start + (plan + rest);
  }

  /** The closing clean_exit of a run that left the drive read-write asks for the read-only remount. */
  lemma ClosingRemount(exitAttempts: seq<bool>)
    requires exitAttempts != []
    ensures Mount(ReadOnly) in Repeat(Mount(ReadOnly), ExitRun(ReadWrite, true, Text("\nFinished backing up!"), "", exitAttempts).remounts)
  {
    ExitRemountsIffNotReadOnly(ReadWrite, Text("\nFinished backing up!"), "", exitAttempts);
    assert Repeat(Mount(ReadOnly), ExitRun(ReadWrite, true, Text("\nFinished backing up!"), "", exitAttempts).remounts)[0] == Mount(ReadOnly);
  }

  /** The commands main issues before the machine loop: the read-write remount, if asked for. */
  function Opening(remount: bool): seq<Command>
  {
    if remount then [Mount(ReadWrite)] else []
  }

  /** The opening holds the read-write remount exactly when asked for, and no transfer. */
  lemma OpeningIsNoTransfer(remount: bool)
    ensures Transfers(Opening(remount)) == []
    ensures Mount(ReadWrite) in Opening(remount) <==> remount
  {
    if remount {
      assert [Mount(ReadWrite)][..0] == [];
    }
  }

  /**
   * The log of a run past the root check: the read-write remount if any
   * (start), the commands of the machine loop (plan), then read-only remounts.
   */
  lemma RunLog(start: seq<Command>, plan: seq<Command>, remounts: nat)
    requires Transfers(start) == [] && NoReadWriteRemount(plan)
    ensures var log := start + plan + Repeat(Mount(ReadOnly), remounts);
      && Transfers(log) == Transfers(plan)
      && (Mount(ReadWrite) in log <==> Mount(ReadWrite) in start)
      && start + plan <= log
      && (start == [] && remounts == 0 ==> log == plan)
  {
    var rest := Repeat(Mount(ReadOnly), remounts);
    RemountsAreNoTransfers(ReadOnly, remounts);
    RunLogTransfers(start, plan, rest);
    RunLogRemounts(start, plan, rest);
    if start == [] && remounts == 0 {
      assert [] + plan + [] == plan;
    }
  }

  class Host {
    /** The option globals, fixed before any backup work. */
    const cfg: RunConfig
    /** _drive_mount_state. */
    var mountState: MountState
    /** The snapshot directories on the backup volume. */
    var snapshots: Disk
    /** The machine directories under the backup root. */
    var machineDirs: set<string>
    /** Every command handed to execute_command, in order. */
    var log: seq<Command>

    /** The drive is only ever read-write when the run manages mounting. */
    ghost predicate Valid()
      reads this
    {
      mountState == ReadWrite ==> cfg.mount
    }

    /** The process at start-up: the drive is read-only and nothing has been run. */
    constructor (cfg: RunConfig, snapshots: Disk, machineDirs: set<string>)
      ensures Valid()
      ensures this.cfg == cfg && mountState == ReadOnly && log == []
      ensures this.snapshots == snapshots && this.machineDirs == machineDirs
    {
      this.cfg := cfg;
      mountState := ReadOnly;
      this.snapshots := snapshots;
      this.machineDirs := machineDirs;
      log := [];
    }

    /** remount_backup_drive(mode); `fails` is what the mount command reports. */
    method Remount(mode: MountState, fails: bool, later: seq<bool>) returns (flow: Flow)
      requires Valid()
      modifies this`mountState, this`log
      decreases |later| + 1, 0
      ensures Valid()
      ensures var e := RemountRun(old(mountState), cfg.mount, mode, fails, later);
        && flow == e.flow
        && mountState == e.state
        && log == old(log) + (if e.remounts == 0 then [] else [Mount(mode)] + Repeat(Mount(ReadOnly), e.remounts - 1))
    {
      if cfg.mount {
        log := log + [Mount(mode)];
        if fails {
          flow := CleanExit(RemountFailure(mode), "", later);
          assert log == old(log) + [Mount(mode)] + Repeat(Mount(ReadOnly), ExitRun(old(mountState), cfg.mount, RemountFailure(mode), "", later).remounts);
        } else {
          mountState := mode;
          flow := Running;
        }
      } else {
        flow := Running;
      }
    }

    /** clean_exit(status, msg); attempts are the results of successive read-only remounts. */
    method CleanExit(status: ExitArg, msg: string, attempts: seq<bool>) returns (flow: Flow)
      requires Valid()
      modifies this`mountState, this`log
      decreases |attempts|, 1
      ensures Valid()
      ensures var e := ExitRun(old(mountState), cfg.mount, status, msg, attempts);
        flow == e.flow && mountState == e.state && log == old(log) + Repeat(Mount(ReadOnly), e.remounts)
    {
      // remount_backup_drive does nothing when mounting is not managed
      if mountState != ReadOnly && cfg.mount {
        if attempts == [] {
          // the interpreter's recursion limit: the exception ends the process
          flow := Crashed;
          return;
        }
        flow := Remount(ReadOnly, attempts[0], attempts[1..]);
        if flow != Running {
          return;
        }
      }
      flow := Exited(Farewell(status, msg));
    }

    /** shuffle_backups(machine); raised says that an OSError escaped from it. */
    method Shuffle(m: Machine, f: Faults) returns (raised: bool)
      modifies this`snapshots, this`machineDirs, this`log
      ensures var p := InstancePrefix(m, cfg.kind);
        raised == Raises(old(snapshots), old(machineDirs), BackupPath(m), p, f)
      ensures machineDirs == CreatedDirs(old(machineDirs), BackupPath(m), f)
      ensures var p := InstancePrefix(m, cfg.kind);
        !raised ==>
          && snapshots == Rotated(old(snapshots), p, f.linkFails)
          && log == old(log) + if GenPath(p, 0) in old(snapshots) then [HardLink(p)] else []
      ensures var p := InstancePrefix(m, cfg.kind);
        raised ==>
          && log == old(log)
          && snapshots == RunSteps(old(snapshots), p, ROTATION[..ShuffleSteps(old(snapshots), old(machineDirs), BackupPath(m), p, f)])
    {
      // create the machine directory if there is none
      var path := BackupPath(m);
      if path !in machineDirs {
        if f.mkdirFails {
          RotationPrefix(snapshots, InstancePrefix(m, cfg.kind), 0);
          return true;
        }
        machineDirs := machineDirs + {path};
      }
      assert machineDirs == old(machineDirs) + {path};
      raised := ShiftGenerations(InstancePrefix(m, cfg.kind), f);
    }

    /** The four guarded steps of shuffle_backups on the generations of prefix p. */
    method ShiftGenerations(p: string, f: Faults) returns (raised: bool)
      modifies this`snapshots, this`log
      ensures raised == ShiftRaises(old(snapshots), p, f)
      ensures !raised ==>
        && snapshots == Rotated(old(snapshots), p, f.linkFails)
        && log == old(log) + if GenPath(p, 0) in old(snapshots) then [HardLink(p)] else []
      ensures raised ==>
        && log == old(log)
        && snapshots == RunSteps(old(snapshots), p, ROTATION[..StepsBeforeRaise(old(snapshots), p, f)])
    {
      ghost var d := snapshots;
      RotationGuards(d, p);
      RotationPrefix(d, p, 0);
      RotationPrefix(d, p, 1);
      RotationPrefix(d, p, 2);
      RotationPrefix(d, p, 3);
      // each step runs only when the directory it reads exists; rmtree and rename raise on failure
      if GenPath(p, 3) in snapshots && f.removeFails {
        return true;
      }
      snapshots := Apply(snapshots, p, RemoveOldest);
      if GenPath(p, 2) in snapshots && f.rename2Fails {
        return true;
      }
      snapshots := Apply(snapshots, p, Rename2To3);
      if GenPath(p, 1) in snapshots && f.rename1Fails {
        return true;
      }
      snapshots := Apply(snapshots, p, Rename1To2);
      assert RunSteps(d, p, ROTATION) == Apply(snapshots, p, LinkNewest);
      // a failing cp is swallowed by execute_command and leaves no generation 1
      if GenPath(p, 0) in snapshots {
        log := log + [HardLink(p)];
        if !f.linkFails {
          snapshots := Apply(snapshots, p, LinkNewest);
        }
      }
      raised := false;
    }

    /** Whether main asks for the read-write remount: mounting managed and not a dry run. */
    predicate WantsReadWrite()
      reads this
    {
      cfg.mount && !cfg.dryRun
    }

    /**
     * main from the root check on. isRoot is the answer of os.getuid() == 0,
     * startFails what the read-write remount reports, faults what the
     * operating system does with each machine's rotation, and exitAttempts
     * the results of the read-only remounts of the final clean_exit.
     * attempted is the number of machines whose transfer was started.
     */
    method BackUp(isRoot: bool, machines: seq<Machine>, startFails: bool, faults: seq<Faults>, exitAttempts: seq<bool>)
      returns (flow: Flow, attempted: nat)
      requires Valid() && mountState == ReadOnly && log == []
      modifies this`mountState, this`snapshots, this`machineDirs, this`log
      ensures Valid()
      ensures flow != Running
      // the process never reaches sys.exit with the drive read-write
      ensures flow.Exited? ==> mountState == ReadOnly
      ensures attempted <= |machines|
      // every machine reached gets its rsync and its heartbeat, in order
      ensures Transfers(log) == TransferPlan(machines[..attempted], cfg)
      ensures !isRoot ==>
        && flow == Exited(Text("Not running as root! Exiting..."))
        && attempted == 0 && log == []
        && snapshots == old(snapshots) && machineDirs == old(machineDirs)
      // the read-write remount is asked for exactly when mounting is managed and the run is real
      ensures Mount(ReadWrite) in log <==> isRoot && WantsReadWrite()
      ensures isRoot && WantsReadWrite() && startFails ==>
        && flow == Exited(RemountFailure(ReadWrite))
        && attempted == 0 && log == [Mount(ReadWrite)]
        && snapshots == old(snapshots) && machineDirs == old(machineDirs)
      // past the remount, the log starts with it and the commands of every machine reached
      ensures isRoot && !(WantsReadWrite() && startFails) ==>
        Opening(WantsReadWrite()) + MachineLog(old(snapshots), machines, cfg, faults, attempted) <= log
      // only an exception from a rotation stops the machine loop early
      ensures isRoot && !(WantsReadWrite() && startFails) ==>
        attempted == |machines| || (flow == Crashed && !cfg.dryRun)
      // such an exception leaves the drive read-write whenever mounting is managed
      ensures isRoot && !(WantsReadWrite() && startFails) && attempted < |machines| ==>
        mountState == if WantsReadWrite() then ReadWrite else ReadOnly
      // a dry run rotates nothing, never remounts and issues only the transfers
      ensures cfg.dryRun ==>
        snapshots == old(snapshots) && machineDirs == old(machineDirs) && mountState == ReadOnly
      ensures cfg.dryRun && isRoot ==>
        && flow == Exited(Text("\nFinished backing up!"))
        && attempted == |machines| && log == TransferPlan(machines, cfg)
      // as root and past the remount, the loop ends as LoopOutcome says
      ensures isRoot && !(WantsReadWrite() && startFails) ==>
        LoopOutcome(old(snapshots), old(machineDirs), machines, cfg, faults, attempted, snapshots, machineDirs)
      // a complete run ends with the closing clean_exit: its flow, its mount state and its read-only remounts
      ensures isRoot && attempted == |machines| && !(WantsReadWrite() && startFails) ==>
        var e := ExitRun(if WantsReadWrite() then ReadWrite else ReadOnly, cfg.mount,
                         Text("\nFinished backing up!"), "", exitAttempts);
        && flow == e.flow && mountState == e.state
        && log == Opening(WantsReadWrite()) + MachineLog(old(snapshots), machines, cfg, faults, |machines|)
                  + Repeat(Mount(ReadOnly), e.remounts)
      // so a complete real run that managed mounting asks for the read-only remount
      ensures isRoot && attempted == |machines| && WantsReadWrite() && !startFails && exitAttempts != [] ==>
        Mount(ReadOnly) in log
    {
      if !isRoot {
        flow := CleanExit(Code(0), "Not running as root!", exitAttempts);
        assert "Not running as root!" + " Exiting..." == "Not running as root! Exiting...";
        return flow, 0;
      }
      flow, attempted := BackUpAsRoot(machines, startFails, faults, exitAttempts);
      if attempted == |machines| && WantsReadWrite() && !startFails && exitAttempts != [] {
        ClosingRemount(exitAttempts);
      }
    }

    /** main from the read-write remount on, for a process running as root. */
    method BackUpAsRoot(machines: seq<Machine>, startFails: bool, faults: seq<Faults>, exitAttempts: seq<bool>)
      returns (flow: Flow, attempted: nat)
      requires Valid() && mountState == ReadOnly && log == []
      modifies this`mountState, this`snapshots, this`machineDirs, this`log
      ensures Valid()
      ensures flow != Running
      // the process never reaches sys.exit with the drive read-write
      ensures flow.Exited? ==> mountState == ReadOnly
      ensures attempted <= |machines|
      // every machine reached gets its rsync and its heartbeat, in order
      ensures Transfers(log) == TransferPlan(machines[..attempted], cfg)
      // the read-write remount is asked for exactly when mounting is managed and the run is real
      ensures Mount(ReadWrite) in log <==> WantsReadWrite()
      ensures WantsReadWrite() && startFails ==>
        && flow == Exited(RemountFailure(ReadWrite))
        && attempted == 0 && log == [Mount(ReadWrite)]
        && snapshots == old(snapshots) && machineDirs == old(machineDirs)
      // past the remount, the log starts with it and the commands of every machine reached
      ensures !(WantsReadWrite() && startFails) ==>
        Opening(WantsReadWrite()) + MachineLog(old(snapshots), machines, cfg, faults, attempted) <= log
      // only an exception from a rotation stops the machine loop early
      ensures !(WantsReadWrite() && startFails) ==>
        attempted == |machines| || (flow == Crashed && !cfg.dryRun)
      // such an exception leaves the drive read-write whenever mounting is managed
      ensures !(WantsReadWrite() && startFails) && attempted < |machines| ==>
        mountState == if WantsReadWrite() then ReadWrite else ReadOnly
      // a dry run rotates nothing, never remounts and issues only the transfers
      ensures cfg.dryRun ==>
        && snapshots == old(snapshots) && machineDirs == old(machineDirs) && mountState == ReadOnly
        && flow == Exited(Text("\nFinished backing up!"))
        && attempted == |machines| && log == TransferPlan(machines, cfg)
      // past the remount, the loop ends as LoopOutcome says
      ensures !(WantsReadWrite() && startFails) ==>
        LoopOutcome(old(snapshots), old(machineDirs), machines, cfg, faults, attempted, snapshots, machineDirs)
      // a complete run ends with the closing clean_exit: its flow, its mount state and its read-only remounts
      ensures attempted == |machines| && !(WantsReadWrite() && startFails) ==>
        var e := ExitRun(if WantsReadWrite() then ReadWrite else ReadOnly, cfg.mount,
                         Text("\nFinished backing up!"), "", exitAttempts);
        && flow == e.flow && mountState == e.state
        && log == Opening(WantsReadWrite()) + MachineLog(old(snapshots), machines, cfg, faults, |machines|)
                  + Repeat(Mount(ReadOnly), e.remounts)
    {
      attempted := 0;
      flow := OpenRun(startFails, exitAttempts);
      if flow != Running {
        assert snapshots == old(snapshots) && machineDirs == old(machineDirs);
        return;
      }
      assert !(WantsReadWrite() && startFails);
      ghost var start := log;
      OpeningIsNoTransfer(WantsReadWrite());
      ghost var plan, remounts;
      flow, attempted, plan, remounts := BackUpAndExit(machines, faults, exitAttempts);
      RunLog(start, plan, remounts);
    }

    /**
     * The read-write remount main asks for before the machine loop, when
     * mounting is managed and the run is real; its failure ends the process
     * with the drive still read-only.
     */
    method OpenRun(startFails: bool, exitAttempts: seq<bool>) returns (flow: Flow)
      requires Valid() && mountState == ReadOnly
      modifies this`mountState, this`log
      ensures Valid()
      ensures flow != Running <==> WantsReadWrite() && startFails
      ensures flow != Running ==>
        && flow == Exited(RemountFailure(ReadWrite)) && mountState == ReadOnly
        && log == old(log) + [Mount(ReadWrite)]
      ensures flow == Running ==>
        && mountState == (if WantsReadWrite() then ReadWrite else ReadOnly)
        && log == old(log) + Opening(WantsReadWrite())
    {
      flow := Running;
      if !cfg.dryRun && cfg.mount {
        flow := Remount(ReadWrite, startFails, exitAttempts);
        RemountOutcomes(ReadOnly, cfg.mount, ReadWrite, startFails, exitAttempts);
        assert [Mount(ReadWrite)] + Repeat(Mount(ReadOnly), 0) == [Mount(ReadWrite)];
      } else {
        assert old(log) + [] == log;
      }
    }

    /**
     * main past the read-write remount: the machine loop, then clean_exit
     * with the closing message. The log grows by the loop's commands (plan)
     * and the read-only remounts of clean_exit.
     */
    method BackUpAndExit(machines: seq<Machine>, faults: seq<Faults>, exitAttempts: seq<bool>)
      returns (flow: Flow, attempted: nat, ghost plan: seq<Command>, ghost remounts: nat)
      requires Valid()
      modifies this`mountState, this`snapshots, this`machineDirs, this`log
      ensures Valid()
      ensures flow != Running
      ensures flow.Exited? ==> mountState == ReadOnly
      ensures attempted <= |machines|
      ensures attempted == |machines| || (flow == Crashed && !cfg.dryRun)
      // an exception from a rotation ends the process before clean_exit can remount
      ensures attempted < |machines| ==> mountState == old(mountState) && remounts == 0
      ensures plan == MachineLog(old(snapshots), machines, cfg, faults, attempted)
      ensures Transfers(plan) == TransferPlan(machines[..attempted], cfg) && NoReadWriteRemount(plan)
      ensures log == old(log) + plan + Repeat(Mount(ReadOnly), remounts)
      ensures old(mountState) == ReadOnly ==> mountState == ReadOnly && remounts == 0
      ensures cfg.dryRun ==>
        && snapshots == old(snapshots) && machineDirs == old(machineDirs)
        && attempted == |machines| && plan == TransferPlan(machines, cfg)
      ensures LoopOutcome(old(snapshots), old(machineDirs), machines, cfg, faults, attempted, snapshots, machineDirs)
      // a loop that reached every machine is followed by the closing clean_exit
      ensures attempted == |machines| ==>
        var e := ExitRun(old(mountState), cfg.mount, Text("\nFinished backing up!"), "", exitAttempts);
        flow == e.flow && mountState == e.state && remounts == e.remounts
    {
      var crashed;
      crashed, attempted, plan := BackUpMachines(machines, faults);
      if crashed {
        assert log == old(log) + plan + Repeat(Mount(ReadOnly), 0);
        return Crashed, attempted, plan, 0;
      }
      flow, remounts := CloseRun(exitAttempts);
      Associative(old(log), plan, Repeat(Mount(ReadOnly), remounts));
    }

    /** The closing clean_exit of main: it ends as ExitRun says and only adds read-only remounts to the log. */
    method CloseRun(exitAttempts: seq<bool>) returns (flow: Flow, ghost remounts: nat)
      requires Valid()
      modifies this`mountState, this`log
      ensures Valid()
      ensures flow != Running
      ensures flow.Exited? ==> mountState == ReadOnly
      ensures var e := ExitRun(old(mountState), cfg.mount, Text("\nFinished backing up!"), "", exitAttempts);
        flow == e.flow && mountState == e.state && remounts == e.remounts
      ensures log == old(log) + Repeat(Mount(ReadOnly), remounts)
      ensures old(mountState) == ReadOnly ==> mountState == ReadOnly && remounts == 0
    {
      ghost var state := mountState;
      flow := CleanExit(Text("\nFinished backing up!"), "", exitAttempts);
      ExitedMeansReadOnly(state, cfg.mount, Text("\nFinished backing up!"), "", exitAttempts);
      remounts := ExitRun(state, cfg.mount, Text("\nFinished backing up!"), "", exitAttempts).remounts;
    }

    /**
     * The loop of main over the machines: each is rotated (unless dry run),
     * transferred and stamped in turn; only an exception from a rotation ends
     * the loop early.
     */
    method BackUpMachines(machines: seq<Machine>, faults: seq<Faults>)
      returns (crashed: bool, attempted: nat, ghost plan: seq<Command>)
      modifies this`snapshots, this`machineDirs, this`log
      ensures attempted <= |machines|
      ensures crashed <==> attempted < |machines|
      ensures crashed ==> !cfg.dryRun
      ensures plan == MachineLog(old(snapshots), machines, cfg, faults, attempted)
      ensures log == old(log) + plan
      ensures Transfers(plan) == TransferPlan(machines[..attempted], cfg) && NoReadWriteRemount(plan)
      ensures cfg.dryRun ==> plan == TransferPlan(machines, cfg)
      // a real run stops at the first machine whose rotation raises, leaving what that rotation left
      ensures LoopOutcome(old(snapshots), old(machineDirs), machines, cfg, faults, attempted, snapshots, machineDirs)
    {
      ghost var disk := snapshots;
      ghost var dirs0 := machineDirs;
      ghost var log0 := log;
      assert log == log0 + [];
      ghost var before, known;
      crashed, attempted, before, known := TakeTurns(machines, faults, disk, dirs0, log0);
      plan := MachineLog(disk, machines, cfg, faults, attempted);
      MachineLogTransfers(disk, machines, cfg, faults, attempted);
      if crashed {
        StoppedOutcome(disk, dirs0, machines, cfg, faults, attempted, before, known, snapshots, machineDirs);
      } else {
        WholeLoopLog(disk, machines, cfg, faults);
        CompletedOutcome(disk, dirs0, machines, cfg, faults, snapshots, machineDirs);
      }
    }

    /**
     * The machine loop itself, from disk d, machine directories dirs and log
     * log0: it gives every machine its turn until a rotation raises.
     */
    method TakeTurns(machines: seq<Machine>, faults: seq<Faults>, ghost d: Disk, ghost dirs: set<string>, ghost log0: seq<Command>)
      returns (crashed: bool, attempted: nat, ghost before: Disk, ghost known: set<string>)
      requires Progress(d, dirs, log0, machines, faults, 0)
      modifies this`snapshots, this`machineDirs, this`log
      ensures attempted <= |machines|
      ensures crashed <==> attempted < |machines|
      ensures !crashed ==> Progress(d, dirs, log0, machines, faults, attempted)
      ensures crashed ==> log == log0 + MachineLog(d, machines, cfg, faults, attempted)
      ensures crashed ==> StopsAt(d, dirs, machines, cfg, faults, attempted, before, known, snapshots, machineDirs)
    {
      var i := 0;
      before, known := d, dirs;
      while i < |machines|
        invariant 0 <= i <= |machines|
        invariant Progress(d, dirs, log0, machines, faults, i)
      {
        var raised;
        raised, before, known := Advance(machines, faults, i, d, dirs, log0);
        if raised {
          return true, i, before, known;
        }
        i := i + 1;
      }
      return false, i, before, known;
    }

    /**
     * What the machine loop of main has done once its first i machines have had
     * their turns without an exception, from disk d, machine directories dirs
     * and log log0.
     */
    ghost predicate Progress(d: Disk, dirs: set<string>, log0: seq<Command>, ms: seq<Machine>, faults: seq<Faults>, i: nat)
      reads this
      requires i <= |ms|
    {
      && log == log0 + MachineLog(d, ms, cfg, faults, i)
      && (cfg.dryRun ==> snapshots == d && machineDirs == dirs)
      && (!cfg.dryRun ==> CleanRun(d, dirs, ms, cfg, faults, i) == Some((snapshots, machineDirs)))
    }

    /** The turn of the i-th machine, carrying the loop's Progress on or stopping it as StopsAt says. */
    method Advance(ms: seq<Machine>, faults: seq<Faults>, i: nat, ghost d: Disk, ghost dirs: set<string>,
                   ghost log0: seq<Command>) returns (raised: bool, ghost before: Disk, ghost known: set<string>)
      requires i < |ms| && Progress(d, dirs, log0, ms, faults, i)
      modifies this`snapshots, this`machineDirs, this`log
      ensures !raised ==> Progress(d, dirs, log0, ms, faults, i + 1)
      ensures raised ==> log == old(log)
      ensures raised ==> StopsAt(d, dirs, ms, cfg, faults, i, before, known, snapshots, machineDirs)
    {
      if !cfg.dryRun {
        CleanRunAfter(d, dirs, ms, cfg, faults, i);
      }
      ghost var turn := MachineCommands(DiskAfter(d, ms, cfg, faults, i), ms[i], cfg);
      assert turn == MachineCommands(snapshots, ms[i], cfg);
      before, known := snapshots, machineDirs;
      raised := BackUpMachine(ms[i], FaultsAt(faults, i));
      if raised {
        return;
      }
      if !cfg.dryRun {
        NextTurn(d, dirs, ms, cfg, faults, i, before, known, snapshots, machineDirs);
      }
      Associative(log0, MachineLog(d, ms, cfg, faults, i), turn);
    }

    /** One turn of the machine loop of main; raised says that the rotation raised. */
    method BackUpMachine(m: Machine, f: Faults) returns (raised: bool)
      modifies this`snapshots, this`machineDirs, this`log
      ensures raised ==> !cfg.dryRun && log == old(log)
      ensures !cfg.dryRun ==>
        raised == Raises(old(snapshots), old(machineDirs), BackupPath(m), InstancePrefix(m, cfg.kind), f)
      ensures !cfg.dryRun ==> machineDirs == CreatedDirs(old(machineDirs), BackupPath(m), f)
      ensures !raised ==> log == old(log) + MachineCommands(old(snapshots), m, cfg)
      ensures cfg.dryRun ==> snapshots == old(snapshots) && machineDirs == old(machineDirs)
      ensures !cfg.dryRun && !raised ==> snapshots == Turn(old(snapshots), InstancePrefix(m, cfg.kind), f)
      ensures var p := InstancePrefix(m, cfg.kind);
        raised ==> snapshots == RunSteps(old(snapshots), p, ROTATION[..ShuffleSteps(old(snapshots), old(machineDirs), BackupPath(m), p, f)])
    {
      raised := false;
      if !cfg.dryRun {
        raised := Shuffle(m, f);
        if raised {
          return;
        }
      }
      ghost var p := InstancePrefix(m, cfg.kind);
      ghost var copies := if !cfg.dryRun && GenPath(p, 0) in old(snapshots) then [HardLink(p)] else [];
      assert log == old(log) + copies;
      Transmit(m, f);
      Associative(old(log), copies, [Transfer(RsyncArgv(m, cfg)), Stamp(m)]);
    }

    /**
     * The rsync run of main for m, then its heartbeat; a real transfer leaves
     * in generation 0 what f says, a dry run writes nothing.
     */
    method Transmit(m: Machine, f: Faults)
      modifies this`snapshots, this`log
      ensures log == old(log) + [Transfer(RsyncArgv(m, cfg)), Stamp(m)]
      ensures snapshots == if cfg.dryRun then old(snapshots) else Synced(old(snapshots), InstancePrefix(m, cfg.kind), f.received)
    {
      var args := BuildRsyncArgs(m, cfg);
      if !cfg.dryRun {
        snapshots := Synced(snapshots, InstancePrefix(m, cfg.kind), f.received);
      }
      log := log + [Transfer(args), Stamp(m)];
    }
  }
}
