/**
 * The mount-state controller of remount_backup_drive and clean_exit, as pure
 * outcomes. The result of each mount command is an input: true when the
 * command reported something on stderr, which the source treats as failure.
 */
module MountControl {
  import opened Settings

  /** How control leaves a step: on to the next, through sys.exit, or by an uncaught exception. */
  datatype Flow = Running | Exited(arg: ExitArg) | Crashed

  /** The mount command remount_backup_drive issues. */
  function MountArgv(mode: MountState): seq<string>
  {
    [MOUNT, "-o", "remount," + ModeFlag(mode), BACKUP_DEVICE, BACKUP_ROOT]
  }

  /** What clean_exit hands to sys.exit once the drive is dealt with. */
  function Farewell(status: ExitArg, msg: string): ExitArg
  {
    if msg == "" then status else Text(msg + " Exiting...")
  }

  /** The message of a failed remount, which clean_exit receives as its status. */
  function RemountFailure(mode: MountState): ExitArg
  {
    Text("Could not remount " + BACKUP_DEVICE + " " + ModeKey(mode) + "!")
  }

  /** How a call ends: its flow, the mount state then, and how many mount commands it issued. */
  datatype Ending = Ending(flow: Flow, state: MountState, remounts: nat)

  /**
   * clean_exit(status, msg) from mount state `state`. When the drive is not
   * read-only it asks remount_backup_drive for a read-only remount; a failure
   * there calls clean_exit again with the failure message as status, still in
   * the read-write state. attempts[i] says whether the i-th read-only remount
   * fails; once attempts run out the interpreter's recursion limit is reached
   * and the process dies with an exception.
   */
  function ExitRun(state: MountState, mount: bool, status: ExitArg, msg: string, attempts: seq<bool>): (e: Ending)
    ensures e.flow != Running
    ensures e.remounts <= |attempts|
    decreases |attempts|
  {
    if state == ReadOnly || !mount then Ending(Exited(Farewell(status, msg)), state, 0)
    else if attempts == [] then Ending(Crashed, state, 0)
    else if !attempts[0] then Ending(Exited(Farewell(status, msg)), ReadOnly, 1)
    else
      var e := ExitRun(state, mount, RemountFailure(ReadOnly), "", attempts[1..]);
      Ending(e.flow, e.state, e.remounts + 1)
  }

  /**
   * remount_backup_drive(mode) from mount state `state`: nothing when mounting
   * is not managed; otherwise one mount command whose failure leads to
   * clean_exit with the failure message, using the later attempts.
   */
  function RemountRun(state: MountState, mount: bool, mode: MountState, fails: bool, later: seq<bool>): Ending
  {
    if !mount then Ending(Running, state, 0)
    else if !fails then Ending(Running, mode, 1)
    else
      var e := ExitRun(state, mount, RemountFailure(mode), "", later);
      Ending(e.flow, e.state, e.remounts + 1)
  }

  /** The position of the first read-only remount that succeeds, if any. */
  function FirstSuccess(attempts: seq<bool>): (k: nat)
    requires false in attempts
    ensures k < |attempts| && !attempts[k]
    ensures forall j :: 0 <= j < k ==> attempts[j]
  {
    if !attempts[0] then 0 else 1 + FirstSuccess(attempts[1..])
  }

  /**
   * clean_exit always exits, leaving the drive read-only, when the drive is
   * read-only already or some read-only remount succeeds. The remounts are
   * requested exactly when the drive is not read-only, once per failure plus
   * the successful one, and the exit carries the original status unless a
   * remount failed first.
   */
  lemma {:induction false} ExitLeavesReadOnly(state: MountState, mount: bool, status: ExitArg, msg: string, attempts: seq<bool>)
    requires state == ReadWrite ==> mount && false in attempts
    ensures var e := ExitRun(state, mount, status, msg, attempts);
      && e.state == ReadOnly
      && e.flow.Exited?
      && (state == ReadOnly ==> e.remounts == 0 && e.flow == Exited(Farewell(status, msg)))
      && (state == ReadWrite ==> e.remounts == FirstSuccess(attempts) + 1)
      && (state == ReadWrite ==>
            e.flow.arg == if FirstSuccess(attempts) == 0 then Farewell(status, msg) else RemountFailure(ReadOnly))
    decreases |attempts|
  {
    if state == ReadWrite && attempts[0] {
      assert false in attempts[1..] by {
        var k := FirstSuccess(attempts);
        assert attempts[1..][k - 1] == attempts[k];
      }
      ExitLeavesReadOnly(state, mount, RemountFailure(ReadOnly), "", attempts[1..]);
      assert FirstSuccess(attempts) == 1 + FirstSuccess(attempts[1..]);
    }
  }

  /**
   * Whatever the remount results, clean_exit reaches sys.exit only with the
   * drive read-only, as long as a read-write drive implies mount management.
   */
  lemma {:induction false} ExitedMeansReadOnly(state: MountState, mount: bool, status: ExitArg, msg: string, attempts: seq<bool>)
    requires state == ReadWrite ==> mount
    ensures ExitRun(state, mount, status, msg, attempts).flow.Exited? ==>
      ExitRun(state, mount, status, msg, attempts).state == ReadOnly
    decreases |attempts|
  {
    if state == ReadWrite && attempts != [] && attempts[0] {
      ExitedMeansReadOnly(state, mount, RemountFailure(ReadOnly), "", attempts[1..]);
    }
  }

  /**
   * When every read-only remount fails, the recursion ends in an exception with
   * the drive still read-write, after one request per attempt.
   */
  lemma {:induction false} ExitCrashesWhenAllRemountsFail(status: ExitArg, msg: string, attempts: seq<bool>)
    requires false !in attempts
    ensures ExitRun(ReadWrite, true, status, msg, attempts) == Ending(Crashed, ReadWrite, |attempts|)
    decreases |attempts|
  {
    if attempts != [] {
      assert false !in attempts[1..];
      ExitCrashesWhenAllRemountsFail(RemountFailure(ReadOnly), "", attempts[1..]);
    }
  }

  /** clean_exit asks for a read-only remount exactly when the drive is not read-only (with mounting managed). */
  lemma ExitRemountsIffNotReadOnly(state: MountState, status: ExitArg, msg: string, attempts: seq<bool>)
    requires attempts != []
    ensures ExitRun(state, true, status, msg, attempts).remounts > 0 <==> state != ReadOnly
  {
  }

  /**
   * remount_backup_drive: inert without mount management; on success the
   * state becomes the requested mode; on failure from the read-only state the
   * process exits with the failure message, the state unchanged.
   */
  lemma RemountOutcomes(state: MountState, mount: bool, mode: MountState, fails: bool, later: seq<bool>)
    ensures !mount ==> RemountRun(state, mount, mode, fails, later) == Ending(Running, state, 0)
    ensures mount && !fails ==> RemountRun(state, mount, mode, fails, later) == Ending(Running, mode, 1)
    ensures mount && fails && state == ReadOnly ==>
      RemountRun(state, mount, mode, fails, later) == Ending(Exited(RemountFailure(mode)), ReadOnly, 1)
    ensures RemountRun(state, mount, mode, fails, later).flow != Running ==> mount && fails
  {
  }

  /** The status the process ends with: clean_exit called with a message as status exits with 1. */
  lemma MessagesExitWithOne(msg: string)
    ensures ExitStatus(Farewell(Text(msg), "")) == 1
    ensures ExitStatus(Farewell(Code(0), msg)) == if msg == "" then 0 else 1
  {
  }
}
