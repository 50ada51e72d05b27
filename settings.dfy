/**
 * The fixed settings of back_in_py: executable paths, the backup device and
 * root, the backup types, the machine definition record and the run options
 * that the command line sets once before any backup work starts.
 */
module Settings {
  import opened Wrappers

  // Locations and executables; the command line cannot change them (the
  // -d and -r options assign locals of main, not these values).
  const BACKUP_DEVICE: string := "/dev/sdc1"
  const BACKUP_ROOT: string := "/Users/gene/BACK_IN_PY/"
  const MOUNT: string := "/bin/mount"
  const CP: string := "/bin/cp"
  const TOUCH: string := "/usr/bin/touch"
  const RSYNC: string := "/usr/bin/rsync"

  /** The frequency class of a backup run. */
  datatype BackupType = Hourly | Daily

  const TYPE_CHOICES: seq<string> := ["hourly", "daily"]

  /** The spelling of a backup type, used in paths and source-list keys. */
  function TypeName(t: BackupType): string
  {
    match t
    case Hourly => "hourly"
    case Daily => "daily"
  }

  /** Accepts exactly the spellings in TYPE_CHOICES, as the --type option does. */
  function ParseType(arg: string): (r: Option<BackupType>)
    ensures r.Some? <==> arg in TYPE_CHOICES
    ensures r.Some? ==> TypeName(r.value) == arg
  {
    if arg == "hourly" then Some(Hourly)
    else if arg == "daily" then Some(Daily)
    else None
  }

  /** Every backup type is one of the accepted choices and parses back to itself. */
  lemma TypeNameRoundTrip(t: BackupType)
    ensures TypeName(t) in TYPE_CHOICES
    ensures ParseType(TypeName(t)) == Some(t)
  {
  }

  /** One entry of the machine definition file. */
  datatype Machine = Machine(
    name: string,
    ip: string,
    hourlySources: seq<string>,
    dailySources: seq<string>,
    exclude: seq<string>)

  /** The list stored under the key '<type>_sources'. */
  function SourcesFor(m: Machine, t: BackupType): seq<string>
  {
    match t
    case Hourly => m.hourlySources
    case Daily => m.dailySources
  }

  /** The values of the option globals _type, _dry_run and _mount once the options are read. */
  datatype RunConfig = RunConfig(kind: BackupType, dryRun: bool, mount: bool)

  const DEFAULTS: RunConfig := RunConfig(Daily, false, false)

  /** The mount state of the backup drive. */
  datatype MountState = ReadOnly | ReadWrite

  /** The key of DRIVE_MOUNT_STATES, as remount_backup_drive receives it. */
  function ModeKey(s: MountState): string
  {
    match s
    case ReadOnly => "readonly"
    case ReadWrite => "readwrite"
  }

  /** The value of DRIVE_MOUNT_STATES, as passed to mount in '-o remount,<flag>'. */
  function ModeFlag(s: MountState): string
  {
    match s
    case ReadOnly => "ro"
    case ReadWrite => "rw"
  }

  /** What sys.exit receives: an integer status or a message string. */
  datatype ExitArg = Code(n: int) | Text(message: string)

  /** The process status sys.exit yields: a message is printed and gives status 1. */
  function ExitStatus(a: ExitArg): int
  {
    match a
    case Code(n) => n
    case Text(_) => 1
  }
}
