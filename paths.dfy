/**
 * Path construction: the two-argument join of Python 2's posixpath, the
 * machine directory, the backup instance prefix, generation directories
 * '<prefix>.<k>' and the heartbeat path that main touches.
 */
module Paths {
  import opened Settings

  predicate IsAbsolute(p: string)
  {
    |p| > 0 && p[0] == '/'
  }

  predicate EndsWithSeparator(p: string)
  {
    |p| > 0 && p[|p| - 1] == '/'
  }

  /**
   * os.path.join(a, b): an absolute b replaces a; otherwise b is placed under a,
   * with one separator added only when a is non-empty and lacks a trailing one.
   */
  function Join(a: string, b: string): string
  {
    if IsAbsolute(b) then b
    else if a == "" || EndsWithSeparator(a) then a + b
    else a + "/" + b
  }

  /**
   * The join ends with b; a relative b keeps a as its prefix, with exactly one
   * separator between them when a is non-empty, adding one only when a lacks it.
   */
  lemma JoinLayout(a: string, b: string)
    ensures var r := Join(a, b);
      && (IsAbsolute(b) ==> r == b)
      && |b| <= |r| && r[|r| - |b|..] == b
      && (!IsAbsolute(b) ==> |a| <= |r| <= |a| + |b| + 1 && r[..|a|] == a)
      && (!IsAbsolute(b) && a != "" ==> |r| > |b| && r[|r| - |b| - 1] == '/')
      && (!IsAbsolute(b) ==> (|r| == |a| + |b| <==> a == "" || EndsWithSeparator(a)))
  {
  }

  /** backup_path: the machine's directory under the backup root. */
  function BackupPath(m: Machine): string
  {
    Join(BACKUP_ROOT, m.name)
  }

  /** backup_instance_prefix: '<backup path>/<type>', the stem of every generation directory. */
  function InstancePrefix(m: Machine, t: BackupType): string
  {
    Join(BackupPath(m), TypeName(t))
  }

  /** The four generations kept per machine and type: 0 is the newest, 3 the oldest. */
  type Generation = k: int | 0 <= k < 4

  /** '<prefix>.<k>', as the '%s.<k>' formats in shuffle_backups and rsync_args build it. */
  function GenPath(prefix: string, k: Generation): string
  {
    prefix + "." + ["0123"[k]]
  }

  /** The heartbeat path of main: the '%shourly.0' format applied to backup_path, whatever the run's type. */
  function HeartbeatPath(m: Machine): string
  {
    BackupPath(m) + "hourly.0"
  }

  /** A machine name that the join places under the root as one path component. */
  predicate PlainName(name: string)
  {
    name != "" && !IsAbsolute(name) && !EndsWithSeparator(name)
  }

  /** For a plain machine name the layout is '<root><name>/<type>'; an absolute name escapes the root. */
  lemma InstancePrefixLayout(m: Machine, t: BackupType)
    ensures PlainName(m.name) ==> BackupPath(m) == BACKUP_ROOT + m.name
    ensures PlainName(m.name) ==> InstancePrefix(m, t) == BACKUP_ROOT + m.name + "/" + TypeName(t)
    ensures IsAbsolute(m.name) ==> BackupPath(m) == m.name
  {
    JoinLayout(BACKUP_ROOT, m.name);
    JoinLayout(BackupPath(m), TypeName(t));
  }

  /** Generation paths name distinct directories: prefix and index can be read back. */
  lemma GenPathInjective(p: string, q: string, i: Generation, j: Generation)
    ensures GenPath(p, i) == GenPath(q, j) <==> p == q && i == j
  {
    if GenPath(p, i) == GenPath(q, j) {
      assert |p| == |q|;
      assert p == GenPath(p, i)[..|p|];
      assert q == GenPath(q, j)[..|q|];
      assert GenPath(p, i)[|p| + 1] == "0123"[i];
      assert GenPath(q, j)[|q| + 1] == "0123"[j];
    }
  }

  /**
   * The heartbeat hits the hourly generation 0 only when the machine directory
   * ends with a separator; for a plain name it is the sibling '<root><name>hourly.0'.
   */
  lemma HeartbeatTarget(m: Machine)
    ensures HeartbeatPath(m) == GenPath(InstancePrefix(m, Hourly), 0) <==> EndsWithSeparator(BackupPath(m))
    ensures PlainName(m.name) ==> HeartbeatPath(m) == BACKUP_ROOT + m.name + "hourly.0"
    ensures PlainName(m.name) ==> HeartbeatPath(m) != GenPath(InstancePrefix(m, Hourly), 0)
  {
    var bp := BackupPath(m);
    JoinLayout(BACKUP_ROOT, m.name);
    JoinLayout(bp, TypeName(Hourly));
    assert bp != "";
    if !EndsWithSeparator(bp) {
      assert |GenPath(InstancePrefix(m, Hourly), 0)| == |bp| + 9;
      assert |HeartbeatPath(m)| == |bp| + 8;
    }
    if PlainName(m.name) {
      assert bp == BACKUP_ROOT + m.name;
      assert bp[|bp| - 1] == m.name[|m.name| - 1];
    }
  }

  /** The documented example: machine 'host1' under the default root. */
  lemma ExampleLayout()
    ensures InstancePrefix(Machine("host1", "local", [], ["/etc"], ["*.tmp"]), Daily)
      == "/Users/gene/BACK_IN_PY/host1/daily"
  {
  }
}
