/**
 * rsync_args: the argument vector of the transfer into generation 0.
 */
module Rsync {
  import opened Settings
  import opened Paths
  import opened Sources

  /** The executable and default options; remote machines add '-e ssh'. */
  function BaseFlags(ip: string): seq<string>
  {
    if IsLocal(ip) then [RSYNC, "-avz", "--delete"]
    else [RSYNC, "-avz", "-e", "ssh", "--delete"]
  }

  function DryRunFlag(dryRun: bool): seq<string>
  {
    if dryRun then ["--dry-run"] else []
  }

  function ExcludeFlags(patterns: seq<string>): seq<string>
  {
    seq(|patterns|, i requires 0 <= i < |patterns| => "--exclude=" + patterns[i])
  }

  /** The destination: generation 0 of the run's instance prefix. */
  function Destination(m: Machine, t: BackupType): string
  {
    GenPath(InstancePrefix(m, t), 0)
  }

  /** The reference vector the loops of rsync_args build. */
  function RsyncArgv(m: Machine, cfg: RunConfig): seq<string>
  {
    BaseFlags(m.ip) + DryRunFlag(cfg.dryRun) + ExcludeFlags(m.exclude)
      + Resolved(m.ip, SourcesFor(m, cfg.kind)) + [Destination(m, cfg.kind)]
  }

  /** rsync_args(machine) under the run's options. */
  method BuildRsyncArgs(m: Machine, cfg: RunConfig) returns (args: seq<string>)
    ensures args == RsyncArgv(m, cfg)
  {
    if m.ip in LOCAL_ADDRESSES {
      args := [RSYNC, "-avz", "--delete"];
    } else {
      args := [RSYNC, "-avz", "-e", "ssh", "--delete"];
    }
    if cfg.dryRun {
      args := args + ["--dry-run"];
    }
    ghost var flags := args;
    var i := 0;
    while i < |m.exclude|
      invariant 0 <= i <= |m.exclude|
      invariant args == flags + ExcludeFlags(m.exclude[..i])
    {
      args := args + ["--exclude=" + m.exclude[i]];
      assert m.exclude[..i + 1][..i] == m.exclude[..i];
      i := i + 1;
    }
    assert m.exclude[..i] == m.exclude;
    ghost var filters := args;
    var sources := GetSources(m, cfg.kind);
    var j := 0;
    while j < |sources|
      invariant 0 <= j <= |sources|
      invariant args == filters + sources[..j]
    {
      args := args + [sources[j]];
      assert sources[..j + 1][..j] == sources[..j];
      j := j + 1;
    }
    assert sources[..j] == sources;
    args := args + [GenPath(InstancePrefix(m, cfg.kind), 0)];
  }

  /** Lengths and slices of a five-part concatenation. */
  lemma ConcatSlices(base: seq<string>, dry: seq<string>, excludes: seq<string>, sources: seq<string>, dest: string)
    ensures var args := base + dry + excludes + sources + [dest];
      var n := |base| + |dry| + |excludes|;
      && |args| == n + |sources| + 1
      && args[..|base|] == base
      && args[|base|..|base| + |dry|] == dry
      && args[|base| + |dry|..n] == excludes
      && args[n..|args| - 1] == sources
      && args[|args| - 1] == dest
  {
    var args := base + dry + excludes + sources + [dest];
    assert args == (base + dry + excludes) + (sources + [dest]);
    assert (base + dry + excludes)[..|base|] == base;
    assert (base + dry + excludes)[|base|..|base| + |dry|] == dry;
  }

  /**
   * The layout of the vector: the base flags, '--dry-run' right after them
   * exactly when requested, one '--exclude=' per pattern in order, the
   * resolved sources in order, and the destination last.
   */
  lemma RsyncArgvLayout(m: Machine, cfg: RunConfig)
    ensures var args := RsyncArgv(m, cfg);
      var b := |BaseFlags(m.ip)|;
      var d := if cfg.dryRun then 1 else 0;
      var e := |m.exclude|;
      var sources := Resolved(m.ip, SourcesFor(m, cfg.kind));
      && |args| == b + d + e + |sources| + 1
      && args[..b] == BaseFlags(m.ip)
      && (cfg.dryRun ==> args[b] == "--dry-run")
      && (forall i :: 0 <= i < e ==> args[b + d + i] == "--exclude=" + m.exclude[i])
      && args[b + d + e..|args| - 1] == sources
      && args[|args| - 1] == GenPath(InstancePrefix(m, cfg.kind), 0)
  {
    var base := BaseFlags(m.ip);
    var dry := DryRunFlag(cfg.dryRun);
    var excludes := ExcludeFlags(m.exclude);
    var sources := Resolved(m.ip, SourcesFor(m, cfg.kind));
    ConcatSlices(base, dry, excludes, sources, Destination(m, cfg.kind));
    var args := RsyncArgv(m, cfg);
    var b, d := |base|, |dry|;
    if cfg.dryRun {
      assert args[b] == args[b..b + d][0];
    }
    forall i | 0 <= i < |excludes|
      ensures args[b + d + i] == "--exclude=" + m.exclude[i]
    {
      assert args[b + d + i] == args[b + d..b + d + |excludes|][i];
    }
  }

  /** No exclude argument is the dry-run flag. */
  lemma ExcludesAreNotDryRun(patterns: seq<string>)
    ensures multiset(ExcludeFlags(patterns))["--dry-run"] == 0
  {
    var excludes := ExcludeFlags(patterns);
    forall i | 0 <= i < |excludes|
      ensures excludes[i] != "--dry-run"
    {
      assert excludes[i][2] == 'e';
      assert "--dry-run"[2] == 'd';
    }
  }

  /** No base flag is the dry-run flag (each has a different length). */
  lemma BaseFlagsAreNotDryRun(ip: string)
    ensures multiset(BaseFlags(ip))["--dry-run"] == 0
  {
    var base := BaseFlags(ip);
    forall i | 0 <= i < |base|
      ensures base[i] != "--dry-run"
    {
      assert |base[i]| != 9;
    }
  }

  /** Among the options before the sources, '--dry-run' occurs once in a dry run and never otherwise. */
  lemma DryRunFlagCount(m: Machine, cfg: RunConfig)
    ensures var options := BaseFlags(m.ip) + DryRunFlag(cfg.dryRun) + ExcludeFlags(m.exclude);
      && options == RsyncArgv(m, cfg)[..|options|]
      && multiset(options)["--dry-run"] == if cfg.dryRun then 1 else 0
  {
    var base := BaseFlags(m.ip);
    var dry := DryRunFlag(cfg.dryRun);
    var excludes := ExcludeFlags(m.exclude);
    var options := base + dry + excludes;
    ConcatSlices(base, dry, excludes, Resolved(m.ip, SourcesFor(m, cfg.kind)), Destination(m, cfg.kind));
    assert options == RsyncArgv(m, cfg)[..|options|];
    ExcludesAreNotDryRun(m.exclude);
    BaseFlagsAreNotDryRun(m.ip);
    assert multiset(options) == multiset(base) + multiset(dry) + multiset(excludes);
  }
}
