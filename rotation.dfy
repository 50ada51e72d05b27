/**
 * The generation rotation of shuffle_backups, on an abstract disk: a map from
 * directory path to the snapshot tree stored there. Each of the four on-disk
 * steps is guarded by the existence of the directory it reads.
 */
module Rotation {
  import opened Wrappers
  import opened Paths

  /** An abstract snapshot tree; only its identity matters to the rotation. */
  datatype Snapshot = Snapshot(id: nat)

  /** The snapshot directories on the backup volume, by path. */
  type Disk = map<string, Snapshot>

  function Look(d: Disk, q: string): Option<Snapshot>
  {
    if q in d then Some(d[q]) else None
  }

  /** What the four generation directories of a prefix hold, newest first. */
  function Generations(d: Disk, p: string): (g: seq<Option<Snapshot>>)
    ensures |g| == 4
  {
    [Look(d, GenPath(p, 0)), Look(d, GenPath(p, 1)), Look(d, GenPath(p, 2)), Look(d, GenPath(p, 3))]
  }

  /** The steps of shuffle_backups, in the order it takes them. */
  datatype Step =
    | RemoveOldest  // rmtree '<prefix>.3' if it is a directory
    | Rename2To3    // rename '<prefix>.2' to '<prefix>.3' if it is a directory
    | Rename1To2    // rename '<prefix>.1' to '<prefix>.2' if it is a directory
    | LinkNewest    // 'cp -al <prefix>.0 <prefix>.1' if '<prefix>.0' is a directory

  const ROTATION: seq<Step> := [RemoveOldest, Rename2To3, Rename1To2, LinkNewest]

  /** os.rename of a directory onto a free path. */
  function Move(d: Disk, from: string, to: string): Disk
  {
    if from in d then (d - {from})[to := d[from]] else d
  }

  /** One step, taken successfully. */
  function Apply(d: Disk, p: string, st: Step): Disk
  {
    match st
    case RemoveOldest => d - {GenPath(p, 3)}
    case Rename2To3 => Move(d, GenPath(p, 2), GenPath(p, 3))
    case Rename1To2 => Move(d, GenPath(p, 1), GenPath(p, 2))
    case LinkNewest => if GenPath(p, 0) in d then d[GenPath(p, 1) := d[GenPath(p, 0)]] else d
  }

  /** A sequence of steps, taken in order. */
  function RunSteps(d: Disk, p: string, steps: seq<Step>): Disk
    decreases |steps|
  {
    if steps == [] then d else Apply(RunSteps(d, p, steps[..|steps| - 1]), p, steps[|steps| - 1])
  }

  /**
   * What the operating system and the tools do during one machine's turn:
   * whether mkdir, rmtree or a rename of shuffle_backups raises, whether cp
   * fails, and what the rsync run leaves in generation 0 (None: it leaves
   * generation 0 as it was, for example when the transfer fails at once).
   */
  datatype Faults = Faults(
    mkdirFails: bool,
    removeFails: bool,
    rename2Fails: bool,
    rename1Fails: bool,
    linkFails: bool,
    received: Option<Snapshot>)

  const NO_FAULTS: Faults := Faults(false, false, false, false, false, None)

  /**
   * shuffle_backups raises exactly when a call it makes raises: mkdir of a
   * missing machine directory, or rmtree or rename of a generation that exists.
   * A failing cp is not noticed: execute_command folds it into its result.
   */
  predicate Raises(d: Disk, dirs: set<string>, dir: string, p: string, f: Faults)
  {
    (dir !in dirs && f.mkdirFails) || ShiftRaises(d, p, f)
  }

  /** The part of Raises that concerns the generation directories. */
  predicate ShiftRaises(d: Disk, p: string, f: Faults)
  {
    || (GenPath(p, 3) in d && f.removeFails)
    || (GenPath(p, 2) in d && f.rename2Fails)
    || (GenPath(p, 1) in d && f.rename1Fails)
  }

  /** The number of steps shuffle_backups completes before the one that raises. */
  function StepsBeforeRaise(d: Disk, p: string, f: Faults): (k: nat)
    ensures k < 3
  {
    if GenPath(p, 3) in d && f.removeFails then 0
    else if GenPath(p, 2) in d && f.rename2Fails then 1
    else 2
  }

  /** The steps completed when shuffle_backups raises: none when mkdir fails. */
  function ShuffleSteps(d: Disk, dirs: set<string>, dir: string, p: string, f: Faults): (k: nat)
    ensures k < 3
  {
    if dir !in dirs && f.mkdirFails then 0 else StepsBeforeRaise(d, p, f)
  }

  /** The machine directories after shuffle_backups, whether or not it raises. */
  function CreatedDirs(dirs: set<string>, dir: string, f: Faults): set<string>
  {
    if dir !in dirs && f.mkdirFails then dirs else dirs + {dir}
  }

  /** The disk after a rotation that raised nothing. */
  function Rotated(d: Disk, p: string, linkFails: bool): Disk
  {
    RunSteps(d, p, if linkFails then ROTATION[..3] else ROTATION)
  }

  /** The effect of one step on the generations of its own prefix. */
  function ShiftView(g: seq<Option<Snapshot>>, st: Step): seq<Option<Snapshot>>
    requires |g| == 4
  {
    match st
    case RemoveOldest => [g[0], g[1], g[2], None]
    case Rename2To3 => if g[2].Some? then [g[0], g[1], None, g[2]] else g
    case Rename1To2 => if g[1].Some? then [g[0], None, g[1], g[3]] else g
    case LinkNewest => if g[0].Some? then [g[0], g[0], g[2], g[3]] else g
  }

  lemma GenPathsDistinct(p: string)
    ensures forall i: Generation, j: Generation :: i != j ==> GenPath(p, i) != GenPath(p, j)
  {
    forall i: Generation, j: Generation | i != j
      ensures GenPath(p, i) != GenPath(p, j)
    {
      GenPathInjective(p, p, i, j);
    }
  }

  /** Each step acts on the generations of its prefix as ShiftView says. */
  lemma StepGenerations(d: Disk, p: string, st: Step)
    ensures Generations(Apply(d, p, st), p) == ShiftView(Generations(d, p), st)
  {
    GenPathsDistinct(p);
  }

  /** Each step touches only generations 1 to 3 of its prefix and creates no other directory. */
  lemma StepFrame(d: Disk, p: string, st: Step)
    ensures forall q :: q != GenPath(p, 1) && q != GenPath(p, 2) && q != GenPath(p, 3) ==>
      Look(Apply(d, p, st), q) == Look(d, q)
    ensures Apply(d, p, st).Keys <= d.Keys + {GenPath(p, 1), GenPath(p, 2), GenPath(p, 3)}
  {
  }

  lemma {:induction false} RunFrame(d: Disk, p: string, steps: seq<Step>)
    ensures forall q :: q != GenPath(p, 1) && q != GenPath(p, 2) && q != GenPath(p, 3) ==>
      Look(RunSteps(d, p, steps), q) == Look(d, q)
    ensures RunSteps(d, p, steps).Keys <= d.Keys + {GenPath(p, 1), GenPath(p, 2), GenPath(p, 3)}
    decreases |steps|
  {
    if steps != [] {
      RunFrame(d, p, steps[..|steps| - 1]);
      StepFrame(RunSteps(d, p, steps[..|steps| - 1]), p, steps[|steps| - 1]);
    }
  }

  /** The first k steps of ROTATION, as shuffle_backups takes them one after the other. */
  lemma RotationPrefix(d: Disk, p: string, k: nat)
    requires k < 4
    ensures RunSteps(d, p, ROTATION[..k + 1]) == Apply(RunSteps(d, p, ROTATION[..k]), p, ROTATION[k])
    ensures RunSteps(d, p, ROTATION[..0]) == d
    ensures ROTATION[..4] == ROTATION
  {
    assert ROTATION[..k + 1][..k] == ROTATION[..k];
  }

  /** The generations after the first k steps, for every k. */
  lemma RotationStages(d: Disk, p: string)
    ensures var g := Generations(d, p);
      && Generations(RunSteps(d, p, ROTATION[..1]), p) == [g[0], g[1], g[2], None]
      && Generations(RunSteps(d, p, ROTATION[..2]), p) == [g[0], g[1], None, g[2]]
      && Generations(RunSteps(d, p, ROTATION[..3]), p) == [g[0], None, g[1], g[2]]
      && Generations(RunSteps(d, p, ROTATION), p) == [g[0], g[0], g[1], g[2]]
  {
    var g := Generations(d, p);
    RotationPrefix(d, p, 0);
    RotationPrefix(d, p, 1);
    RotationPrefix(d, p, 2);
    RotationPrefix(d, p, 3);
    var d1 := RunSteps(d, p, ROTATION[..1]);
    var d2 := RunSteps(d, p, ROTATION[..2]);
    var d3 := RunSteps(d, p, ROTATION[..3]);
    StepGenerations(d, p, RemoveOldest);
    StepGenerations(d1, p, Rename2To3);
    StepGenerations(d2, p, Rename1To2);
    StepGenerations(d3, p, LinkNewest);
  }

  /** The directory each step checks is there exactly when it was before the rotation began. */
  lemma RotationGuards(d: Disk, p: string)
    ensures GenPath(p, 2) in RunSteps(d, p, ROTATION[..1]) <==> GenPath(p, 2) in d
    ensures GenPath(p, 1) in RunSteps(d, p, ROTATION[..2]) <==> GenPath(p, 1) in d
    ensures GenPath(p, 0) in RunSteps(d, p, ROTATION[..3]) <==> GenPath(p, 0) in d
  {
    RotationStages(d, p);
    assert Generations(RunSteps(d, p, ROTATION[..1]), p)[2] == Generations(d, p)[2];
    assert Generations(RunSteps(d, p, ROTATION[..2]), p)[1] == Generations(d, p)[1];
    assert Generations(RunSteps(d, p, ROTATION[..3]), p)[0] == Generations(d, p)[0];
  }

  /**
   * A rotation that raised nothing shifts the ring by one: the new .3 is the old
   * .2, the new .2 the old .1, the new .1 a copy of .0 (none if cp failed), .0
   * is kept and the old .3 is gone. Every other directory is left as it was and
   * no directory outside generations 1 to 3 is created.
   */
  lemma RotationShifts(d: Disk, p: string, linkFails: bool)
    ensures var g := Generations(d, p);
      Generations(Rotated(d, p, linkFails), p) == [g[0], if linkFails then None else g[0], g[1], g[2]]
    ensures forall q :: q != GenPath(p, 1) && q != GenPath(p, 2) && q != GenPath(p, 3) ==>
      Look(Rotated(d, p, linkFails), q) == Look(d, q)
    ensures Rotated(d, p, linkFails).Keys <= d.Keys + {GenPath(p, 1), GenPath(p, 2), GenPath(p, 3)}
  {
    RotationStages(d, p);
    RunFrame(d, p, if linkFails then ROTATION[..3] else ROTATION);
  }

  /**
   * However many steps were taken before one raised, generation 0 and every
   * path outside generations 1 to 3 is untouched.
   */
  lemma InterruptedRotationKeepsNewest(d: Disk, p: string, k: nat)
    requires k <= 4
    ensures Look(RunSteps(d, p, ROTATION[..k]), GenPath(p, 0)) == Look(d, GenPath(p, 0))
    ensures forall q :: q != GenPath(p, 1) && q != GenPath(p, 2) && q != GenPath(p, 3) ==>
      Look(RunSteps(d, p, ROTATION[..k]), q) == Look(d, q)
    ensures RunSteps(d, p, ROTATION[..k]).Keys <= d.Keys + {GenPath(p, 1), GenPath(p, 2), GenPath(p, 3)}
  {
    GenPathsDistinct(p);
    RunFrame(d, p, ROTATION[..k]);
  }

  /** Two rotations with no transfer in between: .3 then holds what .1 held before both. */
  lemma TwoRotations(d: Disk, p: string)
    ensures var g := Generations(d, p);
      Generations(Rotated(Rotated(d, p, false), p, false), p) == [g[0], g[0], g[0], g[1]]
  {
    RotationShifts(d, p, false);
    RotationShifts(Rotated(d, p, false), p, false);
  }

  /** Generations present form a prefix 0..n-1 of 0..3. */
  predicate Contiguous(g: seq<Option<Snapshot>>)
    requires |g| == 4
  {
    forall k :: 0 < k < 4 && g[k].Some? ==> g[k - 1].Some?
  }

  /** A complete rotation keeps the generations contiguous, and on a first run creates none. */
  lemma RotationKeepsContiguous(d: Disk, p: string)
    ensures Contiguous(Generations(d, p)) ==> Contiguous(Generations(Rotated(d, p, false), p))
    ensures Generations(d, p) == [None, None, None, None] ==>
      Generations(Rotated(d, p, false), p) == [None, None, None, None]
  {
    RotationShifts(d, p, false);
    var g := Generations(d, p);
    var h := Generations(Rotated(d, p, false), p);
    if Contiguous(g) {
      assert h == [g[0], g[0], g[1], g[2]];
      forall k | 0 < k < 4 && h[k].Some?
        ensures h[k - 1].Some?
      {
        assert g[k - 1].Some? ==> k - 1 == 0 || g[k - 2].Some?;
      }
    }
  }
}
