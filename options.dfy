/**
 * The option loop of main over the (option, argument) pairs that getopt
 * returns: it sets the backup type, dry-run and mount flags, or exits for
 * help and for a bad --type argument. '-d' and '-r' assign locals of main
 * and '-v' and '-q' have no branch, so none of the four changes anything.
 */
module Options {
  import opened Wrappers
  import opened Settings

  datatype Outcome = Proceed(cfg: RunConfig) | Quit(status: ExitArg)

  predicate IsHelp(o: string) { o == "-h" || o == "--help" }
  predicate IsType(o: string) { o == "-t" || o == "--type" }
  predicate IsDryRun(o: string) { o == "-n" || o == "--dry-run" }
  predicate IsMount(o: string) { o == "-m" || o == "--mount" }

  /** An option that makes main call clean_exit while the drive is still read-only. */
  predicate Stops(opt: (string, string))
  {
    IsHelp(opt.0) || (IsType(opt.0) && ParseType(opt.1).None?)
  }

  /** The status clean_exit then exits with: 0 for help, the message for a bad type. */
  function StopStatus(opt: (string, string)): ExitArg
  {
    if IsHelp(opt.0) then Code(0) else Text("Bad argument for --type")
  }

  /** One pass of the option loop's body. */
  function Handle(c: RunConfig, opt: (string, string)): Outcome
  {
    if IsHelp(opt.0) then Quit(Code(0))
    else if IsType(opt.0) then
      match ParseType(opt.1)
      case Some(t) => Proceed(c.(kind := t))
      case None => Quit(Text("Bad argument for --type"))
    else if IsDryRun(opt.0) then Proceed(c.(dryRun := true))
    else if IsMount(opt.0) then Proceed(c.(mount := true))
    else Proceed(c)
  }

  /** The option loop over all pairs, starting from the default globals. */
  function Options(opts: seq<(string, string)>): Outcome
    decreases |opts|
  {
    if opts == [] then Proceed(DEFAULTS)
    else
      match Options(opts[..|opts| - 1])
      case Quit(s) => Quit(s)
      case Proceed(c) => Handle(c, opts[|opts| - 1])
  }

  /** The loop of main over the pairs getopt returned. */
  method ReadOptions(opts: seq<(string, string)>) returns (r: Outcome)
    ensures r == Options(opts)
  {
    var kind, dryRun, mount := Daily, false, false;
    var i := 0;
    while i < |opts|
      invariant 0 <= i <= |opts|
      invariant Options(opts[..i]) == Proceed(RunConfig(kind, dryRun, mount))
    {
      assert opts[..i + 1][..i] == opts[..i];
      var (opt, arg) := opts[i];
      if opt in ["-h", "--help"] {
        r := Quit(Code(0));
        QuitIsFinal(opts, i + 1);
        return;
      } else if opt in ["-t", "--type"] {
        if arg in TYPE_CHOICES {
          kind := if arg == "hourly" then Hourly else Daily;
        } else {
          r := Quit(Text("Bad argument for --type"));
          QuitIsFinal(opts, i + 1);
          return;
        }
      } else if opt in ["-n", "--dry-run"] {
        dryRun := true;
      } else if opt in ["-m", "--mount"] {
        mount := true;
      }
      i := i + 1;
    }
    assert opts[..i] == opts;
    r := Proceed(RunConfig(kind, dryRun, mount));
  }

  /** Once an option has made main exit, later options change nothing. */
  lemma {:induction false} QuitIsFinal(opts: seq<(string, string)>, k: nat)
    requires k <= |opts| && Options(opts[..k]).Quit?
    ensures Options(opts) == Options(opts[..k])
    decreases |opts| - k
  {
    if k < |opts| {
      assert opts[..k + 1][..k] == opts[..k];
      QuitIsFinal(opts, k + 1);
    } else {
      assert opts[..k] == opts;
    }
  }

  /** main exits in the option loop exactly when some option stops it, with the first such option's status. */
  lemma {:induction false} QuitCharacterized(opts: seq<(string, string)>)
    ensures Options(opts).Quit? <==> exists i :: 0 <= i < |opts| && Stops(opts[i])
    ensures Options(opts).Quit? ==>
      exists i :: 0 <= i < |opts| && Stops(opts[i]) && Options(opts).status == StopStatus(opts[i])
        && forall j :: 0 <= j < i ==> !Stops(opts[j])
    decreases |opts|
  {
    if opts != [] {
      var n := |opts| - 1;
      var init := opts[..n];
      QuitCharacterized(init);
      assert forall i :: 0 <= i < n ==> opts[i] == init[i];
      if Options(init).Quit? {
        var i :| 0 <= i < |init| && Stops(init[i]) && Options(init).status == StopStatus(init[i])
          && forall j :: 0 <= j < i ==> !Stops(init[j]);
        assert Stops(opts[i]);
      } else if Stops(opts[n]) {
        assert forall j :: 0 <= j < n ==> !Stops(opts[j]);
      }
    }
  }

  /** Without an exit, dry-run is on exactly when some option asks for it. */
  lemma {:induction false} DryRunCharacterized(opts: seq<(string, string)>)
    ensures Options(opts).Proceed? ==>
      (Options(opts).cfg.dryRun <==> exists i :: 0 <= i < |opts| && IsDryRun(opts[i].0))
    decreases |opts|
  {
    if opts != [] {
      var n := |opts| - 1;
      var init := opts[..n];
      DryRunCharacterized(init);
      assert forall i :: 0 <= i < n ==> opts[i] == init[i];
      if IsDryRun(opts[n].0) {
        assert !IsHelp(opts[n].0) && !IsType(opts[n].0);
      }
    }
  }

  /** Without an exit, mount management is on exactly when some option asks for it. */
  lemma {:induction false} MountCharacterized(opts: seq<(string, string)>)
    ensures Options(opts).Proceed? ==>
      (Options(opts).cfg.mount <==> exists i :: 0 <= i < |opts| && IsMount(opts[i].0))
    decreases |opts|
  {
    if opts != [] {
      var n := |opts| - 1;
      var init := opts[..n];
      MountCharacterized(init);
      assert forall i :: 0 <= i < n ==> opts[i] == init[i];
      if IsMount(opts[n].0) {
        assert !IsHelp(opts[n].0) && !IsType(opts[n].0) && !IsDryRun(opts[n].0);
      }
    }
  }

  /** An option other than --type leaves the type alone. */
  lemma HandleKeepsKind(c: RunConfig, opt: (string, string))
    requires !IsType(opt.0)
    ensures Handle(c, opt).Proceed? ==> Handle(c, opt).cfg.kind == c.kind
  {
  }

  /** Without an exit and without --type, the type stays daily. */
  lemma {:induction false} KindDefault(opts: seq<(string, string)>)
    requires forall i :: 0 <= i < |opts| ==> !IsType(opts[i].0)
    ensures Options(opts).Proceed? ==> Options(opts).cfg.kind == Daily
    decreases |opts|
  {
    if opts != [] {
      var n := |opts| - 1;
      var init := opts[..n];
      assert forall i :: 0 <= i < n ==> opts[i] == init[i];
      KindDefault(init);
      if Options(init).Proceed? {
        HandleKeepsKind(Options(init).cfg, opts[n]);
      }
    }
  }

  /** Without an exit, the type is the one the last --type names. */
  lemma {:induction false} KindIsLastType(opts: seq<(string, string)>, i: int)
    requires 0 <= i < |opts| && IsType(opts[i].0)
    requires forall j :: i < j < |opts| ==> !IsType(opts[j].0)
    ensures Options(opts).Proceed? ==> ParseType(opts[i].1) == Some(Options(opts).cfg.kind)
    decreases |opts|
  {
    var n := |opts| - 1;
    var init := opts[..n];
    if i < n {
      assert forall j :: 0 <= j < n ==> opts[j] == init[j];
      KindIsLastType(init, i);
      if Options(init).Proceed? {
        HandleKeepsKind(Options(init).cfg, opts[n]);
      }
    }
  }

  /** '-d', '-r', '-v' and '-q' leave the outcome as it was. */
  lemma IgnoredOptions(opts: seq<(string, string)>, opt: (string, string))
    requires opt.0 in ["-d", "--device", "-r", "--root", "-v", "--verbose", "-q", "--quiet"]
    ensures Options(opts + [opt]) == Options(opts)
  {
    assert (opts + [opt])[..|opts|] == opts;
  }
}
