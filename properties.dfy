/**
 * What the transcripts of module Pipeline promise about build_clover and its helpers: which
 * commands a failure rules out, when the auxiliary tools are rebuilt, what a driver record
 * that was skipped or failed leaves behind, and what a successful run returns.
 */
module Properties {
  import opened Text
  import opened Parse
  import opened World
  import opened Pipeline

  /** Whether a transcript holds a chained run. */
  predicate HasChain(seg: seq<Event>) {
    exists k :: 0 <= k < |seg| && seg[k].Chain?
  }

  /** update_udk clones exactly when `.git` is missing, pulls and cleans unless that clone
      failed, and succeeds exactly when the last reply of the pull-and-clean chain does. */
  lemma UdkSteps(c: Config, seg: seq<Event>, ok: bool)
    requires UdkRun(c, seg, ok)
    ensures (exists k :: 0 <= k < |seg| && IsExec(seg[k], UdkClone(c))) <==> !seg[0].found
    ensures !HasChain(seg) <==> !seg[0].found && seg[1].reply.exit != 0
    ensures ok <==> IsChain(seg[|seg| - 1], UdkUpdate, true)
  {
    if !seg[0].found {
      assert IsExec(seg[1], UdkClone(c));
    }
    if HasChain(seg) {
      var k :| 0 <= k < |seg| && seg[k].Chain?;
      assert k != 0;
    }
    if seg[0].found {
      assert seg[1].Chain?;
    } else if seg[1].reply.exit == 0 {
      assert seg[2].Chain?;
    }
  }

  /** get_clover_revision gives nothing without `.svn`, and otherwise a non-empty revision
      only when it is the field after the label in the lower-cased `svn info` output. */
  lemma RevisionLookup(c: Config, seg: seq<Event>, rev: Option<string>)
    requires RevisionRun(c, seg, rev)
    ensures !seg[0].found ==> rev.None? && |seg| == 1
    ensures rev.Some? ==>
      seg[0].found && IsExec(seg[1], SvnInfo) && rev.value != "" &&
      FieldAfter(Lower(seg[1].reply.stdout), RevisionLabel, rev.value)
  {
    if rev.Some? {
      RevisionIsField(seg[1].reply.stdout, rev.value);
    }
  }

  /** update_clover gives up without updating when the checkout fails or no revision is
      found; it succeeds only after a revision was read and the last reply of the update
      chain succeeded. */
  lemma CloverSteps(c: Config, seg: seq<Event>, ok: bool)
    requires CloverRun(c, seg, ok)
    ensures !seg[0].found && seg[1].reply.exit != 0 ==> |seg| == 2 && !ok && !HasChain(seg)
    ensures ok ==>
      |seg| >= 3 && IsChain(seg[|seg| - 1], CloverUpdate, true) &&
      IsExec(seg[|seg| - 2], SvnInfo) && CloverRevision(seg[|seg| - 2].reply.stdout).Some?
    ensures !HasChain(seg) ==> !ok
    ensures (exists k :: 0 <= k < |seg| && IsExec(seg[k], CloverCheckout(c))) <==> !seg[0].found
    ensures HasChain(seg) ==> (ok <==> IsChain(seg[|seg| - 1], CloverUpdate, true))
  {
    if !seg[0].found {
      assert IsExec(seg[1], CloverCheckout(c));
    }
    var i := if seg[0].found then 1 else 2;
    if !seg[0].found && seg[1].reply.exit != 0 {
      assert !seg[0].Chain? && !seg[1].Chain?;
    } else {
      assert RevisedFrom(c, seg, i, ok);
      if ok {
        assert |seg| == i + 3;
      }
      if !HasChain(seg) && seg[i].found && CloverRevision(seg[i + 1].reply.stdout).Some? {
        assert seg[i + 2].Chain?;
      }
      if HasChain(seg) {
        var k :| 0 <= k < |seg| && seg[k].Chain?;
        assert k == i + 2;
      }
    }
  }

  /** An auxiliary tool's build script runs if and only if its check path is missing, and a
      failing script is the only way the step fails. */
  lemma ToolGating(t: Tool, seg: seq<Event>, ok: bool)
    requires ToolRun(t, seg, ok)
    ensures (exists k :: 0 <= k < |seg| && IsExec(seg[k], BuildTool(t))) <==> !seg[0].found
    ensures !ok <==> !seg[0].found && seg[1].reply.exit != 0
  {
    if !seg[0].found {
      assert IsExec(seg[1], BuildTool(t));
    }
  }

  /** A stage that fails ends build_clover: it is the last stage in the transcript, and it is
      never the driver or download stage. */
  lemma FailureEndsRun(c: Config, ds: seq<Driver>, segs: seq<seq<Event>>, k: Stage)
    requires PipelineRun(c, ds, segs, Failure(k))
    ensures Stages[|segs| - 1] == k && k != Drivers && k != Download && k != StageDrivers
  {
  }

  /** A failing update_udk means update_clover and everything after it never run. */
  lemma UdkFailureStops(c: Config, ds: seq<Driver>, segs: seq<seq<Event>>)
    requires PipelineRun(c, ds, segs, Failure(SyncUdk))
    ensures |segs| == 1 && UdkRun(c, segs[0], false)
  {
  }

  /** When make of the base tools, edksetup, the patch copy or the last clean command ends the
      run, that one command was the last thing issued and it did not succeed. */
  lemma RequiredCommandStops(c: Config, ds: seq<Driver>, segs: seq<seq<Event>>, k: Stage)
    requires PipelineRun(c, ds, segs, Failure(k))
    requires k == BaseTools || k == SetupUdk || k == Patches || k == CleanTree
    ensures var last := segs[|segs| - 1];
      |last| == 1 &&
      (k == BaseTools ==> IsExec(last[0], MakeBaseTools(c)) && last[0].reply.exit != 0) &&
      (k == SetupUdk ==> IsExec(last[0], EdkSetup) && last[0].reply.exit != 0) &&
      (k == Patches ==> IsExec(last[0], InstallPatches(c)) && last[0].reply.exit != 0) &&
      (k == CleanTree ==> IsChain(last[0], CleanClover, false))
  {
  }

  // ---------------------------------------------------------------- every earlier stage passed

  lemma PassedPrefix(c: Config, ds: seq<Driver>, segs: seq<seq<Event>>)
    requires Passed(c, ds, segs) && segs != []
    ensures Passed(c, ds, segs[..|segs| - 1])
  {
  }

  lemma PassedLast(c: Config, ds: seq<Driver>, segs: seq<seq<Event>>)
    requires Passed(c, ds, segs) && segs != []
    ensures StageRun(c, ds, Stages[|segs| - 1], segs[|segs| - 1], true)
  {
  }

  /** Every prefix of a passed prefix passed. */
  lemma {:induction false} PrefixPassed(c: Config, ds: seq<Driver>, segs: seq<seq<Event>>, m: nat)
    requires Passed(c, ds, segs) && m <= |segs|
    ensures Passed(c, ds, segs[..m])
    decreases |segs|
  {
    if m < |segs| {
      var n := |segs| - 1;
      PassedPrefix(c, ds, segs);
      PrefixPassed(c, ds, segs[..n], m);
      assert segs[..n][..m] == segs[..m];
    } else {
      assert segs[..m] == segs;
    }
  }

  lemma SameStageAt(c: Config, ds: seq<Driver>, segs: seq<seq<Event>>, j: nat, n: nat)
    requires j < n <= |segs| && j < |Stages| && StageRun(c, ds, Stages[j], segs[..n][j], true)
    ensures StageRun(c, ds, Stages[j], segs[j], true)
  {
    assert segs[..n][j] == segs[j];
  }

  /** Each stage of a passed prefix ran and passed. */
  lemma PassedAt(c: Config, ds: seq<Driver>, segs: seq<seq<Event>>, j: nat)
    requires Passed(c, ds, segs) && j < |segs|
    ensures StageRun(c, ds, Stages[j], segs[j], true)
  {
    PrefixPassed(c, ds, segs, j + 1);
    PassedLast(c, ds, segs[..j + 1]);
    SameStageAt(c, ds, segs, j, j + 1);
  }

  /** In a whole run, every stage before the last one reached passed. */
  lemma EarlierPassed(c: Config, ds: seq<Driver>, segs: seq<seq<Event>>, outcome: Outcome, j: nat)
    requires PipelineRun(c, ds, segs, outcome) && j < |segs| - 1
    ensures StageRun(c, ds, Stages[j], segs[j], true)
  {
    var n := |segs| - 1;
    PassedAt(c, ds, segs[..n], j);
    SameStageAt(c, ds, segs, j, n);
  }

  /** Apart from the driver loop and the downloads, whose result is not looked at, what a stage
      recorded decides whether it passed. */
  lemma StageVerdict(c: Config, ds: seq<Driver>, k: Stage, seg: seq<Event>, ok: bool, ok': bool)
    requires k != Drivers && k != Download
    requires StageRun(c, ds, k, seg, ok) && StageRun(c, ds, k, seg, ok')
    ensures ok == ok'
  {
  }

  /** A stage whose transcript is a failing one ends build_clover: no later stage runs, and
      the result is `False`, or the exception of a failed staged copy. */
  lemma FailingStageIsLast(c: Config, ds: seq<Driver>, segs: seq<seq<Event>>, outcome: Outcome, j: nat)
    requires PipelineRun(c, ds, segs, outcome) && j < |segs|
    requires Stages[j] != Drivers && Stages[j] != Download
    requires StageRun(c, ds, Stages[j], segs[j], false)
    ensures j == |segs| - 1
    ensures outcome == if Stages[j] == StageDrivers then Raised(StageDrivers) else Failure(Stages[j])
  {
    if j < |segs| - 1 {
      EarlierPassed(c, ds, segs, outcome, j);
      StageVerdict(c, ds, Stages[j], segs[j], true, false);
      assert false;
    }
    if outcome.Success? {
      StageVerdict(c, ds, Package, segs[j], true, false);
      assert false;
    }
  }

  /** A non-zero exit from make of the base tools, edksetup or the patch copy ends
      build_clover with False right there: nothing later is issued. */
  lemma CommandExitStops(c: Config, ds: seq<Driver>, segs: seq<seq<Event>>, outcome: Outcome, j: nat)
    requires PipelineRun(c, ds, segs, outcome) && j < |segs|
    requires Stages[j] == BaseTools || Stages[j] == SetupUdk || Stages[j] == Patches
    requires |segs[j]| >= 1 && segs[j][0].Exec? && segs[j][0].reply.exit != 0
    ensures j == |segs| - 1 && outcome == Failure(Stages[j]) && |segs[j]| == 1
  {
    if j < |segs| - 1 {
      EarlierPassed(c, ds, segs, outcome, j);
    }
    FailingStageIsLast(c, ds, segs, outcome, j);
  }

  /** A failing build script of gettext, mtoc or nasm ends build_clover with False before
      the patch stage. */
  lemma ToolExitStops(c: Config, ds: seq<Driver>, segs: seq<seq<Event>>, outcome: Outcome, j: nat)
    requires PipelineRun(c, ds, segs, outcome) && j < |segs|
    requires Stages[j] == BuildGettext || Stages[j] == BuildMtoc || Stages[j] == BuildNasm
    requires |segs[j]| == 2 && segs[j][1].Exec? && segs[j][1].reply.exit != 0
    ensures j == |segs| - 1 && outcome == Failure(Stages[j]) && |segs| <= 7
  {
    if j < |segs| - 1 {
      EarlierPassed(c, ds, segs, outcome, j);
    }
    FailingStageIsLast(c, ds, segs, outcome, j);
  }

  /** A clean chain whose last reply failed ends build_clover with False before the driver
      loop. */
  lemma CleanExitStops(c: Config, ds: seq<Driver>, segs: seq<seq<Event>>, outcome: Outcome, j: nat)
    requires PipelineRun(c, ds, segs, outcome) && j < |segs| && Stages[j] == CleanTree
    requires |segs[j]| >= 1 && segs[j][0].Chain? && !LastSucceeded(segs[j][0].replies)
    ensures j == |segs| - 1 && outcome == Failure(CleanTree) && |segs| == 9
  {
    if j < |segs| - 1 {
      EarlierPassed(c, ds, segs, outcome, j);
    }
    FailingStageIsLast(c, ds, segs, outcome, j);
  }

  /** The driver and download stages never end build_clover: a run that reaches them goes on
      to the staging of the prebuilt drivers. */
  lemma DriversNeverFail(c: Config, ds: seq<Driver>, segs: seq<seq<Event>>, outcome: Outcome)
    requires PipelineRun(c, ds, segs, outcome)
    ensures |segs| >= 10 ==> |segs| >= 12
  {
  }

  /** build_clover returns a path only when the package stage was reached, the package name
      was found and is not empty, and the package exists there; the path is the name joined
      to the output directory. */
  lemma SuccessPath(c: Config, ds: seq<Driver>, segs: seq<seq<Event>>, p: string)
    requires PipelineRun(c, ds, segs, Success(p))
    ensures |segs| == |Stages| && Passed(c, ds, segs[..|segs| - 1])
    ensures var run := segs[|segs| - 1];
      |run| == 2 && IsExec(run[0], MakePkg(c)) && run[0].reply.exit == 0 &&
      PackageName(run[0].reply.stdout).Some? && PackageName(run[0].reply.stdout).value != "" &&
      p == PathJoin(c.out, PackageName(run[0].reply.stdout).value) &&
      IsProbe(run[1], p) && run[1].found
  {
  }

  /** A run that reaches the package stage and does not return a path returns False there. */
  lemma PackageOrFalse(c: Config, ds: seq<Driver>, segs: seq<seq<Event>>, outcome: Outcome)
    requires PipelineRun(c, ds, segs, outcome) && |segs| == |Stages|
    ensures outcome.Success? || outcome == Failure(Package)
  {
  }

  /** A driver record with a missing key leaves nothing in the transcript; a record that was
      not built gets no copies; a built record passed its build script. */
  lemma DriverOutcome(c: Config, d: Driver, seg: seq<Event>, built: bool)
    requires DriverRun(c, d, seg, built)
    ensures !Complete(d) ==> seg == [] && !built
    ensures !built ==> forall k :: 0 <= k < |seg| ==> !seg[k].Copy?
    ensures built ==> Complete(d) && exists k :: 0 <= k < |seg| && IsExec(seg[k], RunBuildScript(d)) && seg[k].reply.exit == 0
  {
    if Complete(d) {
      var i := if seg[0].found then 1 else 2;
      if !seg[0].found && seg[1].reply.exit != 0 {
        assert |seg| == 2;
      } else {
        var rest := seg[i..];
        assert BuildRun(c, d, rest, built);
        assert seg[i + 2] == rest[2];
        if !built {
          assert |seg| == i + 3;
        }
      }
    }
  }

  /** The exit codes of `git pull` and `chmod` are not looked at: any other replies to them
      give a legal transcript with the same outcome. */
  lemma PullAndChmodIgnored(c: Config, d: Driver, seg: seq<Event>, built: bool, r0: Reply, r1: Reply)
    requires Complete(d) && BuildRun(c, d, seg, built)
    ensures BuildRun(c, d, seg[0 := Exec(GitPull, r0)][1 := Exec(MakeExecutable(d), r1)], built)
  {
    var seg' := seg[0 := Exec(GitPull, r0)][1 := Exec(MakeExecutable(d), r1)];
    assert seg'[3..] == seg[3..];
  }

  /** Every built file was attempted, in list order, whatever happened to the ones before
      it: into drivers64 first, and into drivers64UEFI when that copy worked. */
  lemma CopiesInOrder(c: Config, from: string, files: seq<string>, seg: seq<Event>)
    requires CopiesRun(c, from, files, seg)
    ensures exists pairs ::
      (|pairs| == |files| && Concat(pairs) == seg &&
       forall j :: 0 <= j < |files| ==> CopyPair(c, from, files[j], pairs[j]))
  {
    var pairs :| CopyList(c, from, files, pairs) && Concat(pairs) == seg;
    CopyListAll(c, from, files, pairs);
  }

  /** Turning a record's name into a list keeps every other key and the names themselves, so
      the record is handled exactly as before when the driver list is built again. */
  lemma ListNamesSameRun(c: Config, d: Driver, seg: seq<Event>, built: bool)
    ensures Complete(ListNames(d)) == Complete(d)
    ensures DriverRun(c, ListNames(d), seg, built) <==> DriverRun(c, d, seg, built)
  {
  }

  /** After build_efi_drivers every record keeps its keys and its names; only the form of a
      built record's name changes. */
  lemma RenameKeepsRecords(c: Config, ds: seq<Driver>, built: seq<bool>, j: nat, seg: seq<Event>, b: bool)
    requires |built| <= |ds| && j < |ds|
    ensures RenameBuilt(ds, built)[j].(name := ds[j].name) == ds[j]
    ensures ds[j].name.Some? ==> NameList(RenameBuilt(ds, built)[j].name.value) == NameList(ds[j].name.value)
    ensures DriverRun(c, RenameBuilt(ds, built)[j], seg, b) <==> DriverRun(c, ds[j], seg, b)
  {
    ListNamesSameRun(c, ds[j], seg, b);
  }
}
