/**
 * The CloverBuild object of Scripts/cloverbuild.py: its configuration, the driver records it
 * mutates, and one method per operation. The outside world is the `host` the object is
 * built with. Each method is told the history `t` of everything that happened on the host
 * before it, and returns the events it adds (`seg`); it promises that these form a legal
 * transcript of that operation (the predicates of module Pipeline) and that every answer in
 * them is the host's (`World.Faithful`).
 */
module Build {
  import opened Text
  import opened Parse
  import opened World
  import opened Pipeline

  const DefaultUdkRepo: string := "https://github.com/tianocore/edk2"
  const DefaultCloverRepo: string := "https://svn.code.sf.net/p/cloverefiboot/code"

  /** One more stage recorded after the stages before it: the history grows by its events
      and stays faithful. */
  lemma Record(h: Host, t: seq<Event>, segs: seq<seq<Event>>, seg: seq<Event>)
    requires Faithful(h, t, Concat(segs)) && Faithful(h, t + Concat(segs), seg)
    ensures Concat(segs + [seg]) == Concat(segs) + seg
    ensures Faithful(h, t, Concat(segs + [seg]))
  {
    ConcatAppend(segs, seg);
    FaithfulAppend(h, t, Concat(segs), seg);
  }

  /** A stage of build_clover that returns False when it fails has run after the stages
      before it, all of which passed. */
  lemma Advance(h: Host, t: seq<Event>, c: Config, ds: seq<Driver>, segs: seq<seq<Event>>,
                seg: seq<Event>, ok: bool, k: Stage)
    requires Passed(c, ds, segs) && Faithful(h, t, Concat(segs))
    requires Stages[|segs|] == k && k != StageDrivers && k != Package
    requires StageRun(c, ds, k, seg, ok) && Faithful(h, t + Concat(segs), seg)
    ensures Faithful(h, t, Concat(segs + [seg]))
    ensures ok ==> Passed(c, ds, segs + [seg])
    ensures !ok ==> PipelineRun(c, ds, segs + [seg], Failure(k))
  {
    StageDone(c, ds, segs, seg, ok, k);
    Record(h, t, segs, seg);
  }

  /** One more file of the copy loop: its attempts extend the list and the transcript. */
  lemma CopyStep(h: Host, t: seq<Event>, c: Config, from: string, files: seq<string>, k: nat,
                 pairs: seq<seq<Event>>, seg: seq<Event>, pair: seq<Event>)
    requires k < |files| && CopyList(c, from, files[..k], pairs) && seg == Concat(pairs)
    requires Faithful(h, t, seg) && CopyPair(c, from, files[k], pair) && Faithful(h, t + seg, pair)
    ensures CopyList(c, from, files[..k + 1], pairs + [pair]) && seg + pair == Concat(pairs + [pair])
    ensures Faithful(h, t, seg + pair)
  {
    CopyListSnoc(c, from, files, k, pairs, pair);
    ConcatAppend(pairs, pair);
    FaithfulAppend(h, t, seg, pair);
  }

  /** One more record of the driver loop: its transcript extends the list and the history. */
  lemma DriverStep(h: Host, t: seq<Event>, c: Config, ds: seq<Driver>, i: nat,
                   segs: seq<seq<Event>>, built: seq<bool>, seg: seq<Event>, b: bool)
    requires i < |ds| && DriverList(c, ds[..i], segs, built)
    requires Faithful(h, t, Concat(segs)) && DriverRun(c, ds[i], seg, b) && Faithful(h, t + Concat(segs), seg)
    ensures DriverList(c, ds[..i + 1], segs + [seg], built + [b]) && Faithful(h, t, Concat(segs + [seg]))
  {
    DriverListSnoc(c, ds, i, segs, built, seg, b);
    ConcatAppend(segs, seg);
    FaithfulAppend(h, t, Concat(segs), seg);
  }

  class CloverBuild {
    const host: Host
    const cfg: Config
    var efiDrivers: seq<Driver>

    /** `source` is taken as already expanded; an empty driver list means the defaults. */
    constructor (host: Host, source: string,
                 udkRepo: string := DefaultUdkRepo, udkBranch: string := "UDK2018",
                 udkDir: string := "UDK2018", cloverRepo: string := DefaultCloverRepo,
                 cloverDir: string := "Clover", efiDrivers: seq<Driver> := [])
      ensures this.host == host
      ensures cfg == MakeConfig(source, udkRepo, udkBranch, udkDir, cloverRepo, cloverDir)
      ensures this.efiDrivers == if efiDrivers == [] then DefaultDrivers else efiDrivers
    {
      this.host := host;
      cfg := MakeConfig(source, udkRepo, udkBranch, udkDir, cloverRepo, cloverDir);
      this.efiDrivers := if |efiDrivers| == 0 then DefaultDrivers else efiDrivers;
    }

    /** update_udk */
    method UpdateUdk(t: seq<Event>) returns (ok: bool, seg: seq<Event>)
      ensures UdkRun(cfg, seg, ok) && Faithful(host, t, seg)
    {
      var cloned;
      cloned, seg := Exists(host, t, [], GitDir(cfg.udkPath));
      if !cloned {
        var r;
        r, seg := Run(host, t, seg, UdkClone(cfg));
        if r.exit != 0 {
          return false, seg;
        }
      }
      var rs;
      rs, seg := RunChain(host, t, seg, UdkUpdate);
      ok := LastSucceeded(rs);
    }

    /** get_clover_revision */
    method GetCloverRevision(t: seq<Event>) returns (rev: Option<string>, seg: seq<Event>)
      ensures RevisionRun(cfg, seg, rev) && Faithful(host, t, seg)
    {
      var checkedOut;
      checkedOut, seg := Exists(host, t, [], SvnDir(cfg.cPath));
      if !checkedOut {
        return None, seg;
      }
      var r;
      r, seg := Run(host, t, seg, SvnInfo);
      rev := CloverRevision(r.stdout);
    }

    /** update_clover */
    method UpdateClover(t: seq<Event>) returns (ok: bool, seg: seq<Event>)
      ensures CloverRun(cfg, seg, ok) && Faithful(host, t, seg)
    {
      var checkedOut;
      checkedOut, seg := Exists(host, t, [], SvnDir(cfg.cPath));
      if !checkedOut {
        var r;
        r, seg := Run(host, t, seg, CloverCheckout(cfg));
        if r.exit != 0 {
          return false, seg;
        }
      }
      var rev, revSeg := GetCloverRevision(t + seg);
      var tail := revSeg;
      if rev.None? {
        ok := false;
      } else {
        var rs;
        rs, tail := RunChain(host, t + seg, revSeg, CloverUpdate);
        ok := LastSucceeded(rs);
      }
      CloverJoin(cfg, seg, revSeg, rev, tail[|revSeg|..], ok);
      assert tail == revSeg + tail[|revSeg|..];
      FaithfulAppend(host, t, seg, tail);
      assert seg + tail == seg + revSeg + tail[|revSeg|..];
      seg := seg + tail;
    }

    /** One command whose non-zero exit fails the build. */
    method Step(t: seq<Event>, cmd: Cmd) returns (ok: bool, seg: seq<Event>)
      ensures SingleRun(seg, cmd, ok) && Faithful(host, t, seg)
    {
      var r;
      r, seg := Run(host, t, [], cmd);
      ok := r.exit == 0;
    }

    /** One of the gettext, mtoc and nasm builds: skipped when its check path exists. */
    method EnsureTool(t: seq<Event>, tool: Tool) returns (ok: bool, seg: seq<Event>)
      ensures ToolRun(tool, seg, ok) && Faithful(host, t, seg)
    {
      var present;
      present, seg := Exists(host, t, [], tool.check);
      ok := true;
      if !present {
        var r;
        r, seg := Run(host, t, seg, BuildTool(tool));
        ok := r.exit == 0;
      }
    }

    /** One file of the inner copy loop of build_efi_drivers: copied into drivers64 and, when
        that worked, into drivers64UEFI; a copy that raises is caught. */
    method CopyOne(t: seq<Event>, from: string, file: string) returns (pair: seq<Event>)
      ensures CopyPair(cfg, from, file, pair) && Faithful(host, t, pair)
    {
      var src := PathJoin(from, file);
      var copied;
      copied, pair := CopyFile(host, t, [], src, PathJoin(cfg.drivers64, file));
      if copied {
        copied, pair := CopyFile(host, t, pair, src, PathJoin(cfg.drivers64Uefi, file));
      }
    }

    /** The inner copy loop of build_efi_drivers: every file is attempted, whatever happened
        to the ones before it. */
    method CopyFiles(t: seq<Event>, from: string, files: seq<string>) returns (seg: seq<Event>)
      ensures CopiesRun(cfg, from, files, seg) && Faithful(host, t, seg)
    {
      seg := [];
      ghost var pairs := [];
      for k := 0 to |files|
        invariant CopyList(cfg, from, files[..k], pairs) && seg == Concat(pairs)
        invariant Faithful(host, t, seg)
      {
        var pair := CopyOne(t + seg, from, files[k]);
        CopyStep(host, t, cfg, from, files, k, pairs, seg, pair);
        pairs := pairs + [pair];
        seg := seg + pair;
      }
      assert files[..|files|] == files;
    }

    /** Pull, chmod and build one driver, and copy its files when the build passed. */
    method BuildAndCopy(t: seq<Event>, d: Driver) returns (built: bool, seg: seq<Event>)
      requires Complete(d)
      ensures BuildRun(cfg, d, seg, built) && Faithful(host, t, seg)
    {
      var pulled, chmodded, r;
      pulled, seg := Run(host, t, [], GitPull);
      chmodded, seg := Run(host, t, seg, MakeExecutable(d));
      r, seg := Run(host, t, seg, RunBuildScript(d));
      built := r.exit == 0;
      var copies := [];
      if built {
        copies := CopyFiles(t + seg, OutDir(cfg, d), NameList(d.name.value));
      }
      BuildJoin(cfg, d, seg, copies, built);
      FaithfulAppend(host, t, seg, copies);
      seg := seg + copies;
    }

    /** The body of the driver loop for one record; `built` when its build script passed. */
    method BuildDriver(t: seq<Event>, d: Driver) returns (built: bool, seg: seq<Event>)
      ensures DriverRun(cfg, d, seg, built) && Faithful(host, t, seg)
    {
      if !Complete(d) {
        return false, [];
      }
      var cloned;
      cloned, seg := Exists(host, t, [], GitDir(DriverDir(cfg, d)));
      if !cloned {
        var r;
        r, seg := Run(host, t, seg, DriverClone(d));
        if r.exit != 0 {
          return false, seg;
        }
      }
      var tail;
      built, tail := BuildAndCopy(t + seg, d);
      DriverJoin(cfg, d, seg, tail, built);
      FaithfulAppend(host, t, seg, tail);
      seg := seg + tail;
    }

    /** build_efi_drivers: every record is attempted, whatever happened to the others; the
        name of every record that got built becomes a list. */
    method BuildEfiDrivers(t: seq<Event>) returns (segs: seq<seq<Event>>, ghost built: seq<bool>)
      modifies this
      ensures |segs| == |built| == |old(efiDrivers)| == |efiDrivers|
      ensures DriverList(cfg, old(efiDrivers), segs, built)
      ensures Faithful(host, t, Concat(segs))
      ensures efiDrivers == RenameBuilt(old(efiDrivers), built)
    {
      ghost var ds := efiDrivers;
      segs, built := [], [];
      var i := 0;
      while i < |efiDrivers|
        invariant 0 <= i <= |efiDrivers| == |ds|
        invariant |segs| == |built| == i
        invariant DriverList(cfg, ds[..i], segs, built) && Faithful(host, t, Concat(segs))
        invariant efiDrivers == RenameBuilt(ds, built)
      {
        var ok, seg := BuildDriver(t + Concat(segs), efiDrivers[i]);
        if ok {
          efiDrivers := efiDrivers[i := ListNames(efiDrivers[i])];
        }
        DriverStep(host, t, cfg, ds, i, segs, built, seg, ok);
        RenameBuiltStep(ds, built, ok);
        segs, built := segs + [seg], built + [ok];
        i := i + 1;
      }
      assert ds[..i] == ds;
    }

    /** The three downloads; their exit codes are not looked at. */
    method DownloadDrivers(t: seq<Event>) returns (seg: seq<Event>)
      ensures DownloadsRun(cfg, seg) && Faithful(host, t, seg)
    {
      seg := [];
      for k := 0 to |Downloads|
        invariant Fetched(cfg, Downloads[..k], seg) && Faithful(host, t, seg)
      {
        ghost var before := seg;
        var r;
        r, seg := Run(host, t, seg, Fetch(cfg, Downloads[k]));
        FetchedSnoc(cfg, Downloads, k, before, Exec(Fetch(cfg, Downloads[k]), r));
      }
      assert Downloads[..|Downloads|] == Downloads;
    }

    /** The copies of the downloaded drivers into drivers64; `ok` is false when one raised. */
    method StagePrebuilt(t: seq<Event>) returns (ok: bool, seg: seq<Event>)
      ensures StagedRun(cfg, seg, ok) && Faithful(host, t, seg)
    {
      seg := [];
      for k := 0 to |Staged|
        invariant |seg| == k && Faithful(host, t, seg)
        invariant forall m :: 0 <= m < k ==>
          seg[m] == Copy(PathJoin(cfg.drivers64Uefi, Staged[m]), PathJoin(cfg.drivers64, Staged[m]), true)
      {
        var copied;
        copied, seg := CopyFile(host, t, seg, PathJoin(cfg.drivers64Uefi, Staged[k]), PathJoin(cfg.drivers64, Staged[k]));
        if !copied {
          return false, seg;
        }
      }
      ok := true;
    }

    /** makepkg and the check that the package it names exists in the output directory. */
    method MakePackage(t: seq<Event>) returns (result: Option<string>, seg: seq<Event>)
      ensures PackageRun(cfg, seg, result.Some?) && Faithful(host, t, seg)
      ensures result.Some? ==> result.value == PathJoin(cfg.out, PackageName(seg[0].reply.stdout).value)
    {
      var r;
      r, seg := Run(host, t, [], MakePkg(cfg));
      if r.exit != 0 {
        return None, seg;
      }
      var pack := PackageName(r.stdout);
      if pack.None? || pack.value == "" {
        return None, seg;
      }
      var built;
      built, seg := Exists(host, t, seg, PathJoin(cfg.out, pack.value));
      result := if built then Some(PathJoin(cfg.out, pack.value)) else None;
    }

    /** One of the stages of build_clover that end it with False when they fail. */
    method RunStage(t: seq<Event>, ghost ds: seq<Driver>, k: Stage) returns (ok: bool, seg: seq<Event>)
      requires k != Drivers && k != Download && k != StageDrivers && k != Package
      ensures StageRun(cfg, ds, k, seg, ok) && Faithful(host, t, seg)
    {
      match k
      case SyncUdk => ok, seg := UpdateUdk(t);
      case SyncClover => ok, seg := UpdateClover(t);
      case BaseTools => ok, seg := Step(t, MakeBaseTools(cfg));
      case SetupUdk => ok, seg := Step(t, EdkSetup);
      case BuildGettext => ok, seg := EnsureTool(t, Gettext(cfg));
      case BuildMtoc => ok, seg := EnsureTool(t, Mtoc(cfg));
      case BuildNasm => ok, seg := EnsureTool(t, Nasm(cfg));
      case Patches => ok, seg := Step(t, InstallPatches(cfg));
      case CleanTree =>
        var rs;
        rs, seg := RunChain(host, t, [], CleanClover);
        ok := LastSucceeded(rs);
    }

    /** Runs the next of the first nine stages after the ones in `segs`, all of which passed;
        `stop` is the outcome of build_clover when that stage fails. */
    method Continue(t: seq<Event>, ghost ds: seq<Driver>, segs: seq<seq<Event>>) returns (stop: Option<Outcome>, segs': seq<seq<Event>>)
      requires |segs| < 9 && Passed(cfg, ds, segs) && Faithful(host, t, Concat(segs))
      ensures |segs'| == |segs| + 1 && Faithful(host, t, Concat(segs'))
      ensures stop.None? ==> Passed(cfg, ds, segs')
      ensures stop.Some? ==> PipelineRun(cfg, ds, segs', stop.value)
    {
      var k := Stages[|segs|];
      var ok, seg := RunStage(t + Concat(segs), ds, k);
      Advance(host, t, cfg, ds, segs, seg, ok, k);
      segs' := segs + [seg];
      stop := if ok then None else Some(Failure(k));
    }

    /** The first part of build_clover, up to the cleaning of the Clover tree: each step
        ends the build with False when it fails. */
    method Prepare(t: seq<Event>, ghost ds: seq<Driver>) returns (stop: Option<Outcome>, segs: seq<seq<Event>>)
      ensures Faithful(host, t, Concat(segs)) && 1 <= |segs| <= 9
      ensures stop.None? ==> |segs| == 9 && Passed(cfg, ds, segs)
      ensures stop.Some? ==> PipelineRun(cfg, ds, segs, stop.value)
    {
      stop, segs := Continue(t, ds, []);
      if stop.Some? { return; }
      stop, segs := Continue(t, ds, segs);
      if stop.Some? { return; }
      stop, segs := Continue(t, ds, segs);
      if stop.Some? { return; }
      stop, segs := Continue(t, ds, segs);
      if stop.Some? { return; }
      stop, segs := Continue(t, ds, segs);
      if stop.Some? { return; }
      stop, segs := Continue(t, ds, segs);
      if stop.Some? { return; }
      stop, segs := Continue(t, ds, segs);
      if stop.Some? { return; }
      stop, segs := Continue(t, ds, segs);
      if stop.Some? { return; }
      stop, segs := Continue(t, ds, segs);
    }

    /** build_clover */
    method BuildClover(t: seq<Event>) returns (outcome: Outcome, segs: seq<seq<Event>>, ghost built: seq<bool>)
      modifies this
      ensures PipelineRun(cfg, old(efiDrivers), segs, outcome)
      ensures Faithful(host, t, Concat(segs))
      ensures |built| <= |old(efiDrivers)| && efiDrivers == RenameBuilt(old(efiDrivers), built)
      ensures |segs| <= 9 ==> built == []
      ensures |segs| >= 10 ==> DriversBuilt(cfg, old(efiDrivers), segs[9], built)
    {
      ghost var ds := efiDrivers;
      var stop;
      stop, segs := Prepare(t, efiDrivers);
      if stop.Some? {
        RenameNone(ds);
        return stop.value, segs, [];
      }
      segs, built := BuildDrivers(t, segs);
      ghost var mid := segs;
      outcome, segs := Finish(t, ds, segs);
      assert segs[9] == segs[..11][9] == mid[9];
    }

    /** The middle of build_clover: the EFI drivers and the downloads, neither of which can
        fail the build. */
    method BuildDrivers(t: seq<Event>, segs: seq<seq<Event>>) returns (segs': seq<seq<Event>>, ghost built: seq<bool>)
      modifies this
      requires |segs| == 9 && Passed(cfg, efiDrivers, segs) && Faithful(host, t, Concat(segs))
      ensures |segs'| == 11 && Passed(cfg, old(efiDrivers), segs') && Faithful(host, t, Concat(segs'))
      ensures |built| == |old(efiDrivers)| && efiDrivers == RenameBuilt(old(efiDrivers), built)
      ensures DriversBuilt(cfg, old(efiDrivers), segs'[9], built)
    {
      ghost var ds := efiDrivers;
      var driverSegs;
      driverSegs, built := BuildEfiDrivers(t + Concat(segs));
      var seg := Concat(driverSegs);
      DriversStage(cfg, ds, driverSegs, built);
      Advance(host, t, cfg, ds, segs, seg, true, Drivers);
      segs' := segs + [seg];
      seg := DownloadDrivers(t + Concat(segs'));
      Advance(host, t, cfg, ds, segs', seg, true, Download);
      segs' := segs' + [seg];
    }

    /** The end of build_clover, after the downloads: staging the prebuilt drivers, whose
        exception leaves build_clover, and the package. */
    method Finish(t: seq<Event>, ghost ds: seq<Driver>, segs: seq<seq<Event>>) returns (outcome: Outcome, segs': seq<seq<Event>>)
      requires |segs| == 11 && Passed(cfg, ds, segs) && Faithful(host, t, Concat(segs))
      ensures |segs'| > |segs| && segs'[..|segs|] == segs
      ensures PipelineRun(cfg, ds, segs', outcome) && Faithful(host, t, Concat(segs'))
    {
      var ok, seg := StagePrebuilt(t + Concat(segs));
      StagedDone(cfg, ds, segs, seg, ok);
      Record(host, t, segs, seg);
      segs' := segs + [seg];
      if !ok { return Raised(StageDrivers), segs'; }

      var result;
      result, seg := MakePackage(t + Concat(segs'));
      PackageDone(cfg, ds, segs', seg, result);
      Record(host, t, segs', seg);
      segs' := segs' + [seg];
      outcome := if result.Some? then Success(result.value) else Failure(Package);
    }
  }
}
