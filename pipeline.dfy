/**
 * The configuration of a build, the commands each stage issues, and, for each stage, the
 * transcripts it may leave in the host's trace. `PipelineRun` puts the stages together in the
 * fixed order of build_clover; the lemmas at the end state its failure-propagation and
 * caching rules.
 */
module Pipeline {
  import opened Text
  import opened Parse
  import opened World

  /** `os.path.join(a, b)` on POSIX: an absolute `b` replaces `a`. */
  function PathJoin(a: string, b: string): string {
    if |b| > 0 && b[0] == '/' then b
    else if a == "" || a[|a| - 1] == '/' then a + b
    else a + "/" + b
  }

  /** A joined path ends with the name joined on, and starts with the directory unless that
      name is absolute. */
  lemma PathJoinParts(a: string, b: string)
    ensures var r := PathJoin(a, b);
      |b| <= |r| && r[|r| - |b|..] == b &&
      ((|b| == 0 || b[0] != '/') ==> |a| <= |r| && r[..|a|] == a)
  {
  }

  // ---------------------------------------------------------------- configuration

  datatype Config = Config(
    source: string,
    udkRepo: string,
    udkBranch: string,
    udkPath: string,
    cloverRepo: string,
    cPath: string,
    out: string,
    cePath: string,
    drivers64: string,
    drivers64Uefi: string,
    localBin: string)

  /** The paths the constructor derives from its options. */
  function MakeConfig(source: string, udkRepo: string, udkBranch: string, udkDir: string,
                      cloverRepo: string, cloverDir: string): Config
  {
    var udkPath := PathJoin(source, udkDir);
    var cPath := PathJoin(udkPath, cloverDir);
    var cePath := PathJoin(cPath, "CloverPackage/CloverV2/drivers-Off");
    Config(source, udkRepo, udkBranch, udkPath, cloverRepo, cPath,
           PathJoin(PathJoin(cPath, "CloverPackage"), "sym"), cePath,
           PathJoin(cePath, "drivers64"), PathJoin(cePath, "drivers64UEFI"),
           PathJoin(PathJoin(PathJoin(source, "opt"), "local"), "bin"))
  }

  /** The `name` entry of a driver record: one file name or a list of them. */
  datatype Names = One(name: string) | Many(names: seq<string>)

  /** A driver record; a key missing from the dictionary is None. */
  datatype Driver = Driver(
    repo: Option<string>,
    path: Option<string>,
    out: Option<string>,
    name: Option<Names>,
    run: Option<string>,
    lang: Option<string>)

  /** All six keys `repo`, `path`, `out`, `name`, `run`, `lang` are present. */
  predicate Complete(d: Driver) {
    d.repo.Some? && d.path.Some? && d.out.Some? && d.name.Some? && d.run.Some? && d.lang.Some?
  }

  function NameList(n: Names): seq<string> {
    match n
    case One(s) => [s]
    case Many(xs) => xs
  }

  /** The record after `driver["name"] = [driver["name"]]` for a string name; a list of
      names is left as it is. */
  function ListNames(d: Driver): (d': Driver)
    ensures d.name.Some? ==> d'.name.Some? && d'.name.value.Many? && NameList(d'.name.value) == NameList(d.name.value)
    ensures d.name.None? ==> d' == d
    ensures d'.(name := d.name) == d
  {
    if d.name.Some? then d.(name := Some(Many(NameList(d.name.value)))) else d
  }

  /** Turning the name into a list a second time changes nothing. */
  lemma ListNamesTwice(d: Driver)
    ensures ListNames(ListNames(d)) == ListNames(d)
  {
  }

  /** The records after build_efi_drivers has handled the first `|built|` of them: every
      record that got built has its name turned into a list. */
  function RenameBuilt(ds: seq<Driver>, built: seq<bool>): (r: seq<Driver>)
    requires |built| <= |ds|
    ensures |r| == |ds|
    ensures forall j :: 0 <= j < |ds| ==> r[j].(name := ds[j].name) == ds[j]
    ensures forall j :: 0 <= j < |built| && built[j] && ds[j].name.Some? ==>
      r[j].name == Some(Many(NameList(ds[j].name.value)))
    ensures forall j :: 0 <= j < |ds| && !(j < |built| && built[j]) ==> r[j] == ds[j]
  {
    seq(|ds|, j requires 0 <= j < |ds| => if j < |built| && built[j] then ListNames(ds[j]) else ds[j])
  }

  /** Before any record is handled, nothing is renamed. */
  lemma RenameNone(ds: seq<Driver>)
    ensures RenameBuilt(ds, []) == ds
  {
  }

  /** Handling one more record renames it exactly when it got built. */
  lemma RenameBuiltStep(ds: seq<Driver>, built: seq<bool>, b: bool)
    requires |built| < |ds|
    ensures RenameBuilt(ds, built + [b]) ==
      if b then RenameBuilt(ds, built)[|built| := ListNames(ds[|built|])] else RenameBuilt(ds, built)
  {
  }

  /** The two drivers built when the caller gives none. */
  const DefaultDrivers: seq<Driver> :=
    [ Driver(Some("https://github.com/acidanthera/AptioFixPkg"), Some("AptioFixPkg"),
             Some("AptioFixPkg/UDK/Build/AptioFixPkg/RELEASE_XCODE5/X64"),
             Some(Many(["AptioMemoryFix.efi", "AptioInputFix.efi"])),
             Some("macbuild.tool"), Some("bash")),
      Driver(Some("https://github.com/acidanthera/ApfsSupportPkg"), Some("ApfsSupportPkg"),
             Some("ApfsSupportPkg/UDK/Build/ApfsSupportPkg/RELEASE_XCODE5/X64"),
             Some(Many(["ApfsDriverLoader.efi"])),
             Some("macbuild.tool"), Some("bash")) ]

  // ---------------------------------------------------------------- commands and paths

  function GitDir(dir: string): string { PathJoin(dir, ".git") }
  function SvnDir(dir: string): string { PathJoin(dir, ".svn") }

  function UdkClone(c: Config): Cmd {
    Argv(["git", "clone", c.udkRepo, "-b", c.udkBranch, "--depth", "1", c.udkPath])
  }
  const UdkUpdate: seq<Cmd> := [Argv(["git", "pull"]), Argv(["git", "clean", "-fdx", "-e", "Clover/"])]

  function CloverCheckout(c: Config): Cmd { Argv(["svn", "co", c.cloverRepo, c.cPath]) }
  const SvnInfo: Cmd := Argv(["svn", "info"])
  const CloverUpdate: seq<Cmd> :=
    [Argv(["svn", "up", "-rHEAD"]), Argv(["svn", "revert", "-R", "."]), Argv(["svn", "cleanup", "--remove-unversioned"])]

  function MakeBaseTools(c: Config): Cmd {
    Argv(["make", "-C", PathJoin(PathJoin(PathJoin(c.udkPath, "BaseTools"), "Source"), "C")])
  }
  const EdkSetup: Cmd := Argv(["bash", "-c", "source edksetup.sh"])

  /** An auxiliary tool: the file whose presence means it is built, and its build script. */
  datatype Tool = Tool(check: string, script: string)

  function Gettext(c: Config): Tool { Tool(PathJoin(c.localBin, "gettext"), "buildgettext.sh") }
  function Mtoc(c: Config): Tool { Tool(PathJoin(c.localBin, "mtoc.NEW"), "buildmtoc.sh") }
  function Nasm(c: Config): Tool { Tool(PathJoin(c.localBin, "nasm"), "buildnasm.sh") }
  function BuildTool(t: Tool): Cmd { Argv(["bash", t.script]) }

  function InstallPatches(c: Config): Cmd {
    ShellLine("cp -R \"" + c.cPath + "\"/Patches_for_UDK2018/* ../")
  }
  const CleanClover: seq<Cmd> := [Argv(["bash", "ebuild.sh", "-cleanall"]), Argv(["bash", "ebuild.sh", "-fr"])]

  function DriverDir(c: Config, d: Driver): string requires Complete(d) { PathJoin(c.source, d.path.value) }
  function DriverClone(d: Driver): Cmd requires Complete(d) { Argv(["git", "clone", d.repo.value]) }
  const GitPull: Cmd := Argv(["git", "pull"])
  function MakeExecutable(d: Driver): Cmd requires Complete(d) { Argv(["chmod", "+x", d.run.value]) }
  function RunBuildScript(d: Driver): Cmd requires Complete(d) { Argv([d.lang.value, d.run.value]) }

  /** The directory the built files of a driver are copied from. */
  function OutDir(c: Config, d: Driver): string requires Complete(d) { PathJoin(c.source, d.out.value) }

  /** The prebuilt drivers fetched from the network, as named on the server. */
  const Downloads: seq<string> := ["apfs.efi", "NTFS.efi", "HFSPlus_x64.efi"]
  const FilesUrl: string := "https://github.com/Micky1979/Build_Clover/raw/work/Files/"

  /** The name a download is saved under: the server's name without `_x64`. */
  function SavedAs(e: string): (r: string)
    ensures IndexOf(e, "_x64").None? ==> r == e
  {
    Replace(e, "_x64", "")
  }

  function Fetch(c: Config, e: string): Cmd {
    ShellLine("curl -sSLk " + FilesUrl + e + " > \"" + c.cePath + "\"/drivers64UEFI/" + SavedAs(e))
  }
  /** A name without an underscore is saved as it is. */
  lemma SavedAsIs(e: string)
    requires forall k :: 0 <= k < |e| ==> e[k] != '_'
    ensures SavedAs(e) == e
  {
    IndexOfMissing(e, "_x64");
  }

  /** A name with one `_x64` and no other underscore is saved without it. */
  lemma SavedCut(a: string, b: string)
    requires forall k :: 0 <= k < |a| ==> a[k] != '_'
    requires forall k :: 0 <= k < |b| ==> b[k] != '_'
    ensures SavedAs(a + "_x64" + b) == a + b
  {
    var e := a + "_x64" + b;
    forall j: nat | j < |a| ensures !OccursAt(e, "_x64", j) {
      assert e[j..j + 4][0] == e[j] == a[j];
    }
    assert e[|a|..|a| + 4] == "_x64";
    IndexOfAt(e, "_x64", |a|);
    assert e[..|a|] == a && e[|a| + 4..] == b;
    IndexOfMissing(b, "_x64");
    assert Split(e, "_x64") == [a, b];
    assert JoinWith([a, b], "") == a + "" + JoinWith([b], "");
    assert a + "" + b == a + b;
  }

  /** The prebuilt drivers copied from drivers64UEFI into drivers64. */
  const Staged: seq<string> := ["apfs.efi", "NTFS.efi", "HFSPlus.efi"]

  /** `SavedCut` for a whole name `e` and the name `s` it is saved under. */
  lemma SavedCutWhole(e: string, a: string, b: string, s: string)
    requires forall k :: 0 <= k < |a| ==> a[k] != '_'
    requires forall k :: 0 <= k < |b| ==> b[k] != '_'
    requires e == a + "_x64" + b && s == a + b
    ensures SavedAs(e) == s
  {
    SavedCut(a, b);
  }

  /** The k-th download is saved under the name of the k-th driver copied into drivers64. */
  lemma DownloadsStaged(k: nat)
    requires k < |Downloads|
    ensures |Staged| == |Downloads| && SavedAs(Downloads[k]) == Staged[k]
  {
    if k < 2 {
      SavedAsIs(Downloads[k]);
    } else {
      SavedCutWhole(Downloads[2], "HFSPlus", ".efi", Staged[2]);
    }
  }

  function MakePkg(c: Config): Cmd { Argv(["bash", c.cPath + "/CloverPackage/makepkg"]) }

  // ---------------------------------------------------------------- stage transcripts

  predicate IsExec(e: Event, cmd: Cmd) { e.Exec? && e.cmd == cmd }
  predicate IsProbe(e: Event, path: string) { e.Probe? && e.path == path }

  /** One command, judged by its exit code. */
  ghost predicate SingleRun(seg: seq<Event>, cmd: Cmd, ok: bool) {
    |seg| == 1 && IsExec(seg[0], cmd) && ok == (seg[0].reply.exit == 0)
  }

  /** One chained run, judged by the exit code of its last reply. */
  predicate IsChain(e: Event, cmds: seq<Cmd>, ok: bool) {
    e.Chain? && e.cmds == cmds && ok == LastSucceeded(e.replies)
  }

  /** update_udk: clone when there is no `.git`, stop if the clone fails, then pull and clean. */
  ghost predicate UdkRun(c: Config, seg: seq<Event>, ok: bool) {
    |seg| >= 2 && IsProbe(seg[0], GitDir(c.udkPath)) &&
    if seg[0].found then |seg| == 2 && IsChain(seg[1], UdkUpdate, ok)
    else
      IsExec(seg[1], UdkClone(c)) &&
      if seg[1].reply.exit != 0 then |seg| == 2 && !ok
      else |seg| == 3 && IsChain(seg[2], UdkUpdate, ok)
  }

  /** get_clover_revision: None without `.svn`, else the revision parsed from `svn info`. */
  ghost predicate RevisionRun(c: Config, seg: seq<Event>, rev: Option<string>) {
    |seg| >= 1 && IsProbe(seg[0], SvnDir(c.cPath)) &&
    if seg[0].found then |seg| == 2 && IsExec(seg[1], SvnInfo) && rev == CloverRevision(seg[1].reply.stdout)
    else |seg| == 1 && rev == None
  }

  /** The part of update_clover from the revision lookup on, starting at position `i`: give
      up without a revision, else update, revert and clean up. */
  ghost predicate RevisedFrom(c: Config, seg: seq<Event>, i: nat, ok: bool) {
    |seg| >= i + 1 && IsProbe(seg[i], SvnDir(c.cPath)) &&
    if !seg[i].found then |seg| == i + 1 && !ok
    else
      |seg| >= i + 2 && IsExec(seg[i + 1], SvnInfo) &&
      if CloverRevision(seg[i + 1].reply.stdout).None? then |seg| == i + 2 && !ok
      else |seg| == i + 3 && IsChain(seg[i + 2], CloverUpdate, ok)
  }

  /** update_clover: check out when there is no `.svn`, stop if that fails, then look up the
      revision, stop if there is none, then update, revert and clean up. */
  ghost predicate CloverRun(c: Config, seg: seq<Event>, ok: bool) {
    |seg| >= 2 && IsProbe(seg[0], SvnDir(c.cPath)) &&
    if seg[0].found then RevisedFrom(c, seg, 1, ok)
    else
      IsExec(seg[1], CloverCheckout(c)) &&
      if seg[1].reply.exit != 0 then |seg| == 2 && !ok
      else RevisedFrom(c, seg, 2, ok)
  }

  /** One auxiliary tool: built only when its check path is missing. */
  ghost predicate ToolRun(t: Tool, seg: seq<Event>, ok: bool) {
    |seg| >= 1 && IsProbe(seg[0], t.check) &&
    if seg[0].found then |seg| == 1 && ok
    else |seg| == 2 && IsExec(seg[1], BuildTool(t)) && ok == (seg[1].reply.exit == 0)
  }

  /** The copy attempts for one built file: drivers64 first; drivers64UEFI only if that worked. */
  ghost predicate CopyPair(c: Config, from: string, file: string, seg: seq<Event>) {
    |seg| >= 1 && seg[0].Copy? && seg[0].src == PathJoin(from, file) && seg[0].dst == PathJoin(c.drivers64, file) &&
    if seg[0].ok then
      |seg| == 2 && seg[1].Copy? && seg[1].src == PathJoin(from, file) && seg[1].dst == PathJoin(c.drivers64Uefi, file)
    else |seg| == 1
  }

  /** `pairs[j]` holds the copy attempts for `files[j]`, for every `j`. */
  ghost predicate CopyList(c: Config, from: string, files: seq<string>, pairs: seq<seq<Event>>)
    decreases |files|
  {
    |pairs| == |files| &&
    (files == [] ||
     (CopyList(c, from, files[..|files| - 1], pairs[..|files| - 1]) &&
      CopyPair(c, from, files[|files| - 1], pairs[|files| - 1])))
  }

  /** The copy attempts for all built files, in order; a failed copy never ends the list. */
  ghost predicate CopiesRun(c: Config, from: string, files: seq<string>, seg: seq<Event>) {
    exists pairs :: CopyList(c, from, files, pairs) && Concat(pairs) == seg
  }

  /** The attempts for one more file extend the list. */
  lemma CopyListSnoc(c: Config, from: string, files: seq<string>, k: nat, pairs: seq<seq<Event>>, pair: seq<Event>)
    requires k < |files| && CopyList(c, from, files[..k], pairs) && CopyPair(c, from, files[k], pair)
    ensures CopyList(c, from, files[..k + 1], pairs + [pair])
  {
    assert files[..k + 1][..k] == files[..k];
    assert (pairs + [pair])[..k] == pairs;
  }

  /** Every file was attempted, whatever happened to the files before it. */
  lemma {:induction false} CopyListAll(c: Config, from: string, files: seq<string>, pairs: seq<seq<Event>>)
    requires CopyList(c, from, files, pairs)
    ensures forall j :: 0 <= j < |files| ==> CopyPair(c, from, files[j], pairs[j])
    decreases |files|
  {
    if files != [] {
      var n := |files| - 1;
      CopyListAll(c, from, files[..n], pairs[..n]);
      assert forall j :: 0 <= j < n ==> files[..n][j] == files[j] && pairs[..n][j] == pairs[j];
    }
  }

  /** Pull, chmod and build script of one driver; `built` when the script exits 0. The exit
      codes of the pull and the chmod are not looked at. */
  ghost predicate BuildRun(c: Config, d: Driver, seg: seq<Event>, built: bool)
    requires Complete(d)
  {
    |seg| >= 3 && IsExec(seg[0], GitPull) && IsExec(seg[1], MakeExecutable(d)) && IsExec(seg[2], RunBuildScript(d)) &&
    built == (seg[2].reply.exit == 0) &&
    if built then CopiesRun(c, OutDir(c, d), NameList(d.name.value), seg[3..]) else |seg| == 3
  }

  /** One driver record of build_efi_drivers: nothing for an incomplete record; otherwise
      clone when there is no `.git` (giving up on this record if that fails), then build. */
  ghost predicate DriverRun(c: Config, d: Driver, seg: seq<Event>, built: bool) {
    if !Complete(d) then seg == [] && !built
    else
      |seg| >= 1 && IsProbe(seg[0], GitDir(DriverDir(c, d))) &&
      if seg[0].found then BuildRun(c, d, seg[1..], built)
      else
        |seg| >= 2 && IsExec(seg[1], DriverClone(d)) &&
        if seg[1].reply.exit != 0 then |seg| == 2 && !built
        else BuildRun(c, d, seg[2..], built)
  }

  /** `segs[j]` is the transcript of record `ds[j]`, which got built when `built[j]`. */
  ghost predicate DriverList(c: Config, ds: seq<Driver>, segs: seq<seq<Event>>, built: seq<bool>)
    decreases |ds|
  {
    |segs| == |ds| && |built| == |ds| &&
    (ds == [] ||
     (DriverList(c, ds[..|ds| - 1], segs[..|ds| - 1], built[..|ds| - 1]) &&
      DriverRun(c, ds[|ds| - 1], segs[|ds| - 1], built[|ds| - 1])))
  }

  /** `built` tells, record by record, which of the driver records were built in `seg`. */
  ghost predicate DriversBuilt(c: Config, ds: seq<Driver>, seg: seq<Event>, built: seq<bool>) {
    exists segs :: DriverList(c, ds, segs, built) && Concat(segs) == seg
  }

  /** build_efi_drivers: one transcript per record, in order. */
  ghost predicate DriversRun(c: Config, ds: seq<Driver>, seg: seq<Event>) {
    exists built :: DriversBuilt(c, ds, seg, built)
  }

  /** The records' transcripts, one after the other, are a run of the driver stage. */
  lemma DriversStage(c: Config, ds: seq<Driver>, segs: seq<seq<Event>>, built: seq<bool>)
    requires DriverList(c, ds, segs, built)
    ensures DriversBuilt(c, ds, Concat(segs), built) && DriversRun(c, ds, Concat(segs))
  {
    assert DriverList(c, ds, segs, built) && Concat(segs) == Concat(segs);
    assert DriversBuilt(c, ds, Concat(segs), built);
  }

  /** One more record extends the list. */
  lemma DriverListSnoc(c: Config, ds: seq<Driver>, i: nat, segs: seq<seq<Event>>, built: seq<bool>, seg: seq<Event>, b: bool)
    requires i < |ds| && DriverList(c, ds[..i], segs, built) && DriverRun(c, ds[i], seg, b)
    ensures DriverList(c, ds[..i + 1], segs + [seg], built + [b])
  {
    assert ds[..i + 1][..i] == ds[..i];
    assert (segs + [seg])[..i] == segs;
    assert (built + [b])[..i] == built;
  }

  /** Every record was attempted, whatever happened to the records before it. */
  lemma {:induction false} DriverListAll(c: Config, ds: seq<Driver>, segs: seq<seq<Event>>, built: seq<bool>)
    requires DriverList(c, ds, segs, built)
    ensures forall j :: 0 <= j < |ds| ==> DriverRun(c, ds[j], segs[j], built[j])
    decreases |ds|
  {
    if ds != [] {
      var n := |ds| - 1;
      DriverListAll(c, ds[..n], segs[..n], built[..n]);
      assert forall j :: 0 <= j < n ==> ds[..n][j] == ds[j] && segs[..n][j] == segs[j] && built[..n][j] == built[j];
    }
  }

  /** The downloads: one shell command per prebuilt driver; exit codes are not looked at. */
  ghost predicate DownloadsRun(c: Config, seg: seq<Event>) {
    Fetched(c, Downloads, seg)
  }

  /** `seg[k]` is the download of `names[k]`, for every `k`. */
  ghost predicate Fetched(c: Config, names: seq<string>, seg: seq<Event>)
    decreases |names|
  {
    |seg| == |names| &&
    (names == [] ||
     (Fetched(c, names[..|names| - 1], seg[..|names| - 1]) && IsExec(seg[|names| - 1], Fetch(c, names[|names| - 1]))))
  }

  /** One more download extends the list. */
  lemma FetchedSnoc(c: Config, names: seq<string>, k: nat, seg: seq<Event>, e: Event)
    requires k < |names| && Fetched(c, names[..k], seg) && IsExec(e, Fetch(c, names[k]))
    ensures Fetched(c, names[..k + 1], seg + [e])
  {
    assert names[..k + 1][..k] == names[..k];
    assert (seg + [e])[..k] == seg;
  }

  /** Every download was run, in order, whatever the exit codes of the ones before it. */
  lemma {:induction false} FetchedAll(c: Config, names: seq<string>, seg: seq<Event>)
    requires Fetched(c, names, seg)
    ensures forall k :: 0 <= k < |names| ==> IsExec(seg[k], Fetch(c, names[k]))
    decreases |names|
  {
    if names != [] {
      var n := |names| - 1;
      FetchedAll(c, names[..n], seg[..n]);
      assert forall k :: 0 <= k < n ==> names[..n][k] == names[k] && seg[..n][k] == seg[k];
    }
  }

  /** The unguarded copies into drivers64: the first failure raises and ends the build. */
  ghost predicate StagedRun(c: Config, seg: seq<Event>, ok: bool) {
    1 <= |seg| <= |Staged| &&
    (forall k :: 0 <= k < |seg| ==>
       seg[k].Copy? && seg[k].src == PathJoin(c.drivers64Uefi, Staged[k]) && seg[k].dst == PathJoin(c.drivers64, Staged[k])) &&
    (forall k :: 0 <= k < |seg| - 1 ==> seg[k].ok) &&
    ok == seg[|seg| - 1].ok &&
    (ok ==> |seg| == |Staged|)
  }

  /** makepkg, then the parsed package name, then the check that it exists in the output
      directory; an empty name is never found. */
  ghost predicate PackageRun(c: Config, seg: seq<Event>, ok: bool) {
    |seg| >= 1 && IsExec(seg[0], MakePkg(c)) &&
    if seg[0].reply.exit != 0 then |seg| == 1 && !ok
    else
      var pack := PackageName(seg[0].reply.stdout);
      if pack.None? || pack.value == "" then |seg| == 1 && !ok
      else |seg| == 2 && IsProbe(seg[1], PathJoin(c.out, pack.value)) && ok == seg[1].found
  }

  // ---------------------------------------------------------------- the pipeline

  datatype Stage =
    | SyncUdk | SyncClover | BaseTools | SetupUdk | BuildGettext | BuildMtoc | BuildNasm
    | Patches | CleanTree | Drivers | Download | StageDrivers | Package

  /** The stages of build_clover, in the order they run. */
  const Stages: seq<Stage> :=
    [SyncUdk, SyncClover, BaseTools, SetupUdk, BuildGettext, BuildMtoc, BuildNasm,
     Patches, CleanTree, Drivers, Download, StageDrivers, Package]

  /** `Success(path)` is the joined package path; `Failure(stage)` is a `return False`;
      `Raised(stage)` is an exception that leaves build_clover. */
  datatype Outcome = Success(path: string) | Failure(stage: Stage) | Raised(stage: Stage)

  /** The transcript `seg` of stage `k`, which passed when `ok`. */
  ghost predicate StageRun(c: Config, ds: seq<Driver>, k: Stage, seg: seq<Event>, ok: bool) {
    match k
    case SyncUdk => UdkRun(c, seg, ok)
    case SyncClover => CloverRun(c, seg, ok)
    case BaseTools => SingleRun(seg, MakeBaseTools(c), ok)
    case SetupUdk => SingleRun(seg, EdkSetup, ok)
    case BuildGettext => ToolRun(Gettext(c), seg, ok)
    case BuildMtoc => ToolRun(Mtoc(c), seg, ok)
    case BuildNasm => ToolRun(Nasm(c), seg, ok)
    case Patches => SingleRun(seg, InstallPatches(c), ok)
    case CleanTree => |seg| == 1 && IsChain(seg[0], CleanClover, ok)
    case Drivers => ok && DriversRun(c, ds, seg)
    case Download => ok && DownloadsRun(c, seg)
    case StageDrivers => StagedRun(c, seg, ok)
    case Package => PackageRun(c, seg, ok)
  }

  /** The first `|segs|` stages all ran and passed, and at least one stage is left. */
  ghost predicate Passed(c: Config, ds: seq<Driver>, segs: seq<seq<Event>>)
    decreases |segs|
  {
    |segs| < |Stages| &&
    (segs == [] ||
     (Passed(c, ds, segs[..|segs| - 1]) && StageRun(c, ds, Stages[|segs| - 1], segs[|segs| - 1], true)))
  }

  /** A whole run of build_clover: the stages before the last one reached all passed, and the
      outcome is decided by the last one reached. */
  ghost predicate PipelineRun(c: Config, ds: seq<Driver>, segs: seq<seq<Event>>, outcome: Outcome) {
    1 <= |segs| <= |Stages| && Passed(c, ds, segs[..|segs| - 1]) &&
    var last := Stages[|segs| - 1];
    var seg := segs[|segs| - 1];
    match outcome
    case Success(p) =>
      last == Package && StageRun(c, ds, Package, seg, true) &&
      p == PathJoin(c.out, PackageName(seg[0].reply.stdout).value)
    case Failure(st) => st == last && st != StageDrivers && StageRun(c, ds, st, seg, false)
    case Raised(st) => st == last && st == StageDrivers && StageRun(c, ds, st, seg, false)
  }

  /** Recording one more stage: a passed stage extends the passed prefix; a failed one ends
      the run with `Failure` of that stage. */
  lemma {:induction false} StageDone(c: Config, ds: seq<Driver>, segs: seq<seq<Event>>, seg: seq<Event>, ok: bool, k: Stage)
    requires Passed(c, ds, segs) && Stages[|segs|] == k && k != StageDrivers && k != Package
    requires StageRun(c, ds, k, seg, ok)
    ensures Concat(segs + [seg]) == Concat(segs) + seg
    ensures ok ==> Passed(c, ds, segs + [seg])
    ensures !ok ==> PipelineRun(c, ds, segs + [seg], Failure(k))
  {
    ConcatAppend(segs, seg);
    assert (segs + [seg])[..|segs|] == segs;
  }

  /** Staging the prebuilt drivers after the eleven stages before it: an exception there
      leaves build_clover. */
  lemma StagedDone(c: Config, ds: seq<Driver>, segs: seq<seq<Event>>, seg: seq<Event>, ok: bool)
    requires Passed(c, ds, segs) && |segs| == 11 && StagedRun(c, seg, ok)
    ensures ok ==> Passed(c, ds, segs + [seg])
    ensures !ok ==> PipelineRun(c, ds, segs + [seg], Raised(StageDrivers))
  {
    assert (segs + [seg])[..|segs|] == segs;
  }

  /** The package stage ends every run that reaches it: with the package path when it was
      built, and with `Failure(Package)` otherwise. */
  lemma PackageDone(c: Config, ds: seq<Driver>, segs: seq<seq<Event>>, seg: seq<Event>, result: Option<string>)
    requires Passed(c, ds, segs) && |segs| == 12 && PackageRun(c, seg, result.Some?)
    requires result.Some? ==> result.value == PathJoin(c.out, PackageName(seg[0].reply.stdout).value)
    ensures PipelineRun(c, ds, segs + [seg], if result.Some? then Success(result.value) else Failure(Package))
  {
    assert (segs + [seg])[..|segs|] == segs;
  }

  /** update_clover put together from the checkout part, the revision lookup and the rest. */
  lemma CloverJoin(c: Config, head: seq<Event>, revSeg: seq<Event>, rev: Option<string>, rest: seq<Event>, ok: bool)
    requires |head| >= 1 && IsProbe(head[0], SvnDir(c.cPath))
    requires head[0].found ==> |head| == 1
    requires !head[0].found ==> |head| == 2 && IsExec(head[1], CloverCheckout(c)) && head[1].reply.exit == 0
    requires RevisionRun(c, revSeg, rev)
    requires rev.None? ==> rest == [] && !ok
    requires rev.Some? ==> |rest| == 1 && IsChain(rest[0], CloverUpdate, ok)
    ensures CloverRun(c, head + revSeg + rest, ok)
  {
    var seg := head + revSeg + rest;
    var i := |head|;
    assert seg[i] == revSeg[0];
    if revSeg[0].found {
      assert seg[i + 1] == revSeg[1];
      if rev.Some? {
        assert seg[i + 2] == rest[0];
      }
    }
    assert RevisedFrom(c, seg, i, ok);
  }

  /** The build part of one driver record put together. */
  lemma BuildJoin(c: Config, d: Driver, steps: seq<Event>, copies: seq<Event>, built: bool)
    requires Complete(d) && |steps| == 3
    requires IsExec(steps[0], GitPull) && IsExec(steps[1], MakeExecutable(d)) && IsExec(steps[2], RunBuildScript(d))
    requires built == (steps[2].reply.exit == 0)
    requires built ==> CopiesRun(c, OutDir(c, d), NameList(d.name.value), copies)
    requires !built ==> copies == []
    ensures BuildRun(c, d, steps + copies, built)
  {
    assert (steps + copies)[3..] == copies;
  }

  /** One driver record put together from the clone part and the build part. */
  lemma DriverJoin(c: Config, d: Driver, head: seq<Event>, tail: seq<Event>, built: bool)
    requires Complete(d) && |head| >= 1 && IsProbe(head[0], GitDir(DriverDir(c, d)))
    requires head[0].found ==> |head| == 1
    requires !head[0].found ==> |head| == 2 && IsExec(head[1], DriverClone(d)) && head[1].reply.exit == 0
    requires BuildRun(c, d, tail, built)
    ensures DriverRun(c, d, head + tail, built)
  {
    assert (head + tail)[|head|..] == tail;
  }
}
