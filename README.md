# CloverBuild, modelled in Dafny

`Scripts/cloverbuild.py` drives a build of the Clover bootloader. It has one class, `CloverBuild`. The class:

- checks out or updates the UDK2018 tree with git and the Clover tree with Subversion;
- makes the base tools and sets up the UDK;
- builds gettext, mtoc and nasm unless they are already built;
- installs the UDK patches and cleans Clover;
- builds a list of external EFI drivers, each from its own git repository;
- downloads and stages three prebuilt drivers;
- runs `makepkg` and returns the path of the package it reports, or `False`.

This project models that class and proves what each step promises.

## How the model is built

- **The outside world** (`world.dfy`, module `World`) is a `Host`. The host is made of oracles that answer every command, every chained command list, every existence check and every copy. An answer may depend on the whole history of earlier events. This stands for `run.Run`, `os.path.exists` and `shutil.copy`.
  - Each step of the build takes the history so far. It returns the events it adds: probes, commands, chains and copies, each with its answer.
  - `Faithful` states that every recorded answer is the one the host gives at that point.
- **The string operations** the script relies on are in `text.dfy` (module `Text`): `str.split` (with the search for the separator inside it), `str.replace` and `str.lower`. It also has a reference definition `FieldAfter`, "the field that follows a mark", which is independent of `split`.
- **The two text extractors** are pure functions in `parse.dfy` (module `Parse`). They are proved against `FieldAfter`.
- **What a legal run of each method looks like** is stated in `pipeline.dfy` (module `Pipeline`) as transcript predicates: `UdkRun`, `CloverRun`, `ToolRun`, `DriverRun`, `PipelineRun` and the rest. They are stated over the recorded events.
- **The class itself** is in `cloverbuild.dfy` (module `Build`). It has the source's configuration and its driver list `efiDrivers`. The driver list is a field, because `build_efi_drivers` rewrites a record's `name` in place.
  - Every method is proved to produce a transcript that satisfies its predicate and is faithful to the host.
  - The loops of the source stay loops, with invariants: the records, the built files and the three downloads.
- **What the transcripts imply** is proved in `properties.dfy` (module `Properties`): which commands a failure rules out, the cache gating of the tools, the driver loop's skipping and copying, and the success path.

`build_clover` is one fixed sequence of thirteen stages (`Pipeline.Stages`). The model runs the first nine, from update_udk to the cleaning of Clover, through one step method (`Continue`). That method is called once per stage, with an early return after a stage that returns `False`. The remaining stages are the driver loop and the downloads, which never fail, the staged copies, which can raise, and the package, which returns `False` when makepkg fails or no package is found.

Details of the code that the model keeps:

- `__init__` tests `len(efi_drivers)`, so an explicitly empty driver list also falls back to the two default drivers (`Scripts/cloverbuild.py:34-53`).
- Line 156 turns a string `name` of a built record into a one-element list. The model keeps that in the class's `efiDrivers` field: after the loop, the name of each built record is a list and no other record changes (`Pipeline.RenameBuilt`).

- The Clover revision is the text after the first `revision: ` in the lower-cased `svn info` output, up to the first newline. `split` would stop the field at a second `revision: ` on the same line; `FieldAfter` states this.
- The package name keeps the text after the coloured `Package name: ` marker. That marker includes the escape character. The name runs up to the first newline or a second marker, with carriage returns removed.
- Before looking for the package, the code changes into the output directory. The existence check on the bare name is therefore modelled as a probe of `out/<name>`. An empty name never exists, so no probe is made for it.
- `update_clover` checks for `.svn` a second time, inside `get_clover_revision`. Both probes are in the transcript.

## Model

| member | source | states |
|---|---|---|
| Build.CloverBuild.constructor | Scripts/cloverbuild.py:14-53 | every path is derived from the source directory as the code joins it; an empty driver list gives the two default drivers, any other list is kept |
| Build.CloverBuild.UpdateUdk | Scripts/cloverbuild.py:60-81 | the run is a legal update_udk transcript (probe `.git`, clone only when it is missing, stop when the clone fails, else pull and clean as one chain judged by its last reply) and every answer is the host's |
| Build.CloverBuild.GetCloverRevision | Scripts/cloverbuild.py:112-125 | no `.svn` gives no revision and no command; otherwise `svn info` runs and the result is `CloverRevision` of its output |
| Build.CloverBuild.UpdateClover | Scripts/cloverbuild.py:83-110 | the run is a legal update_clover transcript: checkout when `.svn` is missing, stop on a failed checkout or a missing revision, else update, revert and clean up as one chain judged by its last reply |
| Build.CloverBuild.Step | Scripts/cloverbuild.py:171-183 | one command, true exactly when it exits 0 |
| Build.CloverBuild.EnsureTool | Scripts/cloverbuild.py:185-200 | a tool's script runs only when its check path is missing, and the step fails only when that script exits non-zero |
| Build.CloverBuild.CopyOne | Scripts/cloverbuild.py:157-163 | a file is copied to drivers64, and to drivers64UEFI only when the first copy worked; a failed copy is caught |
| Build.CloverBuild.CopyFiles | Scripts/cloverbuild.py:157-163 | the loop attempts every file of the list in order and the transcript is the concatenation of their copy pairs |
| Build.CloverBuild.BuildAndCopy | Scripts/cloverbuild.py:143-163 | pull, chmod and the build script run in that order; the record counts as built exactly when the script exits 0, and only then are its files copied |
| Build.CloverBuild.BuildDriver | Scripts/cloverbuild.py:132-163 | an incomplete record adds nothing; a missing `.git` triggers a clone whose failure ends only that record; otherwise build and copy as above |
| Build.CloverBuild.BuildEfiDrivers | Scripts/cloverbuild.py:127-163 | the loop handles every record in order, each by `DriverRun`; afterwards the driver list is the old one with exactly the built records' names turned into lists |
| Build.CloverBuild.DownloadDrivers | Scripts/cloverbuild.py:217-220 | the three downloads are issued in order, each saved under its name without `_x64`, and their exit codes are not looked at |
| Build.CloverBuild.StagePrebuilt | Scripts/cloverbuild.py:221-224 | the three copies from drivers64UEFI to drivers64 are made in order, and the first failing copy ends the run with an exception |
| Build.CloverBuild.MakePackage | Scripts/cloverbuild.py:225-238 | makepkg runs; a path is returned only when it exits 0, a non-empty package name was found and the package exists, and the path is the name joined to the output directory |
| Build.CloverBuild.RunStage | Scripts/cloverbuild.py:167-214 | each of the fallible stages before the driver loop runs its own command sequence and reports as its transcript predicate says |
| Build.CloverBuild.Continue | Scripts/cloverbuild.py:167-214 | running the next fallible stage after a passed prefix either extends the passed prefix, or ends the run with `False` decided by that stage |
| Build.CloverBuild.Prepare | Scripts/cloverbuild.py:166-214 | the nine stages up to the cleaning of Clover run in the source's order; a stop happens within those nine stages and ends the run with `False` of the stage that failed; otherwise all nine passed |
| Build.CloverBuild.BuildDrivers | Scripts/cloverbuild.py:215-220 | the driver loop and the downloads always pass, whatever the per-driver outcomes; their transcript is the record loop's |
| Build.CloverBuild.Finish | Scripts/cloverbuild.py:221-238 | after the downloads, the staged copies and the package end the run with a legal outcome, and the earlier stages are kept as they were |
| Build.CloverBuild.BuildClover | Scripts/cloverbuild.py:165-238 | the whole run is a legal build_clover transcript with its outcome (`Success(path)`, `Failure(stage)` for `False`, or `Raised` by a staged copy); the driver list changes only by the renaming of the records the driver stage's transcript shows as built, and not at all when the run stopped before the driver loop |
| Build.Advance | Scripts/cloverbuild.py:167-220 | a passed stage extends the passed prefix; a failed one yields `Failure` of that stage |
| Parse.CloverRevision | Scripts/cloverbuild.py:119-125 | a missing `revision: ` label gives None, as the IndexError branch does, and a reported revision is never empty |
| Parse.RevisionIsField | Scripts/cloverbuild.py:119-125 | `CloverRevision(info) == Some(rev)` if and only if `rev` is non-empty and is the field after `revision: ` in the lower-cased output |
| Parse.NoRevision | Scripts/cloverbuild.py:119-124 | no revision if and only if the label is absent or the field after it is empty |
| Parse.RevisionIgnoresCase | Scripts/cloverbuild.py:120 | the revision does not depend on the case of the `svn info` output |
| Parse.RevisionOneLine | Scripts/cloverbuild.py:120 | a revision never contains a newline |
| Parse.PackageName | Scripts/cloverbuild.py:230-233 | a package name is found if and only if the marker occurs in the makepkg output; otherwise the IndexError branch gives None |
| Parse.PackageNameIsField | Scripts/cloverbuild.py:231 | the package name is the field after the marker with carriage returns removed |
| Parse.PackageNameClean | Scripts/cloverbuild.py:231 | a package name contains no newline and no carriage return |
| Text.SplitJoin | Scripts/cloverbuild.py:120 | joining the pieces of `split` with the same separator gives back the string |
| Text.SplitPiecesFree | Scripts/cloverbuild.py:120 | no piece of a split contains the separator |
| Text.SplitField | Scripts/cloverbuild.py:120 | `split(mark)[1].split("\n")[0]` exists exactly when the mark occurs, and is then the field after the mark |
| Text.IndexOfFirst | Scripts/cloverbuild.py:120 | the search for the separator inside `split` returns an occurrence and no earlier one, and finds nothing only when there is no occurrence |
| Text.ReplaceDeletes | Scripts/cloverbuild.py:231 | replacing one character by the empty string removes exactly that character |
| Text.LowerIdempotent | Scripts/cloverbuild.py:120 | lower-casing twice is lower-casing once |
| Pipeline.PathJoinParts | Scripts/cloverbuild.py:24-32 | `os.path.join(a, b)` ends with `b`, and starts with `a` unless `b` is absolute |
| Pipeline.ListNames | Scripts/cloverbuild.py:155-156 | a string name becomes the one-element list of that name, a list stays the same list, and nothing else in the record changes |
| Pipeline.ListNamesTwice | Scripts/cloverbuild.py:155-156 | the renaming is idempotent |
| Pipeline.RenameBuilt | Scripts/cloverbuild.py:131-156 | every record keeps all keys but its name; a built record with a name gets that name as a list of the same names; every other record is untouched |
| Pipeline.CopyListAll | Scripts/cloverbuild.py:157-163 | every file has its own copy pair, in list order |
| Pipeline.DriverListAll | Scripts/cloverbuild.py:131-163 | every record has its own transcript, in list order |
| Pipeline.FetchedAll | Scripts/cloverbuild.py:219-220 | the k-th download fetches the k-th name |
| Pipeline.SavedAs | Scripts/cloverbuild.py:220 | a name with no `_x64` in it is saved unchanged |
| Pipeline.SavedCut | Scripts/cloverbuild.py:220 | a name with one `_x64` and no other underscore, such as `HFSPlus_x64.efi`, is saved without it |
| Pipeline.SavedAsIs | Scripts/cloverbuild.py:220 | a name without an underscore is saved unchanged |
| Pipeline.DownloadsStaged | Scripts/cloverbuild.py:219-224 | each of the three downloads is saved under the name that the next loop copies into drivers64 (`HFSPlus_x64.efi` as `HFSPlus.efi`) |
| Pipeline.StageDone | Scripts/cloverbuild.py:166-214 | one more stage extends the passed prefix or ends the run with `Failure` of that stage |
| Pipeline.StagedDone | Scripts/cloverbuild.py:221-224 | staged copies that all work extend the passed prefix; a failing one ends the run with `Raised` |
| Pipeline.PackageDone | Scripts/cloverbuild.py:225-238 | the package stage ends the run with the returned path, or with `False` |
| Properties.UdkSteps | Scripts/cloverbuild.py:60-81 | the clone runs if and only if `.git` is missing; no update chain runs if and only if that clone failed; success if and only if the chain's last reply succeeded |
| Properties.RevisionLookup | Scripts/cloverbuild.py:112-125 | no `.svn` gives no revision and no command; a revision is non-empty and is the lower-cased field after the label in the `svn info` output |
| Properties.CloverSteps | Scripts/cloverbuild.py:83-110 | a failed checkout ends update_clover with False and no update; success needs a revision read by `svn info` and a successful update chain; no update chain means False; once the update chain runs, its last reply decides the result in both directions; the checkout runs if and only if `.svn` is missing |
| Properties.ToolGating | Scripts/cloverbuild.py:185-200 | a tool's build script runs if and only if its check path is missing; the step fails if and only if that script exited non-zero |
| Properties.FailureEndsRun | Scripts/cloverbuild.py:166-214 | a failing stage is the last stage in the run, and it is never the driver loop, the downloads or the staged copies |
| Properties.UdkFailureStops | Scripts/cloverbuild.py:167-169 | when update_udk fails, update_clover and every later stage never run |
| Properties.RequiredCommandStops | Scripts/cloverbuild.py:171-214 | when make of the base tools, edksetup, the patch copy or the clean chain ends the run, the last stage is that one event: the stage's own command with a non-zero exit, or the clean chain with a failing last reply |
| Properties.PassedAt | Scripts/cloverbuild.py:166-214 | every stage of a prefix that passed ran and passed |
| Properties.PrefixPassed | Scripts/cloverbuild.py:166-214 | every shorter prefix of a passed prefix passed too |
| Properties.EarlierPassed | Scripts/cloverbuild.py:165-238 | in a whole run, every stage before the last one reached passed |
| Properties.StageVerdict | Scripts/cloverbuild.py:165-238 | apart from the driver loop and the downloads, what a stage recorded decides whether it passed |
| Properties.FailingStageIsLast | Scripts/cloverbuild.py:165-238 | a stage with a failing transcript is the last stage in the run, which then returns `False` of that stage, or raises for a staged copy |
| Properties.CommandExitStops | Scripts/cloverbuild.py:171-206 | a non-zero exit from make of the base tools, edksetup or the patch copy ends the run with `False` there, with that one command the last one issued |
| Properties.ToolExitStops | Scripts/cloverbuild.py:185-200 | a failing gettext, mtoc or nasm build script ends the run with `False` there, before the patch stage |
| Properties.CleanExitStops | Scripts/cloverbuild.py:207-214 | a clean chain whose last reply failed ends the run with `False` there, before the driver loop |
| Properties.DriversNeverFail | Scripts/cloverbuild.py:215-220 | a run that reaches the driver loop always goes on past the downloads (what the loop records per record is stated by `Build.CloverBuild.BuildDrivers`) |
| Properties.SuccessPath | Scripts/cloverbuild.py:225-237 | a returned path means all twelve earlier stages passed, makepkg exited 0, the package name was found and non-empty, and the package exists at that path, which is the name joined to the output directory |
| Properties.PackageOrFalse | Scripts/cloverbuild.py:226-238 | a run that reaches makepkg returns either a path or False |
| Properties.DriverOutcome | Scripts/cloverbuild.py:131-163 | an incomplete record adds no events; a record that is not built gets no copies; a built record's build script exited 0 |
| Properties.PullAndChmodIgnored | Scripts/cloverbuild.py:145-148 | any replies to `git pull` and `chmod` give the same outcome |
| Properties.CopiesInOrder | Scripts/cloverbuild.py:157-163 | every file is attempted in list order, whatever happened to the earlier ones |
| Properties.ListNamesSameRun | Scripts/cloverbuild.py:155-156 | a renamed record is complete exactly when the original is, and it is handled exactly as the original |
| Properties.RenameKeepsRecords | Scripts/cloverbuild.py:131-156 | after the loop every record keeps all its other keys and its list of names, and would be handled as before |

## Left out

- The working directory is not modelled. The code calls `os.chdir` and `getcwd` and does not always restore them. Each command is modelled by what it runs, and paths are absolute.
- The `os.chdir` calls at lines 72, 95, 117, 132, 144, 179, 185 and 234 are treated as never raising. In the code, a missing directory raises `FileNotFoundError`, which nothing catches. One example is line 144, after a clone at line 139 that created a directory named after the repository rather than `path`. Another is line 234, after makepkg. Such an exception would leave `build_efi_drivers` and `build_clover`. `Properties.DriversNeverFail` and `Properties.PackageOrFalse` hold only without these exits.
- Aliasing of the driver records is not modelled. Line 156 changes a record inside the list the caller passed in, so the caller sees the change. The model holds the list as a value in the `efiDrivers` field, so only that field changes.
- The `stream` debug flag, `print` diagnostics, `os.path.expanduser`/`abspath` and `os.mkdir` of the source directory are left out; `source` is taken as already expanded.
- `run.Run` and `reveal.Reveal` are not part of this model. A command's result is whatever the host oracle answers. A chained run returns a non-empty list of replies, and the meaning of its `True` flag is not assumed.
- git, svn, make, bash, curl, the network and the file semantics of `shutil.copy` are left out. A copy is an event that succeeds or raises.
- Lower-casing covers ASCII letters only. Python's `str.lower` also maps other Unicode letters.
- The failing copy at lines 223-224 is not caught by the code. The model ends the run with a `Raised` outcome instead of modelling an exception.
