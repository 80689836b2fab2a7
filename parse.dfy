/**
 * The two text extractors of the build script: the Clover revision read from `svn info`
 * output (cloverbuild.py, get_clover_revision) and the package name read from the output
 * of `makepkg` (cloverbuild.py, build_clover).
 */
module Parse {
  import opened Text

  const RevisionLabel: string := "revision: "

  /** The first line of what follows the first label in the lower-cased `svn info` output; a
      missing label (an IndexError in the script) and an empty line both give None. */
  function CloverRevision(info: string): (r: Option<string>)
    ensures IndexOf(Lower(info), RevisionLabel).None? ==> r.None?
    ensures r.Some? ==> r.value != ""
  {
    SplitField(Lower(info), RevisionLabel);
    var parts := Split(Lower(info), RevisionLabel);
    if |parts| < 2 then None
    else
      var rev := Split(parts[1], "\n")[0];
      if |rev| == 0 then None else Some(rev)
  }

  /** The colour-reset sequence `ESC [39;49;00m` that `makepkg` prints right after the label. */
  const PackageMarker: string := "Package name: \U{1B}[39;49;00m"

  /** The first line of what follows the first marker in the makepkg output, with line feeds
      and carriage returns deleted; a missing marker (an IndexError in the script) gives None. */
  function PackageName(stdout: string): (r: Option<string>)
    ensures r.Some? <==> IndexOf(stdout, PackageMarker).Some?
  {
    SplitField(stdout, PackageMarker);
    var parts := Split(stdout, PackageMarker);
    if |parts| < 2 then None
    else Some(Replace(Replace(Split(parts[1], "\n")[0], "\n", ""), "\r", ""))
  }

  /** The revision is exactly the non-empty field that follows the first "revision: " in the
      lower-cased output. */
  lemma RevisionIsField(info: string, rev: string)
    ensures CloverRevision(info) == Some(rev) <==> rev != "" && FieldAfter(Lower(info), RevisionLabel, rev)
  {
    var low := Lower(info);
    SplitField(low, RevisionLabel);
    if FieldAfter(low, RevisionLabel, rev) {
      FieldAfterUnique(low, RevisionLabel, rev, Split(Split(low, RevisionLabel)[1], "\n")[0]);
    }
  }

  /** No revision is reported exactly when the label is missing or is followed by an empty field. */
  lemma NoRevision(info: string)
    ensures CloverRevision(info).None? <==>
      IndexOf(Lower(info), RevisionLabel).None? || FieldAfter(Lower(info), RevisionLabel, "")
  {
    var low := Lower(info);
    SplitField(low, RevisionLabel);
    if FieldAfter(low, RevisionLabel, "") {
      FieldAfterUnique(low, RevisionLabel, "", Split(Split(low, RevisionLabel)[1], "\n")[0]);
    }
  }

  /** The revision does not depend on the letter case of the output. */
  lemma RevisionIgnoresCase(info: string)
    ensures CloverRevision(Lower(info)) == CloverRevision(info)
  {
    LowerIdempotent(info);
  }

  /** A revision never spans a line break. */
  lemma RevisionOneLine(info: string)
    ensures CloverRevision(info).Some? ==> forall k :: 0 <= k < |CloverRevision(info).value| ==> CloverRevision(info).value[k] != '\n'
  {
    var low := Lower(info);
    SplitField(low, RevisionLabel);
  }

  /** When the marker occurs, the package name is the field that follows it, with every
      carriage return deleted. */
  lemma PackageNameIsField(stdout: string, field: string)
    requires FieldAfter(stdout, PackageMarker, field)
    ensures PackageName(stdout) == Some(RemoveChar(field, '\r'))
  {
    SplitField(stdout, PackageMarker);
    var raw := Split(Split(stdout, PackageMarker)[1], "\n")[0];
    FieldAfterUnique(stdout, PackageMarker, field, raw);
    ReplaceDeletes(raw, '\n');
    RemoveAbsent(raw, '\n');
    ReplaceDeletes(raw, '\r');
  }

  /** A package name contains neither a line feed nor a carriage return. */
  lemma PackageNameClean(stdout: string)
    ensures PackageName(stdout).Some? ==>
      forall k :: 0 <= k < |PackageName(stdout).value| ==>
        PackageName(stdout).value[k] != '\n' && PackageName(stdout).value[k] != '\r'
  {
    if PackageName(stdout).Some? {
      SplitField(stdout, PackageMarker);
      var raw := Split(Split(stdout, PackageMarker)[1], "\n")[0];
      PackageNameIsField(stdout, raw);
      RemoveCharGone(raw, '\r');
      RemoveKeeps(raw, '\r', '\n');
    }
  }
}
