/**
 * The write path meets the read path: a build inserted by the ingestion script
 * is found by the API, and every download it lists is served from the file the
 * script copied.
 *
 * The script builds its folder with Node's `path.join` from the storage string;
 * the server resolves the names one by one onto the storage path with java.nio.
 * Both are compared after normalisation, which is how the file system reads them.
 */
module EndToEnd {
  import opened Wrappers
  import opened Model
  import opened Store
  import opened Throwables
  import opened Api
  import opened Paths
  import opened Decimal
  import opened Downloads
  import opened Cli

  /**
   * The file the server resolves for a download is the one the script copied it
   * to, whenever the project, version and download names do not start with '/'.
   */
  lemma ServedPathIsCopyTarget(storage: string, project: Project, version: Version, build: Build, download: Download)
    requires Relative(project.name) && Relative(version.name) && Relative(download.name)
    ensures Normalize(DownloadPath(ParsePath(storage), project, version, build, download))
            == JoinTo(BuildStoragePath(storage, project.name, version.name, build.number), download.name)
  {
    var root := ParsePath(storage);
    var n := IntToDecimal(build.number);
    assert Relative(n);
    ResolveRelative(root, project.name);
    var p1 := Path(root.absolute, root.names + Segments(project.name));
    ResolveRelative(p1, version.name);
    var p2 := Path(root.absolute, p1.names + Segments(version.name));
    ResolveRelative(p2, n);
    var p3 := Path(root.absolute, p2.names + Segments(n));
    ResolveRelative(p3, download.name);
    JoinFour(storage, project.name, version.name, n);
    var folder := Path(root.absolute, Segments(storage) + Segments(project.name) + Segments(version.name) + Segments(n));
    assert p3 == folder;
    JoinOnto(folder, download.name);
  }

  /** The number of the new build is not yet used in its version. */
  predicate FreshNumber(st: Store, build: Build) {
    forall b :: b in st.builds ==> b.project != build.project || b.version != build.version || b.number != build.number
  }

  /**
   * After the writes of `main` on a store with unique names, where the settled
   * number is new for the version, the API resolves the project, the version and
   * the build of the request to the records written, the new build included.
   */
  lemma RecordedBuildIsFound(st: Store, input: Input, opts: Options, now: Instant, gitLog: string -> seq<Change>)
    requires UniqueNames(st) && opts.channel in StandardChannels
    requires FreshNumber(st, Record(st, input, opts, now, gitLog).1.build)
    ensures var (_, p, v) := Written(st, input, now);
            var (st', report) := Record(st, input, opts, now, gitLog);
            && UniqueNames(st')
            && FindProject(st', input.projectName) == Ok(p)
            && FindVersion(st', p, input.versionName) == Ok(v)
            && FindBuild(st', p, v, report.build.number) == Ok(report.build)
  {
    var (st3, p, v) := Written(st, input, now);
    var (st', report) := Record(st, input, opts, now, gitLog);
    var b := report.build;
    assert st'.projects == st3.projects && st'.groups == st3.groups && st'.versions == st3.versions;
    assert st'.builds == st.builds + [b];
    assert b in st'.builds;
    var r := FindBuild(st', p, v, b.number);
    assert r.value in st.builds || r.value == b;
  }

  /**
   * After an ingestion into a store with unique names, where the settled number
   * is new for the version, the request for that build finds the build inserted.
   */
  lemma IngestedBuildIsFound(st: Store, input: Input, files: set<string>, now: Instant, gitLog: string -> seq<Change>)
    requires UniqueNames(st)
    requires Ingest(st, input, files, now, gitLog).Ok?
    requires FreshNumber(st, Ingest(st, input, files, now, gitLog).value.1.build)
    ensures var (st', report) := Ingest(st, input, files, now, gitLog).value;
            && UniqueNames(st')
            && exists p, v :: BuildResolved(st', input.projectName, input.versionName, report.build.number, p, v, report.build)
                              && FindBuild(st', p, v, report.build.number) == Ok(report.build)
  {
    var opts := CheckOptionsSpec(input.channel, input.downloads, files).value;
    RecordedBuildIsFound(st, input, opts, now, gitLog);
    var (_, p, v) := Written(st, input, now);
    var (st', report) := Record(st, input, opts, now, gitLog);
    assert BuildResolved(st', input.projectName, input.versionName, report.build.number, p, v, report.build);
  }

  /**
   * Under the same conditions, every entry of the new build's download map is
   * served: the request for its file name is located, and the located file is
   * where the script copied one of the downloads.
   */
  lemma IngestedDownloadIsServed(st: Store, input: Input, files: set<string>, now: Instant,
                                 gitLog: string -> seq<Change>, k: int)
    requires UniqueNames(st)
    requires Relative(input.projectName) && Relative(input.versionName)
    requires Ingest(st, input, files, now, gitLog).Ok?
    requires var report := Ingest(st, input, files, now, gitLog).value.1;
             && FreshNumber(st, report.build)
             && 0 <= k < |report.build.downloads|
             && Relative(report.build.downloads[k].1.name)
    ensures var (st', report) := Ingest(st, input, files, now, gitLog).value;
            var name := report.build.downloads[k].1.name;
            var loc := Locate(st', ParsePath(input.storagePath), input.projectName, input.versionName, report.build.number, name);
            && loc.Ok?
            && exists c :: c in report.copies && c.target == Normalize(loc.value)
  {
    var opts := CheckOptionsSpec(input.channel, input.downloads, files).value;
    var (st3, p, v) := Written(st, input, now);
    var (st', report) := Record(st, input, opts, now, gitLog);
    var b := report.build;
    var root := ParsePath(input.storagePath);
    var name := b.downloads[k].1.name;
    RecordedBuildIsFound(st, input, opts, now, gitLog);
    assert b.downloads[k] in b.downloads;
    var d := FirstNamed(b.downloads, name).value;
    var loc := Locate(st', root, input.projectName, input.versionName, b.number, name);
    assert loc == Ok(DownloadPath(root, p, v, b, d));
    ServedPathIsCopyTarget(input.storagePath, p, v, b, d);
    var folder := BuildStoragePath(input.storagePath, input.projectName, input.versionName, b.number);
    EntriesComeFromDownloads(opts.downloads, input.projectName, input.versionName, b.number, k);
    var i :| EntryFrom(opts.downloads, input.projectName, input.versionName, b.number, b.downloads[k], i);
    var c := report.copies[i];
    assert c.target == JoinTo(folder, name);
    assert c in report.copies;
  }
}
