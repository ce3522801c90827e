/**
 * The download endpoint (DownloadController.java): resolve project, version and
 * build, take the first entry of the build's download map whose file name is the
 * requested one, and serve the file at
 * `storage / project / version / build number / file name`, with headers built
 * one setter at a time. Whatever goes wrong on the way is rethrown as a
 * download failure.
 *
 * The file system is a parameter: the set of (normalised) paths at which a file
 * exists. Reading its modification time fails exactly when no file is there.
 */
module Downloads {
  import opened Wrappers
  import opened Model
  import opened Store
  import opened Throwables
  import opened Http
  import opened Api
  import opened Paths
  import opened Decimal

  /** The archive response: the file, its headers, status 200. */
  datatype JavaArchive = JavaArchive(resource: Path, headers: HttpHeaders, status: int)

  const Ok200: int := 200

  /** The download of the first map entry whose value is named `name`; the keys play no part. */
  function FirstNamed(m: DownloadMap, name: string): (r: Option<Download>)
    ensures r.Some? ==> r.value.name == name
    ensures r.None? <==> forall e :: e in m ==> e.1.name != name
    ensures r.Some? ==> exists i :: 0 <= i < |m| && m[i].1 == r.value
                                    && forall j :: 0 <= j < i ==> m[j].1.name != name
  {
    if m == [] then None
    else if m[0].1.name == name then
      assert m[0].1 == m[0].1;
      Some(m[0].1)
    else
      var r := FirstNamed(m[1..], name);
      assert forall e :: e in m <==> e == m[0] || e in m[1..];
      if r.Some? then
        var i :| 0 <= i < |m[1..]| && m[1..][i].1 == r.value && forall j :: 0 <= j < i ==> m[1..][j].1.name != name;
        assert m[i + 1].1 == r.value;
        assert forall j :: 0 <= j < i + 1 ==> m[j].1.name != name by {
          forall j | 0 <= j < i + 1 ensures m[j].1.name != name {
            if j > 0 { assert m[j] == m[1..][j - 1]; }
          }
        }
        r
      else r
  }

  /** `storage.resolve(project).resolve(version).resolve(String.valueOf(number)).resolve(file)` */
  function DownloadPath(root: Path, project: Project, version: Version, build: Build, download: Download): Path {
    Resolve(Resolve(Resolve(Resolve(root, project.name), version.name), IntToDecimal(build.number)), download.name)
  }

  /** For single-segment names the path is the root with exactly four names appended. */
  lemma DownloadPathOfNames(root: Path, project: Project, version: Version, build: Build, download: Download)
    requires IsName(project.name) && IsName(version.name) && IsName(download.name)
    ensures DownloadPath(root, project, version, build, download)
            == Path(root.absolute, root.names + [project.name, version.name, IntToDecimal(build.number), download.name])
  {
    var n := IntToDecimal(build.number);
    ResolveName(root, project.name);
    var p1 := Path(root.absolute, root.names + [project.name]);
    ResolveName(p1, version.name);
    var p2 := Path(root.absolute, p1.names + [version.name]);
    ResolveName(p2, n);
    var p3 := Path(root.absolute, p2.names + [n]);
    ResolveName(p3, download.name);
    assert p3.names + [download.name] == root.names + [project.name, version.name, n, download.name];
  }

  /** Distinct single-segment tuples are served from distinct paths. */
  lemma DownloadPathInjective(root: Path, p: Project, v: Version, b: Build, d: Download,
                              p': Project, v': Version, b': Build, d': Download)
    requires IsName(p.name) && IsName(v.name) && IsName(d.name)
    requires IsName(p'.name) && IsName(v'.name) && IsName(d'.name)
    requires DownloadPath(root, p, v, b, d) == DownloadPath(root, p', v', b', d')
    ensures p.name == p'.name && v.name == v'.name && b.number == b'.number && d.name == d'.name
  {
    DownloadPathOfNames(root, p, v, b, d);
    DownloadPathOfNames(root, p', v', b', d');
    var k := |root.names|;
    var names := DownloadPath(root, p, v, b, d).names;
    assert names[k] == p.name && names[k] == p'.name;
    assert names[k + 1] == v.name && names[k + 1] == v'.name;
    assert names[k + 2] == IntToDecimal(b.number) && names[k + 2] == IntToDecimal(b'.number);
    assert names[k + 3] == d.name && names[k + 3] == d'.name;
    IntToDecimalInjective(b.number, b'.number);
  }

  /**
   * The `try` block up to the archive: resolve project, version and build in
   * that order (the first missing one decides the error), then pick the first
   * download named `downloadName` or fail with DownloadNotFound.
   */
  function Locate(st: Store, root: Path, projectName: string, versionName: string, number: int, downloadName: string)
    : (r: Result<Path, ApiError>)
    ensures r.Err? ==> r.error in {ProjectNotFound, VersionNotFound, BuildNotFound, DownloadNotFound}
    ensures r == Err(ProjectNotFound) <==> FindProject(st, projectName).Err?
    ensures FindProject(st, projectName).Ok? ==>
              var p := FindProject(st, projectName).value;
              && (r == Err(VersionNotFound) <==> FindVersion(st, p, versionName).Err?)
              && (FindVersion(st, p, versionName).Ok? ==>
                    var v := FindVersion(st, p, versionName).value;
                    && (r == Err(BuildNotFound) <==> FindBuild(st, p, v, number).Err?)
                    && (FindBuild(st, p, v, number).Ok? ==>
                          var b := FindBuild(st, p, v, number).value;
                          && (r == Err(DownloadNotFound) <==> FirstNamed(b.downloads, downloadName).None?)
                          && (r.Ok? <==> FirstNamed(b.downloads, downloadName).Some?)
                          && (r.Ok? ==> r.value == DownloadPath(root, p, v, b, FirstNamed(b.downloads, downloadName).value))))
    ensures r.Err? && r.error == DownloadNotFound ==>
              exists p, v, b :: BuildResolved(st, projectName, versionName, number, p, v, b)
                                && forall e :: e in b.downloads ==> e.1.name != downloadName
    ensures r.Ok? ==> exists p, v, b, i :: Served(st, root, projectName, versionName, number, downloadName, p, v, b, i, r.value)
  {
    match FindProject(st, projectName)
    case Err(e) => Err(e)
    case Ok(p) =>
      match FindVersion(st, p, versionName)
      case Err(e) => Err(e)
      case Ok(v) =>
        match FindBuild(st, p, v, number)
        case Err(e) => Err(e)
        case Ok(b) =>
          assert BuildResolved(st, projectName, versionName, number, p, v, b);
          match FirstNamed(b.downloads, downloadName)
          case None => Err(DownloadNotFound)
          case Some(d) =>
            var path := DownloadPath(root, p, v, b, d);
            var i :| 0 <= i < |b.downloads| && b.downloads[i].1 == d
                     && forall j :: 0 <= j < i ==> b.downloads[j].1.name != downloadName;
            assert Served(st, root, projectName, versionName, number, downloadName, p, v, b, i, path);
            Ok(path)
  }

  /**
   * A download stored in a build is located by its names: with unique names and
   * no other build of that number in the version, the request for the entry's
   * file name resolves to the first entry of that name in the build.
   */
  lemma StoredDownloadIsLocated(st: Store, root: Path, p: Project, v: Version, b: Build, e: (string, Download))
    requires UniqueNames(st)
    requires BuildResolved(st, p.name, v.name, b.number, p, v, b)
    requires forall c :: c in st.builds && c.project == p.id && c.version == v.id && c.number == b.number ==> c == b
    requires e in b.downloads
    ensures FirstNamed(b.downloads, e.1.name).Some?
    ensures Locate(st, root, p.name, v.name, b.number, e.1.name)
            == Ok(DownloadPath(root, p, v, b, FirstNamed(b.downloads, e.1.name).value))
  {
    FindProjectByNameUnique(st, p);
    FindVersionByProjectAndNameUnique(st, v);
  }

  /**
   * `path` is served for the request: `b` is a stored build of the named version
   * of the named project, and its i-th download entry is the first one whose file
   * is named `downloadName`.
   */
  predicate Served(st: Store, root: Path, projectName: string, versionName: string, number: int, downloadName: string,
                   p: Project, v: Version, b: Build, i: int, path: Path)
  {
    && BuildResolved(st, projectName, versionName, number, p, v, b)
    && 0 <= i < |b.downloads|
    && b.downloads[i].1.name == downloadName
    && (forall j :: 0 <= j < i ==> b.downloads[j].1.name != downloadName)
    && path == DownloadPath(root, p, v, b, b.downloads[i].1)
  }

  /**
   * `headersFor(path, cache)`: the cache policy, an attachment disposition named
   * after the path's last name, the archive media type and the modification
   * time, in that order. A path without names fails on its missing file name
   * before any I/O; a missing file fails when its modification time is read.
   */
  method HeadersFor(path: Path, cache: CacheControl, files: set<Path>) returns (r: Result<HttpHeaders, ApiError>)
    ensures FileName(path).None? ==> r == Err(NullPointer)
    ensures FileName(path).Some? && Normalize(path) !in files ==> r == Err(IoError)
    ensures r.Ok? <==> FileName(path).Some? && Normalize(path) in files
    ensures r.Ok? ==> && fresh(r.value)
                      && r.value.cacheControl == Some(cache)
                      && r.value.contentDisposition == Some(Attachment(FileName(path).value))
                      && r.value.contentType == Some(JavaArchiveType)
                      && r.value.lastModifiedSet
  {
    var headers := new HttpHeaders();
    headers.SetCacheControl(cache);
    var name := FileName(path);
    if name.None? {
      return Err(NullPointer);
    }
    headers.SetContentDisposition(Attachment(name.value));
    headers.SetContentType(JavaArchiveType);
    if Normalize(path) !in files {
      return Err(IoError);
    }
    headers.SetLastModified();
    return Ok(headers);
  }

  /**
   * `download(project, version, build, download)`: the archive at the located
   * path, or DownloadFailed wrapping whatever went wrong, a failed lookup
   * included.
   */
  method DownloadHandler(st: Store, root: Path, files: set<Path>,
                  projectName: string, versionName: string, number: int, downloadName: string)
    returns (r: Result<JavaArchive, ApiError>)
    ensures r.Err? ==> r.error.DownloadFailed?
    ensures var loc := Locate(st, root, projectName, versionName, number, downloadName);
            && (loc.Err? ==> r == Err(DownloadFailed(loc.error)))
            && (loc.Ok? ==> (r.Ok? <==> FileName(loc.value).Some? && Normalize(loc.value) in files))
            && (r.Ok? ==> && r.value.resource == loc.value
                          && r.value.status == Ok200
                          && r.value.headers.cacheControl == Some(DefaultCache())
                          && r.value.headers.contentDisposition == Some(Attachment(FileName(loc.value).value))
                          && r.value.headers.contentType == Some(JavaArchiveType))
  {
    var loc := Locate(st, root, projectName, versionName, number, downloadName);
    if loc.Err? {
      return Err(DownloadFailed(loc.error));
    }
    var headers := HeadersFor(loc.value, DefaultCache(), files);
    if headers.Err? {
      return Err(DownloadFailed(headers.error));
    }
    return Ok(JavaArchive(loc.value, headers.value, Ok200));
  }

  /**
   * The attachment's file name is the requested download name whenever that
   * name is a single path segment.
   */
  lemma LocatedFileNameIsRequested(st: Store, root: Path, projectName: string, versionName: string,
                                   number: int, downloadName: string)
    requires IsName(downloadName)
    requires Locate(st, root, projectName, versionName, number, downloadName).Ok?
    ensures FileName(Locate(st, root, projectName, versionName, number, downloadName).value) == Some(downloadName)
  {
    var path := Locate(st, root, projectName, versionName, number, downloadName).value;
    var p, v, b, i :| Served(st, root, projectName, versionName, number, downloadName, p, v, b, i, path);
    var inner := Resolve(Resolve(Resolve(root, p.name), v.name), IntToDecimal(b.number));
    ResolveName(inner, downloadName);
  }

  /**
   * The located path lies under the storage root, in the directory of the build:
   * for single-segment project and version names, the four names after the root
   * are the request's.
   */
  lemma LocatedPathShape(st: Store, root: Path, projectName: string, versionName: string,
                         number: int, downloadName: string)
    requires IsName(projectName) && IsName(versionName) && IsName(downloadName)
    requires Locate(st, root, projectName, versionName, number, downloadName).Ok?
    ensures Locate(st, root, projectName, versionName, number, downloadName).value
            == Path(root.absolute, root.names + [projectName, versionName, IntToDecimal(number), downloadName])
  {
    var path := Locate(st, root, projectName, versionName, number, downloadName).value;
    var p, v, b, i :| Served(st, root, projectName, versionName, number, downloadName, p, v, b, i, path);
    DownloadPathOfNames(root, p, v, b, b.downloads[i].1);
  }
}
