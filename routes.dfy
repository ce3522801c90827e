/**
 * The request mappings of the controllers: each path variable must match its
 * pattern before the handler runs (a mismatch matches no route), the build
 * segment becomes a number, and the handler's error goes through the advice.
 *
 * The project segment is checked against the project-name pattern and the group
 * segment against none.
 */
module Routes {
  import opened Wrappers
  import opened Patterns
  import opened Model
  import opened Store
  import opened Throwables
  import opened Http
  import opened Paths
  import opened Decimal
  import opened Controllers
  import opened Downloads

  datatype Request =
    | GetProjects
    | GetProject(project: string)
    | GetGroup(project: string, group: string)
    | GetVersion(project: string, version: string)
    | GetBuilds(project: string, version: string)
    | GetBuild(project: string, version: string, build: string)
    | GetDownload(project: string, version: string, build: string, download: string)

  datatype Body =
    | ProjectsBody(projects: ProjectsResponse)
    | ProjectBody(project: ProjectResponse)
    | GroupBody(group: GroupResponse)
    | VersionBody(version: VersionResponse)
    | BuildsBody(builds: BuildsResponse)
    | BuildBody(build: BuildResponse)

  datatype Response =
    | Json(cache: CacheControl, body: Body)
    | File(archive: JavaArchive)
    | Failure(error: ErrorResponse)
    /** An error the advice has no handler for, left to the framework. */
    | Unhandled(cause: ApiError)
    /** No route matches the request path. */
    | NoRoute

  /** Whether every path variable of the request matches the pattern of its route. */
  predicate Routed(req: Request) {
    match req
    case GetProjects => true
    case GetProject(p) => Accepts(ProjectName, p)
    case GetGroup(p, _) => Accepts(ProjectName, p)
    case GetVersion(p, v) => Accepts(ProjectName, p) && Accepts(VersionPattern, v)
    case GetBuilds(p, v) => Accepts(ProjectName, p) && Accepts(VersionPattern, v)
    case GetBuild(p, v, b) => Accepts(ProjectName, p) && Accepts(VersionName, v) && Accepts(BuildNumber, b)
    case GetDownload(p, v, b, d) =>
      Accepts(ProjectName, p) && Accepts(VersionPattern, v) && Accepts(BuildPattern, b) && Accepts(DownloadPattern, d)
  }

  /** The `int` a matched build segment is converted to. */
  function BuildNumberOf(segment: string): nat
    requires Accepts(BuildNumber, segment)
  {
    DecimalValue(segment)
  }

  /** What the advice makes of a handler's error. */
  function ErrorResponseFor(e: ApiError): (r: Response)
    ensures r.Failure? <==> Advise(e).Some?
    ensures r.Failure? ==> r.error == Advise(e).value
    ensures r.Unhandled? ==> r.cause == e
  {
    match Advise(e)
    case Some(er) => Failure(er)
    case None => Unhandled(e)
  }

  function Respond<T>(r: Result<Reply<T>, ApiError>, wrap: T -> Body): Response {
    match r
    case Ok(reply) => Json(reply.cache, wrap(reply.body))
    case Err(e) => ErrorResponseFor(e)
  }

  /** The JSON endpoints. */
  function Dispatch(st: Store, req: Request): (resp: Response)
    requires !req.GetDownload?
    ensures !Routed(req) ==> resp == NoRoute
    ensures Routed(req) ==> resp != NoRoute && !resp.File?
    ensures resp.Json? ==> resp.cache == Api.DefaultCache()
  {
    if !Routed(req) then NoRoute
    else
      match req
      case GetProjects =>
        var reply := Projects(st);
        Json(reply.cache, ProjectsBody(reply.body))
      case GetProject(p) => Respond(ProjectHandler(st, p), b => ProjectBody(b))
      case GetGroup(p, g) => Respond(GroupHandler(st, p, g), b => GroupBody(b))
      case GetVersion(p, v) => Respond(VersionHandler(st, p, v), b => VersionBody(b))
      case GetBuilds(p, v) => Respond(BuildsHandler(st, p, v), b => BuildsBody(b))
      case GetBuild(p, v, n) => Respond(BuildHandler(st, p, v, BuildNumberOf(n)), b => BuildBody(b))
  }

  /** Every endpoint, the download one included. */
  method Serve(st: Store, root: Path, files: set<Path>, req: Request) returns (resp: Response)
    ensures !Routed(req) ==> resp == NoRoute
    ensures !req.GetDownload? ==> resp == Dispatch(st, req)
    ensures req.GetDownload? && Routed(req) ==>
              && (resp.File? || resp == Failure(Error(InternalServerError, DownloadFailedMessage)))
              && (resp.File? <==>
                    var loc := Locate(st, root, req.project, req.version, BuildNumberOf(req.build), req.download);
                    loc.Ok? && Normalize(loc.value) in files)
  {
    if !req.GetDownload? {
      return Dispatch(st, req);
    }
    if !Routed(req) {
      return NoRoute;
    }
    var number := BuildNumberOf(req.build);
    var loc := Locate(st, root, req.project, req.version, number, req.download);
    if loc.Ok? {
      assert IsName(req.download) by {
        NoGrammarAdmitsSlash(req.download);
      }
      LocatedFileNameIsRequested(st, root, req.project, req.version, number, req.download);
    }
    var r := DownloadHandler(st, root, files, req.project, req.version, number, req.download);
    match r
    case Ok(archive) => return File(archive);
    case Err(e) => return ErrorResponseFor(e);
  }

  // ---------------------------------------------------------------------------
  // Scenarios
  // ---------------------------------------------------------------------------

  /** An unknown project is a 404 with the message "Project not found.". */
  lemma UnknownProjectIsNotFound(st: Store, name: string)
    requires Accepts(ProjectName, name)
    requires forall p :: p in st.projects ==> p.name != name
    ensures Dispatch(st, GetProject(name)) == Failure(ErrorResponse(404, ErrorBody("Project not found.")))
  {
  }

  /** An unknown version of a known project is a 404 with the message "Version not found.". */
  lemma UnknownVersionIsNotFound(st: Store, p: Project, version: string)
    requires Accepts(ProjectName, p.name) && Accepts(VersionName, version)
    requires UniqueNames(st) && p in st.projects
    requires forall v :: v in st.versions ==> v.project != p.id || v.name != version
    ensures Dispatch(st, GetVersion(p.name, version)) == Failure(ErrorResponse(404, ErrorBody("Version not found.")))
  {
    FindProjectByNameUnique(st, p);
  }

  /** A missing build has no handler in the advice: it is left to the framework. */
  lemma MissingBuildIsUnhandled(st: Store, p: Project, v: Version, segment: string)
    requires Accepts(ProjectName, p.name) && Accepts(VersionName, v.name) && Accepts(BuildNumber, segment)
    requires UniqueNames(st) && p in st.projects && v in st.versions && v.project == p.id
    requires forall b :: b in st.builds ==> b.project != p.id || b.version != v.id || b.number != BuildNumberOf(segment)
    ensures Dispatch(st, GetBuild(p.name, v.name, segment)) == Unhandled(BuildNotFound)
  {
    FindProjectByNameUnique(st, p);
    FindVersionByProjectAndNameUnique(st, v);
  }

  /** A project name with an upper-case letter, a digit or a '/' matches no route. */
  lemma MalformedProjectNameIsNotRouted(st: Store, name: string, i: int)
    requires 0 <= i < |name| && (IsUpper(name[i]) || IsDigit(name[i]) || name[i] == '/')
    ensures Dispatch(st, GetProject(name)) == NoRoute
  {
    ProjectNameRejects(name, i);
  }

  /** "v1.0" is not a version name, so no route matches it. */
  lemma PrefixedVersionIsNotRouted(st: Store, project: string)
    ensures Dispatch(st, GetVersion(project, "v1.0")) == NoRoute
  {
    VersionNameExamples();
  }

  /** Leading zeros in the build segment are read away: "007" and "7" ask for the same build. */
  lemma LeadingZerosIgnored()
    ensures BuildNumberOf("007") == BuildNumberOf("7") == 7
  {
    assert "007"[..2] == "00" && "00"[..1] == "0" && "0"[..0] == [];
    assert "7"[..0] == [];
  }
}
