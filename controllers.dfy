/**
 * The JSON endpoints (controller/v1): each handler resolves the path's names
 * one parent at a time, fails with the first missing link, and otherwise maps
 * the resolved records to its response record, sent with a cache policy.
 *
 * Response fields are named as in Dafny; their JSON names are given beside
 * them. `Project::id` and `project.id()`/`version.id()` are read as the
 * names.
 */
module Controllers {
  import opened Wrappers
  import opened Model
  import opened Ordering
  import opened Store
  import opened Throwables
  import opened Http
  import opened Api

  /** `ResponseEntity.ok().cacheControl(cache).body(body)` */
  datatype Reply<T> = Reply(cache: CacheControl, body: T)

  /** `{ projects }` */
  datatype ProjectsResponse = ProjectsResponse(projects: seq<string>)

  /** `{ project_id, project_name, groups, versions }` */
  datatype ProjectResponse = ProjectResponse(projectId: string, projectName: string, groups: seq<string>, versions: seq<string>)

  /** `{ project_id, project_name, group, versions }` */
  datatype GroupResponse = GroupResponse(projectId: string, projectName: string, group: string, versions: seq<string>)

  /** `{ project_id, project_name, version, builds }` */
  datatype VersionResponse = VersionResponse(projectId: string, projectName: string, version: string, builds: seq<int>)

  /** `{ project_id, project_name, version, build, timestamp, channel, displayMode, changes, downloads }` */
  datatype BuildResponse = BuildResponse(
    projectId: string, projectName: string, version: string,
    build: int, timestamp: Instant, channel: Channel, displayMode: DisplayMode,
    changes: seq<Change>, downloads: DownloadMap)

  /** One entry of the build list: `{ build, timestamp, channel, displayMode, changes, downloads }` */
  datatype ResponseBuild = ResponseBuild(
    build: int, timestamp: Instant, channel: Channel, displayMode: DisplayMode,
    changes: seq<Change>, downloads: DownloadMap)

  /** `{ project_id, project_name, version, builds }` of the build list */
  datatype BuildsResponse = BuildsResponse(projectId: string, projectName: string, version: string, builds: seq<ResponseBuild>)

  // ---------------------------------------------------------------------------
  // Stream maps
  // ---------------------------------------------------------------------------

  /** `stream().map(getter).toList()` for a name getter: one name per record, in order. */
  function Names<T>(s: seq<T>, name: T -> string): (r: seq<string>)
    ensures |r| == |s| && forall i :: 0 <= i < |s| ==> r[i] == name(s[i])
  {
    seq(|s|, i requires 0 <= i < |s| => name(s[i]))
  }

  function NameOfProject(p: Project): string { p.name }

  function NameOfGroup(g: Group): string { g.name }

  function NameOfVersion(v: Version): string { v.name }

  function BuildNumbers(bs: seq<Build>): (r: seq<int>)
    ensures |r| == |bs| && forall i :: 0 <= i < |bs| ==> r[i] == bs[i].number
  {
    seq(|bs|, i requires 0 <= i < |bs| => bs[i].number)
  }

  /** The `ResponseBuild` of a build: its six public fields, unchanged. */
  function ToResponseBuild(b: Build): (r: ResponseBuild)
    ensures r.build == b.number && r.timestamp == b.timestamp
    ensures r.channel == b.channel && r.displayMode == b.displayMode
    ensures r.changes == b.changes && r.downloads == b.downloads
  {
    ResponseBuild(b.number, b.timestamp, b.channel, b.displayMode, b.changes, b.downloads)
  }

  function ResponseBuilds(bs: seq<Build>): (r: seq<ResponseBuild>)
    ensures |r| == |bs| && forall i :: 0 <= i < |bs| ==> r[i] == ToResponseBuild(bs[i])
  {
    seq(|bs|, i requires 0 <= i < |bs| => ToResponseBuild(bs[i]))
  }

  // ---------------------------------------------------------------------------
  // Handlers
  // ---------------------------------------------------------------------------

  /** GET /v1/projects: the name of every stored project, in store order. */
  function Projects(st: Store): (r: Reply<ProjectsResponse>)
    ensures r.cache == DefaultCache()
    ensures |r.body.projects| == |st.projects|
    ensures forall i :: 0 <= i < |st.projects| ==> r.body.projects[i] == st.projects[i].name
  {
    Reply(DefaultCache(), ProjectsResponse(Names(FindProjects(st), NameOfProject)))
  }

  /**
   * GET /v1/projects/{project}: the project's name and friendly name, and the
   * names of its groups and of its versions in ascending timestamp order.
   */
  function ProjectHandler(st: Store, projectName: string): (r: Result<Reply<ProjectResponse>, ApiError>)
    ensures r.Err? <==> forall p :: p in st.projects ==> p.name != projectName
    ensures r.Err? ==> r.error == ProjectNotFound
    ensures r.Ok? ==> r.value.cache == DefaultCache()
    ensures r.Ok? ==> var p := FindProject(st, projectName).value;
                      && r.value.body.projectId == p.name == projectName
                      && r.value.body.projectName == p.friendlyName
                      && r.value.body.groups == Names(FindGroupsAsStream(st, p), NameOfGroup)
                      && r.value.body.versions == Names(FindVersionsAsStream(st, p), NameOfVersion)
  {
    match FindProject(st, projectName)
    case Err(e) => Err(e)
    case Ok(p) =>
      var groups := Names(SortGroups(FindAllGroupsByProject(st, p.id)), NameOfGroup);
      var versions := Names(SortVersions(FindAllVersionsByProject(st, p.id)), NameOfVersion);
      Ok(Reply(DefaultCache(), ProjectResponse(p.name, p.friendlyName, groups, versions)))
  }

  /**
   * GET /v1/projects/{project}/group/{group}: the names of the versions filed
   * under the group, in store order.
   */
  function GroupHandler(st: Store, projectName: string, groupName: string): (r: Result<Reply<GroupResponse>, ApiError>)
    ensures FindProject(st, projectName).Err? ==> r == Err(ProjectNotFound)
    ensures FindProject(st, projectName).Ok? ==>
              var p := FindProject(st, projectName).value;
              && (r.Err? <==> forall g :: g in st.groups ==> g.project != p.id || g.name != groupName)
              && (r.Err? ==> r.error == GroupNotFound)
    ensures r.Ok? ==> var p := FindProject(st, projectName).value;
                      var g := FindGroup(st, p, groupName).value;
                      && r.value.cache == DefaultCache()
                      && r.value.body.projectId == projectName
                      && r.value.body.projectName == p.friendlyName
                      && r.value.body.group == groupName
                      && r.value.body.versions == Names(FindAllVersionsByProjectAndGroup(st, p.id, g.id), NameOfVersion)
  {
    match FindProject(st, projectName)
    case Err(e) => Err(e)
    case Ok(p) =>
      match FindGroup(st, p, groupName)
      case Err(e) => Err(e)
      case Ok(g) =>
        var versions := Names(FindAllVersionsByProjectAndGroup(st, p.id, g.id), NameOfVersion);
        Ok(Reply(DefaultCache(), GroupResponse(p.name, p.friendlyName, g.name, versions)))
  }

  /** GET /v1/projects/{project}/versions/{version}: the version's build numbers, in store order. */
  function VersionHandler(st: Store, projectName: string, versionName: string): (r: Result<Reply<VersionResponse>, ApiError>)
    ensures FindProject(st, projectName).Err? ==> r == Err(ProjectNotFound)
    ensures FindProject(st, projectName).Ok? ==>
              var p := FindProject(st, projectName).value;
              && (r.Err? <==> forall v :: v in st.versions ==> v.project != p.id || v.name != versionName)
              && (r.Err? ==> r.error == VersionNotFound)
    ensures r.Ok? ==> var p := FindProject(st, projectName).value;
                      var v := FindVersion(st, p, versionName).value;
                      && r.value.cache == DefaultCache()
                      && r.value.body.projectId == projectName
                      && r.value.body.projectName == p.friendlyName
                      && r.value.body.version == versionName
                      && r.value.body.builds == BuildNumbers(FindAllBuildsByProjectAndVersion(st, p.id, v.id))
  {
    match FindProject(st, projectName)
    case Err(e) => Err(e)
    case Ok(p) =>
      match FindVersion(st, p, versionName)
      case Err(e) => Err(e)
      case Ok(v) =>
        var builds := FindAllBuildsByProjectAndVersion(st, p.id, v.id);
        Ok(Reply(DefaultCache(), VersionResponse(p.name, p.friendlyName, v.name, BuildNumbers(builds))))
  }

  /**
   * GET /v1/projects/{project}/versions/{version}/builds/{build}: the first
   * missing link decides the error; otherwise the build's public fields.
   */
  function BuildHandler(st: Store, projectName: string, versionName: string, number: int): (r: Result<Reply<BuildResponse>, ApiError>)
    ensures FindProject(st, projectName).Err? ==> r == Err(ProjectNotFound)
    ensures FindProject(st, projectName).Ok? ==>
              var p := FindProject(st, projectName).value;
              FindVersion(st, p, versionName).Err? ==> r == Err(VersionNotFound)
    ensures FindProject(st, projectName).Ok? ==>
              var p := FindProject(st, projectName).value;
              FindVersion(st, p, versionName).Ok? ==>
                var v := FindVersion(st, p, versionName).value;
                && (r.Err? <==> forall b :: b in st.builds ==> b.project != p.id || b.version != v.id || b.number != number)
                && (r.Err? ==> r.error == BuildNotFound)
    ensures r.Ok? ==> var p := FindProject(st, projectName).value;
                      var v := FindVersion(st, p, versionName).value;
                      var b := FindBuild(st, p, v, number).value;
                      && BuildResolved(st, projectName, versionName, number, p, v, b)
                      && r.value.cache == DefaultCache()
                      && r.value.body == BuildResponse(
                           p.name, p.friendlyName, v.name, b.number, b.timestamp,
                           b.channel, b.displayMode, b.changes, b.downloads)
  {
    match FindProject(st, projectName)
    case Err(e) => Err(e)
    case Ok(p) =>
      match FindVersion(st, p, versionName)
      case Err(e) => Err(e)
      case Ok(v) =>
        match FindBuild(st, p, v, number)
        case Err(e) => Err(e)
        case Ok(b) =>
          Ok(Reply(DefaultCache(), BuildResponse(p.name, p.friendlyName, v.name, b.number, b.timestamp,
                                                 b.channel, b.displayMode, b.changes, b.downloads)))
  }

  /**
   * GET /v1/projects/{project}/versions/{version}/builds: one entry per stored
   * build of the version, in store order; `project_name` here is the project's
   * name, not its friendly name.
   */
  function BuildsHandler(st: Store, projectName: string, versionName: string): (r: Result<Reply<BuildsResponse>, ApiError>)
    ensures FindProject(st, projectName).Err? ==> r == Err(ProjectNotFound)
    ensures FindProject(st, projectName).Ok? ==>
              var p := FindProject(st, projectName).value;
              && (r.Err? <==> forall v :: v in st.versions ==> v.project != p.id || v.name != versionName)
              && (r.Err? ==> r.error == VersionNotFound)
    ensures r.Ok? ==> var p := FindProject(st, projectName).value;
                      var v := FindVersion(st, p, versionName).value;
                      && r.value.cache == DefaultCache()
                      && r.value.body.projectId == projectName
                      && r.value.body.projectName == projectName
                      && r.value.body.version == versionName
                      && r.value.body.builds == ResponseBuilds(FindAllBuildsByProjectAndVersion(st, p.id, v.id))
  {
    match FindProject(st, projectName)
    case Err(e) => Err(e)
    case Ok(p) =>
      match FindVersion(st, p, versionName)
      case Err(e) => Err(e)
      case Ok(v) =>
        var builds := ResponseBuilds(FindAllBuildsByProjectAndVersion(st, p.id, v.id));
        Ok(Reply(DefaultCache(), BuildsResponse(p.name, p.name, v.name, builds)))
  }

  // ---------------------------------------------------------------------------
  // Properties across the handlers
  // ---------------------------------------------------------------------------

  /**
   * The project endpoint's lists have exactly as many entries as the store
   * holds groups and versions of the project.
   */
  lemma ProjectListsAreComplete(st: Store, projectName: string)
    requires ProjectHandler(st, projectName).Ok?
    ensures var p := FindProject(st, projectName).value;
            var body := ProjectHandler(st, projectName).value.body;
            && |body.groups| == |FindAllGroupsByProject(st, p.id)|
            && |body.versions| == |FindAllVersionsByProject(st, p.id)|
  {
    var p := FindProject(st, projectName).value;
    var gs := FindAllGroupsByProject(st, p.id);
    var vs := FindAllVersionsByProject(st, p.id);
    assert |multiset(SortGroups(gs))| == |multiset(gs)|;
    assert |multiset(SortVersions(vs))| == |multiset(vs)|;
  }

  /** The version list of the project endpoint and the build list agree on the project's identity. */
  lemma ProjectIdIsName(st: Store, projectName: string, versionName: string)
    requires VersionHandler(st, projectName, versionName).Ok?
    ensures BuildsHandler(st, projectName, versionName).Ok?
    ensures BuildsHandler(st, projectName, versionName).value.body.projectId
            == VersionHandler(st, projectName, versionName).value.body.projectId
    ensures |BuildsHandler(st, projectName, versionName).value.body.builds|
            == |VersionHandler(st, projectName, versionName).value.body.builds|
  {
  }

  /**
   * The build list and the version endpoint list the same builds, in the same
   * order: the list's i-th entry carries the i-th build number.
   */
  lemma BuildListMatchesNumbers(st: Store, projectName: string, versionName: string)
    requires VersionHandler(st, projectName, versionName).Ok?
    ensures var numbers := VersionHandler(st, projectName, versionName).value.body.builds;
            var list := BuildsHandler(st, projectName, versionName).value.body.builds;
            |list| == |numbers| && forall i :: 0 <= i < |list| ==> list[i].build == numbers[i]
  {
  }

  /** A build listed by the version endpoint can be fetched on its own. */
  lemma ListedBuildIsFound(st: Store, projectName: string, versionName: string, i: int)
    requires VersionHandler(st, projectName, versionName).Ok?
    requires 0 <= i < |VersionHandler(st, projectName, versionName).value.body.builds|
    ensures BuildHandler(st, projectName, versionName, VersionHandler(st, projectName, versionName).value.body.builds[i]).Ok?
  {
    var p := FindProject(st, projectName).value;
    var v := FindVersion(st, p, versionName).value;
    var bs := FindAllBuildsByProjectAndVersion(st, p.id, v.id);
    assert bs[i] in bs;
  }

  /** With unique names, the project endpoint reports the one project of that name. */
  lemma ProjectHandlerUnique(st: Store, p: Project)
    requires UniqueNames(st) && p in st.projects
    ensures ProjectHandler(st, p.name).Ok?
    ensures ProjectHandler(st, p.name).value.body.projectName == p.friendlyName
  {
    FindProjectByNameUnique(st, p);
  }
}
