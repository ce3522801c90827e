/**
 * The resolver shared by the controllers (ApiController.java): one store query
 * per step, each scoped by the internal id of the parent resolved before it,
 * failing with the step's own not-found error; the sorted listings of a
 * project's groups and versions; and the default cache policy.
 *
 * Lookups go by name: `findById(String)` and `findByProjectAndId` are read as
 * the repositories' `findByName` and `findByProjectAndName`.
 */
module Api {
  import opened Wrappers
  import opened Model
  import opened Ordering
  import opened Store
  import opened Throwables
  import opened Http

  /** `findProject(name)` */
  function FindProject(st: Store, name: string): (r: Result<Project, ApiError>)
    ensures r.Ok? ==> r.value in st.projects && r.value.name == name
    ensures r.Err? <==> forall p :: p in st.projects ==> p.name != name
    ensures r.Err? ==> r.error == ProjectNotFound
  {
    match FindProjectByName(st, name)
    case Some(p) => Ok(p)
    case None => Err(ProjectNotFound)
  }

  /** `findVersion(project, name)`: only versions of this project are candidates. */
  function FindVersion(st: Store, project: Project, name: string): (r: Result<Version, ApiError>)
    ensures r.Ok? ==> r.value in st.versions && r.value.project == project.id && r.value.name == name
    ensures r.Err? <==> forall v :: v in st.versions ==> v.project != project.id || v.name != name
    ensures r.Err? ==> r.error == VersionNotFound
  {
    match FindVersionByProjectAndName(st, project.id, name)
    case Some(v) => Ok(v)
    case None => Err(VersionNotFound)
  }

  /** `findBuild(project, version, number)` */
  function FindBuild(st: Store, project: Project, version: Version, number: int): (r: Result<Build, ApiError>)
    ensures r.Ok? ==> r.value in st.builds && r.value.project == project.id
                      && r.value.version == version.id && r.value.number == number
    ensures r.Err? <==> forall b :: b in st.builds ==>
                          b.project != project.id || b.version != version.id || b.number != number
    ensures r.Err? ==> r.error == BuildNotFound
  {
    match FindBuildByProjectAndVersionAndNumber(st, project.id, version.id, number)
    case Some(b) => Ok(b)
    case None => Err(BuildNotFound)
  }

  /** The group lookup of the group endpoint: by name, within the project. */
  function FindGroup(st: Store, project: Project, name: string): (r: Result<Group, ApiError>)
    ensures r.Ok? ==> r.value in st.groups && r.value.project == project.id && r.value.name == name
    ensures r.Err? <==> forall g :: g in st.groups ==> g.project != project.id || g.name != name
    ensures r.Err? ==> r.error == GroupNotFound
  {
    match FindGroupByProjectAndName(st, project.id, name)
    case Some(g) => Ok(g)
    case None => Err(GroupNotFound)
  }

  /** `b` is a stored build numbered `number` of the version so named of the project so named. */
  predicate BuildResolved(st: Store, projectName: string, versionName: string, number: int,
                          p: Project, v: Version, b: Build)
  {
    && p in st.projects && p.name == projectName
    && v in st.versions && v.project == p.id && v.name == versionName
    && b in st.builds && b.project == p.id && b.version == v.id && b.number == number
  }

  /**
   * `findGroupsAsStream(project)`: exactly the project's groups, each as often as
   * stored, in ascending timestamp order; groups with equal timestamps keep
   * their store order.
   */
  function FindGroupsAsStream(st: Store, project: Project): (r: seq<Group>)
    ensures forall g :: multiset(r)[g] == if g.project == project.id then multiset(st.groups)[g] else 0
    ensures forall i, j :: 0 <= i < j < |r| ==> r[i].timestamp <= r[j].timestamp
    ensures forall t :: WithKey(r, GroupTimestamp, t) == WithKey(FindAllGroupsByProject(st, project.id), GroupTimestamp, t)
  {
    var keep := (g: Group) => g.project == project.id;
    assert forall g :: multiset(Select(st.groups, keep))[g] == if keep(g) then multiset(st.groups)[g] else 0 by {
      forall g ensures multiset(Select(st.groups, keep))[g] == if keep(g) then multiset(st.groups)[g] else 0 {
        SelectCounts(st.groups, keep, g);
      }
    }
    SortGroups(FindAllGroupsByProject(st, project.id))
  }

  /**
   * `findVersionsAsStream(project)`: exactly the project's versions, each as often
   * as stored, in ascending timestamp order; versions with equal timestamps keep
   * their store order.
   */
  function FindVersionsAsStream(st: Store, project: Project): (r: seq<Version>)
    ensures forall v :: multiset(r)[v] == if v.project == project.id then multiset(st.versions)[v] else 0
    ensures forall i, j :: 0 <= i < j < |r| ==> r[i].timestamp <= r[j].timestamp
    ensures forall t :: WithKey(r, VersionTimestamp, t) == WithKey(FindAllVersionsByProject(st, project.id), VersionTimestamp, t)
  {
    var keep := (v: Version) => v.project == project.id;
    assert forall v :: multiset(Select(st.versions, keep))[v] == if keep(v) then multiset(st.versions)[v] else 0 by {
      forall v ensures multiset(Select(st.versions, keep))[v] == if keep(v) then multiset(st.versions)[v] else 0 {
        SelectCounts(st.versions, keep, v);
      }
    }
    SortVersions(FindAllVersionsByProject(st, project.id))
  }

  /** `findProjects()`: all projects, unsorted and unfiltered. */
  function FindProjects(st: Store): seq<Project> {
    FindAllProjects(st)
  }

  /** `defaultCache()`: public, shared caches may keep it 30 minutes, nothing else. */
  function DefaultCache(): (c: CacheControl)
    ensures c.cachePublic && c.sMaxAge == Some(1800)
    ensures c.maxAge.None? && !c.noCache && !c.noStore && !c.mustRevalidate && !c.cachePrivate
  {
    SMaxAge(CachePublic(EmptyCache()), Minutes(30))
  }

  /** The version lookup depends on the parent only through its internal id. */
  lemma FindVersionUsesParentId(st: Store, p: Project, q: Project, name: string)
    requires p.id == q.id
    ensures FindVersion(st, p, name) == FindVersion(st, q, name)
  {
  }

  /**
   * Two projects may each have a version of the same name; resolving under one
   * never yields the other's.
   */
  lemma FindVersionIsScoped(st: Store, a: Project, b: Project, name: string)
    requires a.id != b.id
    requires FindVersion(st, a, name).Ok?
    ensures FindVersion(st, a, name).value.project != b.id
  {
  }
}
