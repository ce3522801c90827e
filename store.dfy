/**
 * The document store (database/repository): four collections held in their
 * natural (insertion) order, and the derived queries the repositories declare,
 * each read off its method name as a filter. A single-result query returns the
 * first matching document.
 */
module Store {
  import opened Wrappers
  import opened Model

  datatype Store = Store(
    projects: seq<Project>,
    groups: seq<Group>,
    versions: seq<Version>,
    builds: seq<Build>)

  // ---------------------------------------------------------------------------
  // Filtering and first match
  // ---------------------------------------------------------------------------

  /** The elements of `s` that satisfy `keep`, in their order in `s`. */
  function Select<T(!new)>(s: seq<T>, keep: T -> bool): (r: seq<T>)
    ensures forall x :: x in r <==> x in s && keep(x)
    ensures |r| <= |s|
  {
    if s == [] then []
    else
      var rest := Select(s[1..], keep);
      assert forall x :: x in s <==> x == s[0] || x in s[1..];
      if keep(s[0]) then [s[0]] + rest else rest
  }

  /** Filtering keeps the order: it distributes over concatenation. */
  lemma {:induction false} SelectAppend<T(!new)>(a: seq<T>, b: seq<T>, keep: T -> bool)
    ensures Select(a + b, keep) == Select(a, keep) + Select(b, keep)
  {
    if a == [] {
      assert a + b == b;
    } else {
      assert (a + b)[0] == a[0];
      assert (a + b)[1..] == a[1..] + b;
      SelectAppend(a[1..], b, keep);
    }
  }

  /** Filtering keeps every matching copy and drops every other one. */
  lemma {:induction false} SelectCounts<T(!new)>(s: seq<T>, keep: T -> bool, x: T)
    ensures multiset(Select(s, keep))[x] == if keep(x) then multiset(s)[x] else 0
  {
    if s != [] {
      SelectCounts(s[1..], keep, x);
      assert s == [s[0]] + s[1..];
    }
  }

  /** The first element of `s` that satisfies `keep`. */
  function FirstOf<T(!new)>(s: seq<T>, keep: T -> bool): (r: Option<T>)
    ensures r.Some? ==> r.value in s && keep(r.value)
    ensures r.None? <==> forall x :: x in s ==> !keep(x)
    ensures r == if Select(s, keep) == [] then None else Some(Select(s, keep)[0])
  {
    if s == [] then None
    else if keep(s[0]) then Some(s[0])
    else
      assert forall x :: x in s <==> x == s[0] || x in s[1..];
      FirstOf(s[1..], keep)
  }

  /** When exactly one element matches, the first match is that element. */
  lemma {:induction false} FirstOfUnique<T(!new)>(s: seq<T>, keep: T -> bool, x: T)
    requires x in s && keep(x)
    requires forall y :: y in s && keep(y) ==> y == x
    ensures FirstOf(s, keep) == Some(x)
  {
  }

  // ---------------------------------------------------------------------------
  // ProjectRepository
  // ---------------------------------------------------------------------------

  /** `findAll()`: every project, in store order. */
  function FindAllProjects(st: Store): seq<Project> {
    st.projects
  }

  /** `findByName(name)` */
  function FindProjectByName(st: Store, name: string): (r: Option<Project>)
    ensures r.Some? ==> r.value in st.projects && r.value.name == name
    ensures r.None? <==> forall p :: p in st.projects ==> p.name != name
  {
    FirstOf(st.projects, (p: Project) => p.name == name)
  }

  // ---------------------------------------------------------------------------
  // GroupRepository
  // ---------------------------------------------------------------------------

  /** `findAllByProject(project)` */
  function FindAllGroupsByProject(st: Store, project: Id): (r: seq<Group>)
    ensures forall g :: g in r <==> g in st.groups && g.project == project
  {
    Select(st.groups, (g: Group) => g.project == project)
  }

  /** `findByProjectAndName(project, name)` */
  function FindGroupByProjectAndName(st: Store, project: Id, name: string): (r: Option<Group>)
    ensures r.Some? ==> r.value in st.groups && r.value.project == project && r.value.name == name
    ensures r.None? <==> forall g :: g in st.groups ==> g.project != project || g.name != name
  {
    FirstOf(st.groups, (g: Group) => g.project == project && g.name == name)
  }

  // ---------------------------------------------------------------------------
  // VersionRepository
  // ---------------------------------------------------------------------------

  /** `findAllByProject(project)` */
  function FindAllVersionsByProject(st: Store, project: Id): (r: seq<Version>)
    ensures forall v :: v in r <==> v in st.versions && v.project == project
  {
    Select(st.versions, (v: Version) => v.project == project)
  }

  /** `findAllByProjectAndGroup(project, group)` */
  function FindAllVersionsByProjectAndGroup(st: Store, project: Id, group: Id): (r: seq<Version>)
    ensures forall v :: v in r <==> v in st.versions && v.project == project && v.group == Some(group)
  {
    Select(st.versions, (v: Version) => v.project == project && v.group == Some(group))
  }

  /** `findByProjectAndName(project, name)` */
  function FindVersionByProjectAndName(st: Store, project: Id, name: string): (r: Option<Version>)
    ensures r.Some? ==> r.value in st.versions && r.value.project == project && r.value.name == name
    ensures r.None? <==> forall v :: v in st.versions ==> v.project != project || v.name != name
  {
    FirstOf(st.versions, (v: Version) => v.project == project && v.name == name)
  }

  // ---------------------------------------------------------------------------
  // BuildRepository
  // ---------------------------------------------------------------------------

  /** `findAllByProjectAndVersion(project, version)` */
  function FindAllBuildsByProjectAndVersion(st: Store, project: Id, version: Id): (r: seq<Build>)
    ensures forall b :: b in r <==> b in st.builds && b.project == project && b.version == version
  {
    Select(st.builds, (b: Build) => b.project == project && b.version == version)
  }

  /** `findAllByProjectAndVersionIn(project, versions)` */
  function FindAllBuildsByProjectAndVersionIn(st: Store, project: Id, versions: set<Id>): (r: seq<Build>)
    ensures forall b :: b in r <==> b in st.builds && b.project == project && b.version in versions
  {
    Select(st.builds, (b: Build) => b.project == project && b.version in versions)
  }

  /** `findByProjectAndVersionAndNumber(project, version, number)` */
  function FindBuildByProjectAndVersionAndNumber(st: Store, project: Id, version: Id, number: int): (r: Option<Build>)
    ensures r.Some? ==> r.value in st.builds && r.value.project == project
                        && r.value.version == version && r.value.number == number
    ensures r.None? <==> forall b :: b in st.builds ==>
                           b.project != project || b.version != version || b.number != number
  {
    FirstOf(st.builds, (b: Build) => b.project == project && b.version == version && b.number == number)
  }

  // ---------------------------------------------------------------------------
  // Uniqueness of names, as the ingestion script keeps it
  // ---------------------------------------------------------------------------

  /** Project names are unique; group and version names are unique within a project. */
  predicate UniqueNames(st: Store) {
    && (forall p, q :: p in st.projects && q in st.projects && p.name == q.name ==> p == q)
    && (forall g, h :: g in st.groups && h in st.groups && g.project == h.project && g.name == h.name ==> g == h)
    && (forall v, w :: v in st.versions && w in st.versions && v.project == w.project && v.name == w.name ==> v == w)
  }

  /** With unique names, a name lookup returns the one project that has the name. */
  lemma FindProjectByNameUnique(st: Store, p: Project)
    requires UniqueNames(st) && p in st.projects
    ensures FindProjectByName(st, p.name) == Some(p)
  {
    FirstOfUnique(st.projects, (q: Project) => q.name == p.name, p);
  }

  /** With unique names, a version lookup returns the one version of that project with the name. */
  lemma FindVersionByProjectAndNameUnique(st: Store, v: Version)
    requires UniqueNames(st) && v in st.versions
    ensures FindVersionByProjectAndName(st, v.project, v.name) == Some(v)
  {
    FirstOfUnique(st.versions, (w: Version) => w.project == v.project && w.name == v.name, v);
  }

  /** With unique names, a group lookup returns the one group of that project with the name. */
  lemma FindGroupByProjectAndNameUnique(st: Store, g: Group)
    requires UniqueNames(st) && g in st.groups
    ensures FindGroupByProjectAndName(st, g.project, g.name) == Some(g)
  {
    FirstOfUnique(st.groups, (h: Group) => h.project == g.project && h.name == g.name, g);
  }
}
