/**
 * The stored records (database/model): projects, groups, versions and builds,
 * with the enums of a build, the pattern constants attached to the records and
 * the timestamp comparators of versions and groups.
 *
 * Mongo ObjectIds are integers and `Instant`s are integers (the instant's
 * position on the time line); a missing reference (`null`) is `None`.
 */
module Model {
  import opened Wrappers
  import opened Patterns
  import opened Ordering

  type Id = int
  type Instant = int

  datatype Project = Project(id: Id, name: string, friendlyName: string)

  datatype Group = Group(id: Id, project: Id, name: string, timestamp: Instant)

  datatype Version = Version(id: Id, project: Id, group: Option<Id>, name: string, timestamp: Instant)

  datatype Channel = Default | Experimental

  datatype DisplayMode = Hide | Promote

  datatype Change = Change(commit: string, summary: string, message: string)

  datatype Download = Download(name: string, sha256: string)

  /**
   * A build's `Map<String, Download>`, as the ordered list of its entries: the
   * key is a role ("application"), the value names the file separately.
   */
  type DownloadMap = seq<(string, Download)>

  datatype Build = Build(
    id: Id,
    project: Id,
    version: Id,
    number: int,
    timestamp: Instant,
    changes: seq<Change>,
    downloads: DownloadMap,
    channel: Channel,
    displayMode: DisplayMode)

  /** Each key occurs once, as in any `Map`. */
  predicate UniqueKeys(m: DownloadMap) {
    forall i, j :: 0 <= i < j < |m| ==> m[i].0 != m[j].0
  }

  // ---------------------------------------------------------------------------
  // Pattern constants of the records
  // ---------------------------------------------------------------------------

  /** Version.PATTERN, the same pattern text as Patterns.VERSION_NAME. */
  const VersionPattern: Grammar := VersionName

  /** Build.PATTERN, the same pattern text as Patterns.BUILD_NUMBER. */
  const BuildPattern: Grammar := BuildNumber

  /** Build.Download.PATTERN, the same pattern text as Patterns.DOWNLOAD_NAME. */
  const DownloadPattern: Grammar := DownloadName

  // ---------------------------------------------------------------------------
  // Enum names: the JSON wire names and the names under which Mongo stores them
  // ---------------------------------------------------------------------------

  function ChannelWireName(c: Channel): string {
    match c
    case Default => "default"
    case Experimental => "experimental"
  }

  function ChannelFromWireName(s: string): (r: Option<Channel>)
    ensures r.Some? <==> s == "default" || s == "experimental"
    ensures r.Some? ==> ChannelWireName(r.value) == s
  {
    if s == "default" then Some(Default)
    else if s == "experimental" then Some(Experimental)
    else None
  }

  lemma ChannelWireNameRoundTrip(c: Channel)
    ensures ChannelFromWireName(ChannelWireName(c)) == Some(c)
  {
  }

  function DisplayModeWireName(d: DisplayMode): string {
    match d
    case Hide => "hide"
    case Promote => "promote"
  }

  function DisplayModeFromWireName(s: string): (r: Option<DisplayMode>)
    ensures r.Some? <==> s == "hide" || s == "promote"
    ensures r.Some? ==> DisplayModeWireName(r.value) == s
  {
    if s == "hide" then Some(Hide)
    else if s == "promote" then Some(Promote)
    else None
  }

  lemma DisplayModeWireNameRoundTrip(d: DisplayMode)
    ensures DisplayModeFromWireName(DisplayModeWireName(d)) == Some(d)
  {
  }

  /** The constant names, which is how the ingestion script writes a channel. */
  function ChannelFromStoredName(s: string): (r: Option<Channel>)
    ensures r.Some? <==> s == "DEFAULT" || s == "EXPERIMENTAL"
    ensures r == Some(Default) <==> s == "DEFAULT"
  {
    if s == "DEFAULT" then Some(Default)
    else if s == "EXPERIMENTAL" then Some(Experimental)
    else None
  }

  function DisplayModeFromStoredName(s: string): (r: Option<DisplayMode>)
    ensures r.Some? <==> s == "HIDE" || s == "PROMOTE"
    ensures r == Some(Hide) <==> s == "HIDE"
  {
    if s == "HIDE" then Some(Hide)
    else if s == "PROMOTE" then Some(Promote)
    else None
  }

  // ---------------------------------------------------------------------------
  // Comparators: Version.COMPARATOR and Group.COMPARATOR
  // ---------------------------------------------------------------------------

  /** `Instant.compareTo`, up to the magnitude of a non-zero answer. */
  function CompareInstants(x: Instant, y: Instant): int {
    if x < y then -1 else if x == y then 0 else 1
  }

  function VersionTimestamp(v: Version): Instant { v.timestamp }

  function GroupTimestamp(g: Group): Instant { g.timestamp }

  /**
   * `Comparator.comparing(key)` over an `Instant` key, as Version.COMPARATOR and
   * Group.COMPARATOR compare timestamps: only the keys are compared.
   */
  function Comparing<T>(key: T -> Instant, a: T, b: T): (r: int)
    ensures r < 0 <==> key(a) < key(b)
    ensures r == 0 <==> key(a) == key(b)
  {
    CompareInstants(key(a), key(b))
  }

  /**
   * `stream().sorted(Version.COMPARATOR)`: in COMPARATOR order, a permutation of
   * the input, and versions with equal timestamps keep their input order.
   */
  function SortVersions(vs: seq<Version>): (r: seq<Version>)
    ensures multiset(r) == multiset(vs)
    ensures forall i, j :: 0 <= i < j < |r| ==> Comparing(VersionTimestamp, r[i], r[j]) <= 0
    ensures forall t :: WithKey(r, VersionTimestamp, t) == WithKey(vs, VersionTimestamp, t)
  {
    var r := StableSort(vs, VersionTimestamp);
    assert forall t :: WithKey(r, VersionTimestamp, t) == WithKey(vs, VersionTimestamp, t) by {
      forall t ensures WithKey(r, VersionTimestamp, t) == WithKey(vs, VersionTimestamp, t) {
        StableSortIsStable(vs, VersionTimestamp, t);
      }
    }
    r
  }

  /**
   * `stream().sorted(Group.COMPARATOR)`: in COMPARATOR order, a permutation of
   * the input, and groups with equal timestamps keep their input order.
   */
  function SortGroups(gs: seq<Group>): (r: seq<Group>)
    ensures multiset(r) == multiset(gs)
    ensures forall i, j :: 0 <= i < j < |r| ==> Comparing(GroupTimestamp, r[i], r[j]) <= 0
    ensures forall t :: WithKey(r, GroupTimestamp, t) == WithKey(gs, GroupTimestamp, t)
  {
    var r := StableSort(gs, GroupTimestamp);
    assert forall t :: WithKey(r, GroupTimestamp, t) == WithKey(gs, GroupTimestamp, t) by {
      forall t ensures WithKey(r, GroupTimestamp, t) == WithKey(gs, GroupTimestamp, t) {
        StableSortIsStable(gs, GroupTimestamp, t);
      }
    }
    r
  }

  /** Sorting versions is deterministic: nothing but the three properties above decides the order. */
  lemma SortVersionsUnique(vs: seq<Version>, r: seq<Version>)
    requires forall i, j :: 0 <= i < j < |r| ==> Comparing(VersionTimestamp, r[i], r[j]) <= 0
    requires forall t :: WithKey(r, VersionTimestamp, t) == WithKey(vs, VersionTimestamp, t)
    ensures r == SortVersions(vs)
  {
    StableSortUnique(vs, r, VersionTimestamp);
  }

  /** Sorting groups is deterministic: nothing but the three properties above decides the order. */
  lemma SortGroupsUnique(gs: seq<Group>, r: seq<Group>)
    requires forall i, j :: 0 <= i < j < |r| ==> Comparing(GroupTimestamp, r[i], r[j]) <= 0
    requires forall t :: WithKey(r, GroupTimestamp, t) == WithKey(gs, GroupTimestamp, t)
    ensures r == SortGroups(gs)
  {
    StableSortUnique(gs, r, GroupTimestamp);
  }

  /** Versions inserted with timestamps [t3, t1, t2] are listed as [t1, t2, t3]. */
  lemma SortVersionsExample(a: Version, b: Version, c: Version)
    requires a.timestamp == 3 && b.timestamp == 1 && c.timestamp == 2
    ensures SortVersions([a, b, c]) == [b, c, a]
  {
    var r := [b, c, a];
    forall t ensures WithKey(r, VersionTimestamp, t) == WithKey([a, b, c], VersionTimestamp, t) {
      var A, B, C := (if t == 3 then [a] else []), (if t == 1 then [b] else []), (if t == 2 then [c] else []);
      assert [a][1..] == [] && [c][1..] == [];
      assert WithKey([a], VersionTimestamp, t) == A;
      assert WithKey([c], VersionTimestamp, t) == C;
      assert [c, a][1..] == [a] && [b, c][1..] == [c];
      assert WithKey([c, a], VersionTimestamp, t) == C + A;
      assert WithKey([b, c], VersionTimestamp, t) == B + C;
      assert r[1..] == [c, a] && [a, b, c][1..] == [b, c];
      assert WithKey(r, VersionTimestamp, t) == B + (C + A);
      assert WithKey([a, b, c], VersionTimestamp, t) == A + (B + C);
    }
    SortVersionsUnique([a, b, c], r);
  }
}
