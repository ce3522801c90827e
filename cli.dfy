/**
 * The ingestion script (cli/insertBuild.js): check the options, write or reuse
 * the project, group and version, number the build, copy its files under
 * `storage/project/version/number/` and insert the build with its download map.
 *
 * The database is the store of the read path, held by a `Database` object whose
 * methods stand for the driver calls. File existence is a set of path strings,
 * the commit log a function from the starting commit to the changes, and the
 * clock a parameter.
 */
module Cli {
  import opened Wrappers
  import opened Patterns
  import opened Model
  import opened Store
  import opened Paths
  import opened Decimal

  // ---------------------------------------------------------------------------
  // Strings
  // ---------------------------------------------------------------------------

  /** `toUpperCase` on one character, ASCII letters only. */
  function UpperChar(c: char): (u: char)
    ensures IsLower(c) ==> IsUpper(u)
    ensures !IsLower(c) ==> u == c
  {
    if IsLower(c) then (c as int - 'a' as int + 'A' as int) as char else c
  }

  function ToUpper(s: string): (r: string)
    ensures |r| == |s| && forall i :: 0 <= i < |s| ==> r[i] == UpperChar(s[i])
  {
    seq(|s|, i requires 0 <= i < |s| => UpperChar(s[i]))
  }

  /** Upper-casing twice is upper-casing once. */
  lemma ToUpperIdempotent(s: string)
    ensures ToUpper(ToUpper(s)) == ToUpper(s)
  {
  }

  /** `s.split(sep)`: the pieces between separators, empty ones kept; never an empty list. */
  function Split(s: string, sep: char): (r: seq<string>)
    ensures |r| >= 1
    ensures forall i :: 0 <= i < |r| ==> sep !in r[i]
    decreases |s|
  {
    if s == [] then [""]
    else
      var rest := Split(s[1..], sep);
      if s[0] == sep then [""] + rest
      else [[s[0]] + rest[0]] + rest[1..]
  }

  /** `parts.join(sep)` */
  function JoinWith(parts: seq<string>, sep: char): string
    requires |parts| >= 1
    decreases |parts|
  {
    if |parts| == 1 then parts[0] else parts[0] + [sep] + JoinWith(parts[1..], sep)
  }

  /** Splitting loses nothing: joining the pieces back gives the string. */
  lemma {:induction false} SplitJoin(s: string, sep: char)
    ensures JoinWith(Split(s, sep), sep) == s
    decreases |s|
  {
    if s != [] {
      var rest := Split(s[1..], sep);
      SplitJoin(s[1..], sep);
      if s[0] == sep {
        assert ([""] + rest)[1..] == rest;
      } else {
        var r := [[s[0]] + rest[0]] + rest[1..];
        if |rest| == 1 {
          assert JoinWith(rest, sep) == rest[0];
        } else {
          assert r[1..] == rest[1..];
          assert JoinWith(rest, sep) == rest[0] + [sep] + JoinWith(rest[1..], sep);
        }
        assert s == [s[0]] + s[1..];
      }
    }
  }

  /** The position of the first `c` in `s`, or `|s|` when there is none. */
  function FirstIndex(s: string, c: char): (i: nat)
    ensures i <= |s| && c !in s[..i]
    ensures i < |s| ==> s[i] == c
    ensures i == |s| <==> c !in s
    decreases |s|
  {
    if s == [] then 0
    else if s[0] == c then 0
    else
      var i := 1 + FirstIndex(s[1..], c);
      assert s[..i] == [s[0]] + s[1..][..i - 1];
      assert i < |s| ==> s[i] == s[1..][i - 1];
      assert c in s ==> c in s[1..] by {
        if c in s { var k :| 0 <= k < |s| && s[k] == c; assert s[1..][k - 1] == c; }
      }
      i
  }

  /** `s.replace(".", ":")`: only the first dot is replaced. */
  function ReplaceFirstDot(s: string): (r: string)
    ensures |r| == |s|
    ensures '.' !in s ==> r == s
    ensures '.' in s ==> exists i :: 0 <= i < |s| && s[i] == '.' && '.' !in s[..i] && r == s[..i] + ":" + s[i + 1..]
  {
    var i := FirstIndex(s, '.');
    if i == |s| then s else s[..i] + ":" + s[i + 1..]
  }

  /** A type with two dots keeps its second one. */
  lemma ReplaceFirstDotExample()
    ensures ReplaceFirstDot("a.b.c") == "a:b.c"
  {
    assert FirstIndex("a.b.c", '.') == 1 by {
      assert "a.b.c"[1..] == ".b.c";
    }
  }

  // ---------------------------------------------------------------------------
  // checkOptions
  // ---------------------------------------------------------------------------

  const StandardChannels: seq<string> := ["DEFAULT", "EXPERIMENTAL"]

  /** `new Download(type, path, hash, name)`; `name` is `null` for a primary download. */
  datatype DownloadSpec = DownloadSpec(kind: string, path: string, hash: string, name: Option<string>)

  /** Why the script stops: each `process.exit(1)`, and the TypeError of a spec with fewer than three fields. */
  datatype CliError =
    | UnknownChannel(channel: string)
    | TooManyPrimary
    | TypeError(spec: string)
    | NoDownloadsLeft

  datatype Options = Options(channel: string, downloads: seq<DownloadSpec>)

  /** One `--download` value: four or more fields name the file, three make it primary, fewer are not a download. */
  function ParseDownload(spec: string): (r: Option<DownloadSpec>)
    ensures r.Some? <==> |Split(spec, ':')| >= 3
    ensures r.Some? ==> (r.value.name.None? <==> |Split(spec, ':')| == 3)
  {
    var data := Split(spec, ':');
    if |data| >= 4 then Some(DownloadSpec(data[0], data[1], data[2], Some(data[3])))
    else if |data| == 3 then Some(DownloadSpec(data[0], data[1], data[2], None))
    else None
  }

  predicate IsPrimarySpec(spec: string) {
    |Split(spec, ':')| == 3
  }

  /** The number of three-field specs. */
  function PrimarySpecs(specs: seq<string>): nat
    decreases |specs|
  {
    if specs == [] then 0 else (if IsPrimarySpec(specs[0]) then 1 else 0) + PrimarySpecs(specs[1..])
  }

  /** The parse of every spec that is a download, in order. */
  function ParsedSpecs(specs: seq<string>): (r: seq<DownloadSpec>)
    ensures (forall i :: 0 <= i < |specs| ==> ParseDownload(specs[i]).Some?) ==>
              |r| == |specs| && forall i :: 0 <= i < |specs| ==> r[i] == ParseDownload(specs[i]).value
    decreases |specs|
  {
    if specs == [] then []
    else
      var rest := ParsedSpecs(specs[1..]);
      assert forall i :: 1 <= i < |specs| ==> specs[i] == specs[1..][i - 1];
      match ParseDownload(specs[0])
      case Some(d) => [d] + rest
      case None => rest
  }

  /**
   * The `forEach` of checkOptions from some spec on, `primary` telling whether a
   * primary download was already seen: the downloads whose file exists, in order,
   * or the first spec's reason to stop.
   */
  function CheckDownloads(specs: seq<string>, files: set<string>, primary: bool): (r: Result<seq<DownloadSpec>, CliError>)
    ensures r.Ok? <==> && (forall i :: 0 <= i < |specs| ==> ParseDownload(specs[i]).Some?)
                       && PrimarySpecs(specs) + (if primary then 1 else 0) <= 1
    ensures r.Ok? ==> r.value == Select(ParsedSpecs(specs), (d: DownloadSpec) => d.path in files)
    ensures r.Err? ==> r.error == TooManyPrimary || r.error.TypeError?
    ensures r.Err? && r.error.TypeError? ==> r.error.spec in specs && ParseDownload(r.error.spec).None?
    decreases |specs|
  {
    if specs == [] then Ok([])
    else
      match ParseDownload(specs[0])
      case None => Err(TypeError(specs[0]))
      case Some(d) =>
        if d.name.None? && primary then Err(TooManyPrimary)
        else
          var rest := CheckDownloads(specs[1..], files, primary || d.name.None?);
          assert forall i :: 1 <= i < |specs| ==> specs[i] == specs[1..][i - 1];
          assert ParsedSpecs(specs) == [d] + ParsedSpecs(specs[1..]);
          assert ([d] + ParsedSpecs(specs[1..]))[1..] == ParsedSpecs(specs[1..]);
          if rest.Err? then
            assert rest.error.TypeError? ==> rest.error.spec in specs;
            rest
          else if d.path in files then Ok([d] + rest.value)
          else rest
  }

  /** What checkOptions leaves in the options, or why it stops the script. */
  function CheckOptionsSpec(channel: string, specs: seq<string>, files: set<string>): (r: Result<Options, CliError>)
    ensures r.Err? && r.error.UnknownChannel? <==> ToUpper(channel) !in StandardChannels
    ensures r.Ok? ==> r.value.channel == ToUpper(channel) && r.value.channel in StandardChannels
    ensures r.Ok? ==> r.value.downloads == Select(ParsedSpecs(specs), (d: DownloadSpec) => d.path in files)
    ensures r.Ok? ==> |r.value.downloads| >= 1
    ensures r == Err(NoDownloadsLeft) <==>
              && ToUpper(channel) in StandardChannels
              && (forall i :: 0 <= i < |specs| ==> ParseDownload(specs[i]).Some?)
              && PrimarySpecs(specs) <= 1
              && (forall i :: 0 <= i < |specs| ==> ParseDownload(specs[i]).value.path !in files)
    ensures r.Ok? <==>
              && ToUpper(channel) in StandardChannels
              && (forall i :: 0 <= i < |specs| ==> ParseDownload(specs[i]).Some?)
              && PrimarySpecs(specs) <= 1
              && (exists i :: 0 <= i < |specs| && ParseDownload(specs[i]).value.path in files)
  {
    var upper := ToUpper(channel);
    if upper !in StandardChannels then Err(UnknownChannel(upper))
    else
      match CheckDownloads(specs, files, false)
      case Err(e) => Err(e)
      case Ok(ds) =>
        NoneKeptIffNoFile(specs, files);
        if ds == [] then Err(NoDownloadsLeft) else Ok(Options(upper, ds))
  }

  /** Of specs that all parse, none is kept exactly when none names an existing file. */
  lemma NoneKeptIffNoFile(specs: seq<string>, files: set<string>)
    requires forall i :: 0 <= i < |specs| ==> ParseDownload(specs[i]).Some?
    ensures Select(ParsedSpecs(specs), (d: DownloadSpec) => d.path in files) == []
            <==> forall i :: 0 <= i < |specs| ==> ParseDownload(specs[i]).value.path !in files
  {
    var ps := ParsedSpecs(specs);
    var kept := Select(ps, (d: DownloadSpec) => d.path in files);
    if kept != [] {
      assert kept[0] in kept;
      var k :| 0 <= k < |ps| && ps[k] == kept[0];
      assert ParseDownload(specs[k]).value.path in files;
    } else {
      forall i | 0 <= i < |specs| ensures ParseDownload(specs[i]).value.path !in files {
        assert ps[i] in ps;
      }
    }
  }

  /** The result of the prefix already handled, followed by that of the rest. */
  function Then(done: seq<DownloadSpec>, rest: Result<seq<DownloadSpec>, CliError>): Result<seq<DownloadSpec>, CliError> {
    match rest
    case Ok(ds) => Ok(done + ds)
    case Err(e) => Err(e)
  }

  lemma ThenNothing(r: Result<seq<DownloadSpec>, CliError>)
    ensures Then([], r) == r
  {
    if r.Ok? {
      assert [] + r.value == r.value;
    }
  }

  lemma ThenAppend(a: seq<DownloadSpec>, b: seq<DownloadSpec>, r: Result<seq<DownloadSpec>, CliError>)
    ensures Then(a, Then(b, r)) == Then(a + b, r)
  {
    if r.Ok? {
      assert a + (b + r.value) == (a + b) + r.value;
    }
  }

  /** `checkOptions(options)` */
  method CheckOptions(channel: string, specs: seq<string>, files: set<string>) returns (r: Result<Options, CliError>)
    ensures r == CheckOptionsSpec(channel, specs, files)
  {
    var upper := ToUpper(channel);
    if upper !in StandardChannels {
      return Err(UnknownChannel(upper));
    }
    var primary := false;
    var downloads: seq<DownloadSpec> := [];
    var i := 0;
    assert specs[0..] == specs;
    ThenNothing(CheckDownloads(specs, files, false));
    while i < |specs|
      invariant 0 <= i <= |specs|
      invariant CheckDownloads(specs, files, false) == Then(downloads, CheckDownloads(specs[i..], files, primary))
    {
      assert specs[i..][0] == specs[i] && specs[i..][1..] == specs[i + 1..];
      var data := Split(specs[i], ':');
      var download: DownloadSpec;
      if |data| >= 4 {
        download := DownloadSpec(data[0], data[1], data[2], Some(data[3]));
      } else if |data| == 3 {
        if primary {
          return Err(TooManyPrimary);
        }
        download := DownloadSpec(data[0], data[1], data[2], None);
        primary := true;
      } else {
        return Err(TypeError(specs[i]));
      }
      if download.path in files {
        ThenAppend(downloads, [download], CheckDownloads(specs[i + 1..], files, primary));
        downloads := downloads + [download];
      }
      i := i + 1;
    }
    assert specs[i..] == [];
    assert downloads + [] == downloads;
    if |downloads| == 0 {
      return Err(NoDownloadsLeft);
    }
    return Ok(Options(upper, downloads));
  }

  /** Two three-field specs stop the script, however valid everything else is. */
  lemma TwoPrimariesRejected(channel: string, specs: seq<string>, files: set<string>, i: int, j: int)
    requires ToUpper(channel) in StandardChannels
    requires forall k :: 0 <= k < |specs| ==> |Split(specs[k], ':')| >= 3
    requires 0 <= i < j < |specs| && IsPrimarySpec(specs[i]) && IsPrimarySpec(specs[j])
    ensures CheckOptionsSpec(channel, specs, files) == Err(TooManyPrimary)
  {
    PrimarySpecsCounts(specs, i, j);
  }

  lemma {:induction false} PrimarySpecsCounts(specs: seq<string>, i: int, j: int)
    requires 0 <= i < j < |specs| && IsPrimarySpec(specs[i]) && IsPrimarySpec(specs[j])
    ensures PrimarySpecs(specs) >= 2
    decreases |specs|
  {
    if i > 0 {
      PrimarySpecsCounts(specs[1..], i - 1, j - 1);
    } else {
      PrimarySpecsOne(specs[1..], j - 1);
    }
  }

  lemma {:induction false} PrimarySpecsOne(specs: seq<string>, j: int)
    requires 0 <= j < |specs| && IsPrimarySpec(specs[j])
    ensures PrimarySpecs(specs) >= 1
    decreases |specs|
  {
    if j > 0 {
      PrimarySpecsOne(specs[1..], j - 1);
    }
  }

  /** "default" and "Experimental" are accepted as the two channels. */
  lemma ChannelsAreCaseInsensitive()
    ensures ToUpper("default") == "DEFAULT" && ToUpper("Experimental") == "EXPERIMENTAL"
    ensures ToUpper("stable") !in StandardChannels
  {
  }

  // ---------------------------------------------------------------------------
  // Names and paths
  // ---------------------------------------------------------------------------

  /** `generateName`: the given name unless it is absent or empty, else `project-version-build.jar`. */
  function GenerateName(d: DownloadSpec, projectName: string, versionName: string, number: int): (r: string)
    ensures d.name.Some? && d.name.value != "" ==> r == d.name.value
    ensures d.name.None? || d.name.value == "" ==> r == DefaultName(projectName, versionName, number)
  {
    if d.name.Some? && d.name.value != "" then d.name.value else DefaultName(projectName, versionName, number)
  }

  function DefaultName(projectName: string, versionName: string, number: int): string {
    projectName + "-" + versionName + "-" + IntToDecimal(number) + ".jar"
  }

  /** For names the read path accepts, the default file name is a valid download name itself. */
  lemma DefaultNameIsDownloadName(projectName: string, versionName: string, number: nat)
    requires IsProjectName(projectName) && IsVersionName(versionName)
    ensures IsDownloadName(DefaultName(projectName, versionName, number))
  {
    VersionNameIsDownloadName(versionName);
    var n := IntToDecimal(number);
    var s := DefaultName(projectName, versionName, number);
    forall k | 0 <= k < |s| ensures IsDownloadChar(s[k]) {
      var a := |projectName|;
      var b := a + 1 + |versionName|;
      var c := b + 1 + |n|;
      if k < a {
        assert s[k] == projectName[k];
      } else if k == a || k == b {
        assert s[k] == '-';
      } else if k < b {
        assert s[k] == versionName[k - a - 1];
      } else if k < c {
        assert s[k] == n[k - b - 1];
      } else {
        assert s[k] == ".jar"[k - c];
      }
    }
  }

  /** `buildStoragePath(storage, project, version, number)` */
  function BuildStoragePath(storage: string, projectName: string, versionName: string, number: int): Path {
    Join([storage, projectName, versionName, IntToDecimal(number)])
  }

  /** A `copyFileSync(source, target)`. */
  datatype Copy = Copy(source: string, target: Path)

  /** `copyDownload(download, folder, ...)`: from the download's path to its generated name in the folder. */
  function CopyOf(d: DownloadSpec, folder: Path, projectName: string, versionName: string, number: int): Copy {
    Copy(d.path, JoinTo(folder, GenerateName(d, projectName, versionName, number)))
  }

  /** The copies of `main`, one per download, in order. */
  function Copies(ds: seq<DownloadSpec>, folder: Path, projectName: string, versionName: string, number: int): (r: seq<Copy>)
    ensures |r| == |ds|
    ensures forall i :: 0 <= i < |ds| ==>
              r[i] == Copy(ds[i].path, JoinTo(folder, GenerateName(ds[i], projectName, versionName, number)))
  {
    seq(|ds|, i requires 0 <= i < |ds| => CopyOf(ds[i], folder, projectName, versionName, number))
  }

  // ---------------------------------------------------------------------------
  // The download map
  // ---------------------------------------------------------------------------

  function KeyOf(d: DownloadSpec): string {
    ReplaceFirstDot(d.kind)
  }

  function EntryOf(d: DownloadSpec, projectName: string, versionName: string, number: int): Download {
    Download(GenerateName(d, projectName, versionName, number), d.hash)
  }

  /** The value a map holds under `key`. */
  function Lookup(m: DownloadMap, key: string): (r: Option<Download>)
    ensures r.Some? <==> exists i :: 0 <= i < |m| && m[i].0 == key
    decreases |m|
  {
    if m == [] then None
    else if m[0].0 == key then Some(m[0].1)
    else
      var r := Lookup(m[1..], key);
      assert forall i :: 1 <= i < |m| ==> m[i] == m[1..][i - 1];
      r
  }

  /** `object[key] = value`: an existing key keeps its place and takes the new value, a new key goes last. */
  function Assign(m: DownloadMap, key: string, value: Download): (r: DownloadMap)
    ensures |r| == |m| || |r| == |m| + 1
    decreases |m|
  {
    if m == [] then [(key, value)]
    else if m[0].0 == key then [(key, value)] + m[1..]
    else [m[0]] + Assign(m[1..], key, value)
  }

  /** After the assignment the key holds the new value, and every other key what it held before. */
  lemma {:induction false} AssignLookup(m: DownloadMap, key: string, value: Download, k: string)
    ensures Lookup(Assign(m, key, value), k) == if k == key then Some(value) else Lookup(m, k)
    decreases |m|
  {
    if m != [] && m[0].0 != key {
      AssignLookup(m[1..], key, value, k);
      assert ([m[0]] + Assign(m[1..], key, value))[1..] == Assign(m[1..], key, value);
    } else if m != [] {
      assert ([(key, value)] + m[1..])[1..] == m[1..];
    }
  }

  /** The assignment adds no entry but the assigned one. */
  lemma {:induction false} AssignMembers(m: DownloadMap, key: string, value: Download)
    ensures forall e :: e in Assign(m, key, value) ==> e.0 == key || e in m
    decreases |m|
  {
    if m != [] && m[0].0 != key {
      AssignMembers(m[1..], key, value);
    }
  }

  /** The assignment keeps keys unique. */
  lemma {:induction false} AssignUnique(m: DownloadMap, key: string, value: Download)
    requires UniqueKeys(m)
    ensures UniqueKeys(Assign(m, key, value))
    decreases |m|
  {
    if m == [] {
    } else if m[0].0 == key {
      var r := [(key, value)] + m[1..];
      assert forall i :: 1 <= i < |r| ==> r[i] == m[i];
    } else {
      var rest := Assign(m[1..], key, value);
      AssignUnique(m[1..], key, value);
      AssignMembers(m[1..], key, value);
      var r := [m[0]] + rest;
      forall i | 0 <= i < |rest| ensures rest[i].0 != m[0].0 {
        assert rest[i] in rest;
        if rest[i].0 != key {
          var j :| 0 <= j < |m[1..]| && m[1..][j] == rest[i];
          assert m[j + 1] == rest[i];
        }
      }
      assert forall i :: 1 <= i < |r| ==> r[i] == rest[i - 1];
    }
  }

  /** The map the loop of `main` builds from the downloads in order. */
  function DownloadMapOf(ds: seq<DownloadSpec>, projectName: string, versionName: string, number: int): (m: DownloadMap)
    ensures UniqueKeys(m)
    decreases |ds|
  {
    if ds == [] then []
    else
      var last := ds[|ds| - 1];
      var prev := DownloadMapOf(ds[..|ds| - 1], projectName, versionName, number);
      AssignUnique(prev, KeyOf(last), EntryOf(last, projectName, versionName, number));
      Assign(prev, KeyOf(last), EntryOf(last, projectName, versionName, number))
  }

  /** The loop of `main` that fills the `downloads` object. */
  method BuildDownloadMap(ds: seq<DownloadSpec>, projectName: string, versionName: string, number: int)
    returns (m: DownloadMap)
    ensures m == DownloadMapOf(ds, projectName, versionName, number)
  {
    m := [];
    var i := 0;
    while i < |ds|
      invariant 0 <= i <= |ds|
      invariant m == DownloadMapOf(ds[..i], projectName, versionName, number)
    {
      assert ds[..i + 1][..i] == ds[..i];
      m := Assign(m, KeyOf(ds[i]), EntryOf(ds[i], projectName, versionName, number));
      i := i + 1;
    }
    assert ds[..i] == ds;
  }

  /** `ds[i]` is the last download whose key is `key`. */
  predicate LastWithKey(ds: seq<DownloadSpec>, i: int, key: string) {
    0 <= i < |ds| && KeyOf(ds[i]) == key && forall j :: i < j < |ds| ==> KeyOf(ds[j]) != key
  }

  /** A key is in the map exactly when some download has it. */
  lemma {:induction false} KeysOfDownloads(ds: seq<DownloadSpec>, projectName: string, versionName: string, number: int, key: string)
    ensures Lookup(DownloadMapOf(ds, projectName, versionName, number), key).None?
            <==> forall i :: 0 <= i < |ds| ==> KeyOf(ds[i]) != key
    decreases |ds|
  {
    if ds != [] {
      var init := ds[..|ds| - 1];
      var last := ds[|ds| - 1];
      var prev := DownloadMapOf(init, projectName, versionName, number);
      var m := DownloadMapOf(ds, projectName, versionName, number);
      assert m == Assign(prev, KeyOf(last), EntryOf(last, projectName, versionName, number));
      AssignLookup(prev, KeyOf(last), EntryOf(last, projectName, versionName, number), key);
      if KeyOf(last) == key {
        assert Lookup(m, key).Some?;
      } else {
        assert Lookup(m, key) == Lookup(prev, key);
        KeysOfDownloads(init, projectName, versionName, number, key);
        assert forall i :: 0 <= i < |init| ==> init[i] == ds[i];
      }
    }
  }

  /** Under each key the map holds the entry of the last download with that key. */
  lemma {:induction false} LastWriteWins(ds: seq<DownloadSpec>, projectName: string, versionName: string, number: int,
                                         key: string, i: int)
    requires LastWithKey(ds, i, key)
    ensures Lookup(DownloadMapOf(ds, projectName, versionName, number), key)
            == Some(EntryOf(ds[i], projectName, versionName, number))
    decreases |ds|
  {
    var init := ds[..|ds| - 1];
    var last := ds[|ds| - 1];
    var prev := DownloadMapOf(init, projectName, versionName, number);
    AssignLookup(prev, KeyOf(last), EntryOf(last, projectName, versionName, number), key);
    if i < |ds| - 1 {
      assert init[i] == ds[i];
      assert LastWithKey(init, i, key) by {
        forall j | i < j < |init| ensures KeyOf(init[j]) != key {
          assert init[j] == ds[j];
        }
      }
      LastWriteWins(init, projectName, versionName, number, key, i);
    }
  }

  /** The download `i` of `ds` stands behind map entry `e`. */
  predicate EntryFrom(ds: seq<DownloadSpec>, projectName: string, versionName: string, number: int,
                      e: (string, Download), i: int)
  {
    0 <= i < |ds| && e == (KeyOf(ds[i]), EntryOf(ds[i], projectName, versionName, number))
  }

  /** Every entry of the map is the entry of one of the downloads, under that download's key. */
  lemma {:induction false} EntriesComeFromDownloads(ds: seq<DownloadSpec>, projectName: string, versionName: string,
                                                    number: int, k: int)
    requires 0 <= k < |DownloadMapOf(ds, projectName, versionName, number)|
    ensures exists i :: EntryFrom(ds, projectName, versionName, number, DownloadMapOf(ds, projectName, versionName, number)[k], i)
    decreases |ds|
  {
    var init := ds[..|ds| - 1];
    var last := ds[|ds| - 1];
    var prev := DownloadMapOf(init, projectName, versionName, number);
    var m := DownloadMapOf(ds, projectName, versionName, number);
    var e := m[k];
    AssignLookup(prev, KeyOf(last), EntryOf(last, projectName, versionName, number), e.0);
    AssignMembers(prev, KeyOf(last), EntryOf(last, projectName, versionName, number));
    assert e in m;
    if e.0 == KeyOf(last) {
      LookupFindsKey(m, k);
      assert EntryFrom(ds, projectName, versionName, number, e, |ds| - 1);
    } else {
      var j :| 0 <= j < |prev| && e == prev[j];
      EntriesComeFromDownloads(init, projectName, versionName, number, j);
      var i :| EntryFrom(init, projectName, versionName, number, e, i);
      assert init[i] == ds[i];
      assert EntryFrom(ds, projectName, versionName, number, e, i);
    }
  }

  /** In a map with unique keys, looking up an entry's key finds the entry. */
  lemma {:induction false} LookupFindsKey(m: DownloadMap, k: int)
    requires UniqueKeys(m) && 0 <= k < |m|
    ensures Lookup(m, m[k].0) == Some(m[k].1)
    decreases |m|
  {
    if k > 0 {
      assert m[0].0 != m[k].0;
      assert m[1..][k - 1] == m[k];
      LookupFindsKey(m[1..], k - 1);
    }
  }

  /** Two downloads of the same kind leave one entry: the later one's. */
  lemma SameKindOverwrites(a: DownloadSpec, b: DownloadSpec, projectName: string, versionName: string, number: int)
    requires KeyOf(a) == KeyOf(b)
    ensures DownloadMapOf([a, b], projectName, versionName, number)
            == [(KeyOf(b), EntryOf(b, projectName, versionName, number))]
  {
    assert [a, b][..1] == [a];
    assert [a][..0] == [];
    assert DownloadMapOf([a], projectName, versionName, number) == [(KeyOf(a), EntryOf(a, projectName, versionName, number))];
    assert [(KeyOf(a), EntryOf(a, projectName, versionName, number))][1..] == [];
  }

  // ---------------------------------------------------------------------------
  // Writes: insert-if-absent upserts and the build
  // ---------------------------------------------------------------------------

  /** An id above every id of `ids`, as a fresh ObjectId is. */
  function NextId(ids: seq<Id>): (r: Id)
    ensures forall i :: 0 <= i < |ids| ==> ids[i] < r
    decreases |ids|
  {
    if ids == [] then 0
    else
      var rest := NextId(ids[1..]);
      assert forall i :: 1 <= i < |ids| ==> ids[i] == ids[1..][i - 1];
      if ids[0] < rest then rest else ids[0] + 1
  }

  function ProjectIds(ps: seq<Project>): seq<Id> { seq(|ps|, i requires 0 <= i < |ps| => ps[i].id) }
  function GroupIds(gs: seq<Group>): seq<Id> { seq(|gs|, i requires 0 <= i < |gs| => gs[i].id) }
  function VersionIds(vs: seq<Version>): seq<Id> { seq(|vs|, i requires 0 <= i < |vs| => vs[i].id) }
  function BuildIds(bs: seq<Build>): seq<Id> { seq(|bs|, i requires 0 <= i < |bs| => bs[i].id) }

  /**
   * `writeOrGetProject(name, friendlyName)`: the stored project of that name,
   * untouched, or a new one inserted with both fields.
   */
  function UpsertProject(st: Store, name: string, friendlyName: string): (r: (Store, Project))
    ensures r.1.name == name
    ensures FindProjectByName(st, name).Some? ==> r == (st, FindProjectByName(st, name).value)
    ensures FindProjectByName(st, name).None? ==>
              && r.1.friendlyName == friendlyName
              && (forall p :: p in st.projects ==> p.id < r.1.id)
              && r.0 == st.(projects := st.projects + [r.1])
  {
    match FindProjectByName(st, name)
    case Some(p) => (st, p)
    case None =>
      var id := NextId(ProjectIds(st.projects));
      assert forall p :: p in st.projects ==> p.id < id by {
        forall p | p in st.projects ensures p.id < id {
          var i :| 0 <= i < |st.projects| && st.projects[i] == p;
          assert ProjectIds(st.projects)[i] == p.id;
        }
      }
      var p := Project(id, name, friendlyName);
      (st.(projects := st.projects + [p]), p)
  }

  /** `writeOrGetGroup(project, name)`: keyed by project and name; the timestamp is set on insert only. */
  function UpsertGroup(st: Store, project: Project, name: string, now: Instant): (r: (Store, Group))
    ensures r.1.project == project.id && r.1.name == name
    ensures FindGroupByProjectAndName(st, project.id, name).Some? ==>
              r == (st, FindGroupByProjectAndName(st, project.id, name).value)
    ensures FindGroupByProjectAndName(st, project.id, name).None? ==>
              && r.1.timestamp == now
              && (forall g :: g in st.groups ==> g.id < r.1.id)
              && r.0 == st.(groups := st.groups + [r.1])
  {
    match FindGroupByProjectAndName(st, project.id, name)
    case Some(g) => (st, g)
    case None =>
      var id := NextId(GroupIds(st.groups));
      assert forall g :: g in st.groups ==> g.id < id by {
        forall g | g in st.groups ensures g.id < id {
          var i :| 0 <= i < |st.groups| && st.groups[i] == g;
          assert GroupIds(st.groups)[i] == g.id;
        }
      }
      var g := Group(id, project.id, name, now);
      (st.(groups := st.groups + [g]), g)
  }

  /**
   * `writeOrGetVersion(project, group, name)`: keyed by project and name; the
   * group and timestamp are set on insert only.
   */
  function UpsertVersion(st: Store, project: Project, group: Group, name: string, now: Instant): (r: (Store, Version))
    ensures r.1.project == project.id && r.1.name == name
    ensures FindVersionByProjectAndName(st, project.id, name).Some? ==>
              r == (st, FindVersionByProjectAndName(st, project.id, name).value)
    ensures FindVersionByProjectAndName(st, project.id, name).None? ==>
              && r.1.group == Some(group.id) && r.1.timestamp == now
              && (forall v :: v in st.versions ==> v.id < r.1.id)
              && r.0 == st.(versions := st.versions + [r.1])
  {
    match FindVersionByProjectAndName(st, project.id, name)
    case Some(v) => (st, v)
    case None =>
      var id := NextId(VersionIds(st.versions));
      assert forall v :: v in st.versions ==> v.id < id by {
        forall v | v in st.versions ensures v.id < id {
          var i :| 0 <= i < |st.versions| && st.versions[i] == v;
          assert VersionIds(st.versions)[i] == v.id;
        }
      }
      var v := Version(id, project.id, Some(group.id), name, now);
      (st.(versions := st.versions + [v]), v)
  }

  /** Writing a project keeps names unique and makes the name resolve to the project returned. */
  lemma UpsertProjectKeepsNamesUnique(st: Store, name: string, friendlyName: string)
    requires UniqueNames(st)
    ensures UniqueNames(UpsertProject(st, name, friendlyName).0)
    ensures FindProjectByName(UpsertProject(st, name, friendlyName).0, name) == Some(UpsertProject(st, name, friendlyName).1)
  {
    var (st', p) := UpsertProject(st, name, friendlyName);
    assert forall q :: q in st'.projects ==> q in st.projects || q == p;
    FindProjectByNameUnique(st', p);
  }

  /** Writing a group keeps names unique and makes the name resolve to the group returned. */
  lemma UpsertGroupKeepsNamesUnique(st: Store, project: Project, name: string, now: Instant)
    requires UniqueNames(st)
    ensures UniqueNames(UpsertGroup(st, project, name, now).0)
    ensures FindGroupByProjectAndName(UpsertGroup(st, project, name, now).0, project.id, name)
            == Some(UpsertGroup(st, project, name, now).1)
  {
    var (st', g) := UpsertGroup(st, project, name, now);
    assert forall h :: h in st'.groups ==> h in st.groups || h == g;
    FindGroupByProjectAndNameUnique(st', g);
  }

  /** Writing a version keeps names unique and makes the name resolve to the version returned. */
  lemma UpsertVersionKeepsNamesUnique(st: Store, project: Project, group: Group, name: string, now: Instant)
    requires UniqueNames(st)
    ensures UniqueNames(UpsertVersion(st, project, group, name, now).0)
    ensures FindVersionByProjectAndName(UpsertVersion(st, project, group, name, now).0, project.id, name)
            == Some(UpsertVersion(st, project, group, name, now).1)
  {
    var (st', v) := UpsertVersion(st, project, group, name, now);
    assert forall w :: w in st'.versions ==> w in st.versions || w == v;
    FindVersionByProjectAndNameUnique(st', v);
  }

  /** Re-running the project write changes nothing more: the second run reuses the first run's record. */
  lemma UpsertProjectIdempotent(st: Store, name: string, friendlyName: string, friendlyName': string)
    ensures var (st1, p1) := UpsertProject(st, name, friendlyName);
            UpsertProject(st1, name, friendlyName') == (st1, p1)
  {
    var (st1, p1) := UpsertProject(st, name, friendlyName);
    if FindProjectByName(st, name).None? {
      assert st1.projects == st.projects + [p1];
      assert forall q :: q in st1.projects && q.name == name ==> q == p1;
      FirstOfUnique(st1.projects, (q: Project) => q.name == name, p1);
    }
  }

  /** A version written again under another group stays in the group it was first written with. */
  lemma VersionKeepsItsGroup(st: Store, project: Project, group: Group, other: Group, name: string, now: Instant, later: Instant)
    ensures var (st1, v1) := UpsertVersion(st, project, group, name, now);
            UpsertVersion(st1, project, other, name, later).1.group == v1.group
  {
    var (st1, v1) := UpsertVersion(st, project, group, name, now);
    if FindVersionByProjectAndName(st, project.id, name).None? {
      assert FindVersionByProjectAndName(st1, project.id, name).Some? by {
        assert v1 in st1.versions;
      }
      var w := FindVersionByProjectAndName(st1, project.id, name).value;
      assert w in st.versions || w == v1;
    }
  }

  // ---------------------------------------------------------------------------
  // Build numbering
  // ---------------------------------------------------------------------------

  /** The build with the greatest id: the one `findOne(..., { sort: { _id: -1 } })` returns. */
  function LatestOf(bs: seq<Build>): (r: Option<Build>)
    ensures r.None? <==> bs == []
    ensures r.Some? ==> r.value in bs && forall b :: b in bs ==> b.id <= r.value.id
    decreases |bs|
  {
    if bs == [] then None
    else
      var rest := LatestOf(bs[1..]);
      assert forall b :: b in bs <==> b == bs[0] || b in bs[1..];
      if rest.None? || bs[0].id >= rest.value.id then Some(bs[0]) else rest
  }

  /** `findLatestBuild(project, version)` */
  function LatestBuild(st: Store, project: Id, version: Id): (r: Option<Build>)
    ensures r.Some? ==> r.value in st.builds && r.value.project == project && r.value.version == version
    ensures r.Some? ==> forall b :: b in st.builds && b.project == project && b.version == version ==> b.id <= r.value.id
    ensures r.None? <==> forall b :: b in st.builds ==> b.project != project || b.version != version
  {
    var bs := FindAllBuildsByProjectAndVersion(st, project, version);
    assert bs == [] <==> forall b :: b in st.builds ==> b.project != project || b.version != version by {
      if bs != [] { assert bs[0] in bs; }
    }
    LatestOf(bs)
  }

  /** The number `main` settles on: -1 asks for the latest build's number plus one, or 1 for the first build. */
  function NextBuildNumber(requested: int, previous: Option<Build>): (n: int)
    ensures requested != -1 ==> n == requested
    ensures requested == -1 && previous.None? ==> n == 1
    ensures requested == -1 && previous.Some? ==> n == previous.value.number + 1
  {
    if requested == -1 then
      if previous.Some? then previous.value.number + 1 else 1
    else requested
  }

  /** Within one version, later builds (greater ids) carry greater numbers. */
  predicate NumbersFollowIds(st: Store, project: Id, version: Id) {
    forall a, b ::
      (a in st.builds && b in st.builds && a.project == project && a.version == version
       && b.project == project && b.version == version && a.id < b.id) ==> a.number < b.number
  }

  /** The id of a build identifies it. */
  predicate UniqueBuildIds(st: Store) {
    forall a, b :: a in st.builds && b in st.builds && a.id == b.id ==> a == b
  }

  /**
   * Automatic numbering keeps numbers in the order of insertion: inserting an
   * auto-numbered build with a fresh id keeps the order, and its number is used
   * by no other build of the version.
   */
  lemma AutoNumberingKeepsOrder(st: Store, project: Id, version: Id, b: Build)
    requires NumbersFollowIds(st, project, version) && UniqueBuildIds(st)
    requires b.project == project && b.version == version
    requires forall x :: x in st.builds ==> x.id < b.id
    requires b.number == NextBuildNumber(-1, LatestBuild(st, project, version))
    ensures NumbersFollowIds(st.(builds := st.builds + [b]), project, version)
    ensures UniqueBuildIds(st.(builds := st.builds + [b]))
    ensures forall x :: x in st.builds && x.project == project && x.version == version ==> x.number < b.number
  {
    var latest := LatestBuild(st, project, version);
    forall x | x in st.builds && x.project == project && x.version == version
      ensures x.number < b.number
    {
      var l := latest.value;
      assert x.id <= l.id;
      assert x.number <= l.number by {
        if x.id < l.id { assert x.number < l.number; }
      }
    }
    var st' := st.(builds := st.builds + [b]);
    assert forall x :: x in st'.builds ==> x in st.builds || x == b;
  }

  /**
   * Numbering follows the latest build, not the greatest number: after an
   * explicitly numbered build, automatic numbering can repeat a number.
   */
  lemma AutoNumberCanRepeat(first: Build, second: Build)
    requires first.project == second.project && first.version == second.version
    requires first.id == 1 && first.number == 5
    requires second.id == 2 && second.number == 4
    ensures var st := Store([], [], [], [first, second]);
            NextBuildNumber(-1, LatestBuild(st, first.project, first.version)) == first.number
  {
    var st := Store([], [], [], [first, second]);
    assert second in st.builds;
  }

  /** `lastBuildCommit`: the first change of the latest build, or "HEAD^1". */
  function LastBuildCommit(previous: Option<Build>): (r: string)
    ensures previous.None? || previous.value.changes == [] ==> r == "HEAD^1"
    ensures previous.Some? && previous.value.changes != [] ==> r == previous.value.changes[0].commit
  {
    if previous.Some? && |previous.value.changes| > 0 then previous.value.changes[0].commit else "HEAD^1"
  }

  // ---------------------------------------------------------------------------
  // main
  // ---------------------------------------------------------------------------

  /** The command-line options `main` reads. */
  datatype Input = Input(
    projectName: string,
    friendlyName: string,
    group: string,
    versionName: string,
    buildNumber: int,
    storagePath: string,
    downloads: seq<string>,
    channel: string)

  /** What `main` reports: the build inserted and the files copied. */
  datatype Report = Report(build: Build, copies: seq<Copy>)

  /** The channel constant a checked channel name stands for. */
  function ChannelOf(name: string): Channel
    requires name in StandardChannels
  {
    ChannelFromStoredName(name).value
  }

  /** The build number `main` uses once the version is written. */
  function NumberFor(st: Store, input: Input, project: Project, version: Version): int {
    NextBuildNumber(input.buildNumber, LatestBuild(st, project.id, version.id))
  }

  /**
   * `main` after checkOptions has passed: write project, group and version, number
   * the build, copy the downloads into the build's folder and insert the build.
   * Only the build list grows besides the three writes, by exactly the new build,
   * which carries the fresh id, the settled number and the download map.
   */
  function Record(st: Store, input: Input, opts: Options, now: Instant, gitLog: string -> seq<Change>)
    : (r: (Store, Report))
    requires opts.channel in StandardChannels
    ensures var (st3, project, version) := Written(st, input, now);
            && r.0 == st3.(builds := st3.builds + [r.1.build])
            && (forall b :: b in st3.builds ==> b.id < r.1.build.id)
            && r.1.build.project == project.id && r.1.build.version == version.id
            && r.1.build.number == NumberFor(st3, input, project, version)
            && r.1.build.downloads == DownloadMapOf(opts.downloads, input.projectName, input.versionName, r.1.build.number)
            && r.1.build.channel == ChannelOf(opts.channel) && r.1.build.displayMode == Hide
            && r.1.build.timestamp == now
            && r.1.build.changes == gitLog(LastBuildCommit(LatestBuild(st3, project.id, version.id)))
            && r.1.copies == Copies(opts.downloads, BuildStoragePath(input.storagePath, input.projectName, input.versionName, r.1.build.number),
                                    input.projectName, input.versionName, r.1.build.number)
  {
    var (st3, project, version) := Written(st, input, now);
    var previous := LatestBuild(st3, project.id, version.id);
    var number := NextBuildNumber(input.buildNumber, previous);
    var folder := BuildStoragePath(input.storagePath, input.projectName, input.versionName, number);
    var copies := Copies(opts.downloads, folder, input.projectName, input.versionName, number);
    var downloads := DownloadMapOf(opts.downloads, input.projectName, input.versionName, number);
    var id := NextId(BuildIds(st3.builds));
    assert forall b :: b in st3.builds ==> b.id < id by {
      forall b | b in st3.builds ensures b.id < id {
        var i :| 0 <= i < |st3.builds| && st3.builds[i] == b;
        assert BuildIds(st3.builds)[i] == b.id;
      }
    }
    var build := Build(id, project.id, version.id, number, now,
                       gitLog(LastBuildCommit(previous)), downloads, ChannelOf(opts.channel), Hide);
    (st3.(builds := st3.builds + [build]), Report(build, copies))
  }

  /** The three writes of `main`: project, then group, then version. */
  function Written(st: Store, input: Input, now: Instant): (r: (Store, Project, Version))
    ensures r.0.builds == st.builds
    ensures r.1.name == input.projectName && r.2.project == r.1.id && r.2.name == input.versionName
    ensures UniqueNames(st) ==> UniqueNames(r.0)
    ensures UniqueNames(st) ==> FindProjectByName(r.0, input.projectName) == Some(r.1)
    ensures UniqueNames(st) ==> FindVersionByProjectAndName(r.0, r.1.id, input.versionName) == Some(r.2)
  {
    var (st1, project) := UpsertProject(st, input.projectName, input.friendlyName);
    var (st2, group) := UpsertGroup(st1, project, input.group, now);
    var (st3, version) := UpsertVersion(st2, project, group, input.versionName, now);
    if UniqueNames(st) then
      UpsertProjectKeepsNamesUnique(st, input.projectName, input.friendlyName);
      UpsertGroupKeepsNamesUnique(st1, project, input.group, now);
      UpsertVersionKeepsNamesUnique(st2, project, group, input.versionName, now);
      assert FindProjectByName(st3, input.projectName) == FindProjectByName(st1, input.projectName) by {
        assert st3.projects == st1.projects;
      }
      (st3, project, version)
    else
      (st3, project, version)
  }

  /** The whole of `main`: the options are checked before anything is written. */
  function Ingest(st: Store, input: Input, files: set<string>, now: Instant, gitLog: string -> seq<Change>)
    : (r: Result<(Store, Report), CliError>)
    ensures r.Err? <==> CheckOptionsSpec(input.channel, input.downloads, files).Err?
    ensures r.Err? ==> r.error == CheckOptionsSpec(input.channel, input.downloads, files).error
    ensures r.Ok? ==> r.value == Record(st, input, CheckOptionsSpec(input.channel, input.downloads, files).value, now, gitLog)
    ensures r.Ok? ==> && |r.value.0.builds| == |st.builds| + 1
                      && r.value.0.builds[..|st.builds|] == st.builds
                      && r.value.0.builds[|st.builds|] == r.value.1.build
  {
    match CheckOptionsSpec(input.channel, input.downloads, files)
    case Err(e) => Err(e)
    case Ok(opts) => Ok(Record(st, input, opts, now, gitLog))
  }

  /** The copies of `main`'s `forEach`, in order. */
  method CopyDownloads(ds: seq<DownloadSpec>, folder: Path, projectName: string, versionName: string, number: int)
    returns (copies: seq<Copy>)
    ensures copies == Copies(ds, folder, projectName, versionName, number)
  {
    copies := [];
    var i := 0;
    while i < |ds|
      invariant 0 <= i <= |ds|
      invariant |copies| == i
      invariant forall j :: 0 <= j < i ==> copies[j] == CopyOf(ds[j], folder, projectName, versionName, number)
    {
      copies := copies + [CopyOf(ds[i], folder, projectName, versionName, number)];
      i := i + 1;
    }
  }

  /** The database as the script sees it: the driver calls of `main`. */
  class Database {
    var store: Store

    constructor (st: Store)
      ensures store == st
    {
      store := st;
    }

    method WriteOrGetProject(name: string, friendlyName: string) returns (p: Project)
      modifies this
      ensures (store, p) == UpsertProject(old(store), name, friendlyName)
    {
      var r := UpsertProject(store, name, friendlyName);
      store := r.0;
      p := r.1;
    }

    method WriteOrGetGroup(project: Project, name: string, now: Instant) returns (g: Group)
      modifies this
      ensures (store, g) == UpsertGroup(old(store), project, name, now)
    {
      var r := UpsertGroup(store, project, name, now);
      store := r.0;
      g := r.1;
    }

    method WriteOrGetVersion(project: Project, group: Group, name: string, now: Instant) returns (v: Version)
      modifies this
      ensures (store, v) == UpsertVersion(old(store), project, group, name, now)
    {
      var r := UpsertVersion(store, project, group, name, now);
      store := r.0;
      v := r.1;
    }

    method FindLatestBuild(project: Project, version: Version) returns (b: Option<Build>)
      ensures b == LatestBuild(store, project.id, version.id)
    {
      b := LatestBuild(store, project.id, version.id);
    }

    /** `writeBuild(...)`: `insertOne` with a fresh id, hidden, on the checked channel. */
    method WriteBuild(project: Project, version: Version, number: int, now: Instant, changes: seq<Change>,
                      downloads: DownloadMap, channel: string) returns (b: Build)
      requires channel in StandardChannels
      modifies this
      ensures b == Build(NextId(BuildIds(old(store).builds)), project.id, version.id, number, now,
                         changes, downloads, ChannelOf(channel), Hide)
      ensures store == old(store).(builds := old(store).builds + [b])
    {
      b := Build(NextId(BuildIds(store.builds)), project.id, version.id, number, now,
                 changes, downloads, ChannelOf(channel), DisplayModeFromStoredName("HIDE").value);
      store := store.(builds := store.builds + [b]);
    }

    /** The part of `main()` after checkOptions. */
    method RecordBuild(input: Input, options: Options, now: Instant, gitLog: string -> seq<Change>)
      returns (report: Report)
      requires options.channel in StandardChannels
      modifies this
      ensures (store, report) == Record(old(store), input, options, now, gitLog)
    {
      var project := WriteOrGetProject(input.projectName, input.friendlyName);
      var group := WriteOrGetGroup(project, input.group, now);
      var version := WriteOrGetVersion(project, group, input.versionName, now);
      var previous := FindLatestBuild(project, version);
      var number := input.buildNumber;
      if number == -1 {
        if previous.Some? {
          number := previous.value.number + 1;
        } else {
          number := 1;
        }
      }
      var folder := BuildStoragePath(input.storagePath, input.projectName, input.versionName, number);
      var copies := CopyDownloads(options.downloads, folder, input.projectName, input.versionName, number);
      var changes := gitLog(LastBuildCommit(previous));
      var downloads := BuildDownloadMap(options.downloads, input.projectName, input.versionName, number);
      var build := WriteBuild(project, version, number, now, changes, downloads, options.channel);
      report := Report(build, copies);
    }

    /** `main()`: a failed check leaves the database as it was. */
    method InsertBuild(input: Input, files: set<string>, now: Instant, gitLog: string -> seq<Change>)
      returns (r: Result<Report, CliError>)
      modifies this
      ensures var spec := Ingest(old(store), input, files, now, gitLog);
              && (spec.Err? ==> r == Err(spec.error) && store == old(store))
              && (spec.Ok? ==> r == Ok(spec.value.1) && store == spec.value.0)
    {
      var opts := CheckOptions(input.channel, input.downloads, files);
      if opts.Err? {
        return Err(opts.error);
      }
      var report := RecordBuild(input, opts.value, now, gitLog);
      return Ok(report);
    }
  }
}
