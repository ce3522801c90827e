# Bibliothek in Dafny

A model of the read path of Bibliothek, a build-artifact metadata service. The model also covers the ingestion script that fills it.

A client names a project, a version, a build number and a download. Each path segment must match a fixed grammar before any handler runs. The handler then resolves the names against the store one parent at a time: the project by name, the version by project id and name, and the build by project id, version id and number. It answers with one of two things:
- a JSON view, using a public cache policy with a shared max-age of 30 minutes;
- the file stored at `storage/project/version/number/file`.

Errors go through an advice that maps four error kinds to a status and a one-field body. The ingestion script `cli/insertBuild.js` does the following:
- checks its options;
- writes the project, group and version if they are absent;
- numbers the build;
- copies the files into the build's folder;
- inserts the build with a download map keyed by type.

Modules, one file each:

| module | file | models |
|---|---|---|
| `Wrappers` | wrappers.dfy | `Option` and `Result` |
| `Patterns` | patterns.dfy | the four identifier grammars (`Patterns.java`) as predicates, with a deterministic version matcher proved equal to the grammar |
| `Ordering` | ordering.dfy | a stable insertion sort by an integer key; sortedness, permutation, stability and uniqueness of the result |
| `Model` | model.dfy | the records (`Build.java`, `Version.java`, `Group.java`, `Project.java`), the enum wire names and the two timestamp comparators |
| `Store` | store.dfy | the repositories' derived queries as filters over sequences of records |
| `Throwables` | throwables.dfy | the error kinds and `Advice.java` |
| `Http` | http.dfy | cache policy, media type, content disposition, and the `HttpHeaders` object filled by setters |
| `Api` | api.dfy | the finders and the default cache of `ApiController.java` |
| `Controllers` | controllers.dfy | the JSON handlers and their response records |
| `Paths` | paths.dfy | java.nio `resolve` and `getFileName`, normalisation, and Node's `path.join` |
| `Decimal` | decimal.dfy | decimal rendering and reading of build numbers |
| `Downloads` | downloads.dfy | `DownloadController.java`: locating the file, `headersFor`, and the wrapping of every failure |
| `Routes` | routes.dfy | grammar-gated dispatch of the endpoints through the advice |
| `Cli` | cli.dfy | `cli/insertBuild.js`: `checkOptions`, naming, paths, upserts, numbering, the download map and `main` |
| `EndToEnd` | endtoend.dfy | a build the script inserts is found by the API, and each download is served from the file the script copied |

Modelling choices:
- Ids and timestamps are integers.
- A repository's single-result query returns the first match in store order.
- The download map is an association list in insertion order.
- The file system is a set of paths: normalised `Path`s on the server, path strings in the script.
- The script's commit log is a function from the starting commit to the changes, and its clock is a parameter.
- `checkOptions` and `main` are methods with loops. They are proved equal to the functions `CheckOptionsSpec`, `Copies` and `DownloadMapOf`, about which the properties are proved.
- The database the script writes to is a `Database` object whose methods update its store.
- `headersFor` fills a fresh `HttpHeaders` object one setter at a time.

Several members the server code calls do not exist on the types it calls them on:
- `findById` and `findByProjectAndId` in `ApiController.java`;
- `findGroup` in `GroupController.java`;
- `Project.PATTERN` and `Group.PATTERN`;
- `.id()` on records that only have `_id`.

They are read as the name-based variant the rest of the code uses:
- lookups by name, within the parent's id;
- the project-name grammar for `Project.PATTERN`;
- no grammar on the group segment;
- `id()` as `name()`.

`Version.PATTERN`, `Build.PATTERN` and `Build.Download.PATTERN` are the constants `Model.VersionPattern`, `Model.BuildPattern` and `Model.DownloadPattern`. Each is defined as the corresponding grammar of `Patterns`.

Two points of behaviour worth knowing:
- **Sorting.** The code sorts only the project endpoint's group and version lists, by timestamp. The group endpoint's versions, the version endpoint's build numbers and the builds list stay in store order.
- **Unique project names.** The store does not enforce unique project names, so `Store.UniqueNames` is a hypothesis of the lemmas that need it.

## Model

| member | source | states |
|---|---|---|
| Patterns.MatcherIsGrammar | src/main/java/de/rafael/bibliothek/values/Patterns.java:11 | the deterministic matcher accepts exactly the strings that split as digits/dots, optional '-', optional "pre"/"SNAPSHOT", optional digits/dots |
| Patterns.Accepts | src/main/java/de/rafael/bibliothek/values/Patterns.java:10-13 | the executable check of each of the four grammars agrees with the grammar |
| Patterns.NoGrammarAdmitsSlash | src/main/java/de/rafael/bibliothek/values/Patterns.java:10-13 | every value any grammar accepts is non-empty and has no '/', so it is one path segment |
| Patterns.ProjectNameRejects | src/main/java/de/rafael/bibliothek/values/Patterns.java:10 | a digit, an upper-case letter or a '/' anywhere makes a string no project name |
| Patterns.DotSegmentsAdmitted | src/main/java/de/rafael/bibliothek/values/Patterns.java:11-12 | "." and ".." are both version names and download names |
| Patterns.VersionNameExamples | src/main/java/de/rafael/bibliothek/values/Patterns.java:11 | "1.20.1", "1.20-pre1" and "1.0-SNAPSHOT" are version names, and "v1.0" is not |
| Patterns.VersionNameIsDownloadName | src/main/java/de/rafael/bibliothek/values/Patterns.java:11-12 | every version name is also a download name |
| Patterns.DigitsOrDotsPrefix | src/main/java/de/rafael/bibliothek/values/Patterns.java:11 | the returned length is the longest prefix of digits and dots |
| Patterns.SplitRunIsLongest | src/main/java/de/rafael/bibliothek/values/Patterns.java:11 | in a split of a version name that has a hyphen or a marker, the leading run is the longest digits/dots prefix |
| Patterns.SplitRestIsForced | src/main/java/de/rafael/bibliothek/values/Patterns.java:11 | once the leading run is fixed, the hyphen and the marker of a split are determined |
| Patterns.VersionNameChars | src/main/java/de/rafael/bibliothek/values/Patterns.java:11 | a version name holds only digits, '.', '-' and the letters of "pre" and "SNAPSHOT" |
| Ordering.StableSort | src/main/java/de/rafael/bibliothek/database/model/Version.java:45 | the sorted list is a permutation of the input, ordered by the key |
| Ordering.StableSortIsStable | src/main/java/de/rafael/bibliothek/database/model/Version.java:45 | for every key value, the elements with that key keep their input order |
| Ordering.StableSortUnique | src/main/java/de/rafael/bibliothek/database/model/Version.java:45 | any sorted list that keeps the per-key order of the input is the sort's result |
| Ordering.SortedUnique | src/main/java/de/rafael/bibliothek/database/model/Version.java:45 | two sorted lists with the same per-key subsequences are equal |
| Ordering.Insert | src/main/java/de/rafael/bibliothek/database/model/Group.java:20 | inserting adds exactly one element and keeps a sorted list sorted |
| Ordering.InsertWithKey | src/main/java/de/rafael/bibliothek/database/model/Group.java:20 | inserting places the element before every element with an equal key, so inserting the head into the sorted tail keeps equal keys in input order |
| Ordering.SortedHeadIsLeast | src/main/java/de/rafael/bibliothek/database/model/Group.java:20 | the head of a sorted list has the least key |
| Model.ChannelFromWireName | src/main/java/de/rafael/bibliothek/database/model/Build.java:48-55 | exactly "default" and "experimental" read as channels, and each reads back to its own name |
| Model.ChannelWireNameRoundTrip | src/main/java/de/rafael/bibliothek/database/model/Build.java:48-55 | a channel's wire name reads back as the same channel |
| Model.DisplayModeFromWireName | src/main/java/de/rafael/bibliothek/database/model/Build.java:57-64 | exactly "hide" and "promote" read as display modes, and each reads back to its own name |
| Model.DisplayModeWireNameRoundTrip | src/main/java/de/rafael/bibliothek/database/model/Build.java:57-64 | a display mode's wire name reads back as the same display mode |
| Model.ChannelFromStoredName | src/main/java/de/rafael/bibliothek/database/model/Build.java:50-53 | exactly "DEFAULT" and "EXPERIMENTAL" name stored channels, "DEFAULT" being Default |
| Model.DisplayModeFromStoredName | src/main/java/de/rafael/bibliothek/database/model/Build.java:59-62 | exactly "HIDE" and "PROMOTE" name stored display modes, "HIDE" being Hide |
| Model.Comparing | src/main/java/de/rafael/bibliothek/database/model/Version.java:45 | the sign of the comparison is the order of the keys, and nothing else counts; Version.COMPARATOR and Group.COMPARATOR (Group.java:20) are it on the timestamp, the name playing no part |
| Model.SortVersions | src/main/java/de/rafael/bibliothek/database/model/Version.java:45 | the sorted versions are a permutation with non-decreasing timestamps, and equal timestamps keep store order |
| Model.SortGroups | src/main/java/de/rafael/bibliothek/database/model/Group.java:20 | the sorted groups are a permutation with non-decreasing timestamps, and equal timestamps keep store order |
| Model.SortVersionsUnique | src/main/java/de/rafael/bibliothek/database/model/Version.java:45 | the sorted order is the only one that is sorted and keeps equal timestamps in store order |
| Model.SortGroupsUnique | src/main/java/de/rafael/bibliothek/database/model/Group.java:20 | the sorted order is the only one that is sorted and keeps equal timestamps in store order |
| Model.SortVersionsExample | src/main/java/de/rafael/bibliothek/database/model/Version.java:45 | versions with timestamps 3, 1, 2 are listed in the order 1, 2, 3 |
| Store.FindProjectByName | src/main/java/de/rafael/bibliothek/database/repository/ProjectRepository.java:18 | the result is a stored project of that name; none exactly when no project has the name |
| Store.FindAllGroupsByProject | src/main/java/de/rafael/bibliothek/database/repository/GroupRepository.java:19 | exactly the stored groups of the project |
| Store.FindGroupByProjectAndName | src/main/java/de/rafael/bibliothek/database/repository/GroupRepository.java:21 | a stored group of that project and name; none exactly when there is none |
| Store.FindAllVersionsByProject | src/main/java/de/rafael/bibliothek/database/repository/VersionRepository.java:19 | exactly the stored versions of the project |
| Store.FindAllVersionsByProjectAndGroup | src/main/java/de/rafael/bibliothek/database/repository/VersionRepository.java:21 | exactly the stored versions of the project in that group |
| Store.FindVersionByProjectAndName | src/main/java/de/rafael/bibliothek/database/repository/VersionRepository.java:23 | a stored version of that project and name; none exactly when there is none |
| Store.FindAllBuildsByProjectAndVersion | src/main/java/de/rafael/bibliothek/database/repository/BuildRepository.java:20 | exactly the stored builds of the project and version |
| Store.FindAllBuildsByProjectAndVersionIn | src/main/java/de/rafael/bibliothek/database/repository/BuildRepository.java:22 | exactly the stored builds of the project whose version is in the set |
| Store.FindBuildByProjectAndVersionAndNumber | src/main/java/de/rafael/bibliothek/database/repository/BuildRepository.java:24 | a stored build with that project, version and number; none exactly when there is none |
| Store.FindProjectByNameUnique | src/main/java/de/rafael/bibliothek/database/repository/ProjectRepository.java:18 | with unique names, looking up a stored project's name finds that project |
| Store.FindVersionByProjectAndNameUnique | src/main/java/de/rafael/bibliothek/database/repository/VersionRepository.java:23 | with unique names, looking up a stored version finds that version |
| Store.FindGroupByProjectAndNameUnique | src/main/java/de/rafael/bibliothek/database/repository/GroupRepository.java:21 | with unique names, looking up a stored group finds that group |
| Throwables.Advise | src/main/java/de/rafael/bibliothek/throwables/Advice.java:41-83 | only DownloadFailed, DownloadNotFound, ProjectNotFound and VersionNotFound are handled; DownloadFailed is 500 with its fixed message; DownloadNotFound, ProjectNotFound and VersionNotFound are 404 with "Download not found.", "Project not found." and "Version not found." |
| Throwables.AdviceMessagesDistinct | src/main/java/de/rafael/bibliothek/throwables/Advice.java:51-73 | two handled errors with the same response are the same kind |
| Throwables.AdviceHidesCause | src/main/java/de/rafael/bibliothek/throwables/Advice.java:51-55 | the response to a failed download is the same whatever its cause |
| Http.HttpHeaders.constructor | src/main/java/de/rafael/bibliothek/controller/v1/download/DownloadController.java:105 | new headers have nothing set |
| Http.HttpHeaders.SetCacheControl | src/main/java/de/rafael/bibliothek/controller/v1/download/DownloadController.java:106 | sets the cache policy and changes no other header |
| Http.HttpHeaders.SetContentDisposition | src/main/java/de/rafael/bibliothek/controller/v1/download/DownloadController.java:107 | sets the disposition and changes no other header |
| Http.HttpHeaders.SetContentType | src/main/java/de/rafael/bibliothek/controller/v1/download/DownloadController.java:108 | sets the media type and changes no other header |
| Http.HttpHeaders.SetLastModified | src/main/java/de/rafael/bibliothek/controller/v1/download/DownloadController.java:109 | marks the modification time as set and changes no other header |
| Api.FindProject | src/main/java/de/rafael/bibliothek/classes/ApiController.java:68-70 | a stored project of that name, or ProjectNotFound exactly when there is none |
| Api.FindVersion | src/main/java/de/rafael/bibliothek/classes/ApiController.java:72-74 | a stored version of that project's id and that name, or VersionNotFound exactly when there is none |
| Api.FindBuild | src/main/java/de/rafael/bibliothek/classes/ApiController.java:76-78 | a stored build keyed by project id, version id and number, or BuildNotFound exactly when there is none |
| Api.FindGroup | src/main/java/de/rafael/bibliothek/controller/v1/group/GroupController.java:43 | a stored group of that project's id and that name, or GroupNotFound exactly when there is none |
| Api.FindGroupsAsStream | src/main/java/de/rafael/bibliothek/classes/ApiController.java:80-82 | exactly the project's groups, each as often as stored, timestamps non-decreasing, ties in store order |
| Api.FindVersionsAsStream | src/main/java/de/rafael/bibliothek/classes/ApiController.java:84-86 | exactly the project's versions, each as often as stored, timestamps non-decreasing, ties in store order |
| Api.DefaultCache | src/main/java/de/rafael/bibliothek/classes/ApiController.java:92-94 | public, shared max-age 1800 seconds, no other directive |
| Api.FindVersionUsesParentId | src/main/java/de/rafael/bibliothek/classes/ApiController.java:73 | the version lookup depends on the parent only through its id |
| Api.FindVersionIsScoped | src/main/java/de/rafael/bibliothek/classes/ApiController.java:72-74 | the version found under one project never belongs to another project |
| Controllers.Projects | src/main/java/de/rafael/bibliothek/controller/v1/project/ProjectsController.java:58-64 | one entry per stored project, in store order, each the project's name; default cache |
| Controllers.ProjectHandler | src/main/java/de/rafael/bibliothek/controller/v1/project/ProjectController.java:45-53 | ProjectNotFound exactly when no project has the name; otherwise name, friendly name, and the names of the timestamp-sorted groups and versions; public 30-minute cache |
| Controllers.ProjectListsAreComplete | src/main/java/de/rafael/bibliothek/controller/v1/project/ProjectController.java:48-49 | the two lists have exactly as many entries as the project has groups and versions in the store |
| Controllers.ProjectHandlerUnique | src/main/java/de/rafael/bibliothek/controller/v1/project/ProjectController.java:47-50 | with unique names, a stored project is found and reported with its friendly name |
| Controllers.GroupHandler | src/main/java/de/rafael/bibliothek/controller/v1/group/GroupController.java:40-56 | ProjectNotFound before any group lookup, then GroupNotFound within the project; the names of the versions of that project and group, in store order; default cache |
| Controllers.VersionHandler | src/main/java/de/rafael/bibliothek/controller/v1/version/VersionController.java:62-78 | ProjectNotFound, then VersionNotFound; the numbers of the version's builds, in store order; names and default cache |
| Controllers.BuildListMatchesNumbers | src/main/java/de/rafael/bibliothek/controller/v1/version/VersionController.java:66-73 | the listed numbers are exactly the numbers of the version's stored builds, one per build |
| Controllers.ListedBuildIsFound | src/main/java/de/rafael/bibliothek/controller/v1/build/BuildController.java:48-54 | every number the version endpoint lists resolves at the build endpoint |
| Controllers.BuildHandler | src/main/java/de/rafael/bibliothek/controller/v1/build/BuildController.java:48-56 | the first missing link decides the error: ProjectNotFound exactly when no project has the name, then VersionNotFound exactly when the project has no such version, then BuildNotFound exactly when the version has no build of that number; otherwise the found build's fields copied unchanged, with names and a public 30-minute cache |
| Controllers.BuildsHandler | src/main/java/de/rafael/bibliothek/controller/v1/build/BuildsController.java:64-90 | ProjectNotFound, then VersionNotFound; one ResponseBuild per stored build in store order; project_name is the project's name |
| Controllers.ToResponseBuild | src/main/java/de/rafael/bibliothek/controller/v1/build/BuildsController.java:69-75 | the six fields are copied from the build unchanged |
| Controllers.ResponseBuilds | src/main/java/de/rafael/bibliothek/controller/v1/build/BuildsController.java:68-76 | one response build per build, in the same order |
| Controllers.ProjectIdIsName | src/main/java/de/rafael/bibliothek/controller/v1/build/BuildsController.java:80-83 | the builds endpoint answers whenever the version endpoint does, reports the project's name twice and lists as many builds |
| Paths.ParsePath | src/main/java/de/rafael/bibliothek/controller/v1/download/DownloadController.java:84-88 | a path string is absolute exactly when it starts with '/', and its names are non-empty and slash-free |
| Paths.Resolve | src/main/java/de/rafael/bibliothek/controller/v1/download/DownloadController.java:84-88 | a relative argument keeps the path as a prefix and its absoluteness, adding as many names as the argument has; an absolute one replaces the path by its own names |
| Paths.ResolveName | src/main/java/de/rafael/bibliothek/controller/v1/download/DownloadController.java:85-88 | resolving a single name appends exactly that name |
| Paths.ResolveRelative | src/main/java/de/rafael/bibliothek/controller/v1/download/DownloadController.java:85-88 | resolving a string not starting with '/' appends its names |
| Paths.FileName | src/main/java/de/rafael/bibliothek/controller/v1/download/DownloadController.java:107 | the last name, present exactly when the path has names |
| Paths.NormalizeFromAppend | cli/insertBuild.js:183 | normalising in two pieces equals normalising the whole |
| Paths.NormalizeIdempotent | cli/insertBuild.js:183 | normalising a normalised path changes nothing |
| Paths.NormalizedShape | cli/insertBuild.js:183 | a normalised path has no "." and no empty name, and ".." only leading a relative path |
| Paths.NormalizedIsFixed | cli/insertBuild.js:183 | names already in normal form are left as they are |
| Paths.NormalizeFromPlain | cli/insertBuild.js:183 | names that are not "", "." or ".." pass through unchanged |
| Paths.JoinFour | cli/insertBuild.js:182-184 | joining a base and three relative parts is the normalised concatenation of their names, absolute exactly when the base is |
| Paths.JoinOnto | cli/insertBuild.js:190-192 | joining a name onto a joined folder equals joining everything at once |
| Paths.JoinOfRelativeIsRelative | cli/insertBuild.js:183 | joining relative parts never gives an absolute path |
| Decimal.NatToDecimal | src/main/java/de/rafael/bibliothek/controller/v1/download/DownloadController.java:87 | a non-negative number renders as a build-number string with no leading zero except "0" |
| Decimal.IntToDecimal | cli/insertBuild.js:183 | every number renders as a non-empty slash-free string, a build-number string when non-negative |
| Decimal.DecimalRoundTrip | src/main/java/de/rafael/bibliothek/controller/v1/build/BuildController.java:49 | reading back a rendered number gives the number |
| Decimal.CanonicalDigits | src/main/java/de/rafael/bibliothek/controller/v1/build/BuildController.java:49 | a digit string without leading zeros is the rendering of its value |
| Decimal.IntToDecimalInjective | src/main/java/de/rafael/bibliothek/controller/v1/download/DownloadController.java:87 | distinct numbers render differently |
| Decimal.SignOfRendering | cli/insertBuild.js:183 | the rendering starts with '-' exactly for negative numbers |
| Downloads.FirstNamed | src/main/java/de/rafael/bibliothek/controller/v1/download/DownloadController.java:79-91 | the first map entry whose value has the requested name, keys ignored; none exactly when no value has it |
| Downloads.Locate | src/main/java/de/rafael/bibliothek/controller/v1/download/DownloadController.java:75-92 | project, version and build are resolved in order, each error exactly when its link is the first missing one; DownloadNotFound exactly when the found build has no entry of that name; otherwise the path of the first such entry |
| Downloads.StoredDownloadIsLocated | src/main/java/de/rafael/bibliothek/controller/v1/download/DownloadController.java:75-92 | with unique names and one build of that number, a stored entry's file name is located, at the path of the first entry of that name |
| Downloads.DownloadPathOfNames | src/main/java/de/rafael/bibliothek/controller/v1/download/DownloadController.java:84-88 | for single-segment names, the path is the root plus project, version, decimal number and file name |
| Downloads.DownloadPathInjective | src/main/java/de/rafael/bibliothek/controller/v1/download/DownloadController.java:84-88 | distinct single-segment tuples give distinct paths |
| Downloads.HeadersFor | src/main/java/de/rafael/bibliothek/controller/v1/download/DownloadController.java:104-111 | fails without a file name or a file; otherwise fresh headers with the cache, an attachment named by the path's last name, the archive type and the modification time |
| Downloads.DownloadHandler | src/main/java/de/rafael/bibliothek/controller/v1/download/DownloadController.java:74-101 | every failure, lookup failures included, becomes DownloadFailed with its cause; success exactly when the located file exists, served with status 200 and the default cache |
| Downloads.LocatedFileNameIsRequested | src/main/java/de/rafael/bibliothek/controller/v1/download/DownloadController.java:107 | the attachment's file name is the requested download name |
| Downloads.LocatedPathShape | src/main/java/de/rafael/bibliothek/controller/v1/download/DownloadController.java:84-88 | the located path is the storage root plus the requested project, version, number and file names |
| Routes.ErrorResponseFor | src/main/java/de/rafael/bibliothek/throwables/Advice.java:41-83 | a handled error becomes the advice's response, any other is left to the framework |
| Routes.Dispatch | src/main/java/de/rafael/bibliothek/controller/v1/build/BuildController.java:48-49 | a request whose segments fail their grammars matches no route; every JSON answer carries the default cache |
| Routes.Serve | src/main/java/de/rafael/bibliothek/controller/v1/download/DownloadController.java:67-96 | a routed download is the file or the fixed 500 response, the file exactly when it is located and present |
| Routes.UnknownProjectIsNotFound | src/main/java/de/rafael/bibliothek/throwables/Advice.java:63-67 | an unknown project gives 404 with "Project not found." |
| Routes.UnknownVersionIsNotFound | src/main/java/de/rafael/bibliothek/throwables/Advice.java:69-73 | an unknown version of a known project gives 404 with "Version not found." |
| Routes.MissingBuildIsUnhandled | src/main/java/de/rafael/bibliothek/controller/v1/build/BuildController.java:52 | a missing build raises BuildNotFound, which the advice does not handle |
| Routes.MalformedProjectNameIsNotRouted | src/main/java/de/rafael/bibliothek/controller/v1/project/ProjectController.java:45 | a project segment with a digit, an upper-case letter or '/' matches no route |
| Routes.PrefixedVersionIsNotRouted | src/main/java/de/rafael/bibliothek/controller/v1/version/VersionController.java:62 | "v1.0" matches no version route |
| Routes.LeadingZerosIgnored | src/main/java/de/rafael/bibliothek/controller/v1/build/BuildController.java:49 | "007" and "7" ask for the same build |
| Cli.ToUpper | cli/insertBuild.js:43 | each lower-case letter becomes upper case, every other character stays |
| Cli.ToUpperIdempotent | cli/insertBuild.js:43 | upper-casing twice is upper-casing once |
| Cli.ChannelsAreCaseInsensitive | cli/insertBuild.js:43-49 | "default" and "Experimental" are accepted as the two channels, "stable" is not |
| Cli.Split | cli/insertBuild.js:58 | splitting always gives at least one piece, none holding the separator |
| Cli.SplitJoin | cli/insertBuild.js:58 | joining the pieces with the separator gives back the string |
| Cli.ParseDownload | cli/insertBuild.js:58-69 | four or more fields give a named download, exactly three an unnamed (primary) one, fewer none |
| Cli.CheckDownloads | cli/insertBuild.js:55-79 | success exactly when every spec parses and at most one is primary; then the kept downloads are the parses whose file exists, in spec order; a failure is a second primary or an unparsable spec |
| Cli.ParsedSpecs | cli/insertBuild.js:57-68 | when every spec parses, one parse per spec, in order |
| Cli.CheckOptionsSpec | cli/insertBuild.js:42-86 | the upper-cased channel must be DEFAULT or EXPERIMENTAL before anything else; success leaves the parses whose file exists, at least one; NoDownloadsLeft exactly when the channel is valid, every spec parses, at most one is primary and no spec's file exists |
| Cli.NoneKeptIffNoFile | cli/insertBuild.js:69-82 | of specs that all parse, none is kept exactly when no spec names an existing file |
| Cli.CheckOptions | cli/insertBuild.js:42-86 | the loop computes exactly what the checks specify |
| Cli.TwoPrimariesRejected | cli/insertBuild.js:61-65 | two three-field specs stop the script, however valid the rest |
| Cli.GenerateName | cli/insertBuild.js:186-188 | a present non-empty name is kept; otherwise project-version-number.jar |
| Cli.DefaultNameIsDownloadName | cli/insertBuild.js:187 | for a valid project name, version name and non-negative number, the default name is a valid download name |
| Cli.Copies | cli/insertBuild.js:190-192 | one copy per download, in order, from its path to the generated name in the build's folder |
| Cli.CopyDownloads | cli/insertBuild.js:228-230 | the loop performs exactly those copies |
| Cli.FirstIndex | cli/insertBuild.js:257 | the position of the first occurrence, or the length when there is none |
| Cli.ReplaceFirstDot | cli/insertBuild.js:257 | only the first '.' of the type is replaced by ':' |
| Cli.ReplaceFirstDotExample | cli/insertBuild.js:257 | "a.b.c" becomes "a:b.c" |
| Cli.Lookup | cli/insertBuild.js:255-261 | a key is found exactly when some entry has it |
| Cli.AssignLookup | cli/insertBuild.js:257-260 | after `object[key] = value` the key holds the value and every other key what it held before |
| Cli.AssignMembers | cli/insertBuild.js:257-260 | the assignment adds no entry but the assigned one |
| Cli.AssignUnique | cli/insertBuild.js:257-260 | the assignment keeps keys unique |
| Cli.DownloadMapOf | cli/insertBuild.js:255-261 | the map's keys are unique |
| Cli.BuildDownloadMap | cli/insertBuild.js:255-261 | the loop builds exactly that map |
| Cli.KeysOfDownloads | cli/insertBuild.js:255-261 | a key is in the map exactly when some download has it |
| Cli.LastWriteWins | cli/insertBuild.js:255-261 | under each key the map holds the entry of the last download with that key |
| Cli.EntriesComeFromDownloads | cli/insertBuild.js:255-261 | every entry is some download's key with its generated name and hash |
| Cli.SameKindOverwrites | cli/insertBuild.js:255-261 | two downloads with the same key leave one entry, the later one's |
| Cli.NextId | cli/insertBuild.js:140 | a new id exceeds every id in the collection |
| Cli.UpsertProject | cli/insertBuild.js:97-108 | the stored project of that name is returned untouched; otherwise a new one with both fields is appended |
| Cli.UpsertGroup | cli/insertBuild.js:110-122 | keyed by project and name; the timestamp is set on insert only |
| Cli.UpsertVersion | cli/insertBuild.js:124-137 | keyed by project and name; group and timestamp are set on insert only |
| Cli.UpsertProjectKeepsNamesUnique | cli/insertBuild.js:97-108 | names stay unique and the name now resolves to the returned project |
| Cli.UpsertGroupKeepsNamesUnique | cli/insertBuild.js:110-122 | names stay unique and the name now resolves to the returned group |
| Cli.UpsertVersionKeepsNamesUnique | cli/insertBuild.js:124-137 | names stay unique and the name now resolves to the returned version |
| Cli.UpsertProjectIdempotent | cli/insertBuild.js:97-108 | writing the same project again reuses the stored record and changes nothing |
| Cli.VersionKeepsItsGroup | cli/insertBuild.js:124-137 | a version written again under another group keeps its first group |
| Cli.LatestOf | cli/insertBuild.js:155 | the build with the greatest id; none only for no builds |
| Cli.LatestBuild | cli/insertBuild.js:152-157 | the stored build of the project and version with the greatest id; none exactly when the version has no builds |
| Cli.NextBuildNumber | cli/insertBuild.js:211-218 | an explicit number is kept; -1 gives the latest build's number plus one, or 1 |
| Cli.AutoNumberingKeepsOrder | cli/insertBuild.js:211-218 | when numbers rise with ids, an auto-numbered build keeps them rising and exceeds every number of the version |
| Cli.AutoNumberCanRepeat | cli/insertBuild.js:152-157 | numbering follows the latest insert, not the greatest number, so it can repeat a number |
| Cli.LastBuildCommit | cli/insertBuild.js:233 | the latest build's first commit, or "HEAD^1" when there is none |
| Cli.BuildStoragePath | cli/insertBuild.js:182-184 | the storage path joined with project, version and decimal number |
| Cli.Written | cli/insertBuild.js:205-207 | the three writes leave builds alone; with unique names they keep names unique and make both names resolve to the records returned |
| Cli.Record | cli/insertBuild.js:209-264 | the store grows by exactly one build, with a fresh id, the settled number, the download map, the checked channel, Hide, the clock's time and the commit log since the latest build's commit; one copy per download |
| Cli.Ingest | cli/insertBuild.js:194-265 | a failed check writes nothing; otherwise the result is the write phase on the checked options: the earlier builds unchanged and exactly one build appended |
| Cli.Database.constructor | cli/insertBuild.js:201-202 | the database starts with the given store |
| Cli.Database.WriteOrGetProject | cli/insertBuild.js:97-108 | the store and result are those of the project upsert |
| Cli.Database.WriteOrGetGroup | cli/insertBuild.js:110-122 | the store and result are those of the group upsert |
| Cli.Database.WriteOrGetVersion | cli/insertBuild.js:124-137 | the store and result are those of the version upsert |
| Cli.Database.FindLatestBuild | cli/insertBuild.js:152-157 | the latest build of the version, store unchanged |
| Cli.Database.WriteBuild | cli/insertBuild.js:139-150 | appends the build with a fresh id, hidden, on the checked channel |
| Cli.Database.RecordBuild | cli/insertBuild.js:205-264 | the store afterwards and the report are exactly those of the write phase |
| Cli.Database.InsertBuild | cli/insertBuild.js:194-265 | a failed check returns the error and leaves the store unchanged; otherwise store and report are those of the ingestion |
| EndToEnd.ServedPathIsCopyTarget | cli/insertBuild.js:182-191 | the server's resolved path for a download, normalised, is where the script copied it |
| EndToEnd.RecordedBuildIsFound | src/main/java/de/rafael/bibliothek/classes/ApiController.java:68-78 | after the writes, the API resolves the names to the written project, version and new build |
| EndToEnd.IngestedBuildIsFound | src/main/java/de/rafael/bibliothek/controller/v1/build/BuildController.java:50-52 | after an ingestion with a new number, the build endpoint's lookup chain finds the build inserted |
| EndToEnd.IngestedDownloadIsServed | src/main/java/de/rafael/bibliothek/controller/v1/download/DownloadController.java:76-91 | every entry of the new build's download map is located, at the target of one of the script's copies |

## Left out

- Spring Boot wiring, configuration, `RootController.java` and content negotiation are not modelled. The storage root is a parameter.
- Jackson serialisation is not modelled beyond the enum wire names.
- Downloads.HeadersFor: the Last-Modified value is not modelled, only that the header is set. Reading the modification time is an oracle, the set of existing files, and it fails exactly when no file is there.
- Routes.BuildNumberOf: Spring's conversion of the build segment to a 32-bit `int` is read as unbounded. Segments beyond the `int` range, which the framework rejects, are not modelled.
- Decimal.IntToDecimal: numbers are unbounded; the script's and the server's 32-bit and double ranges are not modelled.
- Cli.ToUpper: `toUpperCase` is modelled on ASCII letters only. Other characters are left unchanged.
- Cli.DownloadMapOf: the entries stay in insertion order. JavaScript lists integer-like keys first, and that ordering is not modelled.
- Cli.Database.WriteOrGetProject: the driver is assumed to return the document after the upsert, as `returnOriginal: false` asks. This also applies to WriteOrGetGroup and WriteOrGetVersion.
- Cli.CheckOptions: the option-record mutation is modelled as a returned record. `parseInt` of the build number is not modelled: it arrives as an integer.
- Cli.NextId: a new id is taken to exceed every stored id. Real MongoDB ObjectIds do not promise this: within one second their order follows a per-process random field, and clocks on different machines can be skewed. So `Cli.LatestBuild`, which sorts by `_id` descending like the script, follows insertion order only under this assumption.
- The yargs option parsing, the MongoDB connection and its URL discovery, and `process.exit` are not modelled. Exits are the `CliError` results.
- The `gitlog` call and `new Date()` are parameters.
- Directory creation is not modelled. The `fs` copies are reported as a list of (source, target) pairs.
- `cli/insertBuild.rb` is not part of this model: it only parses options and copies files.
- Paths.Normalize: ".." is worked out lexically. Symbolic links, which the operating system follows, are not modelled.
- The path strings on both sides are compared after normalisation, as the file system reads them.
- The store's indexes and uniqueness are not enforced. `Store.UniqueNames` and the fresh build number are hypotheses of the lemmas that need them.
- Repository queries whose implementation is not visible are modelled as first-match filters in store order.
- Frameworks may render BuildNotFound and GroupNotFound on their own. The model only states that the advice does not handle them (`Routes.Response.Unhandled`).
- EndToEnd.IngestedDownloadIsServed: stated for names that do not start with '/'. Such a name would be copied under the build folder by `path.join` but resolved from the root by java.nio. The server's download grammar rules out those names.
