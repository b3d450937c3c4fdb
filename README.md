# Build-matrix engine of `containers`

The repository turns the descriptors of its container apps (`apps/<app>/ci/metadata.yaml`) into a
build plan: a list of images to build and, for each image, one build record per platform. For
every release channel of an app the engine resolves the latest upstream version by running a
probe script. Channels without a version are skipped. The current engine also asks GitHub
whether that version is already published and skips channels that are up to date. Each channel
that is not skipped becomes one image and one record per `OS/ARCH` platform string. The
Dockerfile for those records is the per-channel one when it exists, else the app's own.

This Dafny project models three parts of that code:

- **`cmd/main.go`, the current engine** (module `Matrix`). It covers the channel "filter", which
  ignores the requested channel names, and the skip rule with its published-version lookup. It
  also covers image naming, the tags `latest` and the version, the `OS/ARCH` split, the Dockerfile
  choice, and `processSpecificApps`, which concatenates the apps' lists in order.
- **`cmd/containers.go`, the older engine** (module `Containers`). It has no lookup. It has a real
  channel filter, written as a nested loop. Its tags are `rolling` and the version. Its records
  are string-keyed maps made by `Platform.toMap`.
- **`pkg/provider/github.go`, the GitHub provider** (module `GithubProvider`). It covers the
  published-tag selection loop of `GetPublishedVersion`, `filterReleases`, and the result of
  `GetPublishedReleases`.

The other modules:

- `AppLayout` holds the version probes (`getLatestVersion`, `getLatestVersionSh`) and the
  Dockerfile choice. Both engines contain identical copies of this code, so it is defined once.
- `Plans` holds what both engines share: a generic entry (an image and its platform records), the plan of a channel list, and the plan of an app list, with their lemmas.
- `Text` holds the Go `strings` operations the code relies on.
- `Scenarios` holds concrete cases: the skip rule and the record shapes for one app, `foo`, and two tag lists for the provider's tag selection.

The filesystem, the probe processes and the published-version lookup become oracles passed in
as function values:

- `Host.isRegularFile(path)` stands for "`os.Stat` succeeds and the entry is not a directory".
- `Host.exec(path, arg)` is the probe's standard output, or `None` when it cannot run or exits
  with a non-zero status.
- `AppsRoot.missing` and `AppsRoot.load` stand for the app-directory check and the descriptor
  loader.
- A `string -> Lookup` function gives the answer of `GetPublishedVersion` for each image name:
  the published tag, the HTTP status of the response if any, and whether an error came back.

Each loop of the source is a `method` with a `for` loop. It is proved equal to a specification
function defined by recursion on the input (`Plan`, `AppsPlan`, `ChannelFilter`, `Filtered`,
`PublishedTag`). The source's properties are then lemmas about those functions.
`processSpecificApps` changes the document it is given in place. It is therefore a method on an
`ImagesToBuild` object whose two list fields it appends to.

Three behaviours of the code are worth stating outright:

- The provider takes the first listed version that carries `latest`. It drops only the first
  `latest` from that version's tags. It then returns the longest remaining tag, and the earliest
  one when several have that length (`GithubProvider.PublishedTagShape`,
  `Scenarios.SecondMarkerCanWin`). The model measures length in characters; see "## Left out".
- A decode error or a "no data" error from the provider comes back without a response. The skip
  test at cmd/main.go:130 then reads that missing response's status code, and the program
  crashes. `Matrix.Inspectable` is a precondition for this reason. A non-200 reply comes back
  without an error, so the channel is built.
- `cmd/main.go` ignores the requested channel names (`Matrix.FilterChannels`), while
  `cmd/containers.go` filters by them (`Containers.ChannelFilterSelects`).

## Model

| member | source | states |
|---|---|---|
| Text.ContainsIff | cmd/main.go:130 | `strings.Contains(s, sub)` holds exactly when `sub` occurs in `s` at some offset |
| Text.TrimSpace | cmd/main.go:83 | the result is the input with a maximal run of Unicode white space removed from each end: it is a slice of the input, only white space lies outside it, and it neither starts nor ends with white space |
| Text.ToLowerEqualIff | pkg/provider/github.go:192 | two strings lower-case to the same string exactly when they are equal up to ASCII case, a relation defined position by position without `ToLower` |
| Text.ToLowerIsLower | pkg/provider/github.go:192 | a lower-cased string holds no upper-case ASCII letter, and lower-casing it again changes nothing |
| Text.SplitFields | cmd/main.go:140-141 | for a platform string with a `/`, the two fields are separator-free, the string starts with `first/second`, and what follows is empty or another `/` |
| Text.SplitUnique | cmd/main.go:140-141 | any pair with that shape is the pair the split yields |
| AppLayout.GetLatestVersionSh | cmd/main.go:78-84 | a probe that fails gives ""; a probe that runs gives its output trimmed of surrounding white space |
| AppLayout.GetLatestVersion | cmd/main.go:86-94 | `ci/latest.sh` wins when it is a regular file; otherwise `<channel>/latest.sh` when that is one; with neither the version is "" |
| AppLayout.LatestVersionIsTrimmed | cmd/main.go:78-94 | a resolved version is "" or neither starts nor ends with white space |
| AppLayout.ChooseDockerfile | cmd/main.go:153-159 | the per-channel `Dockerfile` wins when it is a regular file, and the context is its directory; otherwise the app's `Dockerfile` with the app directory as context |
| GithubProvider.FirstTagged | pkg/provider/github.go:134-136 | `None` exactly when no listed version carries `latest`; otherwise the earliest position that does |
| GithubProvider.SelectPublishedTag | pkg/provider/github.go:134-149 | the error "no data to go through" with "" happens exactly when no version carries `latest`; otherwise no error and the tag `PublishedTag` selects |
| GithubProvider.LongestTag | pkg/provider/github.go:138-143 | the running-maximum loop computes `Longest` of the remaining tags |
| GithubProvider.LongestIsFirstLongest | pkg/provider/github.go:138-143 | the selected tag has maximal length, every earlier tag is strictly shorter, and no tags give "" |
| GithubProvider.PublishedTagIgnoresLater | pkg/provider/github.go:134-146 | once a version carrying `latest` is listed, appending more versions does not change the result |
| GithubProvider.PublishedTagShape | pkg/provider/github.go:134-144 | for the first version carrying `latest`: only its first `latest` is removed (one element fewer, the same multiset less one marker), the result is "" when nothing remains, and otherwise it is the earliest tag of maximal length among the rest |
| GithubProvider.RemoveFirstShape | pkg/provider/github.go:137 | removing the first occurrence shortens the list by one and removes exactly one copy of the element |
| GithubProvider.OnlyMarkerGivesEmpty | pkg/provider/github.go:137-144 | a version tagged only `latest` publishes "" without an error |
| GithubProvider.FilterReleases | pkg/provider/github.go:188-199 | the nested loop computes `Filtered`: each release's copies in release order |
| GithubProvider.MatchCopiesCount | pkg/provider/github.go:191-195 | a release is appended once per matching rule and nothing else is appended for it |
| GithubProvider.FilteredAppend | pkg/provider/github.go:190-197 | filtering a concatenation is the concatenation of the filtered parts, so input order is kept |
| GithubProvider.FilteredMembers | pkg/provider/github.go:188-198 | a release is in the output exactly when it is an input release and some rule, lower-cased, occurs in its lower-cased name |
| GithubProvider.FilteredNoRules | pkg/provider/github.go:191 | with no rules the output is empty |
| GithubProvider.MatchesIgnoresCase | pkg/provider/github.go:192 | release names that differ only in ASCII case, checked against rules that differ only in ASCII case, match alike |
| GithubProvider.EmptyRuleMatches | pkg/provider/github.go:192 | the empty rule matches every release once |
| GithubProvider.FilteredEmptyRule | pkg/provider/github.go:191-193 | with the empty rule alone the output equals the input |
| GithubProvider.GetPublishedReleases | pkg/provider/github.go:152-169 | the returned list is empty on every path; an error is reported exactly when a 200 reply fails to decode |
| Matrix.FilterChannels | cmd/main.go:100-111 | both branches keep every channel, in order, whatever names are requested |
| Matrix.PlatformRecords | cmd/main.go:139-161 | one record per platform, in platform order, each the record of that platform |
| Matrix.GetPlatformMetadata | cmd/main.go:96-166 | the image list and the platform list are those of `Plan`, the per-channel decisions in channel order |
| Matrix.AppendPlatforms | cmd/main.go:139-161 | the platform loop appends exactly the channel's platform records to the list |
| Matrix.SkipRule | cmd/main.go:116-134 | a channel yields nothing exactly when it has no version, or when there is no force and the lookup worked or answered 404 with a non-empty published tag containing the version; a built image records the looked-up tag, or "" under force |
| Matrix.ImageRecord | cmd/main.go:121-137 | a built image is named after the app when the channel is stable and `<app>-<channel>` otherwise; it has the trimmed non-empty version, the tags `latest` and the version, and the label schema |
| Matrix.PlatformRecordsOfChannel | cmd/main.go:139-161 | a built image has one record per platform of its channel, in order, with the image's name and version, the channel, the platform unchanged, its first two `/` fields as OS and architecture, and the chosen Dockerfile and context |
| Matrix.DecideCoherent | cmd/main.go:143-151 | every record of a built channel carries its image's name and version |
| Plans.PlanOverAppend | cmd/main.go:113-163 | channels are decided independently: the plan of a concatenation is the concatenation of the plans |
| Plans.PlanEntriesFromChannels | cmd/main.go:113-163 | there are at most as many images as channels, and each entry is the decision of one channel |
| Plans.PlatformsGroupedByImage | cmd/main.go:139-162 | the `i`-th image is the `i`-th entry's, and that entry's records sit in the platform list between those of the entries before and after it |
| Matrix.AppPlatformsHaveImages | cmd/main.go:139-162 | every platform record belongs to an image with the same name and version |
| Matrix.ImagesToBuild.constructor | cmd/main.go:185-188 | the document starts with both lists empty |
| Matrix.ProcessSpecificApps | cmd/main.go:212-231 | the document's lists become their old contents followed by every selected app's images and records, in app order |
| Matrix.AppPlanCases | cmd/main.go:213-227 | a missing app directory or a descriptor that fails to load contributes nothing; otherwise the app contributes its `Plan` |
| Plans.AppsPlanAppend | cmd/main.go:213-230 | apps are processed independently: the plan of a concatenation is the concatenation of the plans |
| Plans.EmptyAppContributesNothing | cmd/containers.go:192-211 | an app that contributes nothing leaves the plan of the other apps unchanged |
| Matrix.UnusableAppContributesNothing | cmd/main.go:214-225 | an app that is missing or unloadable changes nothing for the other apps |
| Containers.ToMapShape | cmd/containers.go:26-36 | `toMap` yields exactly the seven keys, each bound to a string |
| Containers.FromToMap | cmd/containers.go:26-36 | each field is bound to its own key: reading the map back gives the platform |
| Containers.ToFromMap | cmd/containers.go:26-36 | every map of that shape is the map of some platform |
| Containers.ToMapInjective | cmd/containers.go:26-36 | distinct platforms give distinct maps |
| Containers.FilterChannels | cmd/containers.go:87-99 | the nested loop computes `ChannelFilter` |
| Containers.ChannelFilterSelects | cmd/containers.go:89-99 | with no names every channel is kept in order; otherwise a channel is kept exactly when it is declared and its name requested, and it appears as often as it is declared times as often as its name is requested |
| Containers.SelectedAppend | cmd/containers.go:92-98 | filtering a concatenation is the concatenation of the filtered parts, so metadata order is kept |
| Containers.UnmatchedNameIgnored | cmd/containers.go:92-98 | a requested name that no channel carries changes nothing when other names are requested |
| Containers.OnlyUnmatchedNamesSelectNothing | cmd/containers.go:92-98 | a request made only of unknown names selects no channel |
| Containers.PlatformMaps | cmd/containers.go:125-141 | one map per platform, in platform order, each the `toMap` of that platform's record |
| Containers.ImageMapOfChannel | cmd/containers.go:101-123 | a channel yields nothing exactly when it has no version; an image map has exactly name, version, tags and label_type, with the naming rule, the tags `rolling` and the version, and the label schema |
| Containers.PlatformMapsOfChannel | cmd/containers.go:125-141 | one map per platform string, in order, with the image's name and version, the channel, the platform unchanged and the chosen Dockerfile and context |
| Containers.GetPlatformMetadata | cmd/containers.go:81-146 | the image maps and platform maps are those of `Plan` over the filtered channels |
| Containers.AppendPlatforms | cmd/containers.go:125-141 | the platform loop appends exactly the channel's platform maps |
| Containers.ImagesToBuild.constructor | cmd/containers.go:164-167 | the output map starts with both lists empty |
| Containers.ProcessSpecificApps | cmd/containers.go:191-211 | the two lists become their old contents followed by every selected app's maps, in app order |
| Containers.AppPlanCases | cmd/containers.go:192-206 | a missing or unloadable app contributes nothing; otherwise the app contributes its `Plan` |
| Containers.UnusableAppContributesNothing | cmd/containers.go:193-204 | an app that is missing or unloadable changes nothing for the other apps |
| Scenarios.FooProbeIsShared | cmd/main.go:87-89 | the shared probe of `apps/foo` is `apps/foo/ci/latest.sh` |
| Scenarios.FooBuildsFromAppDockerfile | cmd/main.go:153-159 | with no per-channel Dockerfile, `apps/foo/Dockerfile` with context `apps/foo` is used |
| Scenarios.TrimsNewline | cmd/main.go:83 | the probe output `1.2.3` followed by a newline resolves to `1.2.3` |
| Scenarios.LinuxAmd64Fields | cmd/main.go:140-141 | `linux/amd64` splits into `linux` and `amd64` |
| Scenarios.FooPlatformRecords | cmd/main.go:139-161 | the channel's one platform yields one record with OS `linux`, architecture `amd64` and the app's Dockerfile |
| Scenarios.NotPublishedBuildsOnce | cmd/main.go:113-163 | a 404 lookup gives one image `foo` at `1.2.3` tagged `latest` and `1.2.3`, and its one platform record |
| Scenarios.PublishedIsSkipped | cmd/main.go:128-132 | a published tag `1.2.3-extra` contains `1.2.3`, so the app yields nothing |
| Scenarios.NoVersionIsSkipped | cmd/main.go:116-119 | an empty probe output makes the app yield nothing |
| Scenarios.SecondMarkerCanWin | pkg/provider/github.go:137-144 | with tags `latest 1.2.3 1.2.4 latest` the second `latest` stays and, being longest, is the result |
| Scenarios.EarliestOfEqualLengthWins | pkg/provider/github.go:138-143 | with tags `1.2.3 latest 1.2.4` the result is `1.2.3` |

## Left out

- HTTP, JSON and the request helper (`doRequest`, URL formatting, decoding into `Package` and `Release`, closing bodies) are not modelled. The lookup is an oracle. The tag selection starts from the decoded version list. `GetPublishedReleases` starts from the decoded reply.
- A transport failure makes the provider read the status code of a missing response (pkg/provider/github.go:125 and 155). This path is not modelled.
- `os.Stat`, `exec.Command`, `os.ReadFile`, `yaml.Unmarshal`, `os.ReadDir`, `json.Marshal` and all printing are oracles or left out. The model has no logs, no JSON output and no "all" app discovery.
- `apiInit`, the global GitHub client and the environment variables are left out. They only read the environment.
- Command-line parsing and the usage exit of both programs are left out. The model starts from the parsed app list, flags and channel names.
- `filepath.Join` is modelled as joining two clean components with `/`. Path cleaning is not modelled.
- GithubProvider.LongestTag: tag lengths are counted in characters, while Go's `len` at pkg/provider/github.go:140 counts UTF-8 bytes. The two agree on ASCII tags, which is what container registries allow. For tags with non-ASCII characters the model may select a different tag. `GithubProvider.Longest` and `GithubProvider.PublishedTagShape` measure length the same way.
- `Text.ToLower` folds ASCII letters only. Go's `strings.ToLower` also folds other Unicode letters.
- Probe output is modelled as characters, not bytes. No UTF-8 decoding is modelled.
- Matrix.GetPlatformMetadata: requires that every lookup the engine makes can be inspected, and that every platform of a channel that is built contains `/`. Otherwise the source crashes (cmd/main.go:130 and 141). The crash itself is not modelled.
- Matrix.ProcessSpecificApps: requires the same of every app whose descriptor loads, for the same reason.
- Matrix.PlatformRecordsOfChannel: requires that every platform of the channel contains `/`. For a platform without one the source crashes.
- GithubProvider.SelectPublishedTag: the source removes the marker in place from the decoded tag slice, which shares its storage with the version list. The model works on values. The list is dropped right after the function returns, so nothing observable is lost.
- `forRelease` is passed along but never read, as in the source.
- `getPlatformMetadata` allocates a fresh document and returns a pointer to it. The model returns its two lists directly. In the older engine, the output is a Go map with two list entries; the model uses an object with two list fields.
- The `Release` and `Package` fields other than the release name and the container tags are never read and are not modelled.
