/**
 * The current build-matrix engine of `cmd/main.go`. For every channel of an app it resolves the
 * latest version, asks the published-version lookup whether that version is already out, and
 * expands each stale channel into one image record and one record per platform. The app
 * aggregator concatenates the records of every selected app, in order.
 */
module Matrix {
  import opened Wrappers
  import opened Text
  import opened AppLayout
  import opened Plans

  /** A release channel of an app, as `ci/metadata.yaml` declares it. */
  datatype Channel = Channel(name: string, platforms: seq<string>, stable: bool)

  /** An app's descriptor. */
  datatype Metadata = Metadata(app: string, url: string, rules: seq<string>, channels: seq<Channel>)

  /** An image to build; `publishedVersion` "" is the omitted JSON field. */
  datatype Image = Image(name: string, version: string, publishedVersion: string, tags: seq<string>, labelType: string)

  /** One per-platform build instruction of an image. */
  datatype Platform = Platform(
    name: string, version: string, platform: string, targetOS: string, targetArch: string,
    channel: string, dockerfilePath: string, dockerContext: string, labelType: string)

  /**
   * One answer of `GetPublishedVersion(imageName)`: the published tag, the HTTP status of the
   * response (`None` when no response came back) and whether an error was returned.
   */
  datatype Lookup = Lookup(published: string, statusCode: Option<int>, failed: bool)

  const StatusNotFound: int := 404

  /** The image name a channel publishes under. */
  function ImageName(app: string, channel: Channel): string
  {
    if channel.stable then app else app + "-" + channel.name
  }

  /** The skip test reads the status code only of a failed lookup; that one must have a response. */
  predicate Inspectable(l: Lookup)
  {
    !l.failed || l.statusCode.Some?
  }

  /**
   * The channel is up to date: the lookup worked or said "not found", and the published tag
   * contains the version. (A failed lookup without a response makes the source dereference nil;
   * the engine's callers exclude it, see `Inspectable`.)
   */
  predicate UpToDate(l: Lookup, version: string)
  {
    (!l.failed || l.statusCode == Some(StatusNotFound)) && l.published != "" && Contains(l.published, version)
  }

  /**
   * What processing a channel demands of its inputs: the lookup the engine makes (a version
   * was found and there is no force) can be inspected, and every platform of a channel that is
   * built is `OS/ARCH`. Either failure makes the source panic.
   */
  predicate ChannelProcessable(subDir: string, meta: Metadata, force: bool, host: Host, lookup: string -> Lookup, channel: Channel)
  {
    && (GetLatestVersion(host, subDir, channel.name) != "" && !force ==> Inspectable(lookup(ImageName(meta.app, channel))))
    && (Decide(subDir, meta, force, host, lookup, channel).Some? ==> forall p :: p in channel.platforms ==> '/' in p)
  }

  predicate Processable(subDir: string, meta: Metadata, force: bool, host: Host, lookup: string -> Lookup)
  {
    forall channel :: channel in meta.channels ==> ChannelProcessable(subDir, meta, force, host, lookup, channel)
  }

  /** The channel "filter" of this engine: both of its branches copy every channel, so the requested names are ignored. */
  function FilterChannels(all: seq<Channel>, requested: seq<string>): (filtered: seq<Channel>)
    ensures filtered == all
  {
    if |requested| == 0 then all else all
  }

  /** The record built for one platform of a channel. */
  function PlatformRecord(host: Host, subDir: string, name: string, channelName: string, version: string, platform: string): Platform
  {
    var build := ChooseDockerfile(host, subDir, channelName);
    Platform(name, version, platform, FirstField(platform), SecondField(platform), channelName,
             build.dockerfile, build.context, LabelType)
  }

  /** The records built for a channel's platforms, one each, in platform order. */
  function PlatformRecords(host: Host, subDir: string, name: string, channelName: string, version: string, platforms: seq<string>): (records: seq<Platform>)
    ensures |records| == |platforms|
    ensures forall k :: 0 <= k < |platforms| ==> records[k] == PlatformRecord(host, subDir, name, channelName, version, platforms[k])
  {
    if platforms == [] then []
    else
      PlatformRecords(host, subDir, name, channelName, version, platforms[..|platforms| - 1])
      + [PlatformRecord(host, subDir, name, channelName, version, platforms[|platforms| - 1])]
  }

  lemma PlatformRecordsStep(host: Host, subDir: string, name: string, channelName: string, version: string, platforms: seq<string>, j: nat)
    requires j < |platforms|
    ensures PlatformRecords(host, subDir, name, channelName, version, platforms[..j + 1])
         == PlatformRecords(host, subDir, name, channelName, version, platforms[..j])
            + [PlatformRecord(host, subDir, name, channelName, version, platforms[j])]
  {
    assert platforms[..j + 1][..j] == platforms[..j];
  }

  /** The decision of the loop body for one channel: `None` when the channel is skipped. */
  function Decide(subDir: string, meta: Metadata, force: bool, host: Host, lookup: string -> Lookup, channel: Channel): Option<Entry<Image, Platform>>
  {
    var version := GetLatestVersion(host, subDir, channel.name);
    if version == "" then None
    else
      var name := ImageName(meta.app, channel);
      if !force && UpToDate(lookup(name), version) then None
      else
        var published := if force then "" else lookup(name).published;
        Some(Entry(Image(name, version, published, ["latest", version], LabelType),
                   PlatformRecords(host, subDir, name, channel.name, version, channel.platforms)))
  }

  /** The decision of `Decide` for every channel of one app, as a function value. */
  function Decider(subDir: string, meta: Metadata, force: bool, host: Host, lookup: string -> Lookup): Channel -> Option<Entry<Image, Platform>>
  {
    channel => Decide(subDir, meta, force, host, lookup, channel)
  }

  /** The entries `getPlatformMetadata` produces for an app. */
  function Plan(subDir: string, meta: Metadata, force: bool, host: Host, lookup: string -> Lookup, channels: seq<string>): seq<Entry<Image, Platform>>
  {
    PlanOver(FilterChannels(meta.channels, channels), Decider(subDir, meta, force, host, lookup))
  }

  /** `getPlatformMetadata`: the image list and the platform list of one app. */
  method GetPlatformMetadata(subDir: string, meta: Metadata, forRelease: bool, force: bool, host: Host,
                             lookup: string -> Lookup, channels: seq<string>)
    returns (images: seq<Image>, imagePlatforms: seq<Platform>)
    requires Processable(subDir, meta, force, host, lookup)
    ensures images == ImagesOf(Plan(subDir, meta, force, host, lookup, channels))
    ensures imagePlatforms == PlatformsOf(Plan(subDir, meta, force, host, lookup, channels))
  {
    images, imagePlatforms := [], [];
    ghost var decide := Decider(subDir, meta, force, host, lookup);
    var filteredChannels := [];
    if |channels| == 0 {
      filteredChannels := filteredChannels + meta.channels;
    } else {
      filteredChannels := filteredChannels + meta.channels;
    }
    assert filteredChannels == FilterChannels(meta.channels, channels);

    for i := 0 to |filteredChannels|
      invariant images == ImagesOf(PlanOver(filteredChannels[..i], decide))
      invariant imagePlatforms == PlatformsOf(PlanOver(filteredChannels[..i], decide))
    {
      var channel := filteredChannels[i];
      PlanOverStep(filteredChannels, i, decide);
      assert decide(channel) == Decide(subDir, meta, force, host, lookup, channel);
      assert channel in meta.channels;
      assert ChannelProcessable(subDir, meta, force, host, lookup, channel);
      var version := GetLatestVersion(host, subDir, channel.name);
      if version == "" {
        continue;
      }

      var name := if channel.stable then meta.app else meta.app + "-" + channel.name;
      var publishedVersion := "";
      if !force {
        assert name == ImageName(meta.app, channel);
        var answer := lookup(name);
        if (!answer.failed || answer.statusCode.value == StatusNotFound) && answer.published != ""
           && Contains(answer.published, version) {
          continue;
        }
        publishedVersion := answer.published;
      }
      var toBuild := Image(name, version, publishedVersion, ["latest", version], LabelType);
      assert decide(channel) == Some(Entry(toBuild, PlatformRecords(host, subDir, name, channel.name, version, channel.platforms)));

      imagePlatforms := AppendPlatforms(imagePlatforms, host, subDir, name, channel.name, version, channel.platforms);
      images := images + [toBuild];
    }
    assert filteredChannels[..|filteredChannels|] == filteredChannels;
  }

  /** The platform loop of `getPlatformMetadata`: one record per platform of the channel, appended in platform order. */
  method AppendPlatforms(imagePlatforms: seq<Platform>, host: Host, subDir: string, name: string, channelName: string,
                         version: string, platforms: seq<string>)
    returns (result: seq<Platform>)
    requires forall p :: p in platforms ==> '/' in p
    ensures result == imagePlatforms + PlatformRecords(host, subDir, name, channelName, version, platforms)
  {
    result := imagePlatforms;
    for j := 0 to |platforms|
      invariant result == imagePlatforms + PlatformRecords(host, subDir, name, channelName, version, platforms[..j])
    {
      var platform := platforms[j];
      PlatformRecordsStep(host, subDir, name, channelName, version, platforms, j);
      var targetOs := FirstField(platform);
      var targetArch := SecondField(platform);
      var platformObj := Platform(name, version, platform, targetOs, targetArch, channelName, "", "", LabelType);
      if host.isRegularFile(Join(Join(subDir, channelName), "Dockerfile")) {
        platformObj := platformObj.(dockerfilePath := Join(Join(subDir, channelName), "Dockerfile"),
                                    dockerContext := Join(subDir, channelName));
      } else {
        platformObj := platformObj.(dockerfilePath := Join(subDir, "Dockerfile"), dockerContext := subDir);
      }
      assert platformObj == PlatformRecord(host, subDir, name, channelName, version, platform);
      ConcatAssoc(imagePlatforms, PlatformRecords(host, subDir, name, channelName, version, platforms[..j]), [platformObj]);
      result := result + [platformObj];
    }
    assert platforms[..|platforms|] == platforms;
  }

  // ---------------------------------------------------------------------------
  // What one channel yields

  /**
   * A channel is skipped exactly when it has no version, or when the lookup was made (no force)
   * and worked or said "not found" and its non-empty published tag contains the version.
   * An emitted image records the looked-up tag, or "" under force, where no lookup happens.
   */
  lemma SkipRule(subDir: string, meta: Metadata, force: bool, host: Host, lookup: string -> Lookup, channel: Channel)
    ensures var version := GetLatestVersion(host, subDir, channel.name);
      var answer := lookup(ImageName(meta.app, channel));
      var d := Decide(subDir, meta, force, host, lookup, channel);
      && (d.None? <==> version == "" || (!force && (!answer.failed || answer.statusCode == Some(StatusNotFound))
                                                 && answer.published != "" && Contains(answer.published, version)))
      && (d.Some? ==> d.value.image.publishedVersion == if force then "" else answer.published)
  {
  }

  /**
   * An emitted image is named after the app for a stable channel and `<app>-<channel>` otherwise,
   * carries the probe's version (non-empty, without surrounding white space), the tags
   * `latest` and the version, and the label schema.
   */
  lemma ImageRecord(subDir: string, meta: Metadata, force: bool, host: Host, lookup: string -> Lookup, channel: Channel)
    ensures var d := Decide(subDir, meta, force, host, lookup, channel);
      var version := GetLatestVersion(host, subDir, channel.name);
      d.Some? ==>
        && d.value.image.name == (if channel.stable then meta.app else meta.app + "-" + channel.name)
        && d.value.image.version == version
        && version != "" && !IsSpace(version[0]) && !IsSpace(version[|version| - 1])
        && d.value.image.tags == ["latest", version]
        && d.value.image.labelType == "org.opencontainers.image"
  {
    LatestVersionIsTrimmed(host, subDir, channel.name);
  }

  /**
   * An emitted image comes with one record per platform of its channel, in platform order; each
   * has the image's name and version, the channel's name, the platform string unchanged, its
   * first two `/` fields as OS and architecture, and the per-channel Dockerfile when there is one.
   */
  lemma PlatformRecordsOfChannel(subDir: string, meta: Metadata, force: bool, host: Host, lookup: string -> Lookup, channel: Channel)
    requires forall p :: p in channel.platforms ==> '/' in p
    ensures var d := Decide(subDir, meta, force, host, lookup, channel);
      var perChannel := host.isRegularFile(subDir + "/" + channel.name + "/Dockerfile");
      d.Some? ==>
        && |d.value.platforms| == |channel.platforms|
        && forall k :: 0 <= k < |channel.platforms| ==>
          var r := d.value.platforms[k];
          && r.name == d.value.image.name && r.version == d.value.image.version
          && r.channel == channel.name && r.platform == channel.platforms[k]
          && SplitsAs(r.platform, r.targetOS, r.targetArch)
          && r.dockerfilePath == (if perChannel then subDir + "/" + channel.name + "/Dockerfile" else subDir + "/Dockerfile")
          && r.dockerContext == (if perChannel then subDir + "/" + channel.name else subDir)
          && r.labelType == "org.opencontainers.image"
  {
    var d := Decide(subDir, meta, force, host, lookup, channel);
    if d.Some? {
      assert Join(Join(subDir, channel.name), "Dockerfile") == subDir + "/" + channel.name + "/Dockerfile";
      forall k | 0 <= k < |channel.platforms|
        ensures SplitsAs(d.value.platforms[k].platform, d.value.platforms[k].targetOS, d.value.platforms[k].targetArch)
      {
        SplitFields(channel.platforms[k]);
      }
    }
  }

  // ---------------------------------------------------------------------------
  // What a channel list yields

  /** An entry whose platform records all carry its image's name and version. */
  predicate Coherent(e: Entry<Image, Platform>)
  {
    forall k :: 0 <= k < |e.platforms| ==> e.platforms[k].name == e.image.name && e.platforms[k].version == e.image.version
  }

  /** Every entry `Decide` produces is coherent. */
  lemma DecideCoherent(subDir: string, meta: Metadata, force: bool, host: Host, lookup: string -> Lookup, channel: Channel)
    ensures var d := Decide(subDir, meta, force, host, lookup, channel); d.Some? ==> Coherent(d.value)
  {
  }

  /** When every entry is coherent, every platform record of the plan belongs to an image of the same name and version. */
  lemma {:induction false} EveryPlatformHasImage(channels: seq<Channel>, decide: Channel -> Option<Entry<Image, Platform>>)
    requires forall channel :: channel in channels && decide(channel).Some? ==> Coherent(decide(channel).value)
    ensures forall p :: p in PlatformsOf(PlanOver(channels, decide)) ==>
      exists image :: image in ImagesOf(PlanOver(channels, decide)) && image.name == p.name && image.version == p.version
  {
    if channels != [] {
      var prefix := channels[..|channels| - 1];
      var last := channels[|channels| - 1];
      assert forall channel :: channel in prefix ==> channel in channels;
      EveryPlatformHasImage(prefix, decide);
      var plan := PlanOver(channels, decide);
      var done := PlanOver(prefix, decide);
      if decide(last).Some? {
        var e := decide(last).value;
        assert plan == done + [e];
        assert (done + [e])[..|done|] == done;
        assert ImagesOf(plan) == ImagesOf(done) + [e.image];
        assert PlatformsOf(plan) == PlatformsOf(done) + e.platforms;
        forall p | p in e.platforms
          ensures e.image in ImagesOf(plan) && e.image.name == p.name && e.image.version == p.version
        {
          var k :| 0 <= k < |e.platforms| && e.platforms[k] == p;
        }
      } else {
        assert plan == done;
      }
    }
  }

  /** So it holds of every app plan. */
  lemma AppPlatformsHaveImages(subDir: string, meta: Metadata, force: bool, host: Host, lookup: string -> Lookup, channels: seq<string>)
    ensures var plan := Plan(subDir, meta, force, host, lookup, channels);
      forall p :: p in PlatformsOf(plan) ==> exists image :: image in ImagesOf(plan) && image.name == p.name && image.version == p.version
  {
    var decide := Decider(subDir, meta, force, host, lookup);
    forall channel | channel in meta.channels && decide(channel).Some?
      ensures Coherent(decide(channel).value)
    {
      DecideCoherent(subDir, meta, force, host, lookup, channel);
    }
    EveryPlatformHasImage(meta.channels, decide);
  }

  // ---------------------------------------------------------------------------
  // App aggregator

  /**
   * The apps root as the aggregator sees it: `missing(dir)` is "`os.Stat(dir)` reports that
   * it does not exist", and `load(file)` the parsed descriptor, `None` when reading or parsing
   * fails.
   */
  datatype AppsRoot = AppsRoot(missing: string -> bool, load: string -> Option<Metadata>)

  function AppDir(app: string): string
  {
    "apps/" + app
  }

  function MetadataFile(app: string): string
  {
    AppDir(app) + "/ci/metadata.yaml"
  }

  /** An app whose descriptor loads must be processable. */
  predicate AppProcessable(root: AppsRoot, force: bool, host: Host, lookup: string -> Lookup, app: string)
  {
    !root.missing(AppDir(app)) && root.load(MetadataFile(app)).Some? ==>
      Processable(AppDir(app), root.load(MetadataFile(app)).value, force, host, lookup)
  }

  /** What one app contributes: nothing when its directory is missing or its descriptor does not load. */
  function AppPlan(root: AppsRoot, force: bool, host: Host, lookup: string -> Lookup, channels: seq<string>, app: string): seq<Entry<Image, Platform>>
  {
    if root.missing(AppDir(app)) then []
    else match root.load(MetadataFile(app))
      case None => []
      case Some(meta) => Plan(AppDir(app), meta, force, host, lookup, channels)
  }

  /** `AppPlan` for every app, as a function value. */
  function PerApp(root: AppsRoot, force: bool, host: Host, lookup: string -> Lookup, channels: seq<string>): string -> seq<Entry<Image, Platform>>
  {
    app => AppPlan(root, force, host, lookup, channels, app)
  }

  /** The output document: both lists, accumulated across apps. */
  class ImagesToBuild {
    var imagePlatforms: seq<Platform>
    var images: seq<Image>

    constructor ()
      ensures imagePlatforms == [] && images == []
    {
      imagePlatforms := [];
      images := [];
    }
  }

  /** `processSpecificApps`: append the lists of every selected app, skipping the unusable ones. */
  method ProcessSpecificApps(selectedApps: seq<string>, forRelease: bool, force: bool, channels: seq<string>,
                             root: AppsRoot, host: Host, lookup: string -> Lookup, imagesToBuild: ImagesToBuild)
    requires forall app :: app in selectedApps ==> AppProcessable(root, force, host, lookup, app)
    modifies imagesToBuild
    ensures imagesToBuild.images == old(imagesToBuild.images) + ImagesOf(AppsPlan(selectedApps, PerApp(root, force, host, lookup, channels)))
    ensures imagesToBuild.imagePlatforms == old(imagesToBuild.imagePlatforms) + PlatformsOf(AppsPlan(selectedApps, PerApp(root, force, host, lookup, channels)))
  {
    ghost var perApp := PerApp(root, force, host, lookup, channels);
    for i := 0 to |selectedApps|
      invariant imagesToBuild.images == old(imagesToBuild.images) + ImagesOf(AppsPlan(selectedApps[..i], perApp))
      invariant imagesToBuild.imagePlatforms == old(imagesToBuild.imagePlatforms) + PlatformsOf(AppsPlan(selectedApps[..i], perApp))
    {
      var app := selectedApps[i];
      AppPlanCases(root, force, host, lookup, channels, app);
      var appDir := "apps/" + app;
      if root.missing(appDir) {
        AppsPlanSkip(selectedApps, i, perApp);
        continue;
      }
      var metaFile := appDir + "/ci/metadata.yaml";
      var loaded := root.load(metaFile);
      if loaded.None? {
        AppsPlanSkip(selectedApps, i, perApp);
        continue;
      }
      var meta := loaded.value;
      AppsPlanStep(selectedApps, i, perApp);
      assert app in selectedApps;
      var imageList, platformList := GetPlatformMetadata(appDir, meta, forRelease, force, host, lookup, channels);
      ConcatAssoc(old(imagesToBuild.images), ImagesOf(AppsPlan(selectedApps[..i], perApp)), imageList);
      ConcatAssoc(old(imagesToBuild.imagePlatforms), PlatformsOf(AppsPlan(selectedApps[..i], perApp)), platformList);
      imagesToBuild.images := imagesToBuild.images + imageList;
      imagesToBuild.imagePlatforms := imagesToBuild.imagePlatforms + platformList;
    }
    assert selectedApps[..|selectedApps|] == selectedApps;
  }

  /** The three outcomes for one app. */
  lemma AppPlanCases(root: AppsRoot, force: bool, host: Host, lookup: string -> Lookup, channels: seq<string>, app: string)
    ensures var contribution := PerApp(root, force, host, lookup, channels)(app);
      && (root.missing("apps/" + app) ==> contribution == [])
      && (!root.missing("apps/" + app) && root.load("apps/" + app + "/ci/metadata.yaml").None? ==> contribution == [])
      && (!root.missing("apps/" + app) && root.load("apps/" + app + "/ci/metadata.yaml").Some? ==>
            contribution == Plan("apps/" + app, root.load("apps/" + app + "/ci/metadata.yaml").value, force, host, lookup, channels))
  {
  }

  /** An app whose directory is missing or whose descriptor does not load contributes nothing and does not stop the others. */
  lemma UnusableAppContributesNothing(root: AppsRoot, force: bool, host: Host, lookup: string -> Lookup, channels: seq<string>,
                                      a: seq<string>, app: string, b: seq<string>)
    requires root.missing(AppDir(app)) || root.load(MetadataFile(app)).None?
    ensures var perApp := PerApp(root, force, host, lookup, channels);
      AppsPlan(a + [app] + b, perApp) == AppsPlan(a + b, perApp)
  {
    var perApp := PerApp(root, force, host, lookup, channels);
    assert perApp(app) == AppPlan(root, force, host, lookup, channels, app) == [];
    EmptyAppContributesNothing(a, app, b, perApp);
  }
}
