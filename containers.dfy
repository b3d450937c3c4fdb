/**
 * The older build-matrix engine of `cmd/containers.go`. It has no published-version lookup:
 * every channel with a version is built. Unlike the current engine it honours the requested
 * channel names, tags images `rolling`, and emits images and platforms as string-keyed maps.
 * The program declares its own `Channel`, `Metadata` and `Platform` types, and so does this module.
 */
module Containers {
  import opened Wrappers
  import opened AppLayout
  import opened Plans

  datatype Channel = Channel(name: string, platforms: seq<string>, stable: bool)

  /** This engine's descriptor knows only the app name and its channels. */
  datatype Metadata = Metadata(app: string, channels: seq<Channel>)

  /** The per-platform build instruction; there is no OS/architecture split here. */
  datatype Platform = Platform(
    name: string, version: string, platform: string, channel: string,
    dockerfilePath: string, dockerContext: string, labelType: string)

  /** A map value, as the engine stores it: a string, or the list of tags. */
  datatype Value = Str(s: string) | Tags(items: seq<string>)

  /** An emitted record: a map from key to value, marshalled as a JSON object. */
  type Record = map<string, Value>

  const PlatformKeys: set<string> := {"name", "version", "platform", "channel", "dockerfile", "context", "label_type"}

  const ImageKeys: set<string> := {"name", "version", "tags", "label_type"}

  /** The tag every image of this engine carries next to its version. */
  const RollingTag: string := "rolling"

  // ---------------------------------------------------------------------------
  // Platform.toMap

  /** `Platform.toMap`. */
  function ToMap(p: Platform): Record
  {
    map["name" := Str(p.name), "version" := Str(p.version), "platform" := Str(p.platform),
        "channel" := Str(p.channel), "dockerfile" := Str(p.dockerfilePath),
        "context" := Str(p.dockerContext), "label_type" := Str(p.labelType)]
  }

  /** A map of the shape `toMap` produces. */
  predicate IsPlatformMap(m: Record)
  {
    m.Keys == PlatformKeys && forall k :: k in m ==> m[k].Str?
  }

  /** Reading a platform back from a map under the same keys; `None` for any other shape. */
  function FromMap(m: Record): Option<Platform>
  {
    if IsPlatformMap(m) then
      Some(Platform(m["name"].s, m["version"].s, m["platform"].s, m["channel"].s,
                    m["dockerfile"].s, m["context"].s, m["label_type"].s))
    else None
  }

  /** `toMap` yields exactly the seven keys, each holding a string. */
  lemma ToMapShape(p: Platform)
    ensures IsPlatformMap(ToMap(p))
  {
  }

  /** Every field is bound to its own key: reading the map back gives the platform. */
  lemma FromToMap(p: Platform)
    ensures FromMap(ToMap(p)) == Some(p)
  {
  }

  /** And every map of that shape is the map of exactly one platform. */
  lemma ToFromMap(m: Record)
    requires IsPlatformMap(m)
    ensures FromMap(m).Some? && ToMap(FromMap(m).value) == m
  {
    var m' := ToMap(FromMap(m).value);
    forall k | k in PlatformKeys
      ensures m'[k] == m[k]
    {
      assert m[k].Str?;
    }
    assert m' == m;
  }

  /** `toMap` loses nothing: distinct platforms give distinct maps. */
  lemma ToMapInjective(p: Platform, q: Platform)
    requires ToMap(p) == ToMap(q)
    ensures p == q
  {
    FromToMap(p);
    FromToMap(q);
  }

  // ---------------------------------------------------------------------------
  // Channel filter

  /** What the inner loop appends for one channel: one copy per occurrence of its name among the requested names. */
  function Copies(channel: Channel, requested: seq<string>): seq<Channel>
  {
    if requested == [] then []
    else Copies(channel, requested[..|requested| - 1]) + (if channel.name == requested[|requested| - 1] then [channel] else [])
  }

  /** The nested loop over the channels and the requested names, in channel order. */
  function Selected(all: seq<Channel>, requested: seq<string>): seq<Channel>
  {
    if all == [] then []
    else Selected(all[..|all| - 1], requested) + Copies(all[|all| - 1], requested)
  }

  /** The channels `getPlatformMetadata` works on. */
  function ChannelFilter(all: seq<Channel>, requested: seq<string>): seq<Channel>
  {
    if |requested| == 0 then all else Selected(all, requested)
  }

  /** The channel filter at the head of `getPlatformMetadata`. */
  method FilterChannels(all: seq<Channel>, requested: seq<string>) returns (filteredChannels: seq<Channel>)
    ensures filteredChannels == ChannelFilter(all, requested)
  {
    filteredChannels := [];
    if |requested| == 0 {
      filteredChannels := filteredChannels + all;
    } else {
      for c := 0 to |all|
        invariant filteredChannels == Selected(all[..c], requested)
      {
        var channel := all[c];
        assert all[..c + 1][..c] == all[..c];
        ghost var before := filteredChannels;
        for q := 0 to |requested|
          invariant filteredChannels == before + Copies(channel, requested[..q])
        {
          assert requested[..q + 1][..q] == requested[..q];
          if channel.name == requested[q] {
            filteredChannels := filteredChannels + [channel];
          }
        }
        assert requested[..|requested|] == requested;
      }
      assert all[..|all|] == all;
    }
  }

  /** A channel is copied once per occurrence of its name, and nothing else is copied. */
  lemma {:induction false} CopiesCount(channel: Channel, requested: seq<string>)
    ensures |Copies(channel, requested)| == multiset(requested)[channel.name]
    ensures forall c :: c in Copies(channel, requested) ==> c == channel
    ensures forall i :: 0 <= i < |Copies(channel, requested)| ==> Copies(channel, requested)[i] == channel
  {
    if requested != [] {
      var n := |requested|;
      var prefix := requested[..n - 1];
      assert requested == prefix + [requested[n - 1]];
      CopiesCount(channel, prefix);
    }
  }

  lemma {:induction false} CopiesAppend(channel: Channel, a: seq<string>, b: seq<string>)
    ensures Copies(channel, a + b) == Copies(channel, a) + Copies(channel, b)
  {
    if b == [] {
      assert a + b == a;
    } else {
      assert (a + b)[..|a + b| - 1] == a + b[..|b| - 1];
      CopiesAppend(channel, a, b[..|b| - 1]);
    }
  }

  /** The filter works channel by channel, so it keeps the metadata order. */
  lemma {:induction false} SelectedAppend(a: seq<Channel>, b: seq<Channel>, requested: seq<string>)
    ensures Selected(a + b, requested) == Selected(a, requested) + Selected(b, requested)
  {
    if b == [] {
      assert a + b == a;
    } else {
      assert (a + b)[..|a + b| - 1] == a + b[..|b| - 1];
      SelectedAppend(a, b[..|b| - 1], requested);
    }
  }

  /**
   * The channel filter: with no requested names every channel is kept, in order; otherwise a
   * channel is kept exactly when it is declared and its name is requested, as many times as it
   * is declared times the number of times its name is requested.
   */
  lemma ChannelFilterSelects(all: seq<Channel>, requested: seq<string>, channel: Channel)
    ensures |requested| == 0 ==> ChannelFilter(all, requested) == all
    ensures |requested| > 0 ==>
      && (channel in ChannelFilter(all, requested) <==> channel in all && channel.name in requested)
      && multiset(ChannelFilter(all, requested))[channel] == multiset(all)[channel] * multiset(requested)[channel.name]
  {
    SelectedMembers(all, requested, channel);
    SelectedCount(all, requested, channel);
  }

  /** A channel is selected exactly when it is declared and its name is requested ... */
  lemma {:induction false} SelectedMembers(all: seq<Channel>, requested: seq<string>, channel: Channel)
    ensures channel in Selected(all, requested) <==> channel in all && channel.name in requested
  {
    if all != [] {
      var n := |all|;
      var prefix := all[..n - 1];
      assert all == prefix + [all[n - 1]];
      SelectedMembers(prefix, requested, channel);
      CopiesCount(all[n - 1], requested);
      if channel == all[n - 1] && channel.name in requested {
        assert Copies(channel, requested) != [];
        assert Copies(channel, requested)[0] in Copies(channel, requested);
      }
    }
  }

  /** ... and as often as it is declared times the number of times its name is requested. */
  lemma {:induction false} SelectedCount(all: seq<Channel>, requested: seq<string>, channel: Channel)
    ensures multiset(Selected(all, requested))[channel] == multiset(all)[channel] * multiset(requested)[channel.name]
  {
    if all != [] {
      var n := |all|;
      var prefix := all[..n - 1];
      var last := all[n - 1];
      assert all == prefix + [last];
      SelectedCount(prefix, requested, channel);
      CopiesCount(last, requested);
      var copies := Copies(last, requested);
      var times := multiset(requested)[channel.name];
      var before := multiset(prefix)[channel];
      assert multiset(all) == multiset(prefix) + multiset{last};
      assert multiset(Selected(all, requested)) == multiset(Selected(prefix, requested)) + multiset(copies);
      SameElementCount(copies, last, channel);
      if last == channel {
        assert multiset(all)[channel] == before + 1;
        MulSucc(before, times);
      } else {
        assert multiset(all)[channel] == before;
      }
    }
  }

  lemma MulSucc(a: int, b: int)
    ensures (a + 1) * b == a * b + b
  {
  }

  lemma {:induction false} SameElementCount(s: seq<Channel>, x: Channel, y: Channel)
    requires forall i :: 0 <= i < |s| ==> s[i] == x
    ensures multiset(s)[y] == if y == x then |s| else 0
  {
    if s != [] {
      var prefix := s[..|s| - 1];
      assert s == prefix + [x];
      SameElementCount(prefix, x, y);
      assert multiset(s) == multiset(prefix) + multiset{x};
    }
  }

  /** A requested name that no channel carries changes nothing, as long as some other name is requested. */
  lemma {:induction false} UnmatchedNameIgnored(all: seq<Channel>, a: seq<string>, name: string, b: seq<string>)
    requires forall channel :: channel in all ==> channel.name != name
    requires |a + b| > 0
    ensures ChannelFilter(all, a + [name] + b) == ChannelFilter(all, a + b)
  {
    SelectedDropsUnmatched(all, a, name, b);
  }

  lemma {:induction false} SelectedDropsUnmatched(all: seq<Channel>, a: seq<string>, name: string, b: seq<string>)
    requires forall channel :: channel in all ==> channel.name != name
    ensures Selected(all, a + [name] + b) == Selected(all, a + b)
  {
    if all != [] {
      var n := |all|;
      var last := all[n - 1];
      var prefix := all[..n - 1];
      assert all == prefix + [last];
      assert forall channel :: channel in prefix ==> channel in all;
      SelectedDropsUnmatched(prefix, a, name, b);
      assert last in all;
      assert [name][..0] == [];
      assert Copies(last, [name]) == [];
      CopiesAppend(last, a + [name], b);
      CopiesAppend(last, a, [name]);
      CopiesAppend(last, a, b);
      assert a + [name] + b == (a + [name]) + b;
      assert Copies(last, a + [name] + b) == Copies(last, a + b);
    }
  }

  /** But a request made only of unknown names selects no channel at all. */
  lemma {:induction false} OnlyUnmatchedNamesSelectNothing(all: seq<Channel>, requested: seq<string>)
    requires forall channel :: channel in all ==> channel.name !in requested
    ensures |requested| > 0 ==> ChannelFilter(all, requested) == []
    ensures Selected(all, requested) == []
  {
    if all != [] {
      var n := |all|;
      assert all == all[..n - 1] + [all[n - 1]];
      OnlyUnmatchedNamesSelectNothing(all[..n - 1], requested);
      CopiesCount(all[n - 1], requested);
    }
  }

  // ---------------------------------------------------------------------------
  // One channel

  /** The image name a channel publishes under. */
  function ImageName(app: string, channel: Channel): string
  {
    if channel.stable then app else app + "-" + channel.name
  }

  /** The image map: name, version, the tags `rolling` and the version, and the label schema. */
  function ImageMap(name: string, version: string): Record
  {
    map["name" := Str(name), "version" := Str(version), "tags" := Tags([RollingTag, version]), "label_type" := Str(LabelType)]
  }

  function PlatformRecord(host: Host, subDir: string, name: string, channelName: string, version: string, platform: string): Platform
  {
    var build := ChooseDockerfile(host, subDir, channelName);
    Platform(name, version, platform, channelName, build.dockerfile, build.context, LabelType)
  }

  /** The maps built for a channel's platforms, one each, in platform order. */
  function PlatformMaps(host: Host, subDir: string, name: string, channelName: string, version: string, platforms: seq<string>): (maps: seq<Record>)
    ensures |maps| == |platforms|
    ensures forall k :: 0 <= k < |platforms| ==> maps[k] == ToMap(PlatformRecord(host, subDir, name, channelName, version, platforms[k]))
  {
    if platforms == [] then []
    else
      PlatformMaps(host, subDir, name, channelName, version, platforms[..|platforms| - 1])
      + [ToMap(PlatformRecord(host, subDir, name, channelName, version, platforms[|platforms| - 1]))]
  }

  lemma PlatformMapsStep(host: Host, subDir: string, name: string, channelName: string, version: string, platforms: seq<string>, j: nat)
    requires j < |platforms|
    ensures PlatformMaps(host, subDir, name, channelName, version, platforms[..j + 1])
         == PlatformMaps(host, subDir, name, channelName, version, platforms[..j])
            + [ToMap(PlatformRecord(host, subDir, name, channelName, version, platforms[j]))]
  {
    assert platforms[..j + 1][..j] == platforms[..j];
  }

  /** The loop body for one channel: `None` when the channel has no version. */
  function Decide(subDir: string, meta: Metadata, host: Host, channel: Channel): Option<Entry<Record, Record>>
  {
    var version := GetLatestVersion(host, subDir, channel.name);
    if version == "" then None
    else
      var name := ImageName(meta.app, channel);
      Some(Entry(ImageMap(name, version), PlatformMaps(host, subDir, name, channel.name, version, channel.platforms)))
  }

  function Decider(subDir: string, meta: Metadata, host: Host): Channel -> Option<Entry<Record, Record>>
  {
    channel => Decide(subDir, meta, host, channel)
  }

  /** The entries `getPlatformMetadata` produces for an app. */
  function Plan(subDir: string, meta: Metadata, host: Host, channels: seq<string>): seq<Entry<Record, Record>>
  {
    PlanOver(ChannelFilter(meta.channels, channels), Decider(subDir, meta, host))
  }

  /** `getPlatformMetadata`: the image maps and the platform maps of one app. */
  method GetPlatformMetadata(subDir: string, meta: Metadata, forRelease: bool, force: bool, host: Host, channels: seq<string>)
    returns (images: seq<Record>, imagePlatforms: seq<Record>)
    ensures images == ImagesOf(Plan(subDir, meta, host, channels))
    ensures imagePlatforms == PlatformsOf(Plan(subDir, meta, host, channels))
  {
    images, imagePlatforms := [], [];
    ghost var decide := Decider(subDir, meta, host);
    var filteredChannels := FilterChannels(meta.channels, channels);

    for i := 0 to |filteredChannels|
      invariant images == ImagesOf(PlanOver(filteredChannels[..i], decide))
      invariant imagePlatforms == PlatformsOf(PlanOver(filteredChannels[..i], decide))
    {
      var channel := filteredChannels[i];
      PlanOverStep(filteredChannels, i, decide);
      assert decide(channel) == Decide(subDir, meta, host, channel);
      var version := GetLatestVersion(host, subDir, channel.name);
      if version == "" {
        continue;
      }

      var toBuild: Record := map[];
      if channel.stable {
        toBuild := toBuild["name" := Str(meta.app)];
      } else {
        toBuild := toBuild["name" := Str(meta.app + "-" + channel.name)];
      }
      toBuild := toBuild["version" := Str(version)];
      toBuild := toBuild["tags" := Tags([RollingTag, version])];
      toBuild := toBuild["label_type" := Str(LabelType)];
      var name := ImageName(meta.app, channel);
      assert toBuild == ImageMap(name, version);

      imagePlatforms := AppendPlatforms(imagePlatforms, host, subDir, name, channel.name, version, channel.platforms);
      images := images + [toBuild];
    }
    assert filteredChannels[..|filteredChannels|] == filteredChannels;
  }

  /** The platform loop of `getPlatformMetadata`: one map per platform of the channel, appended in platform order. */
  method AppendPlatforms(imagePlatforms: seq<Record>, host: Host, subDir: string, name: string, channelName: string,
                         version: string, platforms: seq<string>)
    returns (result: seq<Record>)
    ensures result == imagePlatforms + PlatformMaps(host, subDir, name, channelName, version, platforms)
  {
    result := imagePlatforms;
    for j := 0 to |platforms|
      invariant result == imagePlatforms + PlatformMaps(host, subDir, name, channelName, version, platforms[..j])
    {
      var platform := platforms[j];
      PlatformMapsStep(host, subDir, name, channelName, version, platforms, j);
      var platformObj := Platform(name, version, platform, channelName, "", "", LabelType);
      if host.isRegularFile(Join(Join(subDir, channelName), "Dockerfile")) {
        platformObj := platformObj.(dockerfilePath := Join(Join(subDir, channelName), "Dockerfile"),
                                    dockerContext := Join(subDir, channelName));
      } else {
        platformObj := platformObj.(dockerfilePath := Join(subDir, "Dockerfile"), dockerContext := subDir);
      }
      assert platformObj == PlatformRecord(host, subDir, name, channelName, version, platform);
      ConcatAssoc(imagePlatforms, PlatformMaps(host, subDir, name, channelName, version, platforms[..j]), [ToMap(platformObj)]);
      result := result + [ToMap(platformObj)];
    }
    assert platforms[..|platforms|] == platforms;
  }

  // ---------------------------------------------------------------------------
  // What one channel yields

  /**
   * A selected channel is skipped exactly when it has no version; there is no published-version
   * check and `force` plays no part. An emitted image map has exactly the keys name, version,
   * tags and label_type (no published_version), the name rule of the current engine, the tags
   * `rolling` and the version, and the label schema.
   */
  lemma ImageMapOfChannel(subDir: string, meta: Metadata, host: Host, channel: Channel)
    ensures var d := Decide(subDir, meta, host, channel);
      var version := GetLatestVersion(host, subDir, channel.name);
      && (d.None? <==> version == "")
      && (d.Some? ==>
        && d.value.image.Keys == ImageKeys && "published_version" !in d.value.image
        && d.value.image["name"] == Str(if channel.stable then meta.app else meta.app + "-" + channel.name)
        && d.value.image["version"] == Str(version)
        && d.value.image["tags"] == Tags(["rolling", version])
        && d.value.image["label_type"] == Str("org.opencontainers.image"))
  {
  }

  /**
   * An emitted image comes with one platform map per platform string of its channel, in order;
   * each is the `toMap` of a record with the image's name and version, the channel, the platform
   * string unchanged and the per-channel Dockerfile when there is one.
   */
  lemma PlatformMapsOfChannel(subDir: string, meta: Metadata, host: Host, channel: Channel)
    ensures var d := Decide(subDir, meta, host, channel);
      var version := GetLatestVersion(host, subDir, channel.name);
      var perChannel := host.isRegularFile(subDir + "/" + channel.name + "/Dockerfile");
      d.Some? ==>
        && |d.value.platforms| == |channel.platforms|
        && forall k :: 0 <= k < |channel.platforms| ==>
          d.value.platforms[k] == ToMap(Platform(
            ImageName(meta.app, channel), version, channel.platforms[k], channel.name,
            if perChannel then subDir + "/" + channel.name + "/Dockerfile" else subDir + "/Dockerfile",
            if perChannel then subDir + "/" + channel.name else subDir,
            "org.opencontainers.image"))
  {
    assert Join(Join(subDir, channel.name), "Dockerfile") == subDir + "/" + channel.name + "/Dockerfile";
  }

  // ---------------------------------------------------------------------------
  // App aggregator

  /** The apps root as this engine sees it; `load(file)` is `None` when reading or parsing fails. */
  datatype AppsRoot = AppsRoot(missing: string -> bool, load: string -> Option<Metadata>)

  function AppPlan(root: AppsRoot, host: Host, channels: seq<string>, app: string): seq<Entry<Record, Record>>
  {
    if root.missing("apps/" + app) then []
    else match root.load("apps/" + app + "/ci/metadata.yaml")
      case None => []
      case Some(meta) => Plan("apps/" + app, meta, host, channels)
  }

  function PerApp(root: AppsRoot, host: Host, channels: seq<string>): string -> seq<Entry<Record, Record>>
  {
    app => AppPlan(root, host, channels, app)
  }

  /** The output map with its two lists, `images` and `imagePlatforms`, accumulated across apps. */
  class ImagesToBuild {
    var images: seq<Record>
    var imagePlatforms: seq<Record>

    constructor ()
      ensures images == [] && imagePlatforms == []
    {
      images := [];
      imagePlatforms := [];
    }
  }

  /** `processSpecificApps`: append the lists of every selected app, skipping the unusable ones. */
  method ProcessSpecificApps(selectedApps: seq<string>, forRelease: bool, force: bool, channels: seq<string>,
                             root: AppsRoot, host: Host, imagesToBuild: ImagesToBuild)
    modifies imagesToBuild
    ensures imagesToBuild.images == old(imagesToBuild.images) + ImagesOf(AppsPlan(selectedApps, PerApp(root, host, channels)))
    ensures imagesToBuild.imagePlatforms == old(imagesToBuild.imagePlatforms) + PlatformsOf(AppsPlan(selectedApps, PerApp(root, host, channels)))
  {
    ghost var perApp := PerApp(root, host, channels);
    for i := 0 to |selectedApps|
      invariant imagesToBuild.images == old(imagesToBuild.images) + ImagesOf(AppsPlan(selectedApps[..i], perApp))
      invariant imagesToBuild.imagePlatforms == old(imagesToBuild.imagePlatforms) + PlatformsOf(AppsPlan(selectedApps[..i], perApp))
    {
      var app := selectedApps[i];
      AppPlanCases(root, host, channels, app);
      var appDir := "apps/" + app;
      if root.missing(appDir) {
        AppsPlanSkip(selectedApps, i, perApp);
        continue;
      }
      var metaFile := appDir + "/ci/metadata.yaml";
      var loaded := root.load(metaFile);
      if loaded.None? {
        AppsPlanSkip(selectedApps, i, perApp);
        continue;
      }
      var meta := loaded.value;
      AppsPlanStep(selectedApps, i, perApp);
      var imageList, platformList := GetPlatformMetadata(appDir, meta, forRelease, force, host, channels);
      ConcatAssoc(old(imagesToBuild.images), ImagesOf(AppsPlan(selectedApps[..i], perApp)), imageList);
      ConcatAssoc(old(imagesToBuild.imagePlatforms), PlatformsOf(AppsPlan(selectedApps[..i], perApp)), platformList);
      imagesToBuild.images := imagesToBuild.images + imageList;
      imagesToBuild.imagePlatforms := imagesToBuild.imagePlatforms + platformList;
    }
    assert selectedApps[..|selectedApps|] == selectedApps;
  }

  /** The three outcomes for one app. */
  lemma AppPlanCases(root: AppsRoot, host: Host, channels: seq<string>, app: string)
    ensures var contribution := PerApp(root, host, channels)(app);
      && (root.missing("apps/" + app) ==> contribution == [])
      && (!root.missing("apps/" + app) && root.load("apps/" + app + "/ci/metadata.yaml").None? ==> contribution == [])
      && (!root.missing("apps/" + app) && root.load("apps/" + app + "/ci/metadata.yaml").Some? ==>
            contribution == Plan("apps/" + app, root.load("apps/" + app + "/ci/metadata.yaml").value, host, channels))
  {
  }

  /** An app whose directory is missing or whose descriptor does not load contributes nothing and does not stop the others. */
  lemma UnusableAppContributesNothing(root: AppsRoot, host: Host, channels: seq<string>,
                                      a: seq<string>, app: string, b: seq<string>)
    requires root.missing("apps/" + app) || root.load("apps/" + app + "/ci/metadata.yaml").None?
    ensures var perApp := PerApp(root, host, channels);
      AppsPlan(a + [app] + b, perApp) == AppsPlan(a + b, perApp)
  {
    var perApp := PerApp(root, host, channels);
    assert perApp(app) == AppPlan(root, host, channels, app) == [];
    EmptyAppContributesNothing(a, app, b, perApp);
  }
}
