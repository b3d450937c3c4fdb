/**
 * Concrete cases of the current engine on one app `foo` with one stable channel `stable`
 * built for `linux/amd64`, whose shared probe `apps/foo/ci/latest.sh` prints a version, and two
 * tag lists for the provider's tag selection.
 */
module Scenarios {
  import opened Wrappers
  import opened Text
  import opened AppLayout
  import opened Matrix
  import opened Plans
  import GithubProvider

  const FooProbe: string := "apps/foo/ci/latest.sh"

  /** Only the shared probe exists; running it prints `out`. */
  function FooHost(out: string): Host
  {
    Host(path => path == FooProbe, (path, arg) => if path == FooProbe then Some(out) else None)
  }

  function FooMeta(): Metadata
  {
    Metadata("foo", "", [], [Channel("stable", ["linux/amd64"], true)])
  }

  lemma FooProbeIsShared()
    ensures SharedProbe("apps/foo") == FooProbe
  {
    assert "apps/foo" + "/" + "ci" + "/" + "latest.sh" == FooProbe;
  }

  /** There is no per-channel Dockerfile, so the app's own is used. */
  lemma FooBuildsFromAppDockerfile()
    ensures ChooseDockerfile(FooHost("1.2.3\n"), "apps/foo", "stable") == BuildDefinition("apps/foo/Dockerfile", "apps/foo")
  {
    var path := Join(Join("apps/foo", "stable"), "Dockerfile");
    assert |path| == 26 != |FooProbe|;
    assert Join("apps/foo", "Dockerfile") == "apps/foo/Dockerfile";
  }

  lemma TrimsNewline()
    ensures TrimSpace("1.2.3\n") == "1.2.3"
  {
    var s := "1.2.3\n";
    assert !IsSpace(s[0]);
    assert SkipSpace(s, 0) == 0;
    assert IsSpace(s[5]) && !IsSpace(s[4]);
    assert SkipSpaceBack(s, 0, 5) == 5;
    assert SkipSpaceBack(s, 0, 6) == 5;
  }

  /** `linux/amd64` splits into `linux` and `amd64`. */
  lemma LinuxAmd64Fields()
    ensures FirstField("linux/amd64") == "linux" && SecondField("linux/amd64") == "amd64"
  {
    var p := "linux/amd64";
    assert SplitsAs(p, "linux", "amd64") by {
      assert p[..5] == "linux" && p[5] == '/' && p[6..11] == "amd64";
    }
    SplitUnique(p, "linux", "amd64");
  }

  /** The one platform record carries the split platform and the app's own Dockerfile. */
  lemma FooPlatformRecords()
    ensures PlatformRecords(FooHost("1.2.3\n"), "apps/foo", "foo", "stable", "1.2.3", ["linux/amd64"]) ==
      [Platform("foo", "1.2.3", "linux/amd64", "linux", "amd64", "stable", "apps/foo/Dockerfile", "apps/foo", LabelType)]
  {
    FooBuildsFromAppDockerfile();
    LinuxAmd64Fields();
    assert ["linux/amd64"][..0] == [];
  }

  /**
   * The lookup says "not found": one image `foo` at `1.2.3` tagged `latest` and `1.2.3`, and one
   * platform record with the OS and architecture split out and the app's own Dockerfile.
   */
  lemma NotPublishedBuildsOnce()
    ensures Plan("apps/foo", FooMeta(), false, FooHost("1.2.3\n"), name => Lookup("", Some(404), false), []) ==
      [Entry(Image("foo", "1.2.3", "", ["latest", "1.2.3"], LabelType),
             [Platform("foo", "1.2.3", "linux/amd64", "linux", "amd64", "stable", "apps/foo/Dockerfile", "apps/foo", LabelType)])]
  {
    var host := FooHost("1.2.3\n");
    var lookup := name => Lookup("", Some(404), false);
    var channel := FooMeta().channels[0];
    FooProbeIsShared();
    TrimsNewline();
    FooPlatformRecords();
    assert GetLatestVersion(host, "apps/foo", "stable") == "1.2.3";
    assert !UpToDate(lookup("foo"), "1.2.3");
    assert FooMeta().channels == [] + [channel];
  }

  /** The published tag contains the version: the channel is skipped and the app yields nothing. */
  lemma PublishedIsSkipped()
    ensures Plan("apps/foo", FooMeta(), false, FooHost("1.2.3\n"), name => Lookup("1.2.3-extra", None, false), []) == []
  {
    var host := FooHost("1.2.3\n");
    FooProbeIsShared();
    TrimsNewline();
    assert IsPrefix("1.2.3", "1.2.3-extra");
    assert FooMeta().channels == [] + [FooMeta().channels[0]];
  }

  /** The probe prints nothing: the channel is skipped and the app yields nothing. */
  lemma NoVersionIsSkipped()
    ensures Plan("apps/foo", FooMeta(), false, FooHost(""), name => Lookup("", Some(404), false), []) == []
  {
    FooProbeIsShared();
    assert SkipSpace("", 0) == 0;
    assert FooMeta().channels == [] + [FooMeta().channels[0]];
  }

  /**
   * Only the first `latest` is dropped: with two markers among five-character versions, the
   * remaining `latest` is the longest tag and is reported as the published version.
   */
  lemma SecondMarkerCanWin()
    ensures GithubProvider.PublishedTag([GithubProvider.Package(["latest", "1.2.3", "1.2.4", "latest"])]) == Some("latest")
  {
    var tags := ["latest", "1.2.3", "1.2.4", "latest"];
    assert GithubProvider.FirstTagged([GithubProvider.Package(tags)]) == Some(0);
    assert GithubProvider.FirstIndex(tags, "latest") == 0;
    var rest := ["1.2.3", "1.2.4", "latest"];
    assert GithubProvider.RemoveFirst(tags, "latest") == rest;
    assert rest[..2][..1] == ["1.2.3"] && rest[..2] == ["1.2.3", "1.2.4"] && ["1.2.3"][..0] == [];
    assert GithubProvider.Longest(rest) == "latest";
  }

  /** Among equally long tags the earliest wins. */
  lemma EarliestOfEqualLengthWins()
    ensures GithubProvider.PublishedTag([GithubProvider.Package(["1.2.3", "latest", "1.2.4"])]) == Some("1.2.3")
  {
    var tags := ["1.2.3", "latest", "1.2.4"];
    assert GithubProvider.FirstTagged([GithubProvider.Package(tags)]) == Some(0);
    assert GithubProvider.FirstIndex(tags, "latest") == 1;
    var rest := ["1.2.3", "1.2.4"];
    assert GithubProvider.RemoveFirst(tags, "latest") == rest;
    assert rest[..1] == ["1.2.3"] && ["1.2.3"][..0] == [];
    assert GithubProvider.Longest(rest) == "1.2.3";
  }
}
