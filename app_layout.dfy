/**
 * What both build-matrix engines read from an app's directory: the version probes
 * (`getLatestVersion`, `getLatestVersionSh`) and the Dockerfile a channel is built from.
 * The two engines carry identical copies of this code; it is defined once here.
 */
module AppLayout {
  import opened Wrappers
  import opened Text

  /**
   * The filesystem and process facts the engines consult, given as oracles:
   * `isRegularFile(path)` is "`os.Stat(path)` succeeds and is not a directory";
   * `exec(path, arg)` is the standard output of running `path arg`, or `None` when the
   * command cannot be started or exits with a non-zero status.
   */
  datatype Host = Host(isRegularFile: string -> bool, exec: (string, string) -> Option<string>)

  /** The label schema every image and platform record carries. */
  const LabelType: string := "org.opencontainers.image"

  /** `filepath.Join` of two clean path components. */
  function Join(dir: string, name: string): string
  {
    dir + "/" + name
  }

  /** The probe shared by all channels: `<subDir>/ci/latest.sh`. */
  function SharedProbe(subDir: string): string
  {
    Join(Join(subDir, "ci"), "latest.sh")
  }

  /** The probe of one channel: `<subDir>/<channel>/latest.sh`. */
  function ChannelProbe(subDir: string, channelName: string): string
  {
    Join(Join(subDir, channelName), "latest.sh")
  }

  /**
   * `getLatestVersionSh`: run the probe with the channel name as its only argument;
   * a failed run gives "", a successful one its output with the surrounding white space removed.
   */
  function GetLatestVersionSh(host: Host, latestShPath: string, channelName: string): (version: string)
    ensures host.exec(latestShPath, channelName).None? ==> version == ""
    ensures host.exec(latestShPath, channelName).Some? ==>
      TrimmedFrom(version, host.exec(latestShPath, channelName).value)
  {
    match host.exec(latestShPath, channelName)
    case None => ""
    case Some(out) => TrimSpace(out)
  }

  /**
   * `getLatestVersion`: the shared probe wins when it is a regular file, the channel's own
   * probe is the fallback, and with neither the version is "".
   */
  function GetLatestVersion(host: Host, subDir: string, channelName: string): (version: string)
    ensures host.isRegularFile(SharedProbe(subDir)) ==>
      version == GetLatestVersionSh(host, SharedProbe(subDir), channelName)
    ensures !host.isRegularFile(SharedProbe(subDir)) && host.isRegularFile(ChannelProbe(subDir, channelName)) ==>
      version == GetLatestVersionSh(host, ChannelProbe(subDir, channelName), channelName)
    ensures !host.isRegularFile(SharedProbe(subDir)) && !host.isRegularFile(ChannelProbe(subDir, channelName)) ==>
      version == ""
  {
    var ciDir := Join(subDir, "ci");
    if host.isRegularFile(Join(ciDir, "latest.sh")) then
      GetLatestVersionSh(host, Join(ciDir, "latest.sh"), channelName)
    else if host.isRegularFile(Join(Join(subDir, channelName), "latest.sh")) then
      GetLatestVersionSh(host, Join(Join(subDir, channelName), "latest.sh"), channelName)
    else
      ""
  }

  /** A resolved version never starts or ends with white space, whichever probe produced it. */
  lemma LatestVersionIsTrimmed(host: Host, subDir: string, channelName: string)
    ensures var version := GetLatestVersion(host, subDir, channelName);
      version == "" || (!IsSpace(version[0]) && !IsSpace(version[|version| - 1]))
  {
    var version := GetLatestVersion(host, subDir, channelName);
    if version != "" {
      var path := if host.isRegularFile(SharedProbe(subDir)) then SharedProbe(subDir) else ChannelProbe(subDir, channelName);
      assert TrimmedFrom(version, host.exec(path, channelName).value);
    }
  }

  /** Where a platform record's Dockerfile and build context come from. */
  datatype BuildDefinition = BuildDefinition(dockerfile: string, context: string)

  /**
   * The per-channel `Dockerfile`, when it is a regular file, wins over the app's own;
   * the build context is the directory holding the chosen file.
   */
  function ChooseDockerfile(host: Host, subDir: string, channelName: string): (b: BuildDefinition)
    ensures host.isRegularFile(Join(Join(subDir, channelName), "Dockerfile")) ==>
      b.dockerfile == subDir + "/" + channelName + "/Dockerfile" && b.context == subDir + "/" + channelName
    ensures !host.isRegularFile(Join(Join(subDir, channelName), "Dockerfile")) ==>
      b.dockerfile == subDir + "/Dockerfile" && b.context == subDir
    ensures b.dockerfile == Join(b.context, "Dockerfile")
  {
    if host.isRegularFile(Join(Join(subDir, channelName), "Dockerfile")) then
      BuildDefinition(Join(Join(subDir, channelName), "Dockerfile"), Join(subDir, channelName))
    else
      BuildDefinition(Join(subDir, "Dockerfile"), subDir)
  }
}
