/**
 * The default root directory for a run's artifacts: the configured artifacts
 * location, unless it already names a directory (a trailing separator), in which
 * case it is used verbatim; otherwise a per-run subdirectory
 * `<configuration>.<timestamp>` inside it.
 */
module ArtifactsRoot {

  /** Whether `p` ends with a POSIX or a Windows path separator. */
  predicate EndsWithSeparator(p: string)
  {
    |p| > 0 && (p[|p| - 1] == '/' || p[|p| - 1] == '\\')
  }

  /** The per-run subdirectory name. */
  function Subdir(configuration: string, timestamp: string): (sub: string)
    ensures |sub| == |configuration| + 1 + |timestamp|
    ensures sub[..|configuration|] == configuration && sub[|configuration|] == '.'
    ensures sub[|configuration| + 1..] == timestamp
  {
    configuration + "." + timestamp
  }

  /**
   * POSIX `path.join` of two plain segments: an empty first segment drops out,
   * otherwise the two are joined by one '/'.
   */
  function Join(dir: string, name: string): (p: string)
    ensures dir == "" ==> p == name
    ensures dir != "" ==> |p| == |dir| + 1 + |name| && p[..|dir|] == dir && p[|dir|] == '/' && p[|dir| + 1..] == name
  {
    if dir == "" then name else dir + "/" + name
  }

  /**
   * The default artifacts root for the configuration `configuration`, under
   * `artifactsLocation`, for a run started at `timestamp` (already formatted).
   */
  function BuildDefaultRootForArtifactsRootDirpath(configuration: string, artifactsLocation: string, timestamp: string): (root: string)
    ensures EndsWithSeparator(artifactsLocation) ==> root == artifactsLocation
    ensures !EndsWithSeparator(artifactsLocation) ==> root != artifactsLocation
    ensures !EndsWithSeparator(artifactsLocation) && artifactsLocation == "" ==> root == Subdir(configuration, timestamp)
    ensures !EndsWithSeparator(artifactsLocation) && artifactsLocation != "" ==>
              && |root| == |artifactsLocation| + 1 + |Subdir(configuration, timestamp)|
              && root[..|artifactsLocation|] == artifactsLocation
              && root[|artifactsLocation|] == '/'
              && root[|artifactsLocation| + 1..] == Subdir(configuration, timestamp)
  {
    if EndsWithSeparator(artifactsLocation) then artifactsLocation
    else Join(artifactsLocation, Subdir(configuration, timestamp))
  }

  /**
   * The location and the subdirectory can be read back from a root that was not
   * used verbatim: the root is the location, a '/', the configuration, a '.' and
   * the timestamp, and the result no longer asks for a subdirectory of its own
   * unless the timestamp itself ends with a separator.
   */
  lemma {:induction false} RootDecomposes(configuration: string, artifactsLocation: string, timestamp: string)
    requires !EndsWithSeparator(artifactsLocation) && artifactsLocation != ""
    ensures var root := BuildDefaultRootForArtifactsRootDirpath(configuration, artifactsLocation, timestamp);
            var n := |artifactsLocation|;
            && |root| == n + |configuration| + |timestamp| + 2
            && root[..n] == artifactsLocation
            && root[n + 1..n + 1 + |configuration|] == configuration
            && root[n + 1 + |configuration|] == '.'
            && root[n + 2 + |configuration|..] == timestamp
            && (EndsWithSeparator(root) <==> EndsWithSeparator(timestamp))
  {
    var root := BuildDefaultRootForArtifactsRootDirpath(configuration, artifactsLocation, timestamp);
    var n := |artifactsLocation|;
    var sub := Subdir(configuration, timestamp);
    assert root[n + 1..] == sub;
    assert root[n + 1..n + 1 + |configuration|] == sub[..|configuration|];
    assert root[n + 2 + |configuration|..] == sub[|configuration| + 1..];
    if timestamp != "" {
      assert root[|root| - 1] == timestamp[|timestamp| - 1];
    }
  }

  /** The default location `artifacts` gives `artifacts/abracadabra.<timestamp>`. */
  lemma DefaultLocationExample(timestamp: string)
    ensures BuildDefaultRootForArtifactsRootDirpath("abracadabra", "artifacts", timestamp)
            == "artifacts/abracadabra." + timestamp
  {
    assert !EndsWithSeparator("artifacts");
  }

  /** A configured location `otherPlace` gives `otherPlace/abracadabra.<timestamp>`. */
  lemma OtherPlaceExample(timestamp: string)
    ensures BuildDefaultRootForArtifactsRootDirpath("abracadabra", "otherPlace", timestamp)
            == "otherPlace/abracadabra." + timestamp
  {
    assert !EndsWithSeparator("otherPlace");
  }

  /** A location with a trailing '/' such as `.artifacts/` is used verbatim. */
  lemma TrailingSlashExample(configuration: string, timestamp: string)
    ensures BuildDefaultRootForArtifactsRootDirpath(configuration, ".artifacts/", timestamp) == ".artifacts/"
  {
    assert EndsWithSeparator(".artifacts/");
  }
}
