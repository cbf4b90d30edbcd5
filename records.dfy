/**
 * The per-package record test-stats.py assembles in its module-global `package_json`
 * (test-stats.py:34-43) and writes, one `repr` per line, to the packages file; the wiki
 * generator reads the same records back.  A record is a value here: the textual round trip
 * through `repr` and `eval` is not modelled.
 */
module Records {
  import opened Json

  /** The `test_tags` dictionary: one flag per vocabulary tag. */
  datatype TagFlags = TagFlags(classic: bool, container: bool, atomic: bool)

  /** `distgit.pending`: whether an open test pull request exists, and its URL and author. */
  datatype Pending = Pending(status: bool, url: string, user: Value)

  /** The `distgit` part of a record. */
  datatype DistgitInfo = DistgitInfo(
    packageUrl: string,
    testYml: bool,
    missing: Value,
    pending: Pending,
    testTags: TagFlags)

  /** The `upstreamfirst` part of a record. */
  datatype UpstreamInfo = UpstreamInfo(testYml: bool, packageUrl: string, testTags: TagFlags)

  datatype PackageRecord = PackageRecord(name: string, distgit: DistgitInfo, upstreamfirst: UpstreamInfo)

  /** The flags of the dictionary test_tags_to_dict builds from a tag list. */
  function TagFlagsOf(tags: seq<string>): TagFlags
  {
    TagFlags("classic" in tags, "container" in tags, "atomic" in tags)
  }
}
