/**
 * The decision logic of the GitHub provider: which tag of the listed container versions counts
 * as the published version (`GetPublishedVersion`, after the response is decoded), the
 * rule-based release filter (`filterReleases`) and what `GetPublishedReleases` returns.
 */
module GithubProvider {
  import opened Wrappers
  import opened Text

  /** The marker tag that identifies the current container version. */
  const TagHook: string := "latest"

  /** The error returned when no listed version carries the marker tag. */
  const NoDataError: string := "no data to go through"

  /** A listed container version; only `metadata.container.tags` is read. */
  datatype Package = Package(tags: seq<string>)

  /** A repository release; only its name is read. */
  datatype Release = Release(name: string)

  /** A decoded HTTP reply: the status code and the body, `None` when JSON decoding failed. */
  datatype Reply<T> = Reply(statusCode: int, body: Option<T>)

  // ---------------------------------------------------------------------------
  // Published-tag selection

  /** The first listed version at or after `from` that carries the marker tag, if any. */
  function FirstTaggedFrom(images: seq<Package>, from: nat): (r: Option<nat>)
    requires from <= |images|
    ensures r.None? <==> forall k :: from <= k < |images| ==> TagHook !in images[k].tags
    ensures r.Some? ==> from <= r.value < |images| && TagHook in images[r.value].tags
    ensures r.Some? ==> forall k :: from <= k < r.value ==> TagHook !in images[k].tags
    decreases |images| - from
  {
    if from == |images| then None
    else if TagHook in images[from].tags then Some(from)
    else FirstTaggedFrom(images, from + 1)
  }

  /** The first listed version that carries the marker tag, if any. */
  function FirstTagged(images: seq<Package>): (r: Option<nat>)
    ensures r.None? <==> forall k :: 0 <= k < |images| ==> TagHook !in images[k].tags
    ensures r.Some? ==> r.value < |images| && TagHook in images[r.value].tags
    ensures r.Some? ==> forall k :: 0 <= k < r.value ==> TagHook !in images[k].tags
  {
    FirstTaggedFrom(images, 0)
  }

  /** Position of the first `x` in `s` at or after `from`. */
  function TagIndexFrom(s: seq<string>, x: string, from: nat): (i: nat)
    requires from <= |s| && x in s[from..]
    ensures from <= i < |s| && s[i] == x
    ensures forall k :: from <= k < i ==> s[k] != x
    decreases |s| - from
  {
    if s[from] == x then from
    else
      assert s[from..] == [s[from]] + s[from + 1..];
      TagIndexFrom(s, x, from + 1)
  }

  /** Position of the first `x` in `s`. */
  function FirstIndex(s: seq<string>, x: string): (i: nat)
    requires x in s
    ensures i < |s| && s[i] == x
    ensures forall k :: 0 <= k < i ==> s[k] != x
  {
    assert s[0..] == s;
    TagIndexFrom(s, x, 0)
  }

  /** `s` without its first `x`, as `append(s[:i], s[i+1:]...)` leaves it. */
  function RemoveFirst(s: seq<string>, x: string): seq<string>
    requires x in s
  {
    var i := FirstIndex(s, x);
    s[..i] + s[i + 1..]
  }

  /** The running `longest` of the source's loop: a tag replaces it only when strictly longer. */
  function Longest(ts: seq<string>): string
  {
    if ts == [] then ""
    else
      var sofar := Longest(ts[..|ts| - 1]);
      if |ts[|ts| - 1]| > |sofar| then ts[|ts| - 1] else sofar
  }

  /** `ts[i]` is a longest element of `ts` and every element before it is strictly shorter. */
  predicate FirstLongestAt(ts: seq<string>, i: int)
  {
    0 <= i < |ts|
    && (forall j :: 0 <= j < |ts| ==> |ts[j]| <= |ts[i]|)
    && (forall j :: 0 <= j < i ==> |ts[j]| < |ts[i]|)
  }

  /** `Longest` picks the earliest tag of maximal length, and "" when there are no tags. */
  lemma {:induction false} LongestIsFirstLongest(ts: seq<string>)
    ensures ts == [] ==> Longest(ts) == ""
    ensures ts != [] ==> exists i :: FirstLongestAt(ts, i) && ts[i] == Longest(ts)
  {
    if ts != [] {
      var n := |ts|;
      var prefix := ts[..n - 1];
      assert ts == prefix + [ts[n - 1]];
      LongestIsFirstLongest(prefix);
      if prefix == [] {
        assert FirstLongestAt(ts, 0);
      } else {
        var i :| FirstLongestAt(prefix, i) && prefix[i] == Longest(prefix);
        if |ts[n - 1]| > |Longest(prefix)| {
          assert FirstLongestAt(ts, n - 1);
        } else {
          assert FirstLongestAt(ts, i);
        }
      }
    }
  }

  /** What the tag selection yields: `None` stands for the "no data" error. */
  function PublishedTag(images: seq<Package>): Option<string>
  {
    match FirstTagged(images)
    case None => None
    case Some(k) => Some(Longest(RemoveFirst(images[k].tags, TagHook)))
  }

  /**
   * The tag-selection loop of `GetPublishedVersion`: scan the versions in order; in the first
   * one carrying the marker tag, drop that tag and return the longest remaining one.
   */
  method SelectPublishedTag(images: seq<Package>) returns (version: string, err: Option<string>)
    ensures err.None? <==> exists k :: 0 <= k < |images| && TagHook in images[k].tags
    ensures err.Some? ==> version == "" && err == Some(NoDataError)
    ensures err.None? ==> PublishedTag(images) == Some(version)
    ensures err.Some? ==> PublishedTag(images) == None
  {
    for k := 0 to |images|
      invariant forall j :: 0 <= j < k ==> TagHook !in images[j].tags
    {
      var image := images[k];
      for i := 0 to |image.tags|
        invariant image == images[k]
        invariant forall j :: 0 <= j < i ==> image.tags[j] != TagHook
      {
        if image.tags[i] == TagHook {
          image := image.(tags := image.tags[..i] + image.tags[i + 1..]);
          var longest := LongestTag(image.tags);
          assert FirstTagged(images) == Some(k);
          assert FirstIndex(images[k].tags, TagHook) == i;
          assert PublishedTag(images) == Some(Longest(image.tags));
          return longest, None;
        }
      }
    }
    assert FirstTagged(images).None?;
    return "", Some(NoDataError);
  }

  /** The running-maximum loop over the remaining tags. */
  method LongestTag(tags: seq<string>) returns (longest: string)
    ensures longest == Longest(tags)
  {
    longest := "";
    for j := 0 to |tags|
      invariant longest == Longest(tags[..j])
    {
      assert tags[..j + 1][..j] == tags[..j];
      var t := tags[j];
      if |t| > |longest| {
        longest := t;
      }
    }
    assert tags[..|tags|] == tags;
  }

  /** Only the first version carrying the marker tag matters: anything listed after it is never read. */
  lemma {:induction false} PublishedTagIgnoresLater(images: seq<Package>, later: seq<Package>)
    requires exists k :: 0 <= k < |images| && TagHook in images[k].tags
    ensures PublishedTag(images + later) == PublishedTag(images)
  {
    var k := FirstTagged(images).value;
    var all := images + later;
    assert all[k] == images[k];
    assert forall j :: 0 <= j < k ==> all[j] == images[j];
    assert FirstTagged(all) == Some(k);
  }

  /**
   * When some version carries the marker tag, the published version is the earliest longest tag
   * among that version's tags once the first marker is dropped (a second marker stays eligible),
   * and "" when the marker was its only tag.
   */
  lemma PublishedTagShape(images: seq<Package>, k: nat)
    requires k < |images| && TagHook in images[k].tags
    requires forall j :: 0 <= j < k ==> TagHook !in images[j].tags
    ensures var i := FirstIndex(images[k].tags, TagHook);
      var rest := images[k].tags[..i] + images[k].tags[i + 1..];
      && PublishedTag(images).Some?
      && (rest == [] ==> PublishedTag(images) == Some(""))
      && (rest != [] ==> exists j :: FirstLongestAt(rest, j) && PublishedTag(images) == Some(rest[j]))
      && |rest| + 1 == |images[k].tags|
      && multiset(rest) + multiset{TagHook} == multiset(images[k].tags)
  {
    var tags := images[k].tags;
    assert FirstTagged(images) == Some(k);
    assert PublishedTag(images) == Some(Longest(RemoveFirst(tags, TagHook)));
    LongestIsFirstLongest(RemoveFirst(tags, TagHook));
    RemoveFirstShape(tags, TagHook);
  }

  /** Removing the first `x` leaves one element fewer: exactly one `x` is gone. */
  lemma RemoveFirstShape(s: seq<string>, x: string)
    requires x in s
    ensures |RemoveFirst(s, x)| + 1 == |s|
    ensures multiset(RemoveFirst(s, x)) + multiset{x} == multiset(s)
  {
    var i := FirstIndex(s, x);
    assert s == s[..i] + [x] + s[i + 1..];
  }

  /** A version tagged only with the marker publishes "" without an error. */
  lemma OnlyMarkerGivesEmpty(rest: seq<Package>)
    ensures PublishedTag([Package([TagHook])] + rest) == Some("")
  {
    assert ([Package([TagHook])] + rest)[0] == Package([TagHook]);
  }

  // ---------------------------------------------------------------------------
  // Release filter

  /** A rule selects a release when its lower-cased form occurs in the lower-cased release name. */
  predicate Matches(release: Release, rule: string)
  {
    Contains(ToLower(release.name), ToLower(rule))
  }

  /** What the inner loop appends for one release: one copy per matching rule, in rule order. */
  function MatchCopies(release: Release, rules: seq<string>): seq<Release>
  {
    if rules == [] then []
    else MatchCopies(release, rules[..|rules| - 1]) + (if Matches(release, rules[|rules| - 1]) then [release] else [])
  }

  /** The result of `filterReleases`: the copies of every release, in release order. */
  function Filtered(releases: seq<Release>, rules: seq<string>): seq<Release>
  {
    if releases == [] then []
    else Filtered(releases[..|releases| - 1], rules) + MatchCopies(releases[|releases| - 1], rules)
  }

  /** `filterReleases`. */
  method FilterReleases(releases: seq<Release>, rules: seq<string>) returns (filteredReleases: seq<Release>)
    ensures filteredReleases == Filtered(releases, rules)
  {
    filteredReleases := [];
    for r := 0 to |releases|
      invariant filteredReleases == Filtered(releases[..r], rules)
    {
      var release := releases[r];
      assert releases[..r + 1][..r] == releases[..r];
      ghost var before := filteredReleases;
      for q := 0 to |rules|
        invariant filteredReleases == before + MatchCopies(release, rules[..q])
      {
        assert rules[..q + 1][..q] == rules[..q];
        if Contains(ToLower(release.name), ToLower(rules[q])) {
          filteredReleases := filteredReleases + [release];
        }
      }
      assert rules[..|rules|] == rules;
    }
    assert releases[..|releases|] == releases;
  }

  /** The rules that match a release, by position. */
  ghost function MatchingRules(release: Release, rules: seq<string>): set<int>
  {
    set i | 0 <= i < |rules| && Matches(release, rules[i])
  }

  /** A release is appended exactly once per matching rule, and nothing else is appended. */
  lemma {:induction false} MatchCopiesCount(release: Release, rules: seq<string>)
    ensures |MatchCopies(release, rules)| == |MatchingRules(release, rules)|
    ensures forall x :: x in MatchCopies(release, rules) ==> x == release
  {
    if rules != [] {
      var n := |rules|;
      var prefix := rules[..n - 1];
      MatchCopiesCount(release, prefix);
      if Matches(release, rules[n - 1]) {
        assert MatchingRules(release, rules) == MatchingRules(release, prefix) + {n - 1};
      } else {
        assert MatchingRules(release, rules) == MatchingRules(release, prefix);
      }
    }
  }

  /** Filtering works release by release, so it keeps the input order. */
  lemma {:induction false} FilteredAppend(a: seq<Release>, b: seq<Release>, rules: seq<string>)
    ensures Filtered(a + b, rules) == Filtered(a, rules) + Filtered(b, rules)
  {
    if b != [] {
      var n := |b|;
      assert (a + b)[..|a + b| - 1] == a + b[..n - 1];
      FilteredAppend(a, b[..n - 1], rules);
    } else {
      assert a + b == a;
    }
  }

  /** Every kept release is an input release matched by some rule, and every matched release is kept. */
  lemma {:induction false} FilteredMembers(releases: seq<Release>, rules: seq<string>, x: Release)
    ensures x in Filtered(releases, rules) <==>
      x in releases && exists i :: 0 <= i < |rules| && Matches(x, rules[i])
  {
    if releases != [] {
      var n := |releases|;
      var prefix := releases[..n - 1];
      assert releases == prefix + [releases[n - 1]];
      FilteredMembers(prefix, rules, x);
      MatchCopiesCount(releases[n - 1], rules);
      if x == releases[n - 1] && exists i :: 0 <= i < |rules| && Matches(x, rules[i]) {
        var i :| 0 <= i < |rules| && Matches(x, rules[i]);
        assert i in MatchingRules(x, rules);
        assert MatchCopies(x, rules) != [];
        assert MatchCopies(x, rules)[0] in MatchCopies(x, rules);
      }
    }
  }

  /** With no rules nothing is kept. */
  lemma {:induction false} FilteredNoRules(releases: seq<Release>)
    ensures Filtered(releases, []) == []
  {
    if releases != [] {
      FilteredNoRules(releases[..|releases| - 1]);
    }
  }

  /** Matching ignores ASCII case on both sides: names and rules that differ only in case match alike. */
  lemma MatchesIgnoresCase(release: Release, other: Release, rule: string, otherRule: string)
    requires EqualIgnoringAsciiCase(release.name, other.name) && EqualIgnoringAsciiCase(rule, otherRule)
    ensures Matches(release, rule) <==> Matches(other, otherRule)
  {
    ToLowerEqualIff(release.name, other.name);
    ToLowerEqualIff(rule, otherRule);
  }

  /** The empty rule matches every release. */
  lemma EmptyRuleMatches(release: Release)
    ensures MatchCopies(release, [""]) == [release]
  {
    var lowered := ToLower(release.name);
    assert ToLower("") == "";
    ContainsTrivial(lowered);
    assert Matches(release, "");
    assert [""][..0] == [];
  }

  /** The empty rule on its own keeps the input unchanged. */
  lemma {:induction false} FilteredEmptyRule(releases: seq<Release>)
    ensures Filtered(releases, [""]) == releases
  {
    if releases != [] {
      var n := |releases|;
      FilteredEmptyRule(releases[..n - 1]);
      EmptyRuleMatches(releases[n - 1]);
      assert releases == releases[..n - 1] + [releases[n - 1]];
    }
  }

  // ---------------------------------------------------------------------------
  // Published releases

  /** What `GetPublishedReleases` reports: the release names and whether decoding failed. */
  datatype ReleasesResult = ReleasesResult(names: seq<string>, decodeFailed: bool)

  /**
   * `GetPublishedReleases` after the request: the filtered releases are only printed, so the
   * list it returns is empty on every path; the one error it reports is a decoding failure.
   */
  function GetPublishedReleases(reply: Reply<seq<Release>>, rules: seq<string>): (r: ReleasesResult)
    ensures r.names == []
    ensures r.decodeFailed <==> reply.statusCode == 200 && reply.body.None?
  {
    if reply.statusCode != 200 then ReleasesResult([], false)
    else match reply.body
      case None => ReleasesResult([], true)
      case Some(releases) =>
        var kept := Filtered(releases, rules);
        ReleasesResult([], false)
  }
}
