/**
 * test-stats.py: the survey driver.  It resolves the package list (a forge's project listing
 * or a local file), classifies every package into a record held in the module-global
 * `package_json`, and appends each record to the packages file.
 *
 * The URL, tag and project helpers of test-stats.py are copies of those of tools.py and are
 * used from module Tools.  manage_pull_request differs, and its stricter copy is modelled here.
 * test_tags_to_dict catches TypeError rather than every Exception, which changes nothing for
 * the list-or-None arguments modelled.  The packages file is the append-only sequence `Survey.store`.
 */
module TestStats {
  import opened Wrappers
  import opened Text
  import opened Json
  import opened Tools
  import opened Records

  // ---------------------------------------------------------------------------
  // Pull requests (test-stats.py:139-167)

  /**
   * get_pull_requests, test-stats.py:139-147: the decoded pull-request listing of a package on
   * distgit; a body that is not JSON is reported and Python's None (Null) is returned.
   */
  function PullRequestResponse(package: string, net: Network): Value
  {
    match net.json(PullRequestsUrl(DistGitUrl, package))
    case None => Null
    case Some(listing) => listing
  }

  /**
   * The condition at test-stats.py:162, `('Add CI tests' in request['title']) and
   * (request['status'] == 'Open')`, with Python's left-to-right short-circuit: the status is
   * read only for a title carrying the marker.
   */
  function MarkerTitleAndOpen(request: Value): Option<bool>
  {
    match Get(request, "title")
    case None => None
    case Some(title) =>
      match Has(title, "Add CI tests")
      case None => None
      case Some(marker) => if marker then StatusIsOpen(request) else Some(false)
  }

  /** manage_pull_request, test-stats.py:159-167 (KeyError and TypeError give None). */
  function ManageTestPullRequest(responseJson: Value): Option<PullRequest>
  {
    ManagePullRequestWith(responseJson, MarkerTitleAndOpen)
  }

  /** The request was evaluated without raising and does not qualify. */
  predicate Refused(request: Value)
  {
    Get(request, "title").Some? && Has(Get(request, "title").value, "Add CI tests").Some? &&
    (Has(Get(request, "title").value, "Add CI tests") == Some(true) ==>
       Get(request, "status").Some? && Get(request, "status") != Some(Str("Open")))
  }

  /** The request's title carries the marker and its status is "Open". */
  predicate Qualifies(request: Value)
  {
    Get(request, "title").Some? && Has(Get(request, "title").value, "Add CI tests") == Some(true) &&
    Get(request, "status") == Some(Str("Open"))
  }

  lemma ConditionCases(request: Value)
    ensures MarkerTitleAndOpen(request) == Some(true) <==> Qualifies(request)
    ensures MarkerTitleAndOpen(request) == Some(false) <==> Refused(request)
  {
  }

  /**
   * A pull request is reported only for the first request whose title carries "Add CI tests"
   * and whose status is "Open", every earlier request having been refused; its URL is the
   * distgit base followed by the request's project path and "/pull-requests".
   */
  lemma PendingIsFirstTestRequest(responseJson: Value) returns (k: nat)
    ensures ManageTestPullRequest(responseJson).Some? ==>
      var requests := RequestsToScan(responseJson).value;
      k < |requests| && Qualifies(requests[k]) &&
      (forall j :: 0 <= j < k ==> Refused(requests[j])) &&
      Get(requests[k], "project").Some? && Get(Get(requests[k], "project").value, "url_path").Some? &&
      Get(Get(requests[k], "project").value, "url_path").value.Str? && Get(requests[k], "user").Some? &&
      ManageTestPullRequest(responseJson) ==
        Some(PullRequest(Get(requests[k], "user").value,
                         DistGitUrl + Get(Get(requests[k], "project").value, "url_path").value.s + "/pull-requests"))
  {
    k := 0;
    if ManageTestPullRequest(responseJson).Some? {
      var requests := RequestsToScan(responseJson).value;
      k := FirstMatchIsFirst(requests, MarkerTitleAndOpen);
      ConditionCases(requests[k]);
      forall j | 0 <= j < k ensures Refused(requests[j]) {
        ConditionCases(requests[j]);
      }
    }
  }

  /**
   * Conversely, the first qualifying request after refused ones is the one reported, and when
   * every request is refused, or the listing is not a positive count of requests, nothing is.
   */
  lemma FirstTestRequestIsPending(responseJson: Value, k: nat)
    requires RequestsToScan(responseJson).Some?
    requires var requests := RequestsToScan(responseJson).value;
      k <= |requests| && (forall j :: 0 <= j < k ==> Refused(requests[j])) &&
      (k < |requests| ==> Qualifies(requests[k]))
    ensures var requests := RequestsToScan(responseJson).value;
      ManageTestPullRequest(responseJson) == if k < |requests| then PendingRequest(requests[k]) else None
  {
    var requests := RequestsToScan(responseJson).value;
    forall j | 0 <= j < k && j < |requests| ensures MarkerTitleAndOpen(requests[j]) == Some(false) {
      ConditionCases(requests[j]);
    }
    if k < |requests| {
      ConditionCases(requests[k]);
      FirstMatchFinds(requests, MarkerTitleAndOpen, k);
    } else {
      FirstMatchNone(requests, MarkerTitleAndOpen);
    }
  }

  /** The listing of an example package with one open test pull request by alice. */
  function AliceListing(): Value
  {
    Object(map["total_requests" := Int(1), "requests" := Array([AliceRequest()])])
  }

  function AliceRequest(): Value
  {
    Object(map[
      "title" := Str("Add CI tests for foo"),
      "status" := Str("Open"),
      "project" := Object(map["url_path" := Str("rpms/foo")]),
      "user" := Str("alice")])
  }

  lemma AliceTitleHasMarker()
    ensures Contains("Add CI tests for foo", "Add CI tests")
  {
    ContainsAt("Add CI tests for foo", "Add CI tests", 0);
  }

  lemma AliceRequestQualifies()
    ensures Qualifies(AliceRequest())
  {
    var request := AliceRequest();
    assert Get(request, "title") == Some(Str("Add CI tests for foo"));
    AliceTitleHasMarker();
    assert Get(request, "status") == Some(Str("Open"));
  }

  lemma AliceRequestIsPending()
    ensures PendingRequest(AliceRequest()) ==
            Some(PullRequest(Str("alice"), "https://src.fedoraproject.org/rpms/foo/pull-requests"))
  {
    PendingRequestOf(AliceRequest(), "rpms/foo", Str("alice"));
    FooPullRequests();
  }

  /** The example listing yields alice's request, under its project's pull-request page. */
  lemma AliceListingIsPending()
    ensures ManageTestPullRequest(AliceListing()) ==
            Some(PullRequest(Str("alice"), "https://src.fedoraproject.org/rpms/foo/pull-requests"))
  {
    var listing := AliceListing();
    assert Get(listing, "total_requests") == Some(Int(1));
    assert Get(listing, "requests") == Some(Array([AliceRequest()]));
    assert RequestsToScan(listing) == Some([AliceRequest()]);
    AliceRequestQualifies();
    AliceRequestIsPending();
    FirstTestRequestIsPending(listing, 0);
  }

  /** The body distgit answers for a package it does not know. */
  function NotFoundBody(): Value
  {
    Object(map["error" := Str("Project not found"), "error_code" := Str("ENOPROJECT")])
  }

  /**
   * The not-found body, a body that did not decode (None) and a listing without a positive
   * request count all give no pull request.
   */
  lemma NoListingNoPending(responseJson: Value)
    requires responseJson == NotFoundBody() || responseJson == Null ||
             (Get(responseJson, "total_requests").Some? &&
              IsPositive(Get(responseJson, "total_requests").value) != Some(true))
    ensures ManageTestPullRequest(responseJson) == None
  {
    if responseJson == NotFoundBody() {
      assert "total_requests" !in NotFoundBody().fields;
    }
  }

  // ---------------------------------------------------------------------------
  // Reading the package list from a file (test-stats.py:412-424)

  /** A comment line of the package list. */
  predicate IsComment(line: string)
  {
    StartsWith(line, "#")
  }

  /** A line is a comment exactly when its first character is '#'. */
  lemma IsCommentFirstChar(line: string)
    ensures IsComment(line) <==> |line| > 0 && line[0] == '#'
  {
    if |line| > 0 && line[0] == '#' {
      assert line[..1] == "#";
    }
  }

  /** The index of the first element equal to `x`. */
  function FirstIndex(s: seq<string>, x: string): (k: nat)
    requires x in s
    ensures k < |s| && s[k] == x && x !in s[..k]
  {
    if s[0] == x then 0
    else
      var k' := FirstIndex(s[1..], x);
      assert s[..k' + 1] == [s[0]] + s[1..][..k'];
      k' + 1
  }

  /** Python's `list.remove(x)`: deletes the first element equal to `x`. */
  function RemoveFirst(s: seq<string>, x: string): seq<string>
    requires x in s
  {
    var k := FirstIndex(s, x);
    s[..k] + s[k + 1..]
  }

  /**
   * The list comprehension at test-stats.py:423 from iteration position `i` on.  The list
   * iterator reads index `i` and moves to `i + 1`; a comment it read is removed with
   * `list.remove`, which shifts the rest of the list left, so the element after it is never
   * read.
   */
  function CommentSweep(packages: seq<string>, i: nat): seq<string>
    decreases |packages| - i
  {
    if i >= |packages| then packages
    else if IsComment(packages[i]) then CommentSweep(RemoveFirst(packages, packages[i]), i + 1)
    else CommentSweep(packages, i + 1)
  }

  /** get_pkgs_file, test-stats.py:421-424, on the file's lines. */
  method GetPkgsFile(lines: seq<string>) returns (packages: seq<string>)
    ensures packages == CommentSweep(lines, 0)
  {
    packages := lines;
    var i: nat := 0;
    while i < |packages|
      invariant CommentSweep(packages, i) == CommentSweep(lines, 0)
      decreases |packages| - i
    {
      var element := packages[i];
      i := i + 1;
      if IsComment(element) {
        packages := RemoveFirst(packages, element);
      }
    }
  }

  /** The lines that are not comments, in order: what the filter is meant to return. */
  function DropComments(lines: seq<string>): seq<string>
    decreases |lines|
  {
    if lines == [] then []
    else
      var last := lines[|lines| - 1];
      DropComments(lines[..|lines| - 1]) + (if IsComment(last) then [] else [last])
  }

  predicate NoComments(lines: seq<string>)
  {
    forall k :: 0 <= k < |lines| ==> !IsComment(lines[k])
  }

  /** No two consecutive lines are both comments. */
  predicate NoAdjacentComments(lines: seq<string>)
  {
    forall k :: 0 <= k < |lines| - 1 ==> !IsComment(lines[k]) || !IsComment(lines[k + 1])
  }

  /**
   * The intended filter keeps exactly the lines that are not comments, in their original
   * order, and keeps no comment.
   */
  lemma {:induction false} DropCommentsSpec(lines: seq<string>)
    ensures forall x :: x in DropComments(lines) <==> x in lines && !IsComment(x)
    ensures IsSubsequence(DropComments(lines), lines)
    ensures NoComments(DropComments(lines))
    decreases |lines|
  {
    if lines != [] {
      var init, last := lines[..|lines| - 1], lines[|lines| - 1];
      DropCommentsSpec(init);
      assert lines == init + [last];
      DropCommentsStep(init, last, DropComments(init));
    }
  }

  /** The three facts of DropCommentsSpec carry over to one more line. */
  lemma DropCommentsStep(init: seq<string>, last: string, d: seq<string>)
    requires forall x :: x in d <==> x in init && !IsComment(x)
    requires IsSubsequence(d, init) && NoComments(d)
    ensures var d' := d + (if IsComment(last) then [] else [last]);
      (forall x :: x in d' <==> x in init + [last] && !IsComment(x)) &&
      IsSubsequence(d', init + [last]) && NoComments(d')
  {
    var lines := init + [last];
    assert lines[..|lines| - 1] == init;
    if IsComment(last) {
      assert d + [] == d;
    } else {
      var d' := d + [last];
      assert d'[..|d|] == d;
      assert forall k :: 0 <= k < |d'| ==> d'[k] == if k < |d| then d[k] else last;
    }
  }

  lemma {:induction false} DropCommentsAppend(a: seq<string>, b: seq<string>)
    ensures DropComments(a + b) == DropComments(a) + DropComments(b)
    decreases |b|
  {
    if b != [] {
      var b' := b[..|b| - 1];
      DropCommentsAppend(a, b');
      assert (a + b)[..|a + b| - 1] == a + b';
      assert (a + b)[|a + b| - 1] == b[|b| - 1];
    } else {
      assert a + b == a;
    }
  }

  lemma {:induction false} DropCommentsOfClean(lines: seq<string>)
    requires NoComments(lines)
    ensures DropComments(lines) == lines
    decreases |lines|
  {
    if lines != [] {
      DropCommentsOfClean(lines[..|lines| - 1]);
    }
  }

  /** A comment between two parts of a file leaves nothing behind. */
  lemma DropCommentBetween(a: seq<string>, c: string, b: seq<string>)
    requires IsComment(c)
    ensures DropComments(a + [c] + b) == DropComments(a + b)
  {
    DropCommentsAppend(a + [c], b);
    DropCommentsAppend(a, [c]);
    DropCommentsAppend(a, b);
    assert [c][..0] == [];
  }

  /** Removing a comment with `list.remove` keeps the other lines, in order. */
  lemma RemoveCommentKeepsLines(s: seq<string>, x: string)
    requires x in s && IsComment(x)
    ensures DropComments(RemoveFirst(s, x)) == DropComments(s)
    ensures IsSubsequence(RemoveFirst(s, x), s)
  {
    var k := FirstIndex(s, x);
    assert s == s[..k] + [s[k]] + s[k + 1..];
    DropCommentBetween(s[..k], s[k], s[k + 1..]);
    DeletionIsSubsequence(s, k);
  }

  /** The sweep keeps every line that is not a comment, in order, and adds nothing. */
  lemma {:induction false} CommentSweepKeepsLines(packages: seq<string>, i: nat)
    ensures DropComments(CommentSweep(packages, i)) == DropComments(packages)
    ensures IsSubsequence(CommentSweep(packages, i), packages)
    decreases |packages| - i
  {
    if i >= |packages| {
      SubsequenceReflexive(packages);
    } else if IsComment(packages[i]) {
      var rest := RemoveFirst(packages, packages[i]);
      CommentSweepKeepsLines(rest, i + 1);
      RemoveCommentKeepsLines(packages, packages[i]);
      SubsequenceTransitive(CommentSweep(rest, i + 1), rest, packages);
    } else {
      CommentSweepKeepsLines(packages, i + 1);
    }
  }

  /**
   * Once the lines before position `i` hold no comment, a sweep over lines without two
   * consecutive comments leaves no comment behind.
   */
  lemma {:induction false} CommentSweepClearsIsolated(packages: seq<string>, i: nat)
    requires NoAdjacentComments(packages)
    requires forall k :: 0 <= k < i && k < |packages| ==> !IsComment(packages[k])
    ensures NoComments(CommentSweep(packages, i))
    decreases |packages| - i
  {
    if i >= |packages| {
    } else if IsComment(packages[i]) {
      var x := packages[i];
      var k := FirstIndex(packages, x);
      assert k == i;
      var rest := RemoveFirst(packages, x);
      assert rest == packages[..i] + packages[i + 1..];
      forall j | 0 <= j < |rest| - 1 ensures !IsComment(rest[j]) || !IsComment(rest[j + 1]) {
        if j < i - 1 {
          assert rest[j] == packages[j] && rest[j + 1] == packages[j + 1];
        } else if j == i - 1 {
          assert rest[j] == packages[j];
        } else {
          assert rest[j] == packages[j + 1] && rest[j + 1] == packages[j + 2];
        }
      }
      forall j | 0 <= j < i + 1 && j < |rest| ensures !IsComment(rest[j]) {
        if j < i {
          assert rest[j] == packages[j];
        } else {
          assert rest[j] == packages[i + 1];
        }
      }
      CommentSweepClearsIsolated(rest, i + 1);
    } else {
      CommentSweepClearsIsolated(packages, i + 1);
    }
  }

  /**
   * Without two consecutive comment lines, get_pkgs_file returns exactly the lines that are
   * not comments, in their original order.
   */
  lemma IsolatedCommentsAreDropped(lines: seq<string>)
    requires NoAdjacentComments(lines)
    ensures CommentSweep(lines, 0) == DropComments(lines)
  {
    CommentSweepKeepsLines(lines, 0);
    CommentSweepClearsIsolated(lines, 0);
    DropCommentsOfClean(CommentSweep(lines, 0));
  }

  /** A list with one comment between two packages loses the comment only. */
  lemma OneCommentIsDropped()
    ensures CommentSweep(["pkgA", "# comment", "pkgB"], 0) == ["pkgA", "pkgB"]
  {
    var lines := ["pkgA", "# comment", "pkgB"];
    IsCommentFirstChar(lines[0]);
    IsCommentFirstChar(lines[1]);
    IsCommentFirstChar(lines[2]);
    IsolatedCommentsAreDropped(lines);
    assert lines == [lines[0]] + [lines[1]] + [lines[2]];
    DropCommentsAppend([lines[0]] + [lines[1]], [lines[2]]);
    DropCommentsAppend([lines[0]], [lines[1]]);
    assert [lines[0]][..0] == [] && [lines[1]][..0] == [] && [lines[2]][..0] == [];
  }

  /**
   * The remove-while-iterating comprehension as written: of two consecutive comments only the
   * first is removed, the second is never read and is returned as a package name.
   */
  lemma AdjacentCommentSurvives()
    ensures CommentSweep(["# a", "# b", "pkgA"], 0) == ["# b", "pkgA"]
    ensures DropComments(["# a", "# b", "pkgA"]) == ["pkgA"]
  {
    var lines := ["# a", "# b", "pkgA"];
    IsCommentFirstChar(lines[0]);
    IsCommentFirstChar(lines[1]);
    IsCommentFirstChar(lines[2]);
    assert FirstIndex(lines, "# a") == 0;
    assert RemoveFirst(lines, "# a") == ["# b", "pkgA"];
    assert CommentSweep(lines, 0) == CommentSweep(["# b", "pkgA"], 1);
    assert CommentSweep(["# b", "pkgA"], 1) == CommentSweep(["# b", "pkgA"], 2);
    assert lines == [lines[0]] + [lines[1]] + [lines[2]];
    DropCommentsAppend([lines[0]] + [lines[1]], [lines[2]]);
    DropCommentsAppend([lines[0]], [lines[1]]);
    assert [lines[0]][..0] == [] && [lines[1]][..0] == [] && [lines[2]][..0] == [];
  }

  // ---------------------------------------------------------------------------
  // Classifying one package (test-stats.py:336-379)

  /** The `pending` fields get_pkg_info sets from manage_pull_request's result (lines 342-353). */
  function PendingOf(result: Option<PullRequest>): Pending
  {
    match result
    case Some(pr) => Pending(true, pr.url, pr.user)
    case None => Pending(false, "", Str(""))
  }

  /** The `test_tags` flags get_pkg_info stores for a forge (lines 355-357 and 366-368). */
  function ForgeTagFlags(siteUrl: string, pkg: string, net: Network): TagFlags
    requires TestFileUrl(siteUrl, pkg, DefaultTestFile).Some?
  {
    TagFlagsOf(HandleTestTags(siteUrl, pkg, net).value.tags)
  }

  /**
   * A forge whose tests.yml is a "Page not found" page gets no test tag; one whose tests.yml
   * names tags gets exactly those; otherwise the flags are those of the file named by the last
   * findall match, and all false when there is none.
   */
  lemma ForgeTagFlagsSpec(siteUrl: string, pkg: string, net: Network)
    requires TestFileUrl(siteUrl, pkg, DefaultTestFile).Some?
    ensures var rawText := net.text(TestFileUrl(siteUrl, pkg, DefaultTestFile).value);
      var flags := ForgeTagFlags(siteUrl, pkg, net);
      (Contains(rawText, "Page not found") ==> flags == TagFlags(false, false, false)) &&
      (!Contains(rawText, "Page not found") && TagsIn(rawText) != [] ==>
         (flags.classic <==> Contains(rawText, "classic")) &&
         (flags.container <==> Contains(rawText, "container")) &&
         (flags.atomic <==> Contains(rawText, "atomic"))) &&
      (!Contains(rawText, "Page not found") && TagsIn(rawText) == [] && LastToken(rawText).None? ==>
         flags == TagFlags(false, false, false)) &&
      (!Contains(rawText, "Page not found") && TagsIn(rawText) == [] && LastToken(rawText).Some? ==>
         TestFileUrl(siteUrl, pkg, LastToken(rawText).value).Some? &&
         var fallback := net.text(TestFileUrl(siteUrl, pkg, LastToken(rawText).value).value);
         (flags.classic <==> Contains(fallback, "classic")) &&
         (flags.container <==> Contains(fallback, "container")) &&
         (flags.atomic <==> Contains(fallback, "atomic")))
  {
    var rawText := net.text(TestFileUrl(siteUrl, pkg, DefaultTestFile).value);
    ForgeTags(siteUrl, pkg, net);
    FlagsOfText(rawText);
    if LastToken(rawText).Some? {
      FlagsOfText(net.text(TestFileUrl(siteUrl, pkg, LastToken(rawText).value).value));
    }
  }

  /** The tag list handle_test_tags returns for a forge, case by case. */
  lemma ForgeTags(siteUrl: string, pkg: string, net: Network)
    requires TestFileUrl(siteUrl, pkg, DefaultTestFile).Some?
    ensures var rawText := net.text(TestFileUrl(siteUrl, pkg, DefaultTestFile).value);
      HandleTestTags(siteUrl, pkg, net).Some? &&
      HandleTestTags(siteUrl, pkg, net).value.tags ==
        if Contains(rawText, "Page not found") || (TagsIn(rawText) == [] && LastToken(rawText).None?) then []
        else if TagsIn(rawText) != [] then TagsIn(rawText)
        else TagsIn(net.text(TestFileUrl(siteUrl, pkg, LastToken(rawText).value).value))
  {
  }

  /** The flags of the tags found in a text say which vocabulary words the text contains. */
  lemma FlagsOfText(text: string)
    ensures TagFlagsOf(TagsIn(text)) ==
      TagFlags(Contains(text, "classic"), Contains(text, "container"), Contains(text, "atomic"))
  {
    TagsInSpec(text);
  }

  /** The `upstreamfirst` part of the record get_pkg_info writes for `pkg` (lines 355-364). */
  function UpstreamOf(pkg: string, net: Network): UpstreamInfo
  {
    UpstreamfirstIsUpstreamfirst();
    var url := UrlToTestYml(UpstreamfirstUrl, pkg).value;
    var found := TestYmlExists(url, net);
    UpstreamInfo(found, if found then url else "", ForgeTagFlags(UpstreamfirstUrl, pkg, net))
  }

  /**
   * The `distgit` part (lines 342-353 and 366-375).  `missing` keeps its initial '' because
   * nothing assigns it: the KeyError handler at lines 347-349 cannot run, manage_pull_request
   * returning either None or a dict with both keys.
   */
  function DistgitOf(pkg: string, net: Network): DistgitInfo
  {
    DistGitIsFedoraproject();
    var url := UrlToTestYml(DistGitUrl, pkg).value;
    var found := TestYmlExists(url, net);
    DistgitInfo(
      if found then url else "",
      found,
      Str(""),
      PendingOf(ManageTestPullRequest(PullRequestResponse(pkg, net))),
      ForgeTagFlags(DistGitUrl, pkg, net))
  }

  /** The record get_pkg_info writes for `pkg`. */
  function Classify(pkg: string, net: Network): PackageRecord
  {
    PackageRecord(pkg, DistgitOf(pkg, net), UpstreamOf(pkg, net))
  }

  /**
   * The shape every stored record has: `missing` is the unassigned '', a pending request has a
   * URL while no pending request has neither URL nor user, and each forge's package URL is
   * set exactly when its tests.yml exists.
   */
  predicate WellFormedRecord(r: PackageRecord)
  {
    r.distgit.missing == Str("") &&
    (r.distgit.pending.status ==> r.distgit.pending.url != "") &&
    (!r.distgit.pending.status ==> r.distgit.pending.url == "" && r.distgit.pending.user == Str("")) &&
    (r.distgit.testYml <==> r.distgit.packageUrl != "") &&
    (r.upstreamfirst.testYml <==> r.upstreamfirst.packageUrl != "")
  }

  /**
   * get_pkg_info records the package name; a pending request exactly when manage_pull_request
   * found one, with its URL and user; and, per forge, whether tests.yml answers 200 at its
   * viewable URL, that URL when it does and '' when it does not.
   */
  lemma ClassifySpec(pkg: string, net: Network)
    ensures var r := Classify(pkg, net);
      var result := ManageTestPullRequest(PullRequestResponse(pkg, net));
      var distgitUrl := "https://src.fedoraproject.org/rpms/" + pkg + "/blob/master/f/tests/tests.yml";
      var upstreamUrl := "https://upstreamfirst.fedorainfracloud.org/" + pkg + "/blob/master/f/tests.yml";
      r.name == pkg &&
      (r.distgit.pending.status <==> result.Some?) &&
      (result.Some? ==> r.distgit.pending.url == result.value.url && r.distgit.pending.user == result.value.user) &&
      (r.distgit.testYml <==> net.status(distgitUrl) == 200) &&
      r.distgit.packageUrl == (if r.distgit.testYml then distgitUrl else "") &&
      (r.upstreamfirst.testYml <==> net.status(upstreamUrl) == 200) &&
      r.upstreamfirst.packageUrl == (if r.upstreamfirst.testYml then upstreamUrl else "") &&
      TestFileUrl(DistGitUrl, pkg, DefaultTestFile).Some? &&
      r.distgit.testTags == ForgeTagFlags(DistGitUrl, pkg, net) &&
      TestFileUrl(UpstreamfirstUrl, pkg, DefaultTestFile).Some? &&
      r.upstreamfirst.testTags == ForgeTagFlags(UpstreamfirstUrl, pkg, net)
  {
    DistGitUrls(pkg, DefaultTestFile);
    UpstreamfirstUrls(pkg, DefaultTestFile);
  }

  /** Every record get_pkg_info writes is well formed. */
  lemma ClassifyIsWellFormed(pkg: string, net: Network)
    ensures WellFormedRecord(Classify(pkg, net))
  {
    DistGitUrls(pkg, DefaultTestFile);
    UpstreamfirstUrls(pkg, DefaultTestFile);
    var result := ManageTestPullRequest(PullRequestResponse(pkg, net));
    if result.Some? {
      var requests := RequestsToScan(PullRequestResponse(pkg, net)).value;
      var k := FirstMatchIsFirst(requests, MarkerTitleAndOpen);
      assert result.value.url == DistGitUrl + Get(Get(requests[k], "project").value, "url_path").value.s + "/pull-requests";
    }
  }

  /** With alice's listing as distgit's answer, package foo is recorded with her pending request. */
  lemma AliceIsPendingForFoo(net: Network)
    requires net.json(PullRequestsUrl(DistGitUrl, "foo")) == Some(AliceListing())
    ensures Classify("foo", net).distgit.pending ==
            Pending(true, "https://src.fedoraproject.org/rpms/foo/pull-requests", Str("alice"))
  {
    AliceListingIsPending();
  }

  /**
   * As written, a package distgit does not know is recorded with `missing` still '', which
   * counts as false, and without a pending request.
   */
  lemma UnknownProjectIsNotMarkedMissing(pkg: string, net: Network)
    requires net.json(PullRequestsUrl(DistGitUrl, pkg)) == Some(NotFoundBody())
    ensures Classify(pkg, net).distgit.missing == Str("") && !Truthy(Classify(pkg, net).distgit.missing)
    ensures !Classify(pkg, net).distgit.pending.status
  {
    NoListingNoPending(NotFoundBody());
  }

  /** Whether the pull-request answer is the not-found body's error code. */
  predicate ProjectMissing(responseJson: Value)
  {
    Get(responseJson, "error_code") == Some(Str("ENOPROJECT"))
  }

  /** The record with `missing` set as lines 347-349 intend: true for a project distgit does not know. */
  function ClassifyIntended(pkg: string, net: Network): PackageRecord
  {
    var r := Classify(pkg, net);
    r.(distgit := r.distgit.(missing := Bool(ProjectMissing(PullRequestResponse(pkg, net)))))
  }

  /**
   * With the intended assignment, `missing` counts as true exactly for the not-found error
   * code, a package distgit does not know has no pending request, and the rest of the record
   * is unchanged.
   */
  lemma IntendedMissingFlagsUnknownProjects(pkg: string, net: Network)
    ensures Truthy(ClassifyIntended(pkg, net).distgit.missing) <==>
            Get(PullRequestResponse(pkg, net), "error_code") == Some(Str("ENOPROJECT"))
    ensures net.json(PullRequestsUrl(DistGitUrl, pkg)) == Some(NotFoundBody()) ==>
            Truthy(ClassifyIntended(pkg, net).distgit.missing) &&
            !ClassifyIntended(pkg, net).distgit.pending.status
    ensures ClassifyIntended(pkg, net).(distgit := ClassifyIntended(pkg, net).distgit.(missing := Str(""))) ==
            Classify(pkg, net)
  {
    if net.json(PullRequestsUrl(DistGitUrl, pkg)) == Some(NotFoundBody()) {
      assert Get(NotFoundBody(), "error_code") == Some(Str("ENOPROJECT"));
      NoListingNoPending(NotFoundBody());
    }
  }

  // ---------------------------------------------------------------------------
  // The survey (test-stats.py:34-43, 325-379)

  /** The packages get_pkgs_info iterates over, from a file's lines. */
  function AsValues(lines: seq<string>): seq<Value>
  {
    seq(|lines|, k requires 0 <= k < |lines| => Str(lines[k]))
  }

  /**
   * The package list get_pkgs_info iterates over (lines 327-332), None where resolving it
   * raises: a repos argument containing "https://" is a forge whose project listing is
   * fetched and filtered, anything else names a file whose lines are given; `--short` keeps
   * the first ten.
   */
  function ResolvePackages(repos: string, short: bool, net: Network, fileLines: seq<string>): Option<seq<Value>>
  {
    var pkgs :=
      if Contains(repos, "https://") then
        (match net.json(ProjectsUrl(repos))
         case None => None
         case Some(listing) => ProjectNames(listing))
      else Some(AsValues(CommentSweep(fileLines, 0)));
    if pkgs.Some? && short && |pkgs.value| > 10 then Some(pkgs.value[..10]) else pkgs
  }

  /** How many leading entries are strings: get_pkg_info raises at the first that is not. */
  function LeadingStrings(pkgs: seq<Value>): (n: nat)
    ensures n <= |pkgs|
    ensures forall j :: 0 <= j < n ==> pkgs[j].Str?
    ensures n < |pkgs| ==> !pkgs[n].Str?
  {
    if pkgs == [] || !pkgs[0].Str? then 0 else 1 + LeadingStrings(pkgs[1..])
  }

  /** The strings lead up to exactly the first entry that is not one. */
  lemma LeadingStringsAt(pkgs: seq<Value>, k: nat)
    requires k <= |pkgs|
    requires forall j :: 0 <= j < k ==> pkgs[j].Str?
    requires k < |pkgs| ==> !pkgs[k].Str?
    ensures LeadingStrings(pkgs) == k
  {
  }

  /** Every package name is a string. */
  predicate AllStrings(pkgs: seq<Value>)
  {
    forall j :: 0 <= j < |pkgs| ==> pkgs[j].Str?
  }

  /** The records of the packages, in order. */
  function ClassifyAll(pkgs: seq<Value>, net: Network): seq<PackageRecord>
    requires AllStrings(pkgs)
    decreases |pkgs|
  {
    if pkgs == [] then []
    else ClassifyAll(pkgs[..|pkgs| - 1], net) + [Classify(pkgs[|pkgs| - 1].s, net)]
  }

  /** The k-th record written is the classification of the k-th package, and is well formed. */
  lemma {:induction false} ClassifyAllSpec(pkgs: seq<Value>, net: Network)
    requires AllStrings(pkgs)
    ensures |ClassifyAll(pkgs, net)| == |pkgs|
    ensures forall k :: 0 <= k < |pkgs| ==>
      ClassifyAll(pkgs, net)[k] == Classify(pkgs[k].s, net) && WellFormedRecord(ClassifyAll(pkgs, net)[k])
    decreases |pkgs|
  {
    if pkgs != [] {
      var init := pkgs[..|pkgs| - 1];
      ClassifyAllSpec(init, net);
      ClassifyIsWellFormed(pkgs[|pkgs| - 1].s, net);
      forall k | 0 <= k < |pkgs|
        ensures ClassifyAll(pkgs, net)[k] == Classify(pkgs[k].s, net)
      {
        if k < |pkgs| - 1 {
          assert pkgs[k] == init[k];
        }
      }
    }
  }

  /** Surveying one more package appends its record. */
  lemma ClassifyAllStep(before: seq<PackageRecord>, pkgs: seq<Value>, k: nat, net: Network)
    requires k < |pkgs| && forall j :: 0 <= j <= k ==> pkgs[j].Str?
    ensures AllStrings(pkgs[..k]) && AllStrings(pkgs[..k + 1])
    ensures before + ClassifyAll(pkgs[..k + 1], net) == before + ClassifyAll(pkgs[..k], net) + [Classify(pkgs[k].s, net)]
  {
    assert pkgs[..k + 1][..k] == pkgs[..k];
  }

  /** Lines 327-332 of get_pkgs_info: the package list to survey, None where resolving it raises. */
  method PackagesToSurvey(repos: string, short: bool, net: Network, fileLines: seq<string>)
    returns (pkgs: Option<seq<Value>>)
    ensures pkgs == ResolvePackages(repos, short, net, fileLines)
  {
    var list: seq<Value>;
    if Contains(repos, "https://") {
      var projects := net.json(ProjectsUrl(repos));
      if projects.None? {
        return None;
      }
      var names := GetProjectsNames(projects.value);
      if names.None? {
        return None;
      }
      list := names.value;
    } else {
      var lines := GetPkgsFile(fileLines);
      list := AsValues(lines);
    }
    if short && |list| > 10 {
      list := list[..10];
    }
    pkgs := Some(list);
  }

  /**
   * The module-global `package_json` of test-stats.py, one field per leaf, and the packages
   * file it is appended to, one record per line.
   */
  class Survey {
    /** `package_json`: the package name and the two forges' parts of the current record. */
    var name: string
    var distgit: DistgitInfo
    var upstreamfirst: UpstreamInfo
    /** The records written to the packages file so far, one per line. */
    var store: seq<PackageRecord>

    /** The record `package_json` currently holds, as write_results_to_the_file writes it. */
    function Snapshot(): PackageRecord
      reads this
    {
      PackageRecord(name, distgit, upstreamfirst)
    }

    /** `missing` keeps its initial '': get_pkg_info never assigns it. */
    ghost predicate Valid()
      reads this
    {
      distgit.missing == Str("")
    }

    /**
     * `package_json` as initialised at test-stats.py:34-43.  The packages file is opened for
     * appending and never cleared by test-stats.py, so it starts with the records `existing`
     * of earlier runs.
     */
    constructor (existing: seq<PackageRecord>)
      ensures Valid() && store == existing
      ensures Snapshot() == PackageRecord(
        "",
        DistgitInfo("", false, Str(""), Pending(false, "", Object(map[])), TagFlags(false, false, false)),
        UpstreamInfo(false, "", TagFlags(false, false, false)))
    {
      name := "";
      distgit := DistgitInfo("", false, Str(""), Pending(false, "", Object(map[])), TagFlags(false, false, false));
      upstreamfirst := UpstreamInfo(false, "", TagFlags(false, false, false));
      store := existing;
    }

    /**
     * get_pkg_info, test-stats.py:336-379: overwrites every entry of `package_json` but
     * `missing` with the package's classification and appends the result to the packages file.
     */
    method GetPkgInfo(pkg: string, net: Network)
      requires Valid()
      modifies this
      ensures Valid()
      ensures Snapshot() == Classify(pkg, net)
      ensures store == old(store) + [Classify(pkg, net)]
    {
      name := pkg;
      SetPending(pkg, net);
      SetUpstreamfirst(pkg, net);
      SetDistgit(pkg, net);
      store := store + [Snapshot()];
    }

    /**
     * Lines 342-353: the pending request manage_pull_request finds, or '' and False.  The
     * KeyError handler cannot run: a result that is not None has both keys.
     */
    method SetPending(pkg: string, net: Network)
      modifies this`distgit
      ensures distgit == old(distgit).(pending := PendingOf(ManageTestPullRequest(PullRequestResponse(pkg, net))))
    {
      var rawText := PullRequestResponse(pkg, net);
      var result := ManageTestPullRequest(rawText);
      if result.Some? {
        distgit := distgit.(pending := Pending(true, result.value.url, result.value.user));
      } else {
        distgit := distgit.(pending := Pending(false, "", Str("")));
      }
    }

    /** Lines 355-364: the upstreamfirst test tags, and whether and where its tests.yml is. */
    method SetUpstreamfirst(pkg: string, net: Network)
      modifies this`upstreamfirst
      ensures upstreamfirst == UpstreamOf(pkg, net)
    {
      UpstreamfirstIsUpstreamfirst();
      var upstreamTestTagList := HandleTestTags(UpstreamfirstUrl, pkg, net).value.tags;
      var upstreamDict := TestTagsToDict(Some(upstreamTestTagList));
      upstreamfirst := upstreamfirst.(testTags := TagFlags(upstreamDict["classic"], upstreamDict["container"], upstreamDict["atomic"]));
      var upstreamUrlToTestYml := UrlToTestYml(UpstreamfirstUrl, pkg).value;
      if TestYmlExists(upstreamUrlToTestYml, net) {
        upstreamfirst := upstreamfirst.(testYml := true, packageUrl := upstreamUrlToTestYml);
      } else {
        upstreamfirst := upstreamfirst.(testYml := false, packageUrl := "");
      }
    }

    /** Lines 366-375: the same for distgit. */
    method SetDistgit(pkg: string, net: Network)
      modifies this`distgit
      ensures var part := DistgitOf(pkg, net);
        distgit == old(distgit).(packageUrl := part.packageUrl, testYml := part.testYml, testTags := part.testTags)
    {
      DistGitIsFedoraproject();
      var distGitTestTagList := HandleTestTags(DistGitUrl, pkg, net).value.tags;
      var distGitDict := TestTagsToDict(Some(distGitTestTagList));
      distgit := distgit.(testTags := TagFlags(distGitDict["classic"], distGitDict["container"], distGitDict["atomic"]));
      var distGitUrlToTestYml := UrlToTestYml(DistGitUrl, pkg).value;
      if TestYmlExists(distGitUrlToTestYml, net) {
        distgit := distgit.(testYml := true, packageUrl := distGitUrlToTestYml);
      } else {
        distgit := distgit.(testYml := false, packageUrl := "");
      }
    }

    /**
     * get_pkgs_info, test-stats.py:325-334, with the file's lines given.  It classifies the
     * resolved packages in order and returns false where the run raises: while resolving the
     * list (nothing is written), or at the first package name that is not a string (the
     * records of the earlier packages stay written).
     */
    method GetPkgsInfo(repos: string, short: bool, net: Network, fileLines: seq<string>) returns (completed: bool)
      requires Valid()
      modifies this
      ensures Valid()
      ensures var pkgs := ResolvePackages(repos, short, net, fileLines);
        (completed <==> pkgs.Some? && AllStrings(pkgs.value)) &&
        store == old(store) + (if pkgs.None? then [] else ClassifyAll(pkgs.value[..LeadingStrings(pkgs.value)], net))
      ensures var pkgs := ResolvePackages(repos, short, net, fileLines);
        if pkgs.None? || LeadingStrings(pkgs.value) == 0 then Snapshot() == old(Snapshot())
        else Snapshot() == Classify(pkgs.value[LeadingStrings(pkgs.value) - 1].s, net)
    {
      var resolved := PackagesToSurvey(repos, short, net, fileLines);
      if resolved.None? {
        return false;
      }
      completed := SurveyPackages(resolved.value, net);
    }

    /**
     * Lines 333-334: get_pkg_info on each package in order, stopping where a package name is
     * not a string.
     */
    method SurveyPackages(pkgs: seq<Value>, net: Network) returns (completed: bool)
      requires Valid()
      modifies this
      ensures Valid()
      ensures completed <==> AllStrings(pkgs)
      ensures store == old(store) + ClassifyAll(pkgs[..LeadingStrings(pkgs)], net)
      ensures LeadingStrings(pkgs) == 0 ==> Snapshot() == old(Snapshot())
      ensures LeadingStrings(pkgs) > 0 ==> Snapshot() == Classify(pkgs[LeadingStrings(pkgs) - 1].s, net)
    {
      for k := 0 to |pkgs|
        invariant Valid()
        invariant forall j :: 0 <= j < k ==> pkgs[j].Str?
        invariant store == old(store) + ClassifyAll(pkgs[..k], net)
        invariant k == 0 ==> Snapshot() == old(Snapshot())
        invariant k > 0 ==> Snapshot() == Classify(pkgs[k - 1].s, net)
      {
        if !pkgs[k].Str? {
          LeadingStringsAt(pkgs, k);
          return false;
        }
        GetPkgInfo(pkgs[k].s, net);
        ClassifyAllStep(old(store), pkgs, k, net);
      }
      LeadingStringsAt(pkgs, |pkgs|);
      assert pkgs[..|pkgs|] == pkgs;
      completed := true;
    }
  }
}
