/**
 * tools.py: the forge client's URL construction, test-tag detection with its fallback re-scan,
 * the conversion of a tag list to the three-key dictionary, the pull-request search and the
 * project-listing helpers.  test-stats.py carries copies of every function here.  Its
 * manage_pull_request is stricter and is modelled in module TestStats.  Its test_tags_to_dict
 * catches only TypeError where tools.py catches every Exception.  For the list-or-None argument
 * modelled here, both copies behave the same.
 *
 * The network is a parameter: `Network.json(url)` is the decoded body of a GET (None when
 * `response.json()` raises ValueError), `Network.text(url)` its text and `Network.status(url)`
 * its status code.
 */
module Tools {
  import opened Wrappers
  import opened Text
  import opened Json

  /** config.py:20-21 (and test-stats.py:24-25). */
  const UpstreamfirstUrl := "https://upstreamfirst.fedorainfracloud.org/"
  const DistGitUrl := "https://src.fedoraproject.org/"

  /** The default `test_file` argument of get_test_yaml_from_site. */
  const DefaultTestFile := "tests.yml"

  datatype Network = Network(json: string -> Option<Value>, text: string -> string, status: string -> int)

  // ---------------------------------------------------------------------------
  // Forge URLs

  /** The endpoint get_pull_requests queries. */
  function PullRequestsUrl(siteUrl: string, package: string): string
  {
    siteUrl + "api/0/rpms/" + package + "/pull-requests"
  }

  /** The endpoint get_all_projects queries. */
  function ProjectsUrl(siteUrl: string): string
  {
    siteUrl + "api/0/projects"
  }

  /**
   * The raw-file URL get_test_yaml_from_site requests, or None when the site is neither forge
   * (the function then returns None without a request).  The upstreamfirst test comes first.
   */
  function TestFileUrl(siteUrl: string, package: string, testFile: string): Option<string>
  {
    if Contains(siteUrl, "upstreamfirst") then
      Some(siteUrl + package + "/raw/master/f/" + testFile)
    else if Contains(siteUrl, "fedoraproject") then
      Some(siteUrl + "/rpms/" + package + "/raw/master/f/tests/" + testFile)
    else
      None
  }

  /** get_test_yaml_from_site: the text of the raw file, None for an unknown site. */
  function GetTestYamlFromSite(siteUrl: string, package: string, testFile: string, net: Network): Option<string>
  {
    match TestFileUrl(siteUrl, package, testFile)
    case None => None
    case Some(url) => Some(net.text(url))
  }

  /** get_url_to_test_yml: the viewable ("blob") URL of tests.yml, None for an unknown site. */
  function UrlToTestYml(siteUrl: string, package: string): Option<string>
  {
    if Contains(siteUrl, "upstreamfirst") then
      Some(siteUrl + package + "/blob/master/f/tests.yml")
    else if Contains(siteUrl, "fedoraproject") then
      Some(siteUrl + "rpms/" + package + "/blob/master/f/tests/tests.yml")
    else
      None
  }

  /** check_if_test_yml_exists: true exactly for status code 200. */
  predicate TestYmlExists(url: string, net: Network)
  {
    net.status(url) == 200
  }

  /**
   * The two forges' URLs are told apart by marker substrings, the upstreamfirst marker
   * taking precedence; a site with neither marker has no URL at all.
   */
  lemma {:induction false} ForgeDispatch(siteUrl: string, package: string, testFile: string)
    ensures TestFileUrl(siteUrl, package, testFile).Some? <==> UrlToTestYml(siteUrl, package).Some?
    ensures UrlToTestYml(siteUrl, package).None? <==>
              !Contains(siteUrl, "upstreamfirst") && !Contains(siteUrl, "fedoraproject")
    ensures Contains(siteUrl, "upstreamfirst") ==>
              TestFileUrl(siteUrl, package, testFile) == Some(siteUrl + package + "/raw/master/f/" + testFile) &&
              UrlToTestYml(siteUrl, package) == Some(siteUrl + package + "/blob/master/f/tests.yml")
  {
  }

  lemma UpstreamfirstIsUpstreamfirst()
    ensures Contains(UpstreamfirstUrl, "upstreamfirst")
  {
    ContainsAt(UpstreamfirstUrl, "upstreamfirst", 8);
  }

  lemma DistGitIsFedoraproject()
    ensures !Contains(DistGitUrl, "upstreamfirst") && Contains(DistGitUrl, "fedoraproject")
  {
    DistGitHasNoU();
    MissingFirstChar(DistGitUrl, "upstreamfirst");
    ContainsAt(DistGitUrl, "fedoraproject", 12);
  }

  lemma DistGitHasNoU()
    ensures 'u' !in DistGitUrl
  {
    assert |DistGitUrl| == 30;
    assert forall k | 0 <= k < |DistGitUrl| :: DistGitUrl[k] != 'u';
  }

  /**
   * The distgit URLs as the configured base produces them: the raw-file URL carries a double
   * slash, because a '/' is put between a base that already ends in '/' and "rpms/", while
   * the viewable URL does not.
   */
  lemma DistGitUrls(package: string, testFile: string)
    ensures TestFileUrl(DistGitUrl, package, testFile) ==
            Some("https://src.fedoraproject.org//rpms/" + package + "/raw/master/f/tests/" + testFile)
    ensures UrlToTestYml(DistGitUrl, package) ==
            Some("https://src.fedoraproject.org/rpms/" + package + "/blob/master/f/tests/tests.yml")
  {
    DistGitIsFedoraproject();
    assert DistGitUrl + "/rpms/" + package + "/raw/master/f/tests/" + testFile ==
           "https://src.fedoraproject.org//rpms/" + package + "/raw/master/f/tests/" + testFile;
    assert DistGitUrl + "rpms/" + package + "/blob/master/f/tests/tests.yml" ==
           "https://src.fedoraproject.org/rpms/" + package + "/blob/master/f/tests/tests.yml";
  }

  lemma UpstreamfirstUrls(package: string, testFile: string)
    ensures TestFileUrl(UpstreamfirstUrl, package, testFile) ==
            Some("https://upstreamfirst.fedorainfracloud.org/" + package + "/raw/master/f/" + testFile)
    ensures UrlToTestYml(UpstreamfirstUrl, package) ==
            Some("https://upstreamfirst.fedorainfracloud.org/" + package + "/blob/master/f/tests.yml")
  {
    UpstreamfirstIsUpstreamfirst();
  }

  // ---------------------------------------------------------------------------
  // Test tags

  const Vocabulary: seq<string> := ["classic", "container", "atomic"]

  /** The words of `words` that occur in `text`, in the order of `words`. */
  function Present(words: seq<string>, text: string): seq<string>
    decreases |words|
  {
    if words == [] then []
    else
      var last := words[|words| - 1];
      Present(words[..|words| - 1], text) + (if Contains(text, last) then [last] else [])
  }

  /** The tags get_test_tags reports for a text. */
  function TagsIn(text: string): seq<string>
  {
    Present(Vocabulary, text)
  }

  lemma {:induction false} PresentSpec(words: seq<string>, text: string)
    ensures forall w :: w in Present(words, text) <==> w in words && Contains(text, w)
    ensures IsSubsequence(Present(words, text), words)
    decreases |words|
  {
    if words != [] {
      var init, last := words[..|words| - 1], words[|words| - 1];
      PresentSpec(init, text);
      assert words == init + [last];
      var p := Present(init, text);
      if Contains(text, last) {
        assert Present(words, text) == p + [last];
        assert (p + [last])[..|p|] == p;
      } else {
        assert Present(words, text) == p;
      }
    }
  }

  /**
   * get_test_tags reports exactly the vocabulary words that occur in the text as
   * case-sensitive substrings, in the order classic, container, atomic, without repetition.
   */
  lemma TagsInSpec(text: string)
    ensures forall t :: t in TagsIn(text) <==> t in Vocabulary && Contains(text, t)
    ensures IsSubsequence(TagsIn(text), Vocabulary)
    ensures Distinct(TagsIn(text))
  {
    PresentSpec(Vocabulary, text);
    SubsequenceOfDistinct(TagsIn(text), Vocabulary);
  }

  /** get_test_tags, tools.py:184-190: the loop over the vocabulary, appending each tag found. */
  method GetTestTags(rawText: string) returns (testTags: seq<string>)
    ensures testTags == TagsIn(rawText)
  {
    testTags := [];
    for k := 0 to |Vocabulary|
      invariant testTags == Present(Vocabulary[..k], rawText)
    {
      var tag := Vocabulary[k];
      assert Vocabulary[..k + 1][..k] == Vocabulary[..k];
      if Contains(rawText, tag) {
        testTags := testTags + [tag];
      }
    }
    assert Vocabulary[..|Vocabulary|] == Vocabulary;
  }

  /** The dictionary test_tags_to_dict starts from. */
  const InitialTagsDict: map<string, bool> := map["classic" := false, "container" := false, "atomic" := false]

  /**
   * test_tags_to_dict, tools.py:225-232: sets `tags_dict[tag] = True` for every listed tag.
   * `None` stands for a non-iterable argument, whose TypeError is swallowed.
   */
  method TestTagsToDict(testTags: Option<seq<string>>) returns (tagsDict: map<string, bool>)
    ensures testTags.None? ==> tagsDict == InitialTagsDict
    ensures forall tag :: tag in tagsDict <==> tag in Vocabulary || (testTags.Some? && tag in testTags.value)
    ensures forall tag :: tag in tagsDict ==> (tagsDict[tag] <==> testTags.Some? && tag in testTags.value)
  {
    tagsDict := InitialTagsDict;
    if testTags.Some? {
      var tags := testTags.value;
      for k := 0 to |tags|
        invariant forall tag :: tag in tagsDict <==> tag in Vocabulary || tag in tags[..k]
        invariant forall tag :: tag in tagsDict ==> (tagsDict[tag] <==> tag in tags[..k])
      {
        assert tags[..k + 1] == tags[..k] + [tags[k]];
        tagsDict := tagsDict[tags[k] := true];
      }
      assert tags[..|tags|] == tags;
    }
  }

  // ---------------------------------------------------------------------------
  // The fallback file name: the last match of the findall at tools.py:213

  /**
   * One character of the findall pattern's class, alternative by alternative.  Note that
   * `$-_` inside the third bracket is a range, from '$' (0x24) to '_' (0x5F).
   */
  predicate TokenChar(c: char)
  {
    ('a' <= c <= 'z') || ('A' <= c <= 'Z') || ('0' <= c <= '9') ||
    ('$' <= c <= '_') || c == '@' || c == '.' || c == '&' || c == '+' ||
    c == '!' || c == '*' || c == '(' || c == ')' || c == ','
  }

  /**
   * The class collapses to the lower-case letters, the range '$'..'_' and '!'; it holds '%'
   * and the hex digits, so the `%XX` alternative never matches anything the class does not.
   */
  lemma TokenCharIsRange(c: char)
    ensures TokenChar(c) <==> ('a' <= c <= 'z') || ('$' <= c <= '_') || c == '!'
    ensures TokenChar('%') && TokenChar('/') && TokenChar(':') && !TokenChar(' ') && !TokenChar('#')
  {
  }

  predicate NoTokenChars(s: string)
  {
    forall k :: 0 <= k < |s| ==> !TokenChar(s[k])
  }

  /** `s[i..j]` is a maximal run of token characters. */
  predicate IsMaximalRun(s: string, i: int, j: int)
  {
    0 <= i < j <= |s| &&
    (forall k :: i <= k < j ==> TokenChar(s[k])) &&
    (i == 0 || !TokenChar(s[i - 1])) &&
    (j == |s| || !TokenChar(s[j]))
  }

  /** The length of the run of token characters `s` starts with. */
  function RunLength(s: string): (n: nat)
    ensures n <= |s|
    ensures forall k :: 0 <= k < n ==> TokenChar(s[k])
    ensures n < |s| ==> !TokenChar(s[n])
  {
    if s == [] || !TokenChar(s[0]) then 0 else 1 + RunLength(s[1..])
  }

  /** `re.findall` of the pattern: the maximal runs of token characters, left to right. */
  function Tokens(s: string): seq<string>
    decreases |s|
  {
    if s == [] then []
    else if !TokenChar(s[0]) then Tokens(s[1..])
    else
      var n := RunLength(s);
      [s[..n]] + Tokens(s[n..])
  }

  /** `new_test_file[-1]`, None when findall found nothing. */
  function LastToken(s: string): Option<string>
  {
    var tokens := Tokens(s);
    if tokens == [] then None else Some(tokens[|tokens| - 1])
  }

  /** A maximal run of a suffix `s[n..]` is one of `s`, unless it starts the suffix right after a token character. */
  lemma RunInSuffix(s: string, n: nat, i: int, j: int)
    requires n <= |s| && IsMaximalRun(s[n..], i, j)
    requires n > 0 && i == 0 ==> !TokenChar(s[n - 1])
    ensures IsMaximalRun(s, n + i, n + j)
    ensures s[n + i..n + j] == s[n..][i..j]
    ensures NoTokenCharsFrom(s[n..], j) ==> NoTokenCharsFrom(s, n + j)
  {
    var t := s[n..];
    forall k | n + i <= k < n + j ensures TokenChar(s[k]) {
      assert s[k] == t[k - n];
    }
    if NoTokenCharsFrom(t, j) {
      forall k | n + j <= k < |s| ensures !TokenChar(s[k]) {
        assert s[k] == t[k - n];
      }
    }
    if i > 0 { assert s[n + i - 1] == t[i - 1]; }
    if j < |t| { assert s[n + j] == t[j]; }
  }

  /** No token character at or after index `j`. */
  predicate NoTokenCharsFrom(s: string, j: nat)
  {
    forall k :: j <= k < |s| ==> !TokenChar(s[k])
  }

  lemma NoTokenCharsAfter(s: string, n: nat)
    requires n <= |s| && NoTokenChars(s[n..])
    requires forall k :: 0 <= k < n ==> !TokenChar(s[k])
    ensures NoTokenChars(s)
  {
    forall k | n <= k < |s| ensures !TokenChar(s[k]) {
      assert s[k] == s[n..][k - n];
    }
  }

  /**
   * `last` names the last maximal run `s[i..j]` of token characters, and there is none exactly
   * when `s` has no token character.
   */
  predicate LastRunIs(s: string, last: Option<string>, i: nat, j: nat)
  {
    (last.None? <==> NoTokenChars(s)) &&
    (last.Some? ==> IsMaximalRun(s, i, j) && NoTokenCharsFrom(s, j) && last.value == s[i..j])
  }

  /** A character outside the class in front of the text moves its last run by one. */
  lemma LastRunAfterSkip(s: string, last: Option<string>, i: nat, j: nat)
    requires s != [] && !TokenChar(s[0])
    requires LastRunIs(s[1..], last, i, j)
    ensures LastRunIs(s, last, i + 1, j + 1)
  {
    if last.Some? {
      RunInSuffix(s, 1, i, j);
    } else {
      NoTokenCharsAfter(s, 1);
    }
  }

  /** A run in front of text with no token character is the last run. */
  lemma LastRunIsFirst(s: string)
    requires s != [] && TokenChar(s[0])
    requires NoTokenChars(s[RunLength(s)..])
    ensures LastRunIs(s, Some(s[..RunLength(s)]), 0, RunLength(s))
  {
    var n := RunLength(s);
    forall k | n <= k < |s| ensures !TokenChar(s[k]) {
      assert s[k] == s[n..][k - n];
    }
  }

  /** A run in front of text with a last run leaves that run the last one. */
  lemma LastRunAfterRun(s: string, last: Option<string>, i: nat, j: nat)
    requires s != [] && TokenChar(s[0])
    requires last.Some? && LastRunIs(s[RunLength(s)..], last, i, j)
    ensures LastRunIs(s, last, RunLength(s) + i, RunLength(s) + j)
  {
    RunInSuffix(s, RunLength(s), i, j);
  }

  /** Text starting with a character outside the class has the matches of the rest. */
  lemma TokensAfterSkip(s: string)
    requires s != [] && !TokenChar(s[0])
    ensures LastToken(s) == LastToken(s[1..])
  {
    assert Tokens(s) == Tokens(s[1..]);
  }

  /** Text starting with a run has that run as its last match, unless the rest has matches. */
  lemma TokensAfterRun(s: string)
    requires s != [] && TokenChar(s[0])
    ensures LastToken(s) ==
      if LastToken(s[RunLength(s)..]).None? then Some(s[..RunLength(s)]) else LastToken(s[RunLength(s)..])
  {
    var n := RunLength(s);
    assert Tokens(s) == [s[..n]] + Tokens(s[n..]);
  }

  /** The induction step for text starting with a character outside the class. */
  lemma LastTokenAfterSkip(s: string, i: nat, j: nat)
    requires s != [] && !TokenChar(s[0])
    requires LastRunIs(s[1..], LastToken(s[1..]), i, j)
    ensures LastRunIs(s, LastToken(s), i + 1, j + 1)
  {
    TokensAfterSkip(s);
    LastRunAfterSkip(s, LastToken(s), i, j);
  }

  /** The induction step for text starting with a run after which no token character follows. */
  lemma LastTokenIsOnlyRun(s: string, i': nat, j': nat)
    requires s != [] && TokenChar(s[0])
    requires LastToken(s[RunLength(s)..]).None?
    requires LastRunIs(s[RunLength(s)..], LastToken(s[RunLength(s)..]), i', j')
    ensures LastRunIs(s, LastToken(s), 0, RunLength(s))
  {
    TokensAfterRun(s);
    LastRunIsFirst(s);
  }

  /** The induction step for text starting with a run followed by more matches. */
  lemma LastTokenAfterRun(s: string, i': nat, j': nat) returns (i: nat, j: nat)
    requires s != [] && TokenChar(s[0])
    requires LastToken(s[RunLength(s)..]).Some?
    requires LastRunIs(s[RunLength(s)..], LastToken(s[RunLength(s)..]), i', j')
    ensures LastRunIs(s, LastToken(s), i, j)
  {
    var rest := LastToken(s[RunLength(s)..]);
    TokensAfterRun(s);
    assert LastToken(s) == rest;
    LastRunAfterRun(s, rest, i', j');
    i, j := RunLength(s) + i', RunLength(s) + j';
  }

  /**
   * The last findall match is the last maximal run of token characters: it is a maximal run
   * `s[i..j]` and nothing after it is a token character.  There is none exactly when the text
   * has no token character.
   */
  lemma {:induction false} LastTokenIsLastRun(s: string) returns (i: nat, j: nat)
    ensures LastRunIs(s, LastToken(s), i, j)
    decreases |s|, 1
  {
    if s == [] {
      i, j := 0, 0;
    } else if !TokenChar(s[0]) {
      var i', j' := LastTokenIsLastRun(s[1..]);
      LastTokenAfterSkip(s, i', j');
      i, j := i' + 1, j' + 1;
    } else {
      i, j := LastTokenOfRun(s);
    }
  }

  /** The last findall match of text starting with a run. */
  lemma {:induction false} LastTokenOfRun(s: string) returns (i: nat, j: nat)
    requires s != [] && TokenChar(s[0])
    ensures LastRunIs(s, LastToken(s), i, j)
    decreases |s|, 0
  {
    var n := RunLength(s);
    assert n > 0;
    var i', j' := LastTokenIsLastRun(s[n..]);
    if LastToken(s[n..]).None? {
      LastTokenIsOnlyRun(s, i', j');
      i, j := 0, n;
    } else {
      i, j := LastTokenAfterRun(s, i', j');
    }
  }

  // ---------------------------------------------------------------------------
  // handle_test_tags

  /** What handle_test_tags returns, with the raw-file URLs it requested, in order. */
  datatype TagScan = TagScan(tags: seq<string>, requested: seq<string>)

  /**
   * handle_test_tags, tools.py:205-219.  None stands for the TypeError raised when the site is
   * not a forge (get_test_yaml_from_site returns None and `'Page not found' in None` raises).
   */
  function HandleTestTags(siteUrl: string, package: string, net: Network): Option<TagScan>
  {
    match TestFileUrl(siteUrl, package, DefaultTestFile)
    case None => None
    case Some(url) =>
      var rawText := GetTestYamlFromSite(siteUrl, package, DefaultTestFile, net).value;
      if Contains(rawText, "Page not found") then Some(TagScan([], [url]))
      else if TagsIn(rawText) != [] then Some(TagScan(TagsIn(rawText), [url]))
      else
        match LastToken(rawText)
        case None => Some(TagScan([], [url]))
        case Some(newTestFile) =>
          var url2 := TestFileUrl(siteUrl, package, newTestFile).value;
          Some(TagScan(TagsIn(GetTestYamlFromSite(siteUrl, package, newTestFile, net).value), [url, url2]))
  }

  /**
   * handle_test_tags requests tests.yml first and at most one more file: a "Page not found"
   * page gives no tags, tags found in tests.yml are returned with no second request, and
   * otherwise the file named by the last findall match, if any, is requested and its tags are
   * returned.  Whatever it returns is drawn from the vocabulary in vocabulary order.
   */
  lemma HandleTestTagsSpec(siteUrl: string, package: string, net: Network)
    ensures HandleTestTags(siteUrl, package, net).None? <==> TestFileUrl(siteUrl, package, DefaultTestFile).None?
    ensures HandleTestTags(siteUrl, package, net).Some? ==>
      var scan := HandleTestTags(siteUrl, package, net).value;
      var url := TestFileUrl(siteUrl, package, DefaultTestFile).value;
      var rawText := GetTestYamlFromSite(siteUrl, package, DefaultTestFile, net).value;
      1 <= |scan.requested| <= 2 && scan.requested[0] == url &&
      IsSubsequence(scan.tags, Vocabulary) &&
      (Contains(rawText, "Page not found") ==> scan.tags == [] && |scan.requested| == 1) &&
      (!Contains(rawText, "Page not found") && TagsIn(rawText) != [] ==>
         scan.tags == TagsIn(rawText) && |scan.requested| == 1) &&
      (|scan.requested| == 2 <==>
         !Contains(rawText, "Page not found") && TagsIn(rawText) == [] && !NoTokenChars(rawText)) &&
      (|scan.requested| == 2 ==>
         scan.requested[1] == TestFileUrl(siteUrl, package, LastToken(rawText).value).value &&
         scan.tags == TagsIn(net.text(scan.requested[1]))) &&
      (|scan.requested| == 1 ==> scan.tags == [] || scan.tags == TagsIn(rawText))
  {
    var r := HandleTestTags(siteUrl, package, net);
    if r.Some? {
      var _, _ := LastTokenIsLastRun(net.text(TestFileUrl(siteUrl, package, DefaultTestFile).value));
      var scan := r.value;
      if |scan.requested| == 2 {
        TagsInSpec(net.text(scan.requested[1]));
      } else {
        TagsInSpec(net.text(scan.requested[0]));
      }
      if scan.tags == [] {
        assert IsSubsequence<string>([], Vocabulary);
      }
    }
  }

  // ---------------------------------------------------------------------------
  // Pull requests

  /** The dict manage_pull_request returns: `{'user': ..., 'url': ...}`. */
  datatype PullRequest = PullRequest(user: Value, url: string)

  /**
   * Lines 57-58 for the request that matched: `DIST_GIT_URL + request['project']['url_path'] +
   * '/pull-requests'` and `request['user']`; None where a lookup or the concatenation raises.
   */
  function PendingRequest(request: Value): Option<PullRequest>
  {
    match Get(request, "project")
    case None => None
    case Some(project) =>
      match Get(project, "url_path")
      case Some(Str(urlPath)) =>
        (match Get(request, "user")
         case None => None
         case Some(user) => Some(PullRequest(user, DistGitUrl + urlPath + "/pull-requests")))
      case _ => None
  }

  /** A request naming its project's path and its user is reported under that path. */
  lemma PendingRequestOf(request: Value, urlPath: string, user: Value)
    requires request.Object? && "project" in request.fields && "user" in request.fields
    requires request.fields["project"] == Object(map["url_path" := Str(urlPath)])
    requires request.fields["user"] == user
    ensures PendingRequest(request) == Some(PullRequest(user, DistGitUrl + urlPath + "/pull-requests"))
  {
    assert Get(request.fields["project"], "url_path") == Some(Str(urlPath));
  }

  /** The pull-request page of the example package foo. */
  lemma FooPullRequests()
    ensures DistGitUrl + "rpms/foo" + "/pull-requests" == "https://src.fedoraproject.org/rpms/foo/pull-requests"
  {
  }

  /**
   * The `for request in requests` loop with an early return: the first request whose
   * condition holds decides; a condition that raises (None) ends the search with None.
   */
  function FirstMatch(requests: seq<Value>, condition: Value -> Option<bool>): Option<PullRequest>
    decreases |requests|
  {
    if requests == [] then None
    else
      match condition(requests[0])
      case None => None
      case Some(false) => FirstMatch(requests[1..], condition)
      case Some(true) => PendingRequest(requests[0])
  }

  /** Every request before index `k` was evaluated and did not qualify. */
  predicate NoneQualifyBefore(requests: seq<Value>, condition: Value -> Option<bool>, k: int)
  {
    forall j :: 0 <= j < k && j < |requests| ==> condition(requests[j]) == Some(false)
  }

  /** A request found by the search is the first qualifying one, preceded only by refusals. */
  lemma {:induction false} FirstMatchIsFirst(requests: seq<Value>, condition: Value -> Option<bool>) returns (k: nat)
    requires FirstMatch(requests, condition).Some?
    ensures k < |requests| && condition(requests[k]) == Some(true)
    ensures NoneQualifyBefore(requests, condition, k)
    ensures FirstMatch(requests, condition) == PendingRequest(requests[k])
    decreases |requests|
  {
    if condition(requests[0]) == Some(true) {
      k := 0;
    } else {
      var k' := FirstMatchIsFirst(requests[1..], condition);
      k := k' + 1;
      forall j | 0 <= j < k ensures condition(requests[j]) == Some(false) {
        if j > 0 { assert requests[j] == requests[1..][j - 1]; }
      }
    }
  }

  /** Conversely, the first qualifying request after a run of refusals is the one returned. */
  lemma {:induction false} FirstMatchFinds(requests: seq<Value>, condition: Value -> Option<bool>, k: nat)
    requires k < |requests| && condition(requests[k]) == Some(true)
    requires NoneQualifyBefore(requests, condition, k)
    ensures FirstMatch(requests, condition) == PendingRequest(requests[k])
    decreases k
  {
    if k > 0 {
      assert condition(requests[0]) == Some(false);
      forall j | 0 <= j < k - 1 ensures condition(requests[1..][j]) == Some(false) {
        assert requests[1..][j] == requests[j + 1];
      }
      FirstMatchFinds(requests[1..], condition, k - 1);
    }
  }

  /** When every request is evaluated and refused, the search finds nothing. */
  lemma {:induction false} FirstMatchNone(requests: seq<Value>, condition: Value -> Option<bool>)
    requires NoneQualifyBefore(requests, condition, |requests|)
    ensures FirstMatch(requests, condition) == None
    decreases |requests|
  {
    if requests != [] {
      assert condition(requests[0]) == Some(false);
      forall j | 0 <= j < |requests| - 1 ensures condition(requests[1..][j]) == Some(false) {
        assert requests[1..][j] == requests[j + 1];
      }
      FirstMatchNone(requests[1..], condition);
    }
  }

  /** The requests manage_pull_request scans, when `total_requests > 0` and nothing raised. */
  function RequestsToScan(responseJson: Value): Option<seq<Value>>
  {
    match Get(responseJson, "total_requests")
    case None => None
    case Some(total) =>
      if IsPositive(total) != Some(true) then None
      else
        match Get(responseJson, "requests")
        case None => None
        case Some(requests) => Iterate(requests)
  }

  /** manage_pull_request's body for a given per-request condition. */
  function ManagePullRequestWith(responseJson: Value, condition: Value -> Option<bool>): Option<PullRequest>
  {
    match RequestsToScan(responseJson)
    case None => None
    case Some(requests) => FirstMatch(requests, condition)
  }

  /**
   * The condition at tools.py:56, `('Add CI tests' or 'test' in request['title']) and
   * (request['status'] == 'Open')`: the left operand of `or` is a non-empty string literal,
   * so the title is never read and only the status decides.
   */
  function StatusIsOpen(request: Value): Option<bool>
  {
    match Get(request, "status")
    case None => None
    case Some(status) => Some(status == Str("Open"))
  }

  /** manage_pull_request, tools.py:53-62 (any exception gives None). */
  function ManagePullRequest(responseJson: Value): Option<PullRequest>
  {
    ManagePullRequestWith(responseJson, StatusIsOpen)
  }

  /**
   * tools.py's manage_pull_request returns the first request whose status is "Open", whatever
   * its title says, and None when there is none, when `total_requests` is not positive, or
   * when a lookup raises first.
   */
  lemma ToolsPullRequestIsFirstOpen(responseJson: Value) returns (k: nat)
    ensures ManagePullRequest(responseJson).Some? ==>
      var requests := RequestsToScan(responseJson).value;
      k < |requests| && Get(requests[k], "status") == Some(Str("Open")) &&
      (forall j :: 0 <= j < k ==> Get(requests[j], "status").Some? && Get(requests[j], "status") != Some(Str("Open"))) &&
      ManagePullRequest(responseJson) == PendingRequest(requests[k])
    ensures RequestsToScan(responseJson).None? ==> ManagePullRequest(responseJson).None?
  {
    k := 0;
    if ManagePullRequest(responseJson).Some? {
      var requests := RequestsToScan(responseJson).value;
      k := FirstMatchIsFirst(requests, StatusIsOpen);
      forall j | 0 <= j < k
        ensures Get(requests[j], "status").Some? && Get(requests[j], "status") != Some(Str("Open"))
      {
        assert StatusIsOpen(requests[j]) == Some(false);
      }
    }
  }

  /**
   * The condition the authors evidently meant at tools.py:56, `('Add CI tests' in title or
   * 'test' in title) and status == 'Open'`, evaluated left to right with Python's
   * short-circuits.
   */
  function TitleMentionsTestsAndOpen(request: Value): Option<bool>
  {
    match Get(request, "title")
    case None => None
    case Some(title) =>
      match Has(title, "Add CI tests")
      case None => None
      case Some(marker) =>
        if marker then StatusIsOpen(request)
        else
          match Has(title, "test")
          case None => None
          case Some(mentionsTest) => if mentionsTest then StatusIsOpen(request) else Some(false)
  }

  /** manage_pull_request of tools.py with the condition corrected. */
  function ManagePullRequestIntended(responseJson: Value): Option<PullRequest>
  {
    ManagePullRequestWith(responseJson, TitleMentionsTestsAndOpen)
  }

  /**
   * With the corrected condition, the request returned is open and its title mentions tests;
   * the first open request is not enough.
   */
  lemma IntendedPullRequestMentionsTests(responseJson: Value) returns (k: nat)
    ensures ManagePullRequestIntended(responseJson).Some? ==>
      var requests := RequestsToScan(responseJson).value;
      k < |requests| && Get(requests[k], "status") == Some(Str("Open")) &&
      Get(requests[k], "title").Some? &&
      (Has(Get(requests[k], "title").value, "Add CI tests") == Some(true) ||
       Has(Get(requests[k], "title").value, "test") == Some(true)) &&
      ManagePullRequestIntended(responseJson) == PendingRequest(requests[k])
  {
    k := 0;
    if ManagePullRequestIntended(responseJson).Some? {
      var requests := RequestsToScan(responseJson).value;
      k := FirstMatchIsFirst(requests, TitleMentionsTestsAndOpen);
    }
  }

  /** An open pull request whose title is not about tests. */
  function UnrelatedOpenRequest(): Value
  {
    Object(map[
      "title" := Str("Rebuild"),
      "status" := Str("Open"),
      "project" := Object(map["url_path" := Str("rpms/foo")]),
      "user" := Str("bob")])
  }

  /** A pull-request listing holding only that request. */
  function UnrelatedOpenRequestListing(): Value
  {
    Object(map["total_requests" := Int(1), "requests" := Array([UnrelatedOpenRequest()])])
  }

  lemma UnrelatedListingScansOneRequest()
    ensures RequestsToScan(UnrelatedOpenRequestListing()) == Some([UnrelatedOpenRequest()])
  {
    var listing := UnrelatedOpenRequestListing();
    assert Get(listing, "total_requests") == Some(Int(1));
    assert Get(listing, "requests") == Some(Array([UnrelatedOpenRequest()]));
  }

  lemma UnrelatedRequestIsPending()
    ensures StatusIsOpen(UnrelatedOpenRequest()) == Some(true)
    ensures PendingRequest(UnrelatedOpenRequest()) ==
            Some(PullRequest(Str("bob"), "https://src.fedoraproject.org/rpms/foo/pull-requests"))
  {
    var request := UnrelatedOpenRequest();
    assert Get(request, "status") == Some(Str("Open"));
    PendingRequestOf(request, "rpms/foo", Str("bob"));
    FooPullRequests();
  }

  lemma UnrelatedRequestTitleIsNotAboutTests()
    ensures TitleMentionsTestsAndOpen(UnrelatedOpenRequest()) == Some(false)
  {
    var request := UnrelatedOpenRequest();
    assert Get(request, "title") == Some(Str("Rebuild"));
    MissingFirstChar("Rebuild", "Add CI tests");
    MissingFirstChar("Rebuild", "test");
  }

  /**
   * The always-true condition of tools.py:56 as written: an open request titled "Rebuild" is
   * reported as a pending test pull request, which the corrected condition rejects.
   */
  lemma AnyOpenRequestCountsAsPending()
    ensures ManagePullRequest(UnrelatedOpenRequestListing()) ==
            Some(PullRequest(Str("bob"), "https://src.fedoraproject.org/rpms/foo/pull-requests"))
    ensures ManagePullRequestIntended(UnrelatedOpenRequestListing()) == None
  {
    var request := UnrelatedOpenRequest();
    UnrelatedListingScansOneRequest();
    UnrelatedRequestIsPending();
    UnrelatedRequestTitleIsNotAboutTests();
    assert FirstMatch([request], StatusIsOpen) == PendingRequest(request);
    assert [request][1..] == [];
    assert FirstMatch([request], TitleMentionsTestsAndOpen) == FirstMatch([], TitleMentionsTestsAndOpen);
  }

  // ---------------------------------------------------------------------------
  // Projects

  /** `json_response['projects']`, iterated. */
  function ProjectList(jsonResponse: Value): Option<seq<Value>>
  {
    match Get(jsonResponse, "projects")
    case None => None
    case Some(projects) => Iterate(projects)
  }

  /** One step of get_projects_names' loop: the names it appends for `project`, or None if it raises. */
  function NameUnlessFork(project: Value): Option<seq<Value>>
  {
    match Get(project, "fullname")
    case None => None
    case Some(projectName) =>
      match Has(projectName, "forks/")
      case None => None
      case Some(isFork) => if isFork then Some([]) else Some([projectName])
  }

  /** The names get_projects_names collects from a project list, or None if the loop raises. */
  function NonForkNames(projects: seq<Value>): Option<seq<Value>>
    decreases |projects|
  {
    if projects == [] then Some([])
    else
      match NonForkNames(projects[..|projects| - 1])
      case None => None
      case Some(names) =>
        match NameUnlessFork(projects[|projects| - 1])
        case None => None
        case Some(more) => Some(names + more)
  }

  /** What get_projects_names returns, None where it raises. */
  function ProjectNames(jsonResponse: Value): Option<seq<Value>>
  {
    match ProjectList(jsonResponse)
    case None => None
    case Some(projects) => NonForkNames(projects)
  }

  /** get_projects_names, tools.py:91-98: append every fullname that does not contain "forks/". */
  method GetProjectsNames(jsonResponse: Value) returns (projectsNames: Option<seq<Value>>)
    ensures projectsNames == ProjectNames(jsonResponse)
  {
    var projects := ProjectList(jsonResponse);
    if projects.None? {
      return None;
    }
    var names: seq<Value> := [];
    var ps := projects.value;
    for k := 0 to |ps|
      invariant NonForkNames(ps[..k]) == Some(names)
    {
      assert ps[..k + 1][..k] == ps[..k] && ps[..k + 1][k] == ps[k];
      var name := Get(ps[k], "fullname");
      if name.None? {
        NonForkNamesRaises(ps, k + 1);
        return None;
      }
      var isFork := Has(name.value, "forks/");
      if isFork.None? {
        NonForkNamesRaises(ps, k + 1);
        return None;
      }
      var more := if isFork.value then [] else [name.value];
      assert NameUnlessFork(ps[k]) == Some(more);
      assert NonForkNames(ps[..k + 1]) == Some(names + more);
      if !isFork.value {
        names := names + [name.value];
      } else {
        assert names + more == names;
      }
    }
    assert ps[..|ps|] == ps;
    projectsNames := Some(names);
  }

  /** Once a prefix of the loop raised, the whole loop raises. */
  lemma {:induction false} NonForkNamesRaises(projects: seq<Value>, k: nat)
    requires k <= |projects| && NonForkNames(projects[..k]).None?
    ensures NonForkNames(projects).None?
    decreases |projects| - k
  {
    if k < |projects| {
      assert projects[..k + 1][..k] == projects[..k];
      NonForkNamesRaises(projects, k + 1);
    } else {
      assert projects[..k] == projects;
    }
  }

  /** Every project has a string fullname. */
  predicate NamedProjects(projects: seq<Value>)
  {
    forall k :: 0 <= k < |projects| ==> Get(projects[k], "fullname").Some? && Get(projects[k], "fullname").value.Str?
  }

  function FullNames(projects: seq<Value>): seq<Value>
    requires NamedProjects(projects)
    decreases |projects|
  {
    if projects == [] then []
    else
      FullNames(projects[..|projects| - 1]) + [Get(projects[|projects| - 1], "fullname").value]
  }

  /** The string names that do not contain "forks/", in order. */
  function DropForks(names: seq<Value>): seq<Value>
    decreases |names|
  {
    if names == [] then []
    else
      var last := names[|names| - 1];
      DropForks(names[..|names| - 1]) + (if last.Str? && !Contains(last.s, "forks/") then [last] else [])
  }

  lemma {:induction false} NamedNonForkNames(projects: seq<Value>)
    requires NamedProjects(projects)
    ensures NonForkNames(projects) == Some(DropForks(FullNames(projects)))
    decreases |projects|
  {
    if projects != [] {
      var init, last := projects[..|projects| - 1], projects[|projects| - 1];
      NamedNonForkNames(init);
      var name := Get(last, "fullname").value;
      var full := FullNames(projects);
      assert full == FullNames(init) + [name];
      assert full[..|full| - 1] == FullNames(init) && full[|full| - 1] == name;
      assert NameUnlessFork(last) == Some(if Contains(name.s, "forks/") then [] else [name]);
    }
  }

  lemma {:induction false} DropForksSpec(names: seq<Value>)
    ensures forall n :: n in DropForks(names) <==> n in names && n.Str? && !Contains(n.s, "forks/")
    ensures IsSubsequence(DropForks(names), names)
    decreases |names|
  {
    if names != [] {
      var init, last := names[..|names| - 1], names[|names| - 1];
      DropForksSpec(init);
      assert names == init + [last];
      var d := DropForks(init);
      if last.Str? && !Contains(last.s, "forks/") {
        assert DropForks(names) == d + [last];
        assert (d + [last])[..|d|] == d;
      } else {
        assert DropForks(names) == d;
      }
    }
  }

  /**
   * For projects with string fullnames, get_projects_names keeps exactly the fullnames that do
   * not contain "forks/", in input order.
   */
  lemma NonForkNamesSpec(projects: seq<Value>)
    requires NamedProjects(projects)
    ensures NonForkNames(projects).Some?
    ensures forall n :: n in NonForkNames(projects).value <==> n in FullNames(projects) && n.Str? && !Contains(n.s, "forks/")
    ensures IsSubsequence(NonForkNames(projects).value, FullNames(projects))
  {
    NamedNonForkNames(projects);
    DropForksSpec(FullNames(projects));
    FullNamesAreStrings(projects);
  }

  lemma {:induction false} FullNamesAreStrings(projects: seq<Value>)
    requires NamedProjects(projects)
    ensures forall n :: n in FullNames(projects) ==> n.Str?
    decreases |projects|
  {
    if projects != [] {
      FullNamesAreStrings(projects[..|projects| - 1]);
    }
  }

  /** A project without a fullname makes get_projects_names raise. */
  lemma {:induction false} NonForkNamesNeedsFullNames(projects: seq<Value>, k: nat)
    requires k < |projects| && Get(projects[k], "fullname").None?
    ensures NonForkNames(projects).None?
    decreases |projects|
  {
    if k < |projects| - 1 {
      NonForkNamesNeedsFullNames(projects[..|projects| - 1], k);
    }
  }

  /**
   * get_projects_url_patches, tools.py:104-111: one `url_path` per project, in project order;
   * None when a project has no `url_path` or the listing has no project list.
   */
  method GetProjectsUrlPatches(jsonResponse: Value) returns (urlPatches: Option<seq<Value>>)
    ensures urlPatches.Some? <==>
      ProjectList(jsonResponse).Some? &&
      forall p :: p in ProjectList(jsonResponse).value ==> Get(p, "url_path").Some?
    ensures urlPatches.Some? ==>
      var projects := ProjectList(jsonResponse).value;
      |urlPatches.value| == |projects| &&
      forall k :: 0 <= k < |projects| ==> urlPatches.value[k] == Get(projects[k], "url_path").value
  {
    var projects := ProjectList(jsonResponse);
    if projects.None? {
      return None;
    }
    var ps := projects.value;
    var patches: seq<Value> := [];
    for k := 0 to |ps|
      invariant |patches| == k
      invariant forall j :: 0 <= j < k ==> Get(ps[j], "url_path").Some? && patches[j] == Get(ps[j], "url_path").value
    {
      var projectName := Get(ps[k], "url_path");
      if projectName.None? {
        return None;
      }
      patches := patches + [projectName.value];
    }
    urlPatches := Some(patches);
  }
}
