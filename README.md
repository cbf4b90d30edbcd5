# Fedora CI test statistics, modelled in Dafny

The scripts survey Fedora packages on two forges: distgit (`https://src.fedoraproject.org/`)
and upstreamfirst (`https://upstreamfirst.fedorainfracloud.org/`). For each package they
record four things:
- whether a `tests.yml` exists on each forge;
- which test tags (classic, container, atomic) it declares;
- whether an open pull request adds tests;
- the URLs involved.

Each record is appended to a packages file. A second script turns the file into wiki
statistics of the form "48 (42%)".

This project models the deterministic logic around the HTTP calls:

- `wrappers.dfy` (module `Wrappers`): `Option`.
- `json.dfy` (module `Json`): the Python values `response.json()` yields. It also models the
  subscript, iteration, `in`, `> 0` and truthiness the scripts apply to those values. `None`
  stands for a KeyError or TypeError.
- `text.dfy` (module `Text`): Python's `in` on strings, `startswith`, `str()` of a
  non-negative integer and subsequences.
- `tools.py` → `tools.dfy` (module `Tools`):
  - URL construction and forge dispatch;
  - `get_test_tags` and `test_tags_to_dict`, as loops;
  - `handle_test_tags`, with the last `re.findall` match as a pure string function;
  - `manage_pull_request` with its always-true title test;
  - `get_projects_names` and `get_projects_url_patches`, as loops.

  test-stats.py repeats all of these, and `get_pull_requests`, with three differences:
  - its `manage_pull_request` is stricter (modelled in `TestStats`);
  - its `test_tags_to_dict` catches only TypeError where tools.py catches every Exception,
    which makes no difference for the list-or-None arguments modelled;
  - its `get_pull_requests` returns None when `response.json()` raises ValueError, where
    tools.py lets the error propagate.
- `records.dfy` (module `Records`): the per-package record, `package_json`.
- `test-stats.py` → `test_stats.dfy` (module `TestStats`):
  - the stricter `manage_pull_request`;
  - the `get_pkgs_file` filter, which removes items from the list it iterates, as a loop;
  - `get_pkgs_info`;
  - `get_pkg_info`, as the class `Survey`. Its fields are `package_json`, and its
    append-only `store` is the packages file.
- `generate_file_upload_wiki.py` → `wiki.dfy` (module `Wiki`):
  - the counting loop of `_get_packages_number_in_category`, with Python 3's
    round-half-to-even done in exact integer arithmetic;
  - `get_packages_statistic`.

  test-stats.py:46-121 holds a copy of both functions. The only difference is that the copy
  of `get_packages_statistic` also flushes stdout (test-stats.py:56).

The network is a parameter, `Tools.Network`, made of three functions of a URL:
- the decoded JSON body (`None` when decoding raises ValueError);
- the response text;
- the status code.

A file's contents are given as its list of lines.

Where the code's evident intent and its behaviour disagree, the model follows the behaviour
(see Findings):
- The distgit `missing` flag is never set: the KeyError handler at test-stats.py:347-349
  cannot run.
- `manage_pull_request` in tools.py ignores the title: the condition at tools.py:56 is always
  true.
- The comment filter skips the line after a removed comment: the comprehension at
  test-stats.py:423 removes items from the list it iterates.

## Model

| member | source | states |
|---|---|---|
| Tools.TestFileUrl | tools.py:127-135 | the raw-file URL get_test_yaml_from_site requests, None for a site that is neither forge; characterised by ForgeDispatch, DistGitUrls and UpstreamfirstUrls |
| Tools.GetTestYamlFromSite | tools.py:114-135 | get_test_yaml_from_site: the text at that URL, None without a request for an unknown site |
| Tools.UrlToTestYml | tools.py:138-156 | get_url_to_test_yml: the blob URL of tests.yml, None for an unknown site; characterised by ForgeDispatch, DistGitUrls and UpstreamfirstUrls |
| Tools.TestYmlExists | tools.py:159-172 | check_if_test_yml_exists: true exactly when the request answers status 200 |
| Tools.ForgeDispatch | tools.py:127-156 | the raw-file URL and the blob URL exist for the same sites, exactly those containing "upstreamfirst" or "fedoraproject"; the upstreamfirst templates win when both markers occur |
| Tools.DistGitUrls | tools.py:127-152 | on DIST_GIT_URL the raw-file URL is `https://src.fedoraproject.org//rpms/<pkg>/raw/master/f/tests/<file>`, with a double slash; the blob URL is `https://src.fedoraproject.org/rpms/<pkg>/blob/master/f/tests/tests.yml` |
| Tools.UpstreamfirstUrls | tools.py:127-150 | on UPSTREAMFIRST_URL the URLs are `<site><pkg>/raw/master/f/<file>` and `<site><pkg>/blob/master/f/tests.yml` |
| Tools.TagsIn | tools.py:175-190 | the list get_test_tags returns; characterised by TagsInSpec and computed by GetTestTags |
| Tools.GetTestTags | tools.py:184-190 | the append loop returns the vocabulary words found in the text, in vocabulary order |
| Tools.TagsInSpec | test-stats.py:257-263 | a tag is reported iff it is a vocabulary word occurring case-sensitively in the text; the result is a subsequence of classic, container, atomic, without repetition |
| Tools.TestTagsToDict | tools.py:225-232 | the keys are the three vocabulary tags plus any listed tag; a key is True iff the tag is listed; a non-iterable argument gives the all-False dictionary |
| Tools.Tokens | tools.py:213 | the list `re.findall` returns: the maximal runs of class characters, left to right; characterised by LastTokenIsLastRun |
| Tools.LastToken | tools.py:213-216 | `new_test_file[-1]`, None where the empty list raises IndexError; characterised by LastTokenIsLastRun |
| Tools.HandleTestTags | tools.py:193-219 | handle_test_tags, with the URLs it requests; characterised by HandleTestTagsSpec |
| Tools.TokenCharIsRange | tools.py:213 | the character class of the findall pattern is the lower-case letters, the range '$'..'_' and '!'; it contains '%' and the hex digits, so the `%XX` alternative adds nothing |
| Tools.LastTokenIsLastRun | tools.py:213-216 | `new_test_file[-1]` is the last maximal run of class characters, with no class character after it; there is no match iff the text has no class character |
| Tools.HandleTestTagsSpec | tools.py:205-219 | None iff the site is not a forge. Otherwise tests.yml is requested first, and at most one more file. "Page not found" gives []. Tags found in tests.yml are returned with no second request. Otherwise the file named by the last findall match, if any, is requested and its tags are returned |
| Tools.FirstMatch | tools.py:55-58 | the early-return loop over the requests; characterised by FirstMatchIsFirst, FirstMatchFinds and FirstMatchNone |
| Tools.ManagePullRequest | tools.py:44-62 | tools.py's manage_pull_request as written; characterised by ToolsPullRequestIsFirstOpen |
| Tools.ManagePullRequestIntended | tools.py:56 | the corrected condition; characterised by IntendedPullRequestMentionsTests |
| Tools.FirstMatchIsFirst | tools.py:55-58 | a request reported by the early-return loop satisfies the condition, and every earlier request was evaluated and refused |
| Tools.FirstMatchFinds | tools.py:55-58 | the first satisfying request after refusals is the one reported |
| Tools.FirstMatchNone | tools.py:55-58 | when every request is refused, nothing is reported |
| Tools.ToolsPullRequestIsFirstOpen | tools.py:53-62 | tools.py's manage_pull_request reports the first request whose status is "Open", whatever its title; None when total_requests is missing or not positive |
| Tools.AnyOpenRequestCountsAsPending | tools.py:56 | an open request titled "Rebuild" is reported as a test pull request as written, and rejected by the corrected condition |
| Tools.IntendedPullRequestMentionsTests | tools.py:56 | with the corrected condition, the reported request is open and its title contains "Add CI tests" or "test" |
| Tools.ProjectNames | tools.py:81-98 | get_projects_names on a decoded listing, None where a subscript raises; characterised by NonForkNamesSpec and NonForkNamesNeedsFullNames |
| Tools.GetProjectsNames | tools.py:91-98 | the append loop returns ProjectNames, None where a lookup raises |
| Tools.NonForkNamesSpec | test-stats.py:405-410 | for projects with string fullnames, the result holds exactly the fullnames without "forks/", in input order |
| Tools.NonForkNamesNeedsFullNames | tools.py:93-94 | a project without a fullname makes get_projects_names raise |
| Tools.GetProjectsUrlPatches | tools.py:104-111 | one url_path per project, in project order and of the same length; None iff the listing has no project list or some project lacks url_path |
| TestStats.PullRequestResponse | test-stats.py:124-147 | get_pull_requests: the decoded pull-request listing of a package on distgit, Null where decoding raises ValueError |
| TestStats.ManageTestPullRequest | test-stats.py:150-167 | test-stats.py's manage_pull_request; characterised by PendingIsFirstTestRequest and FirstTestRequestIsPending |
| TestStats.ConditionCases | test-stats.py:162 | the title-and-status test holds iff the title contains "Add CI tests" and the status is "Open"; it is refused iff it evaluates without raising and does not hold |
| TestStats.PendingIsFirstTestRequest | test-stats.py:159-167 | a reported pull request is the first request with the marker title and status "Open", every earlier one refused; its url is DIST_GIT_URL + url_path + "/pull-requests" and its user the request's user |
| TestStats.FirstTestRequestIsPending | test-stats.py:160-164 | conversely, the first qualifying request after refusals is reported, and nothing is when all are refused |
| TestStats.AliceListingIsPending | test-stats.py:160-164 | a listing with one open "Add CI tests for foo" request by alice gives `{user: alice, url: https://src.fedoraproject.org/rpms/foo/pull-requests}` |
| TestStats.NoListingNoPending | test-stats.py:159-167 | the ENOPROJECT body, a None response and a listing whose total_requests is not positive all give None |
| TestStats.FirstIndex | test-stats.py:423 | the position `list.remove` deletes: the first element equal to its argument |
| TestStats.RemoveFirst | test-stats.py:423 | `list.remove`; characterised by RemoveCommentKeepsLines |
| TestStats.CommentSweep | test-stats.py:422-424 | the comprehension that removes from the list it iterates; characterised by CommentSweepKeepsLines, IsolatedCommentsAreDropped and AdjacentCommentSurvives |
| TestStats.DropComments | test-stats.py:423 | the intended filter; characterised by DropCommentsSpec |
| TestStats.GetPkgsFile | test-stats.py:421-424 | the comprehension, as a loop that removes the first equal line and moves on, returns CommentSweep of the lines |
| TestStats.RemoveCommentKeepsLines | test-stats.py:423 | `list.remove` of a comment keeps the non-comment lines in order and gives a subsequence of the list |
| TestStats.CommentSweepKeepsLines | test-stats.py:423 | the filter keeps every non-comment line, in order, and its result is a subsequence of the input |
| TestStats.IsolatedCommentsAreDropped | test-stats.py:423 | with no two consecutive comment lines, the filter returns exactly the non-comment lines |
| TestStats.OneCommentIsDropped | test-stats.py:422-424 | ["pkgA", "# comment", "pkgB"] becomes ["pkgA", "pkgB"] |
| TestStats.AdjacentCommentSurvives | test-stats.py:423 | ["# a", "# b", "pkgA"] becomes ["# b", "pkgA"] as written, where the intended filter gives ["pkgA"] |
| TestStats.DropCommentsSpec | test-stats.py:423 | the intended filter keeps a line iff it is not a comment, in order, and leaves no comment |
| TestStats.ForgeTagFlagsSpec | test-stats.py:355-368 | a forge's test_tags flags are all false on "Page not found"; otherwise they are the tags found in tests.yml, or else those of the file named by the last findall match (all false when there is none) |
| TestStats.Classify | test-stats.py:336-379 | the record get_pkg_info writes for a package; characterised by ClassifySpec and ClassifyIsWellFormed |
| TestStats.ClassifyIntended | test-stats.py:347-349 | the record with the intended `missing` assignment; characterised by IntendedMissingFlagsUnknownProjects |
| TestStats.ClassifySpec | test-stats.py:339-375 | the record holds the package name. pending.status is True iff manage_pull_request returned a dict, with url and user copied from it. Each forge's test_yml is "its blob URL answers 200", and package_url is that URL when true and "" otherwise |
| TestStats.ClassifyIsWellFormed | test-stats.py:341-375 | every record has missing = '', a URL exactly when a request is pending, neither URL nor user otherwise, and a package URL exactly when tests.yml exists |
| TestStats.AliceIsPendingForFoo | test-stats.py:339-346 | with alice's listing as distgit's answer, foo is recorded as pending with her user and the foo pull-request page |
| TestStats.UnknownProjectIsNotMarkedMissing | test-stats.py:342-353 | as written, a package distgit answers ENOPROJECT for keeps missing = '' (false) and is not pending |
| TestStats.IntendedMissingFlagsUnknownProjects | test-stats.py:347-349 | with the intended assignment, missing is true iff distgit answers ENOPROJECT, and the rest of the record is unchanged |
| TestStats.ResolvePackages | test-stats.py:325-332 | the package list get_pkgs_info iterates, None where resolving it raises; computed by PackagesToSurvey |
| TestStats.ClassifyAll | test-stats.py:333-334 | the records the loop writes; characterised by ClassifyAllSpec |
| TestStats.PackagesToSurvey | test-stats.py:327-332 | a repos argument containing "https://" gives the forge's non-fork project names; anything else gives the filtered file lines; `--short` keeps the first ten |
| TestStats.ClassifyAllSpec | test-stats.py:333-334 | the k-th record written is the classification of the k-th package, and is well formed |
| TestStats.Survey.constructor | test-stats.py:34-43 | package_json starts with its initial values, all flags unset; the packages file starts with the records already in it, since write_results_to_the_file appends and test-stats.py never clears it |
| TestStats.Survey.GetPkgInfo | test-stats.py:336-379 | package_json becomes the package's classification, `missing` stays '', and exactly that record is appended to the store |
| TestStats.Survey.SetPending | test-stats.py:339-353 | pending becomes the found request's url and user with status True, or '', '' and False; nothing else changes |
| TestStats.Survey.SetUpstreamfirst | test-stats.py:355-364 | upstreamfirst becomes its tag flags, test_yml and package_url |
| TestStats.Survey.SetDistgit | test-stats.py:366-375 | distgit's test_tags, test_yml and package_url are set; pending and missing are kept |
| TestStats.Survey.GetPkgsInfo | test-stats.py:325-334 | it completes iff the package list resolves and holds only strings. It appends the records of the packages before the first failing one, in order, and nothing when resolution raises. Afterwards package_json holds the last record written, or is unchanged when none was |
| TestStats.Survey.SurveyPackages | test-stats.py:333-334 | get_pkg_info runs on each package in order; it stops at the first non-string package, keeping the earlier records; package_json ends as the last record written, or unchanged when none was |
| Wiki.CountIn | generate_file_upload_wiki.py:126-135 | the number of records in a category never exceeds the number of records |
| Wiki.NumberInCategory | generate_file_upload_wiki.py:115-137 | the counting loop returns "count (percent%)" for the records whose value at the key path is truthy; None iff total is 0, where the division raises |
| Wiki.CountInAppend | generate_file_upload_wiki.py:127-135 | the count over two concatenated files is the sum, so one more record in the category raises it by exactly one |
| Wiki.CountInPermutation | generate_file_upload_wiki.py:127-135 | the count does not depend on the order of the records |
| Wiki.CountInAll | generate_file_upload_wiki.py:127-135 | the count equals the number of records iff every record is in the category |
| Wiki.CountInNone | generate_file_upload_wiki.py:127-135 | the count is zero iff no record is in the category |
| Wiki.RoundHalfEven | generate_file_upload_wiki.py:136 | `round(p / q)` is within half of p/q, and even at an exact tie |
| Wiki.RoundHalfEvenUnique | generate_file_upload_wiki.py:136 | exactly one integer has those two properties |
| Wiki.RoundHalfEvenMonotonic | generate_file_upload_wiki.py:136 | a larger numerator never rounds to less |
| Wiki.Percent | generate_file_upload_wiki.py:136 | the percentage of a count at most the total lies in 0..100; 0 of n is 0% and n of n is 100% |
| Wiki.PercentMonotonic | generate_file_upload_wiki.py:136 | a larger count never shows a smaller percentage |
| Wiki.OneEighthRoundsDown | generate_file_upload_wiki.py:136 | 1 of 8 shows "1 (12%)": the tie 12.5 goes to the even 12 |
| Wiki.ThreeEighthsRoundUp | generate_file_upload_wiki.py:136 | 3 of 8 shows "3 (38%)" |
| Wiki.OneThirdRoundsDown | generate_file_upload_wiki.py:136 | 1 of 3 shows "1 (33%)" |
| Wiki.FormatCount | generate_file_upload_wiki.py:136 | the string "count (percent%)"; characterised by FormatCountFull, FormatCountZero and the rounding examples |
| Wiki.FormatCountFull | generate_file_upload_wiki.py:136 | the line reads "<total> (100%)" iff the count is the total |
| Wiki.FormatCountZero | generate_file_upload_wiki.py:136 | the line reads "0 (0%)" iff the count is zero |
| Wiki.FullCategory | generate_file_upload_wiki.py:126-136 | a category shows "n (100%)" iff every one of the n records is in it |
| Wiki.EmptyCategory | generate_file_upload_wiki.py:126-136 | a category shows "0 (0%)" iff no record is in it |
| Wiki.StatisticsOf | generate_file_upload_wiki.py:63-112 | statistic_json as get_packages_statistic fills it; computed by GetPackagesStatistic and read off by StatisticsEntry |
| Wiki.StatisticsEntry | generate_file_upload_wiki.py:81-111 | total is `str(len(records))`, and each of the ten entries is its category's count and percentage; distgit pending reads pending.status |
| Wiki.GetPackagesStatistic | generate_file_upload_wiki.py:63-112 | the statistics of the records; None for an empty packages file, where the first count divides by zero |
| Wiki.SurveyShowsNoMissing | generate_file_upload_wiki.py:85-86 | over the records the survey writes, the distgit missing entry is always "0 (0%)" |

## Left out

- The network is a parameter: `requests.get`, `response.json()`, `response.text` and `status_code`.
  Undecodable JSON in get_pull_requests (test-stats.py:142-147) and get_all_projects is modelled as None.
  The ValueError that tools.py's get_pull_requests (tools.py:27-41) lets propagate is not
  modelled: `Tools.ManagePullRequest` receives an already decoded value.
- File I/O is not modelled:
  - get_list_of_packages_from_the_file, the read and `splitlines` in get_pkgs_file: the file's lines are a parameter;
  - write_results_to_the_file: the packages file is the in-memory `Survey.store`;
  - delete_files_before_running: not modelled.
- The `repr`/`eval` round trip of records through the packages file, and get_list_of_dicts, are
  not modelled. Records are values, read back unchanged.
- Rendering and process plumbing are not modelled: generate_file_upload_on_wiki (jinja2), main
  (argparse), `print`/`flush` and `datetime`.
- Floating point: `round((100 * n) / total)` is computed as exact round-half-to-even on the
  rational 100n/total. Python rounds the float quotient, which agrees for any realistic package
  count.
- test-stats.py uses `re`, `requests`, `os`, `jinja2` and `datetime` without importing them.
  The model treats them as imported.
- Wiki.Percent: states no upper bound when the count exceeds the total. That input cannot
  arise, because the count comes from the same records.
- Before the first get_pkg_info call, the initial `''` of the boolean leaves of package_json
  is modelled as false. Every call overwrites them before a record is written.
- The `total_requests` count is read only through `> 0`. Integers and booleans are compared;
  other values raise. Floats are not modelled.
- KeyError and TypeError are not told apart: each Python operation returns None where either
  would be raised. test-stats.py catches both and tools.py catches every exception.
- When `'Page not found' in raw_text` raises for a site that is not a forge,
  `handle_test_tags` is None. get_pkg_info only calls it with the two forge URLs.

## Findings

| source | as written | input that shows it | evidently intended | confidence | as-written member | corrected member |
|---|---|---|---|---|---|---|
| tools.py:56 | `('Add CI tests' or 'test' in request['title'])` is always the non-empty string, so only the status is tested | one open request titled "Rebuild" | the title contains "Add CI tests" or "test", and the status is "Open" | high, not executed | Tools.AnyOpenRequestCountsAsPending | Tools.IntendedPullRequestMentionsTests |
| test-stats.py:423 | `packages.remove` inside a comprehension over `packages` shifts the list, so the line after a removed comment is never examined | ["# a", "# b", "pkgA"] returns ["# b", "pkgA"] | every comment line dropped | high, not executed | TestStats.AdjacentCommentSurvives | TestStats.DropCommentsSpec |
| test-stats.py:347-349 | the KeyError handler that sets `missing` cannot run: manage_pull_request returns None or a dict with both keys, and it swallows the ENOPROJECT body | distgit answers `{'error': 'Project not found', 'error_code': 'ENOPROJECT'}` | `missing` true for a project distgit does not know | medium, not executed | TestStats.UnknownProjectIsNotMarkedMissing | TestStats.IntendedMissingFlagsUnknownProjects |

The survey itself (`Survey.GetPkgsInfo`, `ResolvePackages`, `Classify`) keeps the behaviour as
written, because it models what the scripts store. The corrected definitions sit beside it:
- `Tools.ManagePullRequestIntended`;
- `TestStats.DropComments`, which `TestStats.IsolatedCommentsAreDropped` shows agrees with the
  filter whenever no two comments are adjacent;
- `TestStats.ClassifyIntended`.
