/** The digest renderer: a sequence of contribution summaries becomes the one
    text message that is posted, a header line and then one line per person
    with any activity. Hyperlinks use Slack's `<url|text>` form and every list
    reads as English ("A, B and C"). */
module Slack {
  import opened Wrappers
  import opened Text
  import opened Sequences
  import opened GitHub

  const Header: string := "Recent Open Source Contributions!\n"

  // ---------------------------------------------------------------------------
  // Hyperlinks
  // ---------------------------------------------------------------------------

  /** `link`: the Slack hyperlink markup. */
  function Link(url: string, text: string): string {
    "<" + url + "|" + text + ">"
  }

  /** Reads `<url|text>` back, splitting at the first '|'. */
  function ParseLink(s: string): Option<(string, string)> {
    if |s| >= 2 && s[0] == '<' && s[|s| - 1] == '>' then
      var body := s[1..|s| - 1];
      match IndexOf(body, '|')
      case None => None
      case Some(k) => Some((body[..k], body[k + 1..]))
    else
      None
  }

  /** A link whose URL holds no '|' reads back as its URL and its text. */
  lemma LinkRoundTrip(url: string, text: string)
    ensures '|' !in url ==> ParseLink(Link(url, text)) == Some((url, text))
  {
    if '|' !in url {
      var s := Link(url, text);
      var body := s[1..|s| - 1];
      assert body == url + "|" + text;
      assert body[|url|] == '|';
      var k := IndexOf(body, '|').value;
      assert k == |url|;
      assert body[..k] == url;
      assert body[k + 1..] == text;
    }
  }

  /** `link_repo`: the repository's name, linked to its URL. */
  function LinkRepo(repo: Repo): string {
    Link(repo.url, repo.name)
  }

  /** A repository link reads back as the repository's URL and name. */
  lemma LinkRepoRoundTrip(repo: Repo)
    ensures '|' !in repo.url ==> ParseLink(LinkRepo(repo)) == Some((repo.url, repo.name))
  {
    LinkRoundTrip(repo.url, repo.name);
  }

  /** The number a link text of the form "#n" names. */
  function NumberText(text: string): Option<int> {
    if |text| >= 1 && text[0] == '#' then ParseInteger(text[1..]) else None
  }

  /** An issue or pull request linked as "#n". */
  function NumberLink(link: ContributionLink): string {
    Link(link.url, "#" + IntToDecimal(link.number))
  }

  /** The link of an issue or pull request reads back as its URL and a text
      naming its number. */
  lemma NumberLinkRoundTrip(link: ContributionLink)
    ensures '|' !in link.url ==>
      && ParseLink(NumberLink(link)).Some?
      && ParseLink(NumberLink(link)).value.0 == link.url
      && NumberText(ParseLink(NumberLink(link)).value.1) == Some(link.number as int)
  {
    var text := "#" + IntToDecimal(link.number);
    assert text[1..] == IntToDecimal(link.number);
    LinkRoundTrip(link.url, text);
  }

  function RepoLinks(repos: seq<Repo>): seq<string> {
    Map(LinkRepo, repos)
  }

  /** The commits clause links each commit entry's repository; counts are not shown. */
  function CommitLinks(commits: seq<Commit>): seq<string> {
    Map((commit: Commit) => LinkRepo(commit.repo), commits)
  }

  function NumberLinks(links: seq<ContributionLink>): seq<string> {
    Map(NumberLink, links)
  }

  // ---------------------------------------------------------------------------
  // English lists
  // ---------------------------------------------------------------------------

  /** The English list of the words, built from the front: the last two are
      joined by " and ", every earlier one is followed by ", ". */
  function EnglishList(words: seq<string>): string {
    if |words| == 0 then ""
    else if |words| == 1 then words[0]
    else if |words| == 2 then words[0] + " and " + words[1]
    else words[0] + ", " + EnglishList(words[1..])
  }

  /** Two or more words: all but the last joined by ", ", then " and " and the last. */
  lemma {:induction false} EnglishListSplitLast(words: seq<string>)
    requires |words| >= 2
    ensures EnglishList(words) == Join(words[..|words| - 1], ", ") + " and " + words[|words| - 1]
  {
    if |words| > 2 {
      var n := |words|;
      EnglishListSplitLast(words[1..]);
      assert words[1..][..n - 2] == words[..n - 1][1..];
      assert words[1..][n - 2] == words[n - 1];
    }
  }

  /** The lists of zero to three words. */
  lemma EnglishListSmall(a: string, b: string, c: string)
    ensures EnglishList([]) == ""
    ensures EnglishList([a]) == a
    ensures EnglishList([a, b]) == a + " and " + b
    ensures EnglishList([a, b, c]) == a + ", " + b + " and " + c
  {
    assert [a, b, c][1..] == [b, c];
  }

  /** Of n >= 2 comma-free words, the list has exactly n - 2 commas. */
  lemma {:induction false} EnglishListCommas(words: seq<string>)
    requires |words| >= 2
    requires forall i :: 0 <= i < |words| ==> ',' !in words[i]
    ensures CountChar(',', EnglishList(words)) == |words| - 2
  {
    CountCharAbsent(',', words[0]);
    if |words| == 2 {
      CountCharAbsent(',', " and ");
      CountCharAbsent(',', words[1]);
      CountCharAppend(',', words[0], " and ");
      CountCharAppend(',', words[0] + " and ", words[1]);
    } else {
      EnglishListCommas(words[1..]);
      assert CountChar(',', ", ") == 1;
      CountCharAppend(',', words[0], ", ");
      CountCharAppend(',', words[0] + ", ", EnglishList(words[1..]));
    }
  }

  /** `comma_separate_list`: nothing for no words, the word itself for one,
      otherwise the joined front, " and ", and the last word. */
  method CommaSeparateList(words: seq<string>) returns (separated: string)
    ensures separated == EnglishList(words)
  {
    separated := "";
    if |words| == 1 {
      separated := separated + words[0];
    } else if |words| > 1 {
      var last, rest := words[|words| - 1], words[..|words| - 1];
      separated := separated + Join(rest, ", ");
      separated := separated + " and ";
      separated := separated + last;
      EnglishListSplitLast(words);
    }
  }

  // ---------------------------------------------------------------------------
  // Per-repository entries of the PR and issue clauses
  // ---------------------------------------------------------------------------

  /** "<repo link> (#n links)"; an entry without links shows empty parentheses. */
  function Entry(repo: Repo, links: seq<ContributionLink>): string {
    LinkRepo(repo) + " (" + EnglishList(NumberLinks(links)) + ")"
  }

  function PullRequestEntries(prs: seq<RepoPullRequests>): seq<string> {
    Map((entry: RepoPullRequests) => Entry(entry.repo, entry.pullRequests), prs)
  }

  function IssueEntries(issues: seq<RepoIssues>): seq<string> {
    Map((entry: RepoIssues) => Entry(entry.repo, entry.issues), issues)
  }

  /** An entry with no links renders its repository and "()". */
  lemma EntryWithoutLinks(repo: Repo)
    ensures Entry(repo, []) == LinkRepo(repo) + " ()"
  {
    assert NumberLinks([]) == [];
  }

  method FormatEntry(repo: Repo, links: seq<ContributionLink>) returns (text: string)
    ensures text == Entry(repo, links)
  {
    var numbers := CommaSeparateList(NumberLinks(links));
    text := LinkRepo(repo) + " (" + numbers + ")";
  }

  method FormatPullRequestEntries(prs: seq<RepoPullRequests>) returns (texts: seq<string>)
    ensures texts == PullRequestEntries(prs)
  {
    texts := [];
    for i := 0 to |prs|
      invariant |texts| == i
      invariant forall j :: 0 <= j < i ==> texts[j] == Entry(prs[j].repo, prs[j].pullRequests)
    {
      var text := FormatEntry(prs[i].repo, prs[i].pullRequests);
      texts := texts + [text];
    }
  }

  method FormatIssueEntries(issues: seq<RepoIssues>) returns (texts: seq<string>)
    ensures texts == IssueEntries(issues)
  {
    texts := [];
    for i := 0 to |issues|
      invariant |texts| == i
      invariant forall j :: 0 <= j < i ==> texts[j] == Entry(issues[j].repo, issues[j].issues)
    {
      var text := FormatEntry(issues[i].repo, issues[i].issues);
      texts := texts + [text];
    }
  }

  // ---------------------------------------------------------------------------
  // Clauses of a person's line
  // ---------------------------------------------------------------------------

  /** The five kinds of reported activity. */
  datatype Activity = CreatedRepos | PushedCommits | ForkedRepos | ContributedPullRequests | HelpedIssues

  /** The order in which the clauses of a line appear. */
  const ClauseOrder: seq<Activity> := [CreatedRepos, PushedCommits, ForkedRepos, ContributedPullRequests, HelpedIssues]

  /** A clause is written exactly when its sequence is non-empty. */
  predicate Active(c: ContributionSummary, a: Activity) {
    match a
    case CreatedRepos => |c.newRepos| > 0
    case PushedCommits => |c.commits| > 0
    case ForkedRepos => |c.forkedRepos| > 0
    case ContributedPullRequests => |c.pullRequests| > 0
    case HelpedIssues => |c.issues| > 0
  }

  predicate NoActivity(c: ContributionSummary) {
    |c.newRepos| == 0 && |c.commits| == 0 && |c.forkedRepos| == 0 && |c.pullRequests| == 0 && |c.issues| == 0
  }

  /** "" for a single repository, "s" for more. */
  function Plural(n: nat): string {
    if n == 1 then "" else "s"
  }

  function CreatedClause(c: ContributionSummary): string {
    "created the repo" + Plural(|c.newRepos|) + " " + EnglishList(RepoLinks(c.newRepos))
  }

  /** Lists the repositories pushed to; the commit counts are not shown. */
  function CommitsClause(c: ContributionSummary): string {
    "pushed commits to " + EnglishList(CommitLinks(c.commits))
  }

  function ForkedClause(c: ContributionSummary): string {
    "forked the repo" + Plural(|c.forkedRepos|) + " " + EnglishList(RepoLinks(c.forkedRepos))
  }

  function PullRequestsClause(c: ContributionSummary): string {
    "contributed to PRs in " + EnglishList(PullRequestEntries(c.pullRequests))
  }

  function IssuesClause(c: ContributionSummary): string {
    "helped out with issues in " + EnglishList(IssueEntries(c.issues))
  }

  /** "repo" takes an "s" in the created and forked clauses unless there is
      exactly one repository. */
  lemma RepoClausePlural(c: ContributionSummary)
    ensures |CreatedClause(c)| > 16 && (CreatedClause(c)[16] == 's' <==> |c.newRepos| != 1)
    ensures |ForkedClause(c)| > 15 && (ForkedClause(c)[15] == 's' <==> |c.forkedRepos| != 1)
  {
    var created := "created the repo" + Plural(|c.newRepos|) + " ";
    assert CreatedClause(c)[..|created|] == created;
    var forked := "forked the repo" + Plural(|c.forkedRepos|) + " ";
    assert ForkedClause(c)[..|forked|] == forked;
  }

  function ClauseText(c: ContributionSummary, a: Activity): string {
    match a
    case CreatedRepos => CreatedClause(c)
    case PushedCommits => CommitsClause(c)
    case ForkedRepos => ForkedClause(c)
    case ContributedPullRequests => PullRequestsClause(c)
    case HelpedIssues => IssuesClause(c)
  }

  /** The activities of `order` that `c` shows, in the order of `order`. */
  function ActiveIn(c: ContributionSummary, order: seq<Activity>): (r: seq<Activity>)
    ensures forall a :: a in r <==> a in order && Active(c, a)
    ensures IsSubsequence(r, order)
  {
    if |order| == 0 then []
    else
      var front, last := order[..|order| - 1], order[|order| - 1];
      var rest := ActiveIn(c, front);
      assert order == front + [last];
      SubsequenceExtend(rest, front, last);
      if Active(c, last) then rest + [last] else rest
  }

  /** The clause text of each activity, in order. */
  function ClauseTexts(c: ContributionSummary, acts: seq<Activity>): seq<string> {
    if |acts| == 0 then []
    else ClauseTexts(c, acts[..|acts| - 1]) + [ClauseText(c, acts[|acts| - 1])]
  }

  /** The clauses of `c`'s line: one per activity it shows, in clause order. */
  function Clauses(c: ContributionSummary): seq<string> {
    ClauseTexts(c, ActiveIn(c, ClauseOrder))
  }

  function OptionalClause(c: ContributionSummary, a: Activity): seq<string> {
    if Active(c, a) then [ClauseText(c, a)] else []
  }

  /** Taking the last activity off `order` takes its optional clause off the clauses. */
  lemma ClausesStep(c: ContributionSummary, order: seq<Activity>)
    requires |order| > 0
    ensures ClauseTexts(c, ActiveIn(c, order)) ==
      ClauseTexts(c, ActiveIn(c, order[..|order| - 1])) + OptionalClause(c, order[|order| - 1])
  {
    var rest := ActiveIn(c, order[..|order| - 1]);
    var last := order[|order| - 1];
    if Active(c, last) {
      assert (rest + [last])[..|rest|] == rest;
    } else {
      assert ClauseTexts(c, rest) + [] == ClauseTexts(c, rest);
    }
  }

  /** The clauses, activity by activity: each present exactly when active. */
  lemma ClausesUnfold(c: ContributionSummary)
    ensures Clauses(c) ==
      OptionalClause(c, CreatedRepos) + OptionalClause(c, PushedCommits) + OptionalClause(c, ForkedRepos) +
      OptionalClause(c, ContributedPullRequests) + OptionalClause(c, HelpedIssues)
  {
    var o4: seq<Activity> := [CreatedRepos, PushedCommits, ForkedRepos, ContributedPullRequests];
    var o3: seq<Activity> := [CreatedRepos, PushedCommits, ForkedRepos];
    var o2: seq<Activity> := [CreatedRepos, PushedCommits];
    var o1: seq<Activity> := [CreatedRepos];
    assert ClauseOrder[..4] == o4 && o4[..3] == o3 && o3[..2] == o2 && o2[..1] == o1 && o1[..0] == [];
    ClausesStep(c, o1);
    assert [] + OptionalClause(c, CreatedRepos) == OptionalClause(c, CreatedRepos);
    ClausesStep(c, o2);
    ClausesStep(c, o3);
    ClausesStep(c, o4);
    ClausesStep(c, ClauseOrder);
  }

  /** A person's line: nothing at all without activity, otherwise
      "- name clause; clause.\n". */
  function PersonLine(c: ContributionSummary): (r: string)
    ensures r == "" <==> NoActivity(c)
    ensures r != "" ==> r == "- " + c.name + " " + Join(Clauses(c), "; ") + ".\n"
  {
    ClausesUnfold(c);
    if |Clauses(c)| == 0 then "" else "- " + c.name + " " + Join(Clauses(c), "; ") + ".\n"
  }

  // Each block of `build_contributions` that may push one clause onto the
  // results is a method of its own below; together they build the clauses in
  // clause order.

  /** The "created the repo(s)" block. */
  method PushCreatedClause(c: ContributionSummary, results: seq<string>) returns (r: seq<string>)
    ensures r == results + OptionalClause(c, CreatedRepos)
  {
    r := results;
    if |c.newRepos| > 0 {
      var newRepoText := "";
      var text := "created the repo" + (if |c.newRepos| == 1 then "" else "s") + " ";
      newRepoText := newRepoText + text;
      assert newRepoText == text;
      var list := CommaSeparateList(RepoLinks(c.newRepos));
      newRepoText := newRepoText + list;
      assert newRepoText == CreatedClause(c);
      r := r + [newRepoText];
    }
  }

  /** The "pushed commits to" block. */
  method PushCommitsClause(c: ContributionSummary, results: seq<string>) returns (r: seq<string>)
    ensures r == results + OptionalClause(c, PushedCommits)
  {
    r := results;
    if |c.commits| > 0 {
      var commitText := "";
      commitText := commitText + "pushed commits to ";
      assert commitText == "pushed commits to ";
      var list := CommaSeparateList(CommitLinks(c.commits));
      commitText := commitText + list;
      assert commitText == CommitsClause(c);
      r := r + [commitText];
    }
  }

  /** The "forked the repo(s)" block. */
  method PushForkedClause(c: ContributionSummary, results: seq<string>) returns (r: seq<string>)
    ensures r == results + OptionalClause(c, ForkedRepos)
  {
    r := results;
    if |c.forkedRepos| > 0 {
      var forkText := "";
      var text := "forked the repo" + (if |c.forkedRepos| == 1 then "" else "s") + " ";
      forkText := forkText + text;
      assert forkText == text;
      var list := CommaSeparateList(RepoLinks(c.forkedRepos));
      forkText := forkText + list;
      assert forkText == ForkedClause(c);
      r := r + [forkText];
    }
  }

  /** The "contributed to PRs in" block. */
  method PushPullRequestsClause(c: ContributionSummary, results: seq<string>) returns (r: seq<string>)
    ensures r == results + OptionalClause(c, ContributedPullRequests)
  {
    r := results;
    if |c.pullRequests| > 0 {
      var prText := "";
      prText := prText + "contributed to PRs in ";
      assert prText == "contributed to PRs in ";
      var entries := FormatPullRequestEntries(c.pullRequests);
      var list := CommaSeparateList(entries);
      prText := prText + list;
      assert prText == PullRequestsClause(c);
      r := r + [prText];
    }
  }

  /** The "helped out with issues in" block. */
  method PushIssuesClause(c: ContributionSummary, results: seq<string>) returns (r: seq<string>)
    ensures r == results + OptionalClause(c, HelpedIssues)
  {
    r := results;
    if |c.issues| > 0 {
      var issueText := "";
      issueText := issueText + "helped out with issues in ";
      assert issueText == "helped out with issues in ";
      var entries := FormatIssueEntries(c.issues);
      var list := CommaSeparateList(entries);
      issueText := issueText + list;
      assert issueText == IssuesClause(c);
      r := r + [issueText];
    }
  }

  /** The line that the optional clauses, taken in clause order, make. */
  lemma PersonLineFromClauses(c: ContributionSummary, results: seq<string>)
    requires results == OptionalClause(c, CreatedRepos) + OptionalClause(c, PushedCommits) + OptionalClause(c, ForkedRepos) +
      OptionalClause(c, ContributedPullRequests) + OptionalClause(c, HelpedIssues)
    ensures PersonLine(c) == if |results| == 0 then "" else "- " + c.name + " " + Join(results, "; ") + ".\n"
  {
    ClausesUnfold(c);
    assert results == Clauses(c);
  }

  /** `build_contributions`: collects the clause texts one by one and writes
      the person's line. */
  method BuildContributions(c: ContributionSummary) returns (line: string)
    ensures line == PersonLine(c)
  {
    var results: seq<string> := [];
    results := PushCreatedClause(c, results);
    assert results == OptionalClause(c, CreatedRepos);
    results := PushCommitsClause(c, results);
    results := PushForkedClause(c, results);
    results := PushPullRequestsClause(c, results);
    results := PushIssuesClause(c, results);
    PersonLineFromClauses(c, results);
    if |results| == 0 {
      return "";
    }
    line := "- " + c.name + " " + Join(results, "; ") + ".\n";
  }

  // ---------------------------------------------------------------------------
  // The whole message
  // ---------------------------------------------------------------------------

  function PersonLines(cs: seq<ContributionSummary>): seq<string> {
    Map(PersonLine, cs)
  }

  /** `build_message`: the header, then every person's line in input order. */
  function BuildMessage(cs: seq<ContributionSummary>): (r: string)
    ensures r == Header + Concat(PersonLines(cs))
  {
    JoinEmptySeparator(PersonLines(cs));
    Header + Join(PersonLines(cs), "")
  }

  /** The message is the bare header exactly when nobody had any activity. */
  lemma BuildMessageHeaderOnly(cs: seq<ContributionSummary>)
    ensures BuildMessage(cs) == Header <==> forall i :: 0 <= i < |cs| ==> NoActivity(cs[i])
  {
    ConcatEmptyIff(PersonLines(cs));
    assert forall i :: 0 <= i < |cs| ==> PersonLines(cs)[i] == PersonLine(cs[i]);
  }

  /** The message of two groups of people is the first group's message followed
      by the second group's lines. */
  lemma BuildMessageAppend(a: seq<ContributionSummary>, b: seq<ContributionSummary>)
    ensures BuildMessage(a + b) == BuildMessage(a) + Concat(PersonLines(b))
  {
    MapAppend(PersonLine, a, b);
    ConcatAppend(PersonLines(a), PersonLines(b));
  }

  /** A person without activity leaves no trace in the message. */
  lemma BuildMessageSkipsInactive(a: seq<ContributionSummary>, c: ContributionSummary, b: seq<ContributionSummary>)
    requires NoActivity(c)
    ensures BuildMessage(a + [c] + b) == BuildMessage(a + b)
  {
    var rest := Concat(PersonLines(b));
    assert Concat(PersonLines([c])) == "" by {
      assert PersonLines([c]) == [""];
      assert Concat([""]) == "";
    }
    calc {
      BuildMessage(a + [c] + b);
    == { BuildMessageAppend(a + [c], b); }
      BuildMessage(a + [c]) + rest;
    == { BuildMessageAppend(a, [c]); }
      BuildMessage(a) + rest;
    == { BuildMessageAppend(a, b); }
      BuildMessage(a + b);
    }
  }

  lemma CommitLinksIgnoreCounts(cs: seq<Commit>, ds: seq<Commit>)
    requires |cs| == |ds|
    requires forall i :: 0 <= i < |cs| ==> cs[i].repo == ds[i].repo
    ensures CommitLinks(cs) == CommitLinks(ds)
  {
  }

  /** Summaries that differ only in their commit counts have the same optional
      clause for each activity. */
  lemma OptionalClauseIgnoresCounts(c: ContributionSummary, d: ContributionSummary, a: Activity)
    requires c.newRepos == d.newRepos && c.forkedRepos == d.forkedRepos
    requires c.issues == d.issues && c.pullRequests == d.pullRequests
    requires |c.commits| == |d.commits|
    requires forall i :: 0 <= i < |c.commits| ==> c.commits[i].repo == d.commits[i].repo
    ensures OptionalClause(c, a) == OptionalClause(d, a)
  {
    match a
    case CreatedRepos => assert CreatedClause(c) == CreatedClause(d);
    case PushedCommits =>
      CommitLinksIgnoreCounts(c.commits, d.commits);
      assert CommitsClause(c) == CommitsClause(d);
    case ForkedRepos => assert ForkedClause(c) == ForkedClause(d);
    case ContributedPullRequests => assert PullRequestsClause(c) == PullRequestsClause(d);
    case HelpedIssues => assert IssuesClause(c) == IssuesClause(d);
  }

  /** Summaries that differ only in their commit counts have the same clauses. */
  lemma ClausesIgnoreCounts(c: ContributionSummary, d: ContributionSummary)
    requires c.newRepos == d.newRepos && c.forkedRepos == d.forkedRepos
    requires c.issues == d.issues && c.pullRequests == d.pullRequests
    requires |c.commits| == |d.commits|
    requires forall i :: 0 <= i < |c.commits| ==> c.commits[i].repo == d.commits[i].repo
    ensures Clauses(c) == Clauses(d)
  {
    OptionalClauseIgnoresCounts(c, d, CreatedRepos);
    OptionalClauseIgnoresCounts(c, d, PushedCommits);
    OptionalClauseIgnoresCounts(c, d, ForkedRepos);
    OptionalClauseIgnoresCounts(c, d, ContributedPullRequests);
    OptionalClauseIgnoresCounts(c, d, HelpedIssues);
    ClausesUnfold(c);
    ClausesUnfold(d);
  }

  /** The commit counts never reach the message: two summaries that differ only
      in their counts give the same line. */
  lemma PersonLineIgnoresCounts(c: ContributionSummary, d: ContributionSummary)
    requires c.name == d.name && c.newRepos == d.newRepos && c.forkedRepos == d.forkedRepos
    requires c.issues == d.issues && c.pullRequests == d.pullRequests
    requires |c.commits| == |d.commits|
    requires forall i :: 0 <= i < |c.commits| ==> c.commits[i].repo == d.commits[i].repo
    ensures PersonLine(c) == PersonLine(d)
  {
    ClausesIgnoreCounts(c, d);
  }

  /** Someone who only created one repository. */
  lemma CreatedOneRepoLine(name: string, repo: Repo)
    ensures PersonLine(ContributionSummary(name, [repo], [], [], [], [])) ==
      "- " + name + " " + ("created the repo " + Link(repo.url, repo.name)) + ".\n"
  {
    var c := ContributionSummary(name, [repo], [], [], [], []);
    var clause := "created the repo " + Link(repo.url, repo.name);
    assert CreatedClause(c) == clause by {
      assert RepoLinks([repo]) == [LinkRepo(repo)];
    }
    ClausesOnlyCreated(c);
    assert Join([clause], "; ") == clause;
  }

  lemma ClausesOnlyCreated(c: ContributionSummary)
    requires |c.newRepos| > 0
    requires |c.commits| == 0 && |c.forkedRepos| == 0 && |c.pullRequests| == 0 && |c.issues| == 0
    ensures Clauses(c) == [CreatedClause(c)]
  {
    ClausesUnfold(c);
  }

  /** Someone who created two repositories and opened one pull request: the
      clauses appear in clause order, separated by "; ". */
  lemma CreatedTwoAndOnePullRequestLine(name: string, r1: Repo, r2: Repo, prs: RepoPullRequests, link: ContributionLink)
    requires prs.pullRequests == [link]
    ensures PersonLine(ContributionSummary(name, [r1, r2], [], [], [], [prs])) ==
      "- " + name + " " +
      (("created the repos " + (LinkRepo(r1) + " and " + LinkRepo(r2))) + "; " +
       ("contributed to PRs in " + (LinkRepo(prs.repo) + " (" + NumberLink(link) + ")"))) + ".\n"
  {
    var c := ContributionSummary(name, [r1, r2], [], [], [], [prs]);
    assert CreatedClause(c) == "created the repos " + (LinkRepo(r1) + " and " + LinkRepo(r2)) by {
      assert RepoLinks([r1, r2]) == [LinkRepo(r1), LinkRepo(r2)];
    }
    assert PullRequestsClause(c) == "contributed to PRs in " + (LinkRepo(prs.repo) + " (" + NumberLink(link) + ")") by {
      assert NumberLinks([link]) == [NumberLink(link)];
      assert PullRequestEntries([prs]) == [Entry(prs.repo, [link])];
    }
    ClausesCreatedAndPullRequests(c);
    assert Join([CreatedClause(c), PullRequestsClause(c)], "; ") == CreatedClause(c) + "; " + PullRequestsClause(c) by {
      assert [CreatedClause(c), PullRequestsClause(c)][1..] == [PullRequestsClause(c)];
    }
  }

  lemma ClausesCreatedAndPullRequests(c: ContributionSummary)
    requires |c.newRepos| > 0 && |c.pullRequests| > 0
    requires |c.commits| == 0 && |c.forkedRepos| == 0 && |c.issues| == 0
    ensures Clauses(c) == [CreatedClause(c), PullRequestsClause(c)]
  {
    ClausesUnfold(c);
  }

  /** Someone who only forked one repository still gets a line. */
  lemma ForkedOneRepoLine(name: string, repo: Repo)
    ensures PersonLine(ContributionSummary(name, [], [repo], [], [], [])) ==
      "- " + name + " " + ("forked the repo " + Link(repo.url, repo.name)) + ".\n"
  {
    var c := ContributionSummary(name, [], [repo], [], [], []);
    var clause := "forked the repo " + Link(repo.url, repo.name);
    assert ForkedClause(c) == clause by {
      assert RepoLinks([repo]) == [LinkRepo(repo)];
    }
    ClausesOnlyForked(c);
    assert Join([clause], "; ") == clause;
  }

  lemma ClausesOnlyForked(c: ContributionSummary)
    requires |c.forkedRepos| > 0
    requires |c.newRepos| == 0 && |c.commits| == 0 && |c.pullRequests| == 0 && |c.issues| == 0
    ensures Clauses(c) == [ForkedClause(c)]
  {
    ClausesUnfold(c);
  }
}
