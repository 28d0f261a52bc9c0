/** The contribution mapper: one follower's raw activity record, as the GraphQL
    client decodes it, becomes a normalised `ContributionSummary`.

    The raw record keeps exactly the fields the mapper reads. A GraphQL list or
    object that may be null is an `Option`; a fragment spread that only wraps
    another object (`repository.repo`, `issue.issue`, `pull_request.pr`) is
    flattened to a single field. A `.unwrap()` or `.expect()` on a null value
    panics in the original program and becomes a `Failure` here. */
module GitHub {
  import opened Wrappers
  import opened Sequences

  /** GraphQL `Int` fields are decoded into Rust `i64`. */
  const Int64Min: int := -0x8000_0000_0000_0000
  const Int64Max: int := 0x7FFF_FFFF_FFFF_FFFF
  type Int64 = x: int | Int64Min <= x <= Int64Max

  // ---------------------------------------------------------------------------
  // The raw record
  // ---------------------------------------------------------------------------

  datatype RawLanguage = RawLanguage(name: string)

  /** The `repo` fragment. */
  datatype RawRepo = RawRepo(isFork: bool, name: string, url: string, primaryLanguage: Option<RawLanguage>)

  /** A node of `repositoryContributions`; its `repository` holds the `repo` fragment. */
  datatype RawRepositoryNode = RawRepositoryNode(repository: RawRepo)
  datatype RawRepositoryConnection = RawRepositoryConnection(nodes: Option<seq<Option<RawRepositoryNode>>>)

  datatype RawCommitCount = RawCommitCount(totalCount: Int64)
  datatype RawCommitsByRepo = RawCommitsByRepo(contributions: RawCommitCount, repository: RawRepo)

  /** The `issue` fragment, and a contribution node that holds one. */
  datatype RawIssue = RawIssue(number: Int64, url: string)
  datatype RawIssueNode = RawIssueNode(issue: RawIssue)
  datatype RawIssueConnection = RawIssueConnection(nodes: Option<seq<Option<RawIssueNode>>>)
  datatype RawIssuesByRepo = RawIssuesByRepo(contributions: RawIssueConnection, repository: RawRepo)

  /** The `pr` fragment, and a contribution node (authored or review) that holds one.
      Authored and review entries have the same shape and share these types. */
  datatype RawPullRequest = RawPullRequest(number: Int64, url: string)
  datatype RawPullRequestNode = RawPullRequestNode(pullRequest: RawPullRequest)
  datatype RawPullRequestConnection = RawPullRequestConnection(nodes: Option<seq<Option<RawPullRequestNode>>>)
  datatype RawPullRequestsByRepo = RawPullRequestsByRepo(contributions: RawPullRequestConnection, repository: RawRepo)

  datatype RawContributionsCollection = RawContributionsCollection(
    repositoryContributions: RawRepositoryConnection,
    commitContributionsByRepository: seq<RawCommitsByRepo>,
    issueContributionsByRepository: seq<RawIssuesByRepo>,
    pullRequestContributionsByRepository: seq<RawPullRequestsByRepo>,
    pullRequestReviewContributionsByRepository: seq<RawPullRequestsByRepo>)

  datatype RawFollower = RawFollower(name: Option<string>, contributionsCollection: RawContributionsCollection)

  // ---------------------------------------------------------------------------
  // The normalised summary
  // ---------------------------------------------------------------------------

  datatype Repo = Repo(name: string, url: string, language: string, isFork: bool)
  datatype ContributionLink = ContributionLink(number: Int64, url: string)
  datatype Commit = Commit(count: Int64, repo: Repo)
  datatype RepoIssues = RepoIssues(repo: Repo, issues: seq<ContributionLink>)
  datatype RepoPullRequests = RepoPullRequests(repo: Repo, pullRequests: seq<ContributionLink>)

  datatype ContributionSummary = ContributionSummary(
    name: string,
    newRepos: seq<Repo>,
    forkedRepos: seq<Repo>,
    commits: seq<Commit>,
    issues: seq<RepoIssues>,
    pullRequests: seq<RepoPullRequests>)

  /** Why mapping a record aborts: an `unwrap` on a null list node, or the
      `expect("no name")` on a missing display name. */
  datatype MappingError = NullNode | NoName

  // ---------------------------------------------------------------------------
  // Null checks
  // ---------------------------------------------------------------------------

  predicate NoNulls<N>(nodes: seq<Option<N>>) {
    forall i :: 0 <= i < |nodes| ==> nodes[i].Some?
  }

  /** An absent node list is fine; a present one must hold no null node. */
  predicate NodesNonNull<N>(nodes: Option<seq<Option<N>>>) {
    nodes.Some? ==> NoNulls(nodes.value)
  }

  /** Every node list of the record that the mapper unwraps is free of nulls. */
  predicate AllNodesNonNull(cc: RawContributionsCollection) {
    && NodesNonNull(cc.repositoryContributions.nodes)
    && (forall i :: 0 <= i < |cc.issueContributionsByRepository| ==>
          NodesNonNull(cc.issueContributionsByRepository[i].contributions.nodes))
    && (forall i :: 0 <= i < |cc.pullRequestContributionsByRepository| ==>
          NodesNonNull(cc.pullRequestContributionsByRepository[i].contributions.nodes))
    && (forall i :: 0 <= i < |cc.pullRequestReviewContributionsByRepository| ==>
          NodesNonNull(cc.pullRequestReviewContributionsByRepository[i].contributions.nodes))
  }

  // ---------------------------------------------------------------------------
  // Repositories
  // ---------------------------------------------------------------------------

  /** The language recorded for a repository without a primary language. */
  const UnknownLanguage: string := "unknown"

  /** `map_repo`: the fork flag, name and URL are copied, the language is the
      primary language's name or the "unknown" sentinel. */
  function MapRepo(raw: RawRepo): (r: Repo)
    ensures r.name == raw.name && r.url == raw.url && r.isFork == raw.isFork
    ensures raw.primaryLanguage.Some? ==> r.language == raw.primaryLanguage.value.name
    ensures raw.primaryLanguage.None? ==> r.language == UnknownLanguage
  {
    var language := match raw.primaryLanguage
      case Some(l) => l.name
      case None => UnknownLanguage;
    Repo(raw.name, raw.url, language, raw.isFork)
  }

  /** Maps every node with `f`, front to back; the first null node aborts, as
      `node.as_ref().unwrap()` inside an iterator `map` does. */
  function MapNonNull<N, T>(nodes: seq<Option<N>>, f: N -> T): (r: Result<seq<T>, MappingError>)
    ensures r.Success? <==> NoNulls(nodes)
    ensures r.Failure? ==> r.error == NullNode
    ensures r.Success? ==> |r.value| == |nodes| && forall i :: 0 <= i < |nodes| ==> r.value[i] == f(nodes[i].value)
  {
    if nodes == [] then Success([])
    else if nodes[0].None? then Failure(NullNode)
    else
      var rest :- MapNonNull(nodes[1..], f);
      assert forall i :: 1 <= i < |nodes| ==> nodes[i] == nodes[1..][i - 1];
      Success([f(nodes[0].value)] + rest)
  }

  /** The `Repo` a repository-contribution node stands for. */
  function CreatedRepo(node: RawRepositoryNode): Repo {
    MapRepo(node.repository)
  }

  /** The repositories created in the window: none when the node list is
      absent, otherwise one per node in order, failing on a null node. */
  function MapCreatedRepos(connection: RawRepositoryConnection): (r: Result<seq<Repo>, MappingError>)
    ensures r.Success? <==> NodesNonNull(connection.nodes)
    ensures r.Failure? ==> r.error == NullNode
    ensures connection.nodes.None? ==> r == Success([])
    ensures r.Success? && connection.nodes.Some? ==>
      var ns := connection.nodes.value;
      |r.value| == |ns| && forall i :: 0 <= i < |ns| ==> r.value[i] == MapRepo(ns[i].value.repository)
  {
    match connection.nodes
    case None => Success([])
    case Some(ns) => MapNonNull(ns, CreatedRepo)
  }

  /** `partition(|r| r.is_fork)`: forks first, the rest second. Each side keeps
      the input order, and together they hold every repository exactly once. */
  function PartitionForks(repos: seq<Repo>): (r: (seq<Repo>, seq<Repo>))
    ensures forall x :: x in r.0 ==> x.isFork
    ensures forall x :: x in r.1 ==> !x.isFork
    ensures multiset(r.0) + multiset(r.1) == multiset(repos)
    ensures |r.0| + |r.1| == |repos|
    ensures IsSubsequence(r.0, repos) && IsSubsequence(r.1, repos)
  {
    if repos == [] then ([], [])
    else
      var rest := PartitionForks(repos[1..]);
      assert repos == [repos[0]] + repos[1..];
      if repos[0].isFork then ([repos[0]] + rest.0, rest.1)
      else (rest.0, [repos[0]] + rest.1)
  }

  // ---------------------------------------------------------------------------
  // Commits
  // ---------------------------------------------------------------------------

  /** One `Commit` per commit-by-repository entry, in order, carrying the
      entry's total count and its mapped repository. */
  function MapCommits(entries: seq<RawCommitsByRepo>): (r: seq<Commit>)
    ensures |r| == |entries|
    ensures forall i :: 0 <= i < |entries| ==>
      r[i].count == entries[i].contributions.totalCount && r[i].repo == MapRepo(entries[i].repository)
  {
    if entries == [] then []
    else
      var rest := MapCommits(entries[1..]);
      assert forall i :: 1 <= i < |entries| ==> entries[i] == entries[1..][i - 1];
      [Commit(entries[0].contributions.totalCount, MapRepo(entries[0].repository))] + rest
  }

  // ---------------------------------------------------------------------------
  // Issues and pull requests
  // ---------------------------------------------------------------------------

  /** `links` is what the node list becomes: nothing for an absent list, one
      link per node, in order, for a present one. */
  ghost predicate LinksOf<N>(links: seq<ContributionLink>, nodes: Option<seq<Option<N>>>, toLink: N -> ContributionLink)
  {
    match nodes
    case None => links == []
    case Some(ns) =>
      |links| == |ns| && forall j :: 0 <= j < |ns| ==> ns[j].Some? && links[j] == toLink(ns[j].value)
  }

  /** `nodes.as_ref().unwrap_or(&vec![])` mapped node by node, unwrapping each. */
  function CollectLinks<N>(nodes: Option<seq<Option<N>>>, toLink: N -> ContributionLink): (r: Result<seq<ContributionLink>, MappingError>)
    ensures r.Success? <==> NodesNonNull(nodes)
    ensures r.Failure? ==> r.error == NullNode
    ensures r.Success? ==> LinksOf(r.value, nodes, toLink)
  {
    match nodes
    case None => Success([])
    case Some(ns) => MapNonNull(ns, toLink)
  }

  /** The link an issue node carries: the issue's number and URL. */
  function IssueLink(node: RawIssueNode): ContributionLink {
    ContributionLink(node.issue.number, node.issue.url)
  }

  /** The link a pull-request node carries: the pull request's number and URL. */
  function PullRequestLink(node: RawPullRequestNode): ContributionLink {
    ContributionLink(node.pullRequest.number, node.pullRequest.url)
  }

  /** Maps every entry with a step that may fail, front to back; the first
      failure aborts the whole map. */
  function MapEntries<E, T>(entries: seq<E>, f: E -> Result<T, MappingError>): (r: Result<seq<T>, MappingError>)
    ensures r.Success? <==> forall i :: 0 <= i < |entries| ==> f(entries[i]).Success?
    ensures r.Failure? ==> exists i :: 0 <= i < |entries| && f(entries[i]) == Failure(r.error)
    ensures r.Success? ==> |r.value| == |entries| && forall i :: 0 <= i < |entries| ==> f(entries[i]) == Success(r.value[i])
  {
    if entries == [] then Success([])
    else
      match f(entries[0])
      case Failure(e) => Failure(e)
      case Success(head) =>
        assert forall i :: 1 <= i < |entries| ==> entries[i] == entries[1..][i - 1];
        match MapEntries(entries[1..], f)
        case Failure(e) =>
          var k :| 0 <= k < |entries[1..]| && f(entries[1..][k]) == Failure(e);
          assert f(entries[k + 1]) == Failure(e);
          Failure(e)
        case Success(rest) => Success([head] + rest)
  }

  /** One `RepoIssues` for an issues-by-repository entry. */
  function MapIssueEntry(entry: RawIssuesByRepo): (r: Result<RepoIssues, MappingError>)
    ensures r.Success? <==> NodesNonNull(entry.contributions.nodes)
    ensures r.Failure? ==> r.error == NullNode
    ensures r.Success? ==>
      r.value.repo == MapRepo(entry.repository) && LinksOf(r.value.issues, entry.contributions.nodes, IssueLink)
  {
    var issues :- CollectLinks(entry.contributions.nodes, IssueLink);
    Success(RepoIssues(MapRepo(entry.repository), issues))
  }

  /** One `RepoPullRequests` for an authored or reviewed pull-request entry. */
  function MapPullRequestEntry(entry: RawPullRequestsByRepo): (r: Result<RepoPullRequests, MappingError>)
    ensures r.Success? <==> NodesNonNull(entry.contributions.nodes)
    ensures r.Failure? ==> r.error == NullNode
    ensures r.Success? ==>
      r.value.repo == MapRepo(entry.repository) && LinksOf(r.value.pullRequests, entry.contributions.nodes, PullRequestLink)
  {
    var pullRequests :- CollectLinks(entry.contributions.nodes, PullRequestLink);
    Success(RepoPullRequests(MapRepo(entry.repository), pullRequests))
  }

  /** One `RepoIssues` per entry, in order; an entry without nodes keeps its
      place with no issues; a null node anywhere aborts. */
  function MapIssueEntries(entries: seq<RawIssuesByRepo>): (r: Result<seq<RepoIssues>, MappingError>)
    ensures r.Success? <==> forall i :: 0 <= i < |entries| ==> NodesNonNull(entries[i].contributions.nodes)
    ensures r.Failure? ==> r.error == NullNode
    ensures r.Success? ==> |r.value| == |entries| && forall i :: 0 <= i < |entries| ==>
      r.value[i].repo == MapRepo(entries[i].repository) &&
      LinksOf(r.value[i].issues, entries[i].contributions.nodes, IssueLink)
  {
    MapEntries(entries, MapIssueEntry)
  }

  /** One `RepoPullRequests` per entry, in order; an entry without nodes keeps
      its place with no pull requests; a null node anywhere aborts. */
  function MapPullRequestEntries(entries: seq<RawPullRequestsByRepo>): (r: Result<seq<RepoPullRequests>, MappingError>)
    ensures r.Success? <==> forall i :: 0 <= i < |entries| ==> NodesNonNull(entries[i].contributions.nodes)
    ensures r.Failure? ==> r.error == NullNode
    ensures r.Success? ==> |r.value| == |entries| && forall i :: 0 <= i < |entries| ==>
      r.value[i].repo == MapRepo(entries[i].repository) &&
      LinksOf(r.value[i].pullRequests, entries[i].contributions.nodes, PullRequestLink)
  {
    MapEntries(entries, MapPullRequestEntry)
  }

  // ---------------------------------------------------------------------------
  // The whole record
  // ---------------------------------------------------------------------------

  /** `format_follower_accomplishments`. It succeeds exactly when no unwrapped
      node is null and a display name is present (there is no fallback to the
      login); a null node is reported before a missing name, since the name is
      read last. The authored pull-request entries are extended in place by
      the review entries: no merging, no deduplication. */
  method FormatFollowerAccomplishments(follower: RawFollower) returns (r: Result<ContributionSummary, MappingError>)
    ensures r.Success? <==> AllNodesNonNull(follower.contributionsCollection) && follower.name.Some?
    ensures r.Failure? ==> r.error == (if AllNodesNonNull(follower.contributionsCollection) then NoName else NullNode)
    ensures r.Success? ==> r.value.name == follower.name.value
    ensures r.Success? ==>
      var created := MapCreatedRepos(follower.contributionsCollection.repositoryContributions).value;
      (r.value.forkedRepos, r.value.newRepos) == PartitionForks(created)
    ensures r.Success? && follower.contributionsCollection.repositoryContributions.nodes.None? ==>
      r.value.newRepos == [] && r.value.forkedRepos == []
    ensures r.Success? ==> r.value.commits == MapCommits(follower.contributionsCollection.commitContributionsByRepository)
    ensures r.Success? ==>
      Success(r.value.issues) == MapIssueEntries(follower.contributionsCollection.issueContributionsByRepository)
    ensures r.Success? ==>
      var authored := follower.contributionsCollection.pullRequestContributionsByRepository;
      var reviewed := follower.contributionsCollection.pullRequestReviewContributionsByRepository;
      && r.value.pullRequests == MapPullRequestEntries(authored).value + MapPullRequestEntries(reviewed).value
      && |r.value.pullRequests| == |authored| + |reviewed|
  {
    var cc := follower.contributionsCollection;
    var repos :- MapCreatedRepos(cc.repositoryContributions);
    var partition := PartitionForks(repos);
    var forkedRepos, newRepos := partition.0, partition.1;
    var commits := MapCommits(cc.commitContributionsByRepository);
    var issues :- MapIssueEntries(cc.issueContributionsByRepository);
    var pullRequests :- MapPullRequestEntries(cc.pullRequestContributionsByRepository);
    var reviews :- MapPullRequestEntries(cc.pullRequestReviewContributionsByRepository);
    pullRequests := pullRequests + reviews;
    if follower.name.None? {
      return Failure(NoName);
    }
    return Success(ContributionSummary(follower.name.value, newRepos, forkedRepos, commits, issues, pullRequests));
  }
}
