# slack-github-digest in Dafny

A model of the two I/O-free stages of the GitHub-to-Slack contribution digest:

- **The contribution mapper** (`src/github.rs`). One follower's raw GraphQL
  activity record becomes a `ContributionSummary`. The summary holds the
  follower's display name and the repositories they created, split into forks
  and new ones. It also holds their commits by repository, their issues by
  repository, and their pull requests by repository. The authored pull-request
  entries come first, then the review entries.
- **The digest renderer** (`src/slack.rs`). A sequence of summaries becomes one
  message. The message is a header line, then one line per person with any
  activity. Each line reads like "- Name created the repos <url|A> and <url|B>;
  contributed to PRs in <url|C> (<url|#5>).". Hyperlinks use Slack's
  `<url|text>` markup, and every list reads as English ("A, B and C").

Files:

- `wrappers.dfy`: `Option` and a failure-compatible `Result`.
- `text.dfy`: joining and concatenating strings, counting and finding
  characters, and the decimal rendering of `i64` values with their sign.
- `sequences.dfy`: the subsequence relation used for the "keeps its order"
  properties, and `Map`, which applies a function to every element.
- `github.dfy`: the raw record, the summary types and the mapper.
- `slack.dfy`: the renderer.

How the model treats the source:

- A `.unwrap()` on a null node, or the `.expect("no name")` on a missing display
  name, panics in the program. Here it returns `Failure(NullNode)` or
  `Failure(NoName)`. The nodes are unwrapped before the name is read, so a
  record with both faults fails with `NullNode`.
- Pure expressions and most iterator pipelines are functions, for example
  `map_repo`, the mapping pipelines of `format_follower_accomplishments`,
  `link`, `link_repo` and `build_message`.
- The steps that mutate are methods proved against functions:
  - `pull_requests.extend(reviews)` (`GitHub.FormatFollowerAccomplishments`);
  - the `push_str` calls in `comma_separate_list` (`Slack.CommaSeparateList`);
  - the `results.push` and `push_str` calls in `build_contributions`
    (`Slack.BuildContributions` and the five `Push...Clause` methods).
- Three pure parts of `build_contributions` are methods too, because they call
  the method `CommaSeparateList`:
  - the `format!("{repo} ({prs})")` entry text at src/slack.rs:111-118 and
    130-137 is `Slack.FormatEntry`;
  - the `.map(...).collect()` pipelines over the pull-request entries
    (src/slack.rs:109-120) and the issue entries (src/slack.rs:128-139) are
    `Slack.FormatPullRequestEntries` and `Slack.FormatIssueEntries`. Each is a
    `for` loop over the entries.

  Each is proved equal to a function: `Entry`, `PullRequestEntries` and
  `IssueEntries`.

Two points where this model follows the code:

- The renderer writes a forked clause, between the commits clause and the
  pull-request clause (src/slack.rs:96-104).
- The summary name is `follower.name` only, with no fallback to the login
  (src/github.rs:111).

## Model

| member | source | states |
|---|---|---|
| GitHub.MapRepo | src/github.rs:121-128 | name, URL and fork flag are copied; the language is the primary language's name if there is one, else "unknown" |
| GitHub.MapNonNull | src/github.rs:56-58 | succeeds iff no node is null, and then gives one mapped value per node in order; otherwise fails with NullNode |
| GitHub.MapCreatedRepos | src/github.rs:55-61 | no node list gives no repositories; a list with a null node fails; otherwise one mapped repository per node, in order |
| GitHub.PartitionForks | src/github.rs:63-65 | the first side holds only forks, the second only non-forks; together they are a permutation of the input, and each side is a subsequence of the input (so it keeps input order) |
| GitHub.MapCommits | src/github.rs:67-73 | one commit per entry, in order, with the entry's total count and its mapped repository |
| GitHub.CollectLinks | src/github.rs:78-81 | an absent node list gives no links; a present one gives one link per node, in order, or fails iff a node is null |
| GitHub.MapEntries | src/github.rs:75-84 | succeeds iff every entry maps; then the i-th result is the i-th entry's value; a failure carries the error of some failing entry |
| GitHub.MapIssueEntry | src/github.rs:77-83 | the entry's mapped repository with one link per issue node (number and URL); fails iff a node is null |
| GitHub.MapPullRequestEntry | src/github.rs:88-94 | the entry's mapped repository with one link per pull-request node (number and URL); fails iff a node is null |
| GitHub.MapIssueEntries | src/github.rs:75-84 | one RepoIssues per entry, in order; an entry without a node list stays, with no issues; fails iff some node is null |
| GitHub.MapPullRequestEntries | src/github.rs:86-106 | one RepoPullRequests per entry, in order; an entry without a node list stays, with no pull requests; fails iff some node is null |
| GitHub.FormatFollowerAccomplishments | src/github.rs:42-119 | succeeds iff no unwrapped node is null and the name is present; NullNode is reported before NoName; the name is the display name; forks and new repositories are the partition of the created ones (both empty without a node list); commits and issues are their mappings; pull requests are the authored entries followed by the review entries, length the sum |
| Text.NatToDecimal | src/slack.rs:115 | the digits of a natural number: at least one, no leading zero, and they read back as the number |
| Text.IntToDecimal | src/slack.rs:115 | the `{}` rendering of an integer: a leading '-' exactly for negative values, digits after it with no leading zero (just "0" for zero), and it parses back to the integer |
| Text.JoinEmptySeparator | src/slack.rs:43-48 | joining the person lines with "" is their concatenation |
| Slack.LinkRoundTrip | src/slack.rs:63-65 | a link whose URL has no '|' splits back into its URL and its text |
| Slack.LinkRepoRoundTrip | src/slack.rs:67-69 | a repository link splits back into the repository's URL and name |
| Slack.NumberLinkRoundTrip | src/slack.rs:115 | an issue or pull-request link splits back into its URL and a "#n" text that parses to its number |
| Slack.EnglishListSplitLast | src/slack.rs:55-58 | for two or more words the list is the others joined with ", ", then " and ", then the last word |
| Slack.EnglishListSmall | src/slack.rs:51-61 | zero words give "", one gives the word, two give "a and b", three give "a, b and c" |
| Slack.EnglishListCommas | src/slack.rs:55-58 | n >= 2 comma-free words give exactly n - 2 commas |
| Slack.CommaSeparateList | src/slack.rs:51-61 | the string the push steps build is the English list of the words |
| Slack.EntryWithoutLinks | src/slack.rs:111-118 | an entry with no links renders the repository link and " ()" |
| Slack.FormatEntry | src/slack.rs:111-118 | an entry is the repository link, then the English list of its "#n" links in parentheses |
| Slack.FormatPullRequestEntries | src/slack.rs:108-121 | one entry text per pull-request entry, in order |
| Slack.FormatIssueEntries | src/slack.rs:127-140 | one entry text per issue entry, in order |
| Slack.RepoClausePlural | src/slack.rs:77-79 | the created clause reads "repos" unless exactly one repository was created; the forked clause (src/slack.rs:98-100) alike |
| Slack.ActiveIn | src/slack.rs:75-142 | an activity is selected iff it is in the order and the person shows it, and the selection keeps the order |
| Slack.ClausesStep | src/slack.rs:75-142 | one more activity at the end of the order adds its clause at the end if it is active, and nothing otherwise |
| Slack.ClausesUnfold | src/slack.rs:75-142 | a person's clauses are the created, commits, forked, pull-request and issue clauses, in that order, each present iff its sequence is non-empty |
| Slack.PersonLine | src/slack.rs:144-148 | the line is "" iff all five sequences are empty; otherwise it is "- ", the name, " ", the clauses joined with "; ", then ".\n" |
| Slack.PushCreatedClause | src/slack.rs:75-83 | appends the created clause iff repositories were created |
| Slack.PushCommitsClause | src/slack.rs:85-95 | appends the commits clause iff there are commits |
| Slack.PushForkedClause | src/slack.rs:96-104 | appends the forked clause iff repositories were forked |
| Slack.PushPullRequestsClause | src/slack.rs:105-123 | appends the pull-request clause iff there are pull-request entries |
| Slack.PushIssuesClause | src/slack.rs:124-142 | appends the issues clause iff there are issue entries |
| Slack.PersonLineFromClauses | src/slack.rs:144-148 | the optional clauses taken in clause order make the person's line |
| Slack.BuildContributions | src/slack.rs:71-149 | the line the clause-by-clause construction builds is the person's line |
| Slack.BuildMessage | src/slack.rs:36-49 | the message is the header followed by the concatenation of every person's line, in input order |
| Slack.BuildMessageHeaderOnly | src/slack.rs:43-48 | the message is the bare header iff nobody has any activity |
| Slack.BuildMessageAppend | src/slack.rs:43-48 | the message for two groups is the first group's message followed by the second group's lines |
| Slack.BuildMessageSkipsInactive | src/slack.rs:43-48 | removing a person without activity does not change the message |
| Slack.OptionalClauseIgnoresCounts | src/slack.rs:85-95 | each activity's optional clause is the same for summaries that differ only in their commit counts |
| Slack.ClausesIgnoreCounts | src/slack.rs:85-95 | summaries that differ only in their commit counts have the same clauses |
| Slack.PersonLineIgnoresCounts | src/slack.rs:85-95 | commit counts never appear in the line: summaries that differ only in them give the same line |
| Slack.CreatedOneRepoLine | src/slack.rs:75-83 | one created repository and nothing else: "- name created the repo " and the repository link, then ".\n" |
| Slack.ForkedOneRepoLine | src/slack.rs:96-104 | one forked repository and nothing else: "- name forked the repo " and the repository link, then ".\n" |
| Slack.CreatedTwoAndOnePullRequestLine | src/slack.rs:71-149 | two created repositories and one pull request: "- name created the repos A and B; contributed to PRs in R (#n).\n", with the links written out |

## Left out

- `query_contributions` (src/github.rs:9-40) is left out. It is the HTTP request, the bearer token, JSON decoding, the date computed from the clock, debug printing and the top-level `expect`s on the response. The model starts from one already-decoded follower record.
- `send_contribution_message` (src/slack.rs:17-34) and the webhook payload are left out. They are transport only.
- `src/main.rs` (configuration file and orchestration) is not part of this model.
- The generated `follower_digest` types and the `GraphQLQuery` derive are not part of this model. The raw record here has only the fields the mapper reads.
- Fragment spreads that only wrap another object are flattened to one field: `repository.repo`, `issue.issue` and `pull_request.pr`.
- Authored and review pull-request entries share one raw type, because their fields are the same.
- `GitHubConfig` and `SlackConfig` are left out: they hold no logic.
- The example messages in the comments (src/github.rs:43-47, src/slack.rs:37-41) are not modelled. They show commit counts and "worked on PRs", which the code does not produce.
- Panics are not modelled as process aborts: a panic is a `Failure` value of the mapping. `build_message` receives only summaries that mapped successfully.
- Rust's lazy iterators and in-place buffers are modelled as sequence values:
  - `String::push_str` and `Vec::push` are sequence concatenation;
  - `Vec::extend` is `pullRequests + reviews`.
- Slack.BuildContributions: the five `if` blocks of `build_contributions` are five methods (`PushCreatedClause` and the others), called in the source's order. Each holds its block's `push_str` steps. Together they follow the source's statements in the same order.
- Slack.EnglishListCommas: it counts the commas only. The single " and " is stated by `EnglishListSplitLast`.
- Strings are sequences of characters. Nothing depends on their UTF-8 byte encoding.
