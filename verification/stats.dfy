/**
  The aggregation half of `UserStats` in update.py: star and fork totals over
  the user's repositories and the commit total of `get_commits`, in which a
  fork counts nothing and a repository whose commit count could not be
  fetched (a `GithubException`) counts nothing either.
 */
module Stats {

  /** Outcome of asking the API for a repository's commit total. */
  datatype CommitResult = Ok(count: nat) | Failed

  /** What the aggregation reads of one repository. */
  datatype Repo = Repo(stars: nat, forks: nat, isFork: bool, commits: CommitResult)

  /** Python's `sum` over a list: a left fold of `+` starting at 0. */
  function Sum(xs: seq<nat>): nat
  {
    if |xs| == 0 then 0 else Sum(xs[..|xs| - 1]) + xs[|xs| - 1]
  }

  lemma {:induction false} SumAppend(a: seq<nat>, b: seq<nat>)
    ensures Sum(a + b) == Sum(a) + Sum(b)
    decreases |b|
  {
    if |b| > 0 {
      assert (a + b)[..|a + b| - 1] == a + b[..|b| - 1];
      SumAppend(a, b[..|b| - 1]);
    } else {
      assert a + b == a;
    }
  }

  /** `[repo.stargazers_count for repo in repos]`. */
  function StarCounts(repos: seq<Repo>): (r: seq<nat>)
    ensures |r| == |repos|
    ensures forall i :: 0 <= i < |repos| ==> r[i] == repos[i].stars
  {
    seq(|repos|, i requires 0 <= i < |repos| => repos[i].stars)
  }

  /** `[repo.forks_count for repo in repos]`. */
  function ForkCounts(repos: seq<Repo>): (r: seq<nat>)
    ensures |r| == |repos|
    ensures forall i :: 0 <= i < |repos| ==> r[i] == repos[i].forks
  {
    seq(|repos|, i requires 0 <= i < |repos| => repos[i].forks)
  }

  /** What `get_commits` appends for one repository. */
  function Contribution(repo: Repo): (c: nat)
    ensures repo.isFork || repo.commits.Failed? ==> c == 0
    ensures !repo.isFork && repo.commits.Ok? ==> c == repo.commits.count
  {
    if repo.isFork then 0
    else match repo.commits
      case Ok(n) => n
      case Failed => 0
  }

  /**
    The reference reading of the commit total: the counts of the non-fork
    repositories whose fetch succeeded, in order, and nothing else.
   */
  function AttributedCounts(repos: seq<Repo>): (r: seq<nat>)
    ensures |r| <= |repos|
    decreases |repos|
  {
    if |repos| == 0 then []
    else
      var last := repos[|repos| - 1];
      var front := AttributedCounts(repos[..|repos| - 1]);
      if !last.isFork && last.commits.Ok? then front + [last.commits.count] else front
  }

  function CommitTotal(repos: seq<Repo>): nat
  {
    Sum(AttributedCounts(repos))
  }

  /** Every successful fetch, forks included: the most commits could ever be. */
  function AllFetchedCounts(repos: seq<Repo>): (r: seq<nat>)
    ensures |r| <= |repos|
    decreases |repos|
  {
    if |repos| == 0 then []
    else
      var last := repos[|repos| - 1];
      var front := AllFetchedCounts(repos[..|repos| - 1]);
      if last.commits.Ok? then front + [last.commits.count] else front
  }

  /**
    `get_commits`: walk the repositories in order, append each one's
    contribution to a list, and sum the list.
   */
  method GetCommits(repos: seq<Repo>) returns (total: nat)
    ensures total == CommitTotal(repos)
  {
    var contributions: seq<nat> := [];
    var i := 0;
    while i < |repos|
      invariant 0 <= i <= |repos|
      invariant |contributions| == i
      invariant forall j :: 0 <= j < i ==> contributions[j] == Contribution(repos[j])
      invariant Sum(contributions) == CommitTotal(repos[..i])
    {
      var c := Contribution(repos[i]);
      SumAppend(contributions, [c]);
      PrefixStep(repos, i);
      contributions := contributions + [c];
      i := i + 1;
    }
    assert repos[..i] == repos;
    total := Sum(contributions);
  }

  lemma PrefixStep(repos: seq<Repo>, i: nat)
    requires i < |repos|
    ensures CommitTotal(repos[..i + 1]) == CommitTotal(repos[..i]) + Contribution(repos[i])
  {
    var p := repos[..i + 1];
    assert p[..i] == repos[..i];
    assert p[i] == repos[i];
    AttributedStep(p);
  }

  /** One step of the fold: the last repository adds its contribution. */
  lemma AttributedStep(repos: seq<Repo>)
    requires |repos| > 0
    ensures CommitTotal(repos) == CommitTotal(repos[..|repos| - 1]) + Contribution(repos[|repos| - 1])
  {
    var front := AttributedCounts(repos[..|repos| - 1]);
    var last := repos[|repos| - 1];
    if !last.isFork && last.commits.Ok? {
      SumAppend(front, [last.commits.count]);
    }
  }

  /** The commit total distributes over concatenation of repository lists. */
  lemma {:induction false} CommitTotalAppend(a: seq<Repo>, b: seq<Repo>)
    ensures CommitTotal(a + b) == CommitTotal(a) + CommitTotal(b)
    decreases |b|
  {
    if |b| == 0 {
      assert a + b == a;
    } else {
      var ab := a + b;
      assert ab[..|ab| - 1] == a + b[..|b| - 1];
      CommitTotalAppend(a, b[..|b| - 1]);
      AttributedStep(ab);
      AttributedStep(b);
    }
  }

  /**
    A fork, or a repository whose fetch failed, can sit anywhere in the
    list without changing the total: it adds zero and the fold goes on.
   */
  lemma IgnoredRepoAddsNothing(a: seq<Repo>, repo: Repo, b: seq<Repo>)
    requires repo.isFork || repo.commits.Failed?
    ensures CommitTotal(a + [repo] + b) == CommitTotal(a + b)
  {
    CommitTotalAppend(a + [repo], b);
    AttributedStep(a + [repo]);
    assert (a + [repo])[..|a|] == a;
    CommitTotalAppend(a, b);
  }

  /** Adding a repository never lowers the commit total. */
  lemma CommitTotalMonotone(repos: seq<Repo>, repo: Repo)
    ensures CommitTotal(repos) <= CommitTotal(repos + [repo])
    ensures CommitTotal(repos + [repo]) == CommitTotal(repos) + Contribution(repo)
  {
    AttributedStep(repos + [repo]);
    assert (repos + [repo])[..|repos|] == repos;
  }

  /** The commit total never exceeds the sum of every successful fetch. */
  lemma {:induction false} CommitTotalBounded(repos: seq<Repo>)
    ensures CommitTotal(repos) <= Sum(AllFetchedCounts(repos))
    decreases |repos|
  {
    if |repos| > 0 {
      var front := repos[..|repos| - 1];
      var last := repos[|repos| - 1];
      CommitTotalBounded(front);
      AttributedStep(repos);
      if last.commits.Ok? {
        SumAppend(AllFetchedCounts(front), [last.commits.count]);
      }
    }
  }

  /** The counters `UserStats` computes from the repository listing. */
  datatype Totals = Totals(stars: nat, forks: nat, commits: nat, repoCount: nat)

  /** Lines 45-48 of update.py: the three sums and the repository count. */
  function Aggregate(repos: seq<Repo>): (t: Totals)
    ensures t.repoCount == |repos|
    ensures t.commits == CommitTotal(repos)
    ensures repos == [] ==> t == Totals(0, 0, 0, 0)
  {
    Totals(Sum(StarCounts(repos)), Sum(ForkCounts(repos)), CommitTotal(repos), |repos|)
  }

  function Add(x: Totals, y: Totals): Totals {
    Totals(x.stars + y.stars, x.forks + y.forks, x.commits + y.commits, x.repoCount + y.repoCount)
  }

  /** Aggregating two listings one after the other adds their totals. */
  lemma AggregateAppend(a: seq<Repo>, b: seq<Repo>)
    ensures Aggregate(a + b) == Add(Aggregate(a), Aggregate(b))
  {
    assert StarCounts(a + b) == StarCounts(a) + StarCounts(b);
    assert ForkCounts(a + b) == ForkCounts(a) + ForkCounts(b);
    SumAppend(StarCounts(a), StarCounts(b));
    SumAppend(ForkCounts(a), ForkCounts(b));
    CommitTotalAppend(a, b);
  }

  /** A single repository's stars and forks are the totals of a one-element listing. */
  lemma AggregateSingle(repo: Repo)
    ensures Aggregate([repo]) == Totals(repo.stars, repo.forks, Contribution(repo), 1)
  {
    AttributedStep([repo]);
    assert [repo][..0] == [];
  }

  /** Two repositories, a fork with 5 commits and an original with 10: 10 commits. */
  lemma ForkNotCounted()
    ensures CommitTotal([Repo(0, 0, true, Ok(5)), Repo(0, 0, false, Ok(10))]) == 10
  {
    CommitTotalMonotone([Repo(0, 0, true, Ok(5))], Repo(0, 0, false, Ok(10)));
    AggregateSingle(Repo(0, 0, true, Ok(5)));
  }
}
