/**
  The numeric and username fields of the record `get_stats` hands to the
  card template: every counter except the watched-repository count goes
  through `align`, and the login goes through `align_username`.
 */
module Card {
  import opened Format
  import opened Stats

  /** Counters read from the profile and the search and listing calls. */
  datatype Activity = Activity(followers: nat, issues: nat, pullRequests: nat, watching: nat, gists: nat)

  /** The template-facing fields of the stats record. */
  datatype StatsCard = StatsCard(
    username: string,
    stars: string,
    forks: string,
    commits: string,
    repo: string,
    followers: string,
    issues: string,
    pr: string,
    watch: nat,
    gists: string)

  /**
    Lines 102-116 of update.py: the aligned counters of one user. Each
    column has the width `align` gives and reads back as the counter it was
    made from; `watch` is passed on as a bare number.
   */
  function MakeCard(login: string, repos: seq<Repo>, activity: Activity): (c: StatsCard)
    ensures c.username == AlignUsername(login) && 11 <= |c.username| <= 17
    ensures IsColumnOf(c.stars, Aggregate(repos).stars)
    ensures IsColumnOf(c.forks, Aggregate(repos).forks)
    ensures IsColumnOf(c.commits, CommitTotal(repos))
    ensures IsColumnOf(c.repo, |repos|)
    ensures IsColumnOf(c.followers, activity.followers)
    ensures IsColumnOf(c.issues, activity.issues)
    ensures IsColumnOf(c.pr, activity.pullRequests)
    ensures c.watch == activity.watching
    ensures IsColumnOf(c.gists, activity.gists)
  {
    var totals := Aggregate(repos);
    ColumnIsAlign(Align(totals.stars), totals.stars);
    ColumnIsAlign(Align(totals.forks), totals.forks);
    ColumnIsAlign(Align(totals.commits), totals.commits);
    ColumnIsAlign(Align(totals.repoCount), totals.repoCount);
    ColumnIsAlign(Align(activity.followers), activity.followers);
    ColumnIsAlign(Align(activity.issues), activity.issues);
    ColumnIsAlign(Align(activity.pullRequests), activity.pullRequests);
    ColumnIsAlign(Align(activity.gists), activity.gists);
    StatsCard(
      AlignUsername(login),
      Align(totals.stars),
      Align(totals.forks),
      Align(totals.commits),
      Align(totals.repoCount),
      Align(activity.followers),
      Align(activity.issues),
      Align(activity.pullRequests),
      activity.watching,
      Align(activity.gists))
  }

  /** A user without repositories shows zero stars, forks, commits and repositories. */
  lemma EmptyListingCard(login: string, activity: Activity)
    ensures MakeCard(login, [], activity).stars == Align(0)
    ensures MakeCard(login, [], activity).forks == Align(0)
    ensures MakeCard(login, [], activity).commits == Align(0)
    ensures MakeCard(login, [], activity).repo == Align(0)
  {
  }
}
