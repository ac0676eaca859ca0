# GitHub stats card: formatting, aggregation and theme lookup

The repository renders a single user's GitHub activity into an SVG card.
`update.py` fetches the profile and repositories through PyGithub, sums
stars, forks and commits over the repositories, pads every counter except
`watch` to a twelve-character column (a number wider than eleven digits gets
no padding), decorates the login name, picks a colour theme and
fills a Jinja2 template. This project models the pure, sequential part of
that script in Dafny and proves what it does:

- `Decimal` (decimal.dfy): `str(n)` for a natural number (`NatToString`)
  and its inverse `ParseDecimal`.
- `Format` (format.dfy): `align`, which pads a counter to the twelve-column
  field; `Unalign`, which reads a column back, and `IsColumnOf`, which says
  a text is a column of the right width for a counter; and `align_username`,
  which decorates or truncates the login.
- `Stats` (stats.dfy): a repository is `Repo(stars, forks, isFork, commits)`.
  Its commit fetch is `CommitResult = Ok(count) | Failed`, so the
  `GithubException` that `get_commits` swallows becomes a value. The module
  holds the star and fork sums, the commit fold as a method with the
  source's loop shape, and an independent reference definition of the
  commit total (`CommitTotal`: the sum of the counts of non-fork repositories
  whose fetch succeeded).
- `Themes` (themes.dfy): the nine-entry `THEMES` table as a
  `map<string, Theme>` and `get_theme`, which falls back to `"default"`.
- `Card` (card.dfy): the counter and login fields of the record `get_stats`
  builds; each aligned column is exactly `align` of its counter.
- `Wrappers` (wrappers.dfy): the `Option` type.

Strings are `seq<char>`; Dafny's `char` is a Unicode scalar value, so
`|name|` agrees with Python's `len` on a `str`.

`align` pads only numbers of at most eleven digits, because Python's
`" " * k` is empty for negative `k`; a wider number gets no padding. `Align`
states both cases. Each theme entry carries a `name` as well as its seven
colours, and `Theme` keeps it.

## Model

| member | source | states |
|---|---|---|
| Decimal.NatToString | update.py:18 | `str(number)` for a count is a non-empty string of decimal digits with no leading zero |
| Decimal.NatToStringLength | update.py:18 | a number has at most k digits exactly when it is below 10^k, which decides whether `align` pads |
| Decimal.ParseNatToString | update.py:18 | reading the decimal rendering back gives the original number |
| Decimal.NatToStringParse | update.py:18 | every canonical numeral is the rendering of its own value, so rendering is a bijection onto canonical numerals |
| Format.Repeat | update.py:18 | `" " * k` has k spaces for positive k and is empty for zero or negative k |
| Format.Align | update.py:15-18 | a number below 10^11 gives exactly 12 characters; a wider number gives a space plus its digits, with no padding; every result is a space, the digits, then only spaces |
| Format.UnalignAlign | update.py:18 | the column loses nothing: reading an aligned counter back yields the counter |
| Format.UnalignShape | update.py:18 | any text that reads back as a counter is a space, that counter's numeral and only spaces after it |
| Format.ColumnIsAlign | update.py:18 | a text is a column of the right width (12, or 1 plus the digit count for wider numbers) that reads back as n if and only if it is `align(n)` |
| Format.AlignInjective | update.py:18 | two counters have the same column text if and only if they are equal |
| Format.AlignSeven | update.py:18 | `align(7)` is a space, `7` and ten spaces |
| Format.AlignUsername | update.py:21-33 | every result has length 11 to 17; a name of at most 17 characters is a prefix of its result; a name of at least 17 characters becomes exactly its first 17 characters; the result equals the name exactly when the name has 11 to 17 characters |
| Format.AlignUsernameDecorates | update.py:24-29 | names of length at most 5, 6-7 and 8-10 get `@github.com`, `@github` and `@git` appended |
| Format.AlignUsernameIdempotent | update.py:24-33 | formatting a formatted name changes nothing |
| Format.AlignUsernameRange | update.py:24-33 | the possible outputs are exactly the strings of length 11 to 17 |
| Format.AlignUsernameNotInjective | update.py:24-33 | `abcde` and `abcde@github.com` format to the same text |
| Stats.SumAppend | update.py:45-46 | Python's `sum` over a concatenation is the sum of the parts |
| Stats.StarCounts | update.py:45 | the star list has one entry per repository, holding that repository's stargazer count |
| Stats.ForkCounts | update.py:46 | the fork list has one entry per repository, holding that repository's fork count |
| Stats.Contribution | update.py:64-70 | a fork or a failed commit fetch contributes 0; a non-fork with a successful fetch contributes its commit count |
| Stats.GetCommits | update.py:61-72 | the loop that appends per-repository contributions and sums them equals the sum of the commit counts of non-fork repositories with a successful fetch |
| Stats.AttributedStep | update.py:63-70 | one more repository at the end of the list adds exactly its contribution to the commit total |
| Stats.CommitTotalAppend | update.py:61-72 | the commit total of two concatenated listings is the sum of their totals |
| Stats.IgnoredRepoAddsNothing | update.py:63-70 | a fork or a repository whose fetch failed, at any position, leaves the commit total unchanged and does not stop the fold |
| Stats.CommitTotalMonotone | update.py:62-72 | appending a repository never lowers the commit total |
| Stats.CommitTotalBounded | update.py:61-72 | the commit total never exceeds the sum of all successful fetches, forks included |
| Stats.Aggregate | update.py:45-48 | the repository count is the listing's length; the commit total is the reference total; an empty listing gives all zeros |
| Stats.AggregateAppend | update.py:45-48 | stars, forks, commits and repository count are each additive over concatenated listings |
| Stats.AggregateSingle | update.py:45-48 | a one-repository listing has that repository's stars and forks and its contribution as commits |
| Stats.ForkNotCounted | update.py:63-72 | a fork with 5 commits and a non-fork with 10 commits total 10 |
| Themes.TableShape | update.py:121-212 | the table has exactly the nine named keys, including `default`, and every entry's `name` equals its key |
| Themes.TableColours | update.py:121-212 | every colour in the table is `#` followed by six hex digits |
| Themes.GetTheme | update.py:215-217 | the result is a table entry filed under its own name; its name equals the requested key if and only if the key is in the table; an unknown key yields the `default` entry |
| Themes.GetThemeStable | update.py:215-217 | looking up the name of a looked-up theme returns the same theme |
| Themes.GetThemeExamples | update.py:142-151 | `dracula` has background `#282A36`; an unknown name gives the theme named `default` |
| Card.MakeCard | update.py:102-116 | the login field is the formatted login, of length 11 to 17; every counter field except `watch` is a column of `align`'s width that reads back as its stars, forks, commits, repository, follower, issue, pull-request or gist count, so by `ColumnIsAlign` it is exactly `align` of that count; `watch` is the bare watched count |
| Card.EmptyListingCard | update.py:45-48 | a user without repositories shows aligned zeros for stars, forks, commits and repositories |

## Left out

- PyGithub calls (`gh.get_user`, `get_repos`, `search_issues`, `get_watched`, `get_gists`, `get_commits().totalCount`) and the `GHT` token (update.py:10-12, 40-59): these are network I/O through a library outside the model. Their results are inputs: the repository list, the `CommitResult` of each fetch, and the `Activity` counters.
- Stats.GetCommits: only `GithubException` is swallowed (update.py:69). Any other exception from a repository's commit fetch, such as a connection error or a timeout that PyGithub does not wrap, propagates out of `get_commits` and ends the run. `CommitResult` has no case for it, so the model does not describe that abort.
- A failure of the profile or repository-listing call propagates in the source and ends the run. The model starts from a listing that was fetched.
- `uptime` (update.py:118) depends on the wall clock and timestamp arithmetic.
- Profile fields that `get_stats` passes through unchanged (`name`, `bio`, `website`, `pic`, `hire`) carry no logic beyond copying.
- Reading `template.svg`, rendering the Jinja2 template and writing `stats.svg` (update.py:220-229) are file I/O and a foreign library.
- `random.choice` of the theme name (update.py:227) is non-deterministic; `GetTheme` takes the name as an argument.
- Format.Align: takes a natural number. `str` of a negative int (a leading `-`) is not modelled, because every counter passed to `align` is a sum, a length or an API count.
