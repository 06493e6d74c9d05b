/** Listing the pull requests of a date range through a search that never returns more than a thousand
    (scripts/docs-review-receipt.py:332-342). Days are numbered. */
module PullRequests {
  import opened Wrappers

  const LIMIT := 1000

  datatype PullRequest = PullRequest(number: nat, created: int)

  /** A search for the pull requests created from one day to another. */
  type Search = (int, int) -> seq<PullRequest>

  /** Those of the repository that were created in the range. */
  function InRange(all: seq<PullRequest>, since: int, through: int): seq<PullRequest> {
    if all == [] then []
    else
      var pr := all[|all| - 1];
      InRange(all[..|all| - 1], since, through) + if since <= pr.created <= through then [pr] else []
  }

  /** The search finds nothing else than the range, and all of it but for what exceeds the limit. */
  ghost predicate CutAtLimit(search: Search, all: seq<PullRequest>) {
    forall since, through ::
      && multiset(search(since, through)) <= multiset(InRange(all, since, through))
      && |search(since, through)| ==
        (if |InRange(all, since, through)| < LIMIT then |InRange(all, since, through)| else LIMIT)
  }

  ghost predicate Overfull(all: seq<PullRequest>, day: int) {
    |InRange(all, day, day)| >= LIMIT
  }

  lemma {:induction false} RangeSplits(all: seq<PullRequest>, since: int, middle: int, through: int)
    requires since <= middle + 1 && middle <= through
    ensures multiset(InRange(all, since, through)) ==
      multiset(InRange(all, since, middle)) + multiset(InRange(all, middle + 1, through))
    ensures |InRange(all, since, through)| == |InRange(all, since, middle)| + |InRange(all, middle + 1, through)|
  {
    if all != [] {
      RangeSplits(all[..|all| - 1], since, middle, through);
    }
  }

  lemma {:induction false} EmptyRange(all: seq<PullRequest>, since: int, through: int)
    requires through < since
    ensures InRange(all, since, through) == []
  {
    if all != [] {
      EmptyRange(all[..|all| - 1], since, through);
    }
  }

  /** The lists of two halves; the first failure ends the listing. */
  function Joined(
    early: Result<seq<PullRequest>, int>, late: Result<seq<PullRequest>, int>): Result<seq<PullRequest>, int> {
    if early.Failure? then early else if late.Failure? then late else Success(early.value + late.value)
  }

  /** `_list_pull_requests`: a list, or the day that the search cannot list. */
  function ListPullRequests(
    search: Search, since: int, through: int, ghost all: seq<PullRequest>): Result<seq<PullRequest>, int>
    requires CutAtLimit(search, all)
    decreases through - since
  {
    var found := search(since, through);
    if |found| < LIMIT then Success(found)
    else if since == through then Failure(since)
    else
      var middle := since + (through - since) / 2;
      assert since <= through by {
        if through < since {
          EmptyRange(all, since, through);
        }
      }
      Joined(ListPullRequests(search, since, middle, all), ListPullRequests(search, middle + 1, through, all))
  }

  lemma SubsetOfSameSize(a: multiset<PullRequest>, b: multiset<PullRequest>)
    requires a <= b && |a| == |b|
    ensures a == b
  {
    assert b == a + (b - a);
  }

  lemma {:induction false} NarrowerIsSmaller(all: seq<PullRequest>, since: int, day: int, through: int)
    requires since <= day <= through
    ensures |InRange(all, day, day)| <= |InRange(all, since, through)|
  {
    if all != [] {
      NarrowerIsSmaller(all[..|all| - 1], since, day, through);
    }
  }

  /** A search below the limit found its whole range, and no day in it is overfull. */
  lemma BelowLimit(search: Search, since: int, through: int, all: seq<PullRequest>)
    requires CutAtLimit(search, all) && |search(since, through)| < LIMIT
    ensures Exact(Success(search(since, through)), since, through, all)
  {
    SubsetOfSameSize(multiset(search(since, through)), multiset(InRange(all, since, through)));
    forall day | since <= day <= through ensures !Overfull(all, day) {
      NarrowerIsSmaller(all, since, day, through);
    }
  }

  /** A list is the range, each pull request as often as the repository has it; a failure names the first day that
      has as many as the search can return. */
  ghost predicate Exact(result: Result<seq<PullRequest>, int>, since: int, through: int, all: seq<PullRequest>) {
    match result
    case Success(found) =>
      && multiset(found) == multiset(InRange(all, since, through))
      && forall day | since <= day <= through :: !Overfull(all, day)
    case Failure(day) =>
      && since <= day <= through && Overfull(all, day)
      && forall earlier | since <= earlier < day :: !Overfull(all, earlier)
  }

  lemma BothHalves(early: Result<seq<PullRequest>, int>, late: Result<seq<PullRequest>, int>,
                   since: int, middle: int, through: int, all: seq<PullRequest>)
    requires since <= middle <= through && Exact(early, since, middle, all) && Exact(late, middle + 1, through, all)
    ensures Exact(Joined(early, late), since, through, all)
  {
    hide InRange;
    RangeSplits(all, since, middle, through);
  }

  lemma SingleDay(search: Search, day: int, all: seq<PullRequest>)
    requires CutAtLimit(search, all) && |search(day, day)| >= LIMIT
    ensures Exact(Failure(day), day, day, all)
  {
  }

  /** The listing succeeds with exactly the range if no day is overfull, and fails at the first overfull day. */
  lemma {:induction false} ListsExactlyTheRange(search: Search, since: int, through: int, all: seq<PullRequest>)
    requires CutAtLimit(search, all)
    ensures Exact(ListPullRequests(search, since, through, all), since, through, all)
    decreases through - since
  {
    hide InRange, Exact;
    if |search(since, through)| < LIMIT {
      BelowLimit(search, since, through, all);
    } else if since < through {
      var middle := since + (through - since) / 2;
      ListsExactlyTheRange(search, since, middle, all);
      ListsExactlyTheRange(search, middle + 1, through, all);
      BothHalves(ListPullRequests(search, since, middle, all), ListPullRequests(search, middle + 1, through, all),
        since, middle, through, all);
    } else if since == through {
      SingleDay(search, since, all);
    } else {
      EmptyRange(all, since, through);
    }
  }

  /** With distinct pull requests, each is listed once. */
  lemma EachListedOnce(search: Search, since: int, through: int, all: seq<PullRequest>)
    requires CutAtLimit(search, all) && forall i, j | 0 <= i < j < |all| :: all[i] != all[j]
    requires ListPullRequests(search, since, through, all).Success?
    ensures var found := ListPullRequests(search, since, through, all).value;
            && (forall pr :: pr in found <==> pr in all && since <= pr.created <= through)
            && (forall i, j | 0 <= i < j < |found| :: found[i] != found[j])
  {
    var found := ListPullRequests(search, since, through, all).value;
    ListsExactlyTheRange(search, since, through, all);
    InRangeMembers(all, since, through);
    forall pr: PullRequest ensures multiset(found)[pr] <= 1 && (pr in found <==> multiset(found)[pr] > 0) {
    }
    NoRepeats(found);
  }

  lemma {:induction false} InRangeMembers(all: seq<PullRequest>, since: int, through: int)
    requires forall i, j | 0 <= i < j < |all| :: all[i] != all[j]
    ensures forall pr ::
      multiset(InRange(all, since, through))[pr] == if pr in all && since <= pr.created <= through then 1 else 0
  {
    if all != [] {
      var front, last := all[..|all| - 1], all[|all| - 1];
      InRangeMembers(front, since, through);
      assert all == front + [last];
      assert last !in front;
    }
  }

  lemma {:induction false} NoRepeats(s: seq<PullRequest>)
    requires forall pr :: multiset(s)[pr] <= 1
    ensures forall i, j | 0 <= i < j < |s| :: s[i] != s[j]
  {
    forall i, j | 0 <= i < j < |s| ensures s[i] != s[j] {
      assert s == s[..j] + s[j..];
      assert s[i] in s[..j] && s[j] in s[j..];
      assert multiset(s)[s[i]] == multiset(s[..j])[s[i]] + multiset(s[j..])[s[i]];
    }
  }
}
