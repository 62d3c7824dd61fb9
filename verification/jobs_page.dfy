/** The jobs page: a search over a module-level list of job postings, the saved
    set, the match-score colour, and the two score-ordered sections. */
module JobsPage {
  import opened Common
  import opened Sorting

  /** A posting, with the fields the page's logic reads. `type` is kept as a
      string because the filter compares it with the select's value. */
  datatype Job = Job(
    id: string,
    title: string,
    company: string,
    location: string,
    jobType: string,
    skills: seq<string>,
    isBookmarked: bool,
    matchScore: Option<int>)

  /** `job.matchScore || 0`. */
  function Score(j: Job): (s: int)
    ensures j.matchScore.None? ==> s == 0
    ensures j.matchScore.Some? ==> s == j.matchScore.value
  {
    if j.matchScore.Some? then j.matchScore.value else 0
  }

  // ---------------------------------------------------------------------------
  // Search

  predicate MatchesSearch(j: Job, search: string)
  {
    ContainsIgnoreCase(j.title, search) || ContainsIgnoreCase(j.company, search) || AnyContainsIgnoreCase(j.skills, search)
  }

  /** An empty location query passes every job. */
  predicate MatchesLocation(j: Job, location: string)
  {
    location == "" || ContainsIgnoreCase(j.location, location)
  }

  predicate MatchesType(j: Job, typeFilter: string)
  {
    typeFilter == "All Types" || j.jobType == typeFilter
  }

  predicate Shown(j: Job, search: string, location: string, typeFilter: string)
  {
    MatchesSearch(j, search) && MatchesLocation(j, location) && MatchesType(j, typeFilter)
  }

  function ShownFilter(search: string, location: string, typeFilter: string): Job -> bool
  {
    (j: Job) => Shown(j, search, location, typeFilter)
  }

  /** `filteredJobs`: the jobs passing all three tests, in list order. */
  function FilteredJobs(jobs: seq<Job>, search: string, location: string, typeFilter: string): (r: seq<Job>)
    ensures Subsequence(r, jobs)
    ensures forall k :: 0 <= k < |r| ==> r[k] in jobs && Shown(r[k], search, location, typeFilter)
    ensures forall k :: 0 <= k < |jobs| && Shown(jobs[k], search, location, typeFilter) ==> jobs[k] in r
    ensures KeepsCounts(r, jobs, ShownFilter(search, location, typeFilter))
  {
    FilterIsSubsequence(jobs, ShownFilter(search, location, typeFilter));
    FilterCounts(jobs, ShownFilter(search, location, typeFilter));
    Filter(jobs, ShownFilter(search, location, typeFilter))
  }

  /** With every input at its initial value the whole list is shown. */
  lemma NoFilterShowsAll(jobs: seq<Job>)
    ensures FilteredJobs(jobs, "", "", "All Types") == jobs
  {
    forall j: Job ensures ShownFilter("", "", "All Types")(j) {
      ContainsEmpty(j.title);
    }
    FilterPassAll(jobs, ShownFilter("", "", "All Types"));
  }

  // ---------------------------------------------------------------------------
  // Match colour

  /** `getMatchColor`. */
  function MatchColor(score: int): (c: string)
    ensures score >= 80 ==> c == "text-green-500"
    ensures 60 <= score < 80 ==> c == "text-yellow-500"
    ensures score < 60 ==> c == "text-red-500"
  {
    if score >= 80 then "text-green-500"
    else if score >= 60 then "text-yellow-500"
    else "text-red-500"
  }

  /** A higher score never gets a worse colour. */
  function ColorRank(c: string): int
  {
    if c == "text-green-500" then 2 else if c == "text-yellow-500" then 1 else 0
  }

  lemma MatchColorMonotone(a: int, b: int)
    requires a <= b
    ensures ColorRank(MatchColor(a)) <= ColorRank(MatchColor(b))
  {
  }

  // ---------------------------------------------------------------------------
  // Saved jobs

  function IsBookmarked(j: Job): bool
  {
    j.isBookmarked
  }

  function IdOf(j: Job): string
  {
    j.id
  }

  /** The saved set the page starts with: the ids of the bookmarked postings. */
  function InitialSaved(jobs: seq<Job>): (r: set<string>)
    ensures forall k :: 0 <= k < |jobs| && jobs[k].isBookmarked ==> jobs[k].id in r
    ensures forall x :: x in r ==> exists k :: 0 <= k < |jobs| && jobs[k].isBookmarked && jobs[k].id == x
  {
    IdsWhere(jobs, IsBookmarked, IdOf)
  }

  /** The page's saved-jobs state. */
  class JobsPageState {
    var savedJobs: set<string>

    constructor (jobs: seq<Job>)
      ensures savedJobs == InitialSaved(jobs)
    {
      savedJobs := InitialSaved(jobs);
    }

    /** `toggleSaveJob`: copies the set, then deletes the id from the copy when it
        is there and adds it otherwise. */
    method ToggleSaveJob(jobId: string)
      modifies this
      ensures savedJobs == Toggle(old(savedJobs), jobId)
      ensures jobId in savedJobs <==> jobId !in old(savedJobs)
    {
      var newSet := savedJobs;
      if jobId in newSet {
        newSet := newSet - {jobId};
      } else {
        newSet := newSet + {jobId};
      }
      savedJobs := newSet;
    }
  }

  // ---------------------------------------------------------------------------
  // Score-ordered sections

  predicate Recommendable(j: Job)
  {
    Score(j) >= 75
  }

  function RecommendableFilter(): Job -> bool
  {
    (j: Job) => Recommendable(j)
  }

  /** The Recommended tab: the postings scoring at least 75 (a missing score is
      0), copied out by `filter` and sorted by descending score. */
  method Recommended(jobs: seq<Job>) returns (r: seq<Job>)
    ensures multiset(r) == multiset(Filter(jobs, RecommendableFilter()))
    ensures forall k :: 0 <= k < |r| ==> Score(r[k]) >= 75 && r[k] in jobs
    ensures NonIncreasing(r, Score)
  {
    var picked := Filter(jobs, RecommendableFilter());
    var a := new Job[|picked|](i requires 0 <= i < |picked| => picked[i]);
    assert a[..] == picked;
    SortDescending(a, Score);
    r := a[..];
    forall k | 0 <= k < |r| ensures Score(r[k]) >= 75 && r[k] in jobs {
      assert r[k] in multiset(picked);
    }
  }

  /** The Top Match card: sorts the module-level list in place by descending
      score and shows its first element, which has a maximal score. */
  method TopMatch(jobs: array<Job>) returns (top: seq<Job>)
    modifies jobs
    ensures multiset(jobs[..]) == multiset(old(jobs[..]))
    ensures NonIncreasing(jobs[..], Score)
    ensures top == Take(jobs[..], 1)
    ensures jobs.Length == 0 <==> top == []
    ensures top != [] ==> forall k :: 0 <= k < jobs.Length ==> Score(top[0]) >= Score(old(jobs[..])[k])
  {
    SortDescending(jobs, Score);
    top := Take(jobs[..], 1);
    if jobs.Length > 0 {
      HeadIsMaximal(jobs[..], old(jobs[..]), Score);
    }
  }
}
