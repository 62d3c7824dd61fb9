/** The courses page: a search with category, level and price filters over a
    module-level course list, the in-progress section, bookmarks, and the
    trending section ordered by enrolment. */
module CoursesPage {
  import opened Common
  import opened Sorting

  /** `number | 'Free'`. */
  datatype Price = Free | Amount(value: real)

  /** A course, with the fields the page's logic reads. */
  datatype Course = Course(
    id: string,
    title: string,
    description: string,
    students: int,
    level: string,
    category: string,
    price: Price,
    progress: Option<int>,
    tags: seq<string>,
    isBookmarked: bool)

  // ---------------------------------------------------------------------------
  // Search

  predicate MatchesSearch(c: Course, search: string)
  {
    ContainsIgnoreCase(c.title, search) || ContainsIgnoreCase(c.description, search) || AnyContainsIgnoreCase(c.tags, search)
  }

  /** The level select offers lower-case values; the course's level is lowered. */
  predicate MatchesLevel(c: Course, levelFilter: string)
  {
    levelFilter == "all" || Lower(c.level) == levelFilter
  }

  /** 'free' keeps free courses, 'paid' the priced ones, 'all' every course and
      any other value none. */
  predicate MatchesPrice(c: Course, priceFilter: string)
  {
    || priceFilter == "all"
    || (priceFilter == "free" && c.price == Free)
    || (priceFilter == "paid" && c.price != Free)
  }

  predicate Shown(c: Course, search: string, category: string, levelFilter: string, priceFilter: string)
  {
    && MatchesSearch(c, search)
    && (category == "all" || c.category == category)
    && MatchesLevel(c, levelFilter)
    && MatchesPrice(c, priceFilter)
  }

  function ShownFilter(search: string, category: string, levelFilter: string, priceFilter: string): Course -> bool
  {
    (c: Course) => Shown(c, search, category, levelFilter, priceFilter)
  }

  /** `filteredCourses`: the courses passing all four tests, in list order. */
  function FilteredCourses(courses: seq<Course>, search: string, category: string, levelFilter: string, priceFilter: string)
    : (r: seq<Course>)
    ensures Subsequence(r, courses)
    ensures forall k :: 0 <= k < |r| ==> r[k] in courses && Shown(r[k], search, category, levelFilter, priceFilter)
    ensures forall k :: 0 <= k < |courses| && Shown(courses[k], search, category, levelFilter, priceFilter) ==>
      courses[k] in r
    ensures KeepsCounts(r, courses, ShownFilter(search, category, levelFilter, priceFilter))
  {
    FilterIsSubsequence(courses, ShownFilter(search, category, levelFilter, priceFilter));
    FilterCounts(courses, ShownFilter(search, category, levelFilter, priceFilter));
    Filter(courses, ShownFilter(search, category, levelFilter, priceFilter))
  }

  /** With the other filters fixed, the 'free' and the 'paid' lists split the
      'all' list: each of its courses is in exactly one of them, the sizes add
      up, and neither holds anything the 'all' list lacks. */
  lemma PriceFiltersPartition(courses: seq<Course>, search: string, category: string, levelFilter: string)
    ensures var all := FilteredCourses(courses, search, category, levelFilter, "all");
            var free := FilteredCourses(courses, search, category, levelFilter, "free");
            var paid := FilteredCourses(courses, search, category, levelFilter, "paid");
            && |free| + |paid| == |all|
            && (forall k :: 0 <= k < |all| ==> (all[k] in free <==> all[k].price == Free))
            && (forall k :: 0 <= k < |all| ==> (all[k] in paid <==> all[k].price != Free))
            && (forall k :: 0 <= k < |free| ==> free[k] in all)
            && (forall k :: 0 <= k < |paid| ==> paid[k] in all)
  {
    PriceSplitCount(courses, search, category, levelFilter);
    var all := FilteredCourses(courses, search, category, levelFilter, "all");
    forall k | 0 <= k < |all| {
      PriceMember(courses, search, category, levelFilter, all[k]);
    }
  }

  /** A course of the 'all' list is in the 'free' list exactly when it is free,
      and in the 'paid' list exactly when it is not. */
  lemma PriceMember(courses: seq<Course>, search: string, category: string, levelFilter: string, c: Course)
    requires c in FilteredCourses(courses, search, category, levelFilter, "all")
    ensures c in FilteredCourses(courses, search, category, levelFilter, "free") <==> c.price == Free
    ensures c in FilteredCourses(courses, search, category, levelFilter, "paid") <==> c.price != Free
  {
    var all := FilteredCourses(courses, search, category, levelFilter, "all");
    var k :| 0 <= k < |all| && all[k] == c;
    assert c in courses && Shown(c, search, category, levelFilter, "all");
    var i :| 0 <= i < |courses| && courses[i] == c;
  }

  /** The counting half of the split above, by induction on the list. */
  lemma {:induction false} PriceSplitCount(courses: seq<Course>, search: string, category: string, levelFilter: string)
    ensures |Filter(courses, ShownFilter(search, category, levelFilter, "free"))|
            + |Filter(courses, ShownFilter(search, category, levelFilter, "paid"))|
            == |Filter(courses, ShownFilter(search, category, levelFilter, "all"))|
    decreases |courses|
  {
    if courses != [] {
      PriceSplitCount(courses[1..], search, category, levelFilter);
    }
  }

  /** An unknown price value shows nothing. */
  lemma UnknownPriceShowsNothing(courses: seq<Course>, search: string, category: string, levelFilter: string, priceFilter: string)
    requires priceFilter != "all" && priceFilter != "free" && priceFilter != "paid"
    ensures FilteredCourses(courses, search, category, levelFilter, priceFilter) == []
  {
  }

  /** `c.progress && c.progress > 0`. */
  predicate Started(c: Course)
  {
    c.progress.Some? && c.progress.value > 0
  }

  function StartedFilter(): Course -> bool
  {
    (c: Course) => Started(c)
  }

  /** `inProgressCourses`: exactly the courses with a positive progress, in order. */
  function InProgressCourses(courses: seq<Course>): (r: seq<Course>)
    ensures Subsequence(r, courses)
    ensures forall k :: 0 <= k < |r| ==> r[k] in courses && r[k].progress.Some? && r[k].progress.value > 0
    ensures forall k :: 0 <= k < |courses| && Started(courses[k]) ==> courses[k] in r
    ensures KeepsCounts(r, courses, StartedFilter())
  {
    FilterIsSubsequence(courses, StartedFilter());
    FilterCounts(courses, StartedFilter());
    Filter(courses, StartedFilter())
  }

  // ---------------------------------------------------------------------------
  // Bookmarks

  function IsBookmarked(c: Course): bool
  {
    c.isBookmarked
  }

  function IdOf(c: Course): string
  {
    c.id
  }

  /** The bookmark set the page starts with: the ids of the bookmarked courses. */
  function InitialBookmarks(courses: seq<Course>): (r: set<string>)
    ensures forall k :: 0 <= k < |courses| && courses[k].isBookmarked ==> courses[k].id in r
    ensures forall x :: x in r ==> exists k :: 0 <= k < |courses| && courses[k].isBookmarked && courses[k].id == x
  {
    IdsWhere(courses, IsBookmarked, IdOf)
  }

  /** The page's bookmark state. */
  class CoursesPageState {
    var bookmarkedCourses: set<string>

    constructor (courses: seq<Course>)
      ensures bookmarkedCourses == InitialBookmarks(courses)
    {
      bookmarkedCourses := InitialBookmarks(courses);
    }

    /** `toggleBookmark`: copies the set, then deletes the id from the copy when it
        is there and adds it otherwise. */
    method ToggleBookmark(courseId: string)
      modifies this
      ensures bookmarkedCourses == Toggle(old(bookmarkedCourses), courseId)
      ensures courseId in bookmarkedCourses <==> courseId !in old(bookmarkedCourses)
    {
      var newSet := bookmarkedCourses;
      if courseId in newSet {
        newSet := newSet - {courseId};
      } else {
        newSet := newSet + {courseId};
      }
      bookmarkedCourses := newSet;
    }
  }

  // ---------------------------------------------------------------------------
  // Trending

  function Students(c: Course): int
  {
    c.students
  }

  /** The Trending tab: sorts the module-level list in place by descending
      enrolment and shows its first four courses, none of which has fewer
      students than a course left out. */
  method Trending(courses: array<Course>) returns (shown: seq<Course>)
    modifies courses
    ensures multiset(courses[..]) == multiset(old(courses[..]))
    ensures NonIncreasing(courses[..], Students)
    ensures shown == Take(courses[..], 4)
    ensures |shown| == if courses.Length < 4 then courses.Length else 4
    ensures NonIncreasing(shown, Students)
    ensures forall i, k :: 0 <= i < |shown| <= k < courses.Length ==> shown[i].students >= courses[k].students
  {
    SortDescending(courses, Students);
    shown := Take(courses[..], 4);
  }
}
