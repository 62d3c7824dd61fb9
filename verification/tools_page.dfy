/** The tools page: a search over the catalogue of external tools, the
    favourites list, the Popular section and one section per category. */
module ToolsPage {
  import opened Common

  datatype Category = Ai | Coding | Ece | Cloud

  /** A catalogue entry; a missing `popular` flag reads as false. */
  datatype Tool = Tool(
    id: string,
    name: string,
    description: string,
    url: string,
    category: Category,
    icon: string,
    popular: bool)

  // ---------------------------------------------------------------------------
  // Derived lists

  function SearchFilter(search: string): Tool -> bool
  {
    (t: Tool) => ContainsIgnoreCase(t.name, search) || ContainsIgnoreCase(t.description, search)
  }

  /** `filteredTools`: the tools whose name or description contains the search
      text, ignoring case, in catalogue order. */
  function FilteredTools(tools: seq<Tool>, search: string): (r: seq<Tool>)
    ensures Subsequence(r, tools)
    ensures forall k :: 0 <= k < |r| ==>
      r[k] in tools && (ContainsIgnoreCase(r[k].name, search) || ContainsIgnoreCase(r[k].description, search))
    ensures forall k :: 0 <= k < |tools| ==>
      (ContainsIgnoreCase(tools[k].name, search) || ContainsIgnoreCase(tools[k].description, search)) ==> tools[k] in r
    ensures KeepsCounts(r, tools, SearchFilter(search))
  {
    FilterIsSubsequence(tools, SearchFilter(search));
    FilterCounts(tools, SearchFilter(search));
    Filter(tools, SearchFilter(search))
  }

  /** An empty search shows the whole catalogue. */
  lemma EmptySearchShowsAll(tools: seq<Tool>)
    ensures FilteredTools(tools, "") == tools
  {
    forall t: Tool ensures SearchFilter("")(t) {
      ContainsEmpty(t.name);
    }
    FilterPassAll(tools, SearchFilter(""));
  }

  function PopularFilter(): Tool -> bool
  {
    (t: Tool) => t.popular
  }

  /** The Popular section: the shown tools flagged popular, in their shown order. */
  function Popular(filtered: seq<Tool>): (r: seq<Tool>)
    ensures Subsequence(r, filtered)
    ensures forall k :: 0 <= k < |r| ==> r[k].popular && r[k] in filtered
    ensures forall k :: 0 <= k < |filtered| && filtered[k].popular ==> filtered[k] in r
    ensures KeepsCounts(r, filtered, PopularFilter())
  {
    FilterIsSubsequence(filtered, PopularFilter());
    FilterCounts(filtered, PopularFilter());
    Filter(filtered, PopularFilter())
  }

  function InCategory(c: Category): Tool -> bool
  {
    (t: Tool) => t.category == c
  }

  /** One category section: the shown tools of that category, in shown order. */
  function Section(filtered: seq<Tool>, c: Category): (r: seq<Tool>)
    ensures forall k :: 0 <= k < |r| ==> r[k].category == c && r[k] in filtered
    ensures forall k :: 0 <= k < |filtered| && filtered[k].category == c ==> filtered[k] in r
    ensures KeepsCounts(r, filtered, InCategory(c))
    ensures Subsequence(r, filtered)
  {
    FilterIsSubsequence(filtered, InCategory(c));
    FilterCounts(filtered, InCategory(c));
    Filter(filtered, InCategory(c))
  }

  /** The four sections split the shown tools: each lands in the section of its
      own category and in no other, and the section sizes add up. */
  lemma SectionsPartition(filtered: seq<Tool>)
    ensures |Section(filtered, Ai)| + |Section(filtered, Coding)| + |Section(filtered, Ece)| + |Section(filtered, Cloud)|
            == |filtered|
    ensures forall k :: 0 <= k < |filtered| ==> filtered[k] in Section(filtered, filtered[k].category)
    ensures forall k, c :: 0 <= k < |filtered| && c != filtered[k].category ==> filtered[k] !in Section(filtered, c)
  {
    SectionSizes(filtered);
  }

  /** The counting half of the split above, by induction on the list. */
  lemma {:induction false} SectionSizes(filtered: seq<Tool>)
    ensures |Filter(filtered, InCategory(Ai))| + |Filter(filtered, InCategory(Coding))|
            + |Filter(filtered, InCategory(Ece))| + |Filter(filtered, InCategory(Cloud))| == |filtered|
    decreases |filtered|
  {
    if filtered != [] {
      SectionSizes(filtered[1..]);
    }
  }

  // ---------------------------------------------------------------------------
  // Favourites

  function Not(id: string): string -> bool
  {
    (x: string) => x != id
  }

  /** `toggleFavorite`'s new list: every occurrence of a listed id is dropped, an
      unlisted id is appended. */
  function ToggledFavorites(favorites: seq<string>, id: string): (r: seq<string>)
    ensures id in r <==> id !in favorites
    ensures forall k :: 0 <= k < |favorites| && favorites[k] != id ==> favorites[k] in r
    ensures forall k :: 0 <= k < |r| && r[k] != id ==> r[k] in favorites
    ensures id !in favorites ==> r == favorites + [id]
    ensures id in favorites ==> Subsequence(r, favorites)
    ensures id in favorites ==> KeepsCounts(r, favorites, Not(id))
  {
    if id in favorites then
      FilterIsSubsequence(favorites, Not(id));
      FilterCounts(favorites, Not(id));
      Filter(favorites, Not(id))
    else
      favorites + [id]
  }

  /** An id is appended only when absent, so a list without repetitions keeps
      none. */
  lemma ToggleKeepsDistinct(favorites: seq<string>, id: string)
    requires Distinct(favorites)
    ensures Distinct(ToggledFavorites(favorites, id))
  {
    if id in favorites {
      FilterDistinct(favorites, Not(id));
    }
  }

  /** Toggling an unlisted id twice gives the list back. */
  lemma ToggleAbsentTwice(favorites: seq<string>, id: string)
    requires id !in favorites
    ensures ToggledFavorites(ToggledFavorites(favorites, id), id) == favorites
  {
    FilterAppend(favorites, [id], Not(id));
    FilterKeepsAll(favorites, Not(id));
  }

  /** Toggling a listed id twice removes its occurrences and puts it once at the
      end: a unique favourite moves to the back of the list. */
  lemma TogglePresentTwice(favorites: seq<string>, id: string)
    requires id in favorites
    ensures ToggledFavorites(ToggledFavorites(favorites, id), id) == Filter(favorites, Not(id)) + [id]
    ensures |ToggledFavorites(ToggledFavorites(favorites, id), id)| <= |favorites|
  {
    var once := ToggledFavorites(favorites, id);
    assert id !in once;
    FilterSplitCount(favorites, Not(id), (x: string) => x == id);
    var k :| 0 <= k < |favorites| && favorites[k] == id;
    assert favorites[k] in Filter(favorites, (x: string) => x == id);
  }

  /** The page's favourites state. */
  class ToolsPageState {
    var favorites: seq<string>

    constructor ()
      ensures favorites == []
    {
      favorites := [];
    }

    method ToggleFavorite(toolId: string)
      modifies this
      ensures favorites == ToggledFavorites(old(favorites), toolId)
    {
      favorites := ToggledFavorites(favorites, toolId);
    }
  }
}
