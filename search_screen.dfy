/**
 * The search screen: the query as typed and the mock results built from it.
 * An empty query has no results; any other query, whitespace included, has
 * eight, numbered from one and coloured from a four-entry palette in turn.
 */
module SearchScreen {
  import Decimal

  datatype SearchResult = SearchResult(id: nat, title: string, gradient: string)

  const ResultPalette: seq<string> := [
    "from-red-400/40 to-pink-400/40",
    "from-blue-400/40 to-purple-400/40",
    "from-green-400/40 to-teal-400/40",
    "from-yellow-400/40 to-orange-400/40"
  ]

  /** How many mock results a non-empty query produces. */
  const ResultCount: nat := 8

  /** The `i`-th mock result (counting from zero) for `query`. */
  function MockResult(query: string, i: nat): SearchResult
  {
    SearchResult(i + 1, query + " Wallpaper " + Decimal.NatToString(i + 1), ResultPalette[i % 4])
  }

  /** The result list `handleSearch` stores for `query`. */
  function MockResults(query: string): (results: seq<SearchResult>)
    ensures query == [] <==> results == []
    ensures query != [] ==> |results| == ResultCount
  {
    if |query| > 0 then seq(ResultCount, i requires 0 <= i < ResultCount => MockResult(query, i)) else []
  }

  /** Result `i` has id i+1, the title "<query> Wallpaper <i+1>", and palette entry i mod 4. */
  lemma MockResultsEntries(query: string, i: nat)
    requires i < |MockResults(query)|
    ensures MockResults(query)[i].id == i + 1
    ensures MockResults(query)[i].title == query + " Wallpaper " + Decimal.NatToString(i + 1)
    ensures MockResults(query)[i].gradient == ResultPalette[i % 4]
  {
  }

  /** Results four places apart share a gradient; results one to three places apart do not. */
  lemma GradientsCycle(query: string, i: nat, j: nat)
    requires i < j < |MockResults(query)|
    ensures MockResults(query)[i].gradient == MockResults(query)[j].gradient <==> j - i == 4
  {
    var rs := MockResults(query);
    var gi, gj := rs[i].gradient, rs[j].gradient;
    MockResultsEntries(query, i);
    MockResultsEntries(query, j);
    assert gi == ResultPalette[i % 4] && gj == ResultPalette[j % 4];
    GradientStep(i, j);
  }

  /** Positions below eight pick the same palette entry exactly when they are four apart. */
  lemma GradientStep(i: nat, j: nat)
    requires i < j < 8
    ensures ResultPalette[i % 4] == ResultPalette[j % 4] <==> j - i == 4
  {
    var pi := if i < 4 then i else i - 4;
    var pj := if j < 4 then j else j - 4;
    assert i % 4 == pi && j % 4 == pj;
    PaletteDistinct(pi, pj);
  }

  /** The four palette entries differ (in their sixth character: r, b, g, y). */
  lemma PaletteDistinct(a: nat, b: nat)
    requires a < 4 && b < 4
    ensures ResultPalette[a] == ResultPalette[b] <==> a == b
  {
    assert ResultPalette[0][5] == 'r' && ResultPalette[1][5] == 'b';
    assert ResultPalette[2][5] == 'g' && ResultPalette[3][5] == 'y';
  }

  /** Different results have different ids and different titles. */
  lemma MockResultsDistinct(query: string, i: nat, j: nat)
    requires i < |MockResults(query)| && j < |MockResults(query)| && i != j
    ensures MockResults(query)[i].id != MockResults(query)[j].id
    ensures MockResults(query)[i].title != MockResults(query)[j].title
  {
    var prefix := query + " Wallpaper ";
    var a, b := Decimal.NatToString(i + 1), Decimal.NatToString(j + 1);
    Decimal.NatToStringInjective(i + 1, j + 1);
    assert (prefix + a)[|prefix|..] == a && (prefix + b)[|prefix|..] == b;
  }

  /** The "Popular Searches" panel shows while the query is empty. */
  predicate ShowsPopularSearches(searchQuery: string)
  {
    searchQuery == ""
  }

  /** The "No results found" panel shows for a non-empty query with no results. */
  predicate ShowsEmptyState(searchQuery: string, searchResults: seq<SearchResult>)
  {
    searchQuery != "" && |searchResults| == 0
  }

  /** The results grid shows while there are results. */
  predicate ShowsResults(searchResults: seq<SearchResult>)
  {
    |searchResults| > 0
  }

  /** The "No results found" panel never shows: a non-empty query always has eight results. */
  lemma EmptyStateUnreachable(query: string)
    ensures !ShowsEmptyState(query, MockResults(query))
  {
  }

  /**
   * After a search exactly one of the two panels shows: the popular searches
   * for the empty query, the results grid for any other.
   */
  lemma OnePanelShown(query: string)
    ensures ShowsPopularSearches(query) <==> !ShowsResults(MockResults(query))
    ensures ShowsResults(MockResults(query)) ==> |MockResults(query)| == ResultCount
  {
  }

  class SearchState {
    var searchQuery: string
    var searchResults: seq<SearchResult>

    constructor ()
      ensures searchQuery == "" && searchResults == []
    {
      searchQuery := "";
      searchResults := [];
    }

    /** Stores the query as typed and replaces the results with those it produces. */
    method HandleSearch(query: string)
      modifies this
      ensures searchQuery == query
      ensures searchResults == MockResults(query)
    {
      searchQuery := query;
      if |query| > 0 {
        searchResults := seq(ResultCount, i requires 0 <= i < ResultCount => MockResult(query, i));
      } else {
        searchResults := [];
      }
    }
  }

  /** Searching the same query twice leaves the same state as searching it once. */
  method SearchTwiceSameState(first: string, query: string) returns (once: seq<SearchResult>, twice: seq<SearchResult>)
    ensures once == twice == MockResults(query)
  {
    var screen := new SearchState();
    screen.HandleSearch(first);
    screen.HandleSearch(query);
    once := screen.searchResults;
    screen.HandleSearch(query);
    twice := screen.searchResults;
  }
}
