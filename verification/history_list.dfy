/** components/history-list.tsx: the search and format filter over the
    history, and the title of the empty state. */
module HistoryList {
  import opened Types
  import Seqs
  import Text

  /** The format selector: every format, or one. */
  datatype FormatFilter = All | Only(format: OutputFormat)

  /** `text.toLowerCase().includes(query.toLowerCase())`. */
  predicate MatchesText(text: string, query: string) {
    Seqs.Contains(Text.Lower(text), Text.Lower(query))
  }

  /** The predicate passed to `items.filter`. */
  predicate Keep(item: HistoryItem, query: string, filter: FormatFilter) {
    (MatchesText(item.request.goal, query) || MatchesText(item.title, query)) &&
    (filter == All || item.request.outputFormat == filter.format)
  }

  /** `filteredItems`: the items kept, in their order; an item is kept exactly
      when its goal or title contains the query, ignoring case, and its format
      passes the filter. */
  function FilteredItems(items: seq<HistoryItem>, query: string, filter: FormatFilter): (r: seq<HistoryItem>)
    ensures Seqs.IsSubsequence(r, items)
    ensures forall i :: 0 <= i < |r| ==> r[i] in items && Keep(r[i], query, filter)
    ensures forall i :: 0 <= i < |items| && Keep(items[i], query, filter) ==> items[i] in r
    ensures forall x :: multiset(r)[x] == if Keep(x, query, filter) then multiset(items)[x] else 0
  {
    var keep := (item: HistoryItem) => Keep(item, query, filter);
    Seqs.FilterIsSubsequence(keep, items);
    Seqs.FilterMultiset(keep, items);
    Seqs.Filter(keep, items)
  }

  /** An empty query matches every item. */
  lemma EmptyQueryMatches(item: HistoryItem, filter: FormatFilter)
    ensures Keep(item, "", filter) <==> (filter == All || item.request.outputFormat == filter.format)
  {
    Seqs.ContainsEmpty(Text.Lower(item.request.goal));
  }

  /** With no query and every format, the list is shown unchanged. */
  lemma NoFilterIsIdentity(items: seq<HistoryItem>)
    ensures FilteredItems(items, "", All) == items
  {
    forall i | 0 <= i < |items| ensures Keep(items[i], "", All) {
      EmptyQueryMatches(items[i], All);
    }
    Seqs.FilterKeepsAll((item: HistoryItem) => Keep(item, "", All), items);
  }

  /** The search ignores ASCII case on both sides. */
  lemma SearchIgnoresCase(item: HistoryItem, query: string, filter: FormatFilter)
    ensures Keep(item, query, filter) <==> Keep(item, Text.Lower(query), filter)
  {
    Text.LowerIdempotent(query);
  }

  /** Narrowing to one format keeps a subsequence of what every format keeps. */
  lemma FormatNarrows(items: seq<HistoryItem>, query: string, f: OutputFormat)
    ensures forall i :: 0 <= i < |FilteredItems(items, query, Only(f))| ==>
      FilteredItems(items, query, Only(f))[i] in FilteredItems(items, query, All)
  {
  }

  /** The title of the empty state, shown when nothing is left. */
  function EmptyStateTitle(items: seq<HistoryItem>, query: string, filter: FormatFilter): (title: string)
    requires |FilteredItems(items, query, filter)| == 0
    ensures title == "No runs saved yet" <==> items == []
    ensures title == "No results found" <==> items != []
  {
    if |items| == 0 then "No runs saved yet" else "No results found"
  }

  /** With no query and every format there is never a "No results found". */
  lemma NoResultsNeedsAFilter(items: seq<HistoryItem>)
    requires |FilteredItems(items, "", All)| == 0
    ensures EmptyStateTitle(items, "", All) == "No runs saved yet"
  {
    NoFilterIsIdentity(items);
  }
}
