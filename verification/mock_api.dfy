/** lib/mock-api.ts: the persisted run history (newest first, at most 50
    entries) and the Markdown export of a response. The persisted document
    is the field `items` of a `HistoryStore`; reading and writing it whole is
    what every operation does. */
module MockApi {
  import opened Wrappers
  import opened Types
  import Seqs

  const MaxHistory: nat := 50

  /** `history.unshift(item)` followed by `history.slice(0, 50)`. */
  function Prepended(history: seq<HistoryItem>, item: HistoryItem): (r: seq<HistoryItem>)
    ensures |r| == if |history| + 1 < MaxHistory then |history| + 1 else MaxHistory
    ensures r[0] == item
    ensures forall i :: 1 <= i < |r| ==> r[i] == history[i - 1]
  {
    var all := [item] + history;
    if |all| <= MaxHistory then all else all[..MaxHistory]
  }

  /** `history.filter((item) => item.runId !== runId)`. */
  function WithoutRun(history: seq<HistoryItem>, runId: string): (r: seq<HistoryItem>)
    ensures forall i :: 0 <= i < |r| ==> r[i].runId != runId && r[i] in history
    ensures forall i :: 0 <= i < |history| && history[i].runId != runId ==> history[i] in r
    ensures Seqs.IsSubsequence(r, history)
    ensures (forall i :: 0 <= i < |history| ==> history[i].runId != runId) ==> r == history
    ensures forall x :: multiset(r)[x] == if x.runId != runId then multiset(history)[x] else 0
  {
    var keep := (item: HistoryItem) => item.runId != runId;
    Seqs.FilterIsSubsequence(keep, history);
    Seqs.FilterMultiset(keep, history);
    if forall i :: 0 <= i < |history| ==> history[i].runId != runId then
      Seqs.FilterKeepsAll(keep, history);
      Seqs.Filter(keep, history)
    else
      Seqs.Filter(keep, history)
  }

  /** Deleting twice is deleting once. */
  lemma DeleteIdempotent(history: seq<HistoryItem>, runId: string)
    ensures WithoutRun(WithoutRun(history, runId), runId) == WithoutRun(history, runId)
  {
  }

  function Reverse<T>(xs: seq<T>): (r: seq<T>)
    ensures |r| == |xs|
  {
    if xs == [] then [] else [xs[|xs| - 1]] + Reverse(xs[..|xs| - 1])
  }

  /** The history after saving `items` one after another, oldest first. */
  function SaveAll(history: seq<HistoryItem>, items: seq<HistoryItem>): seq<HistoryItem>
  {
    if items == [] then history
    else Prepended(SaveAll(history, items[..|items| - 1]), items[|items| - 1])
  }

  /** `slice(0, 50)`. */
  function Newest(history: seq<HistoryItem>): (r: seq<HistoryItem>)
    ensures |r| == if |history| <= MaxHistory then |history| else MaxHistory
    ensures Seqs.StartsWith(history, r)
  {
    if |history| <= MaxHistory then history else history[..MaxHistory]
  }

  lemma PrependedNewest(history: seq<HistoryItem>, item: HistoryItem)
    ensures Prepended(Newest(history), item) == Newest([item] + history)
  {
    var r := Prepended(Newest(history), item);
    var c := Newest([item] + history);
    assert |r| == |c|;
    forall i | 0 <= i < |r| ensures r[i] == c[i] {
      if i > 0 {
        assert c[i] == ([item] + history)[i] == history[i - 1];
      }
    }
  }

  /** Saving a series of items leaves the newest first, followed by the older
      ones and then the previous history, cut to the 50 newest: what falls
      off is always the oldest. */
  lemma {:induction false} SaveAllKeepsNewest(history: seq<HistoryItem>, items: seq<HistoryItem>)
    requires |history| <= MaxHistory
    ensures SaveAll(history, items) == Newest(Reverse(items) + history)
  {
    if items == [] {
      assert Reverse(items) + history == history;
    } else {
      var init := items[..|items| - 1];
      var last := items[|items| - 1];
      SaveAllKeepsNewest(history, init);
      PrependedNewest(Reverse(init) + history, last);
      assert Reverse(items) + history == [last] + (Reverse(init) + history);
    }
  }

  /** Sixty saves into an empty history keep fifty, the last one first. */
  lemma SixtySaves(items: seq<HistoryItem>)
    requires |items| == 60
    ensures |SaveAll([], items)| == 50 && SaveAll([], items)[0] == items[59]
  {
    SaveAllKeepsNewest([], items);
    assert (Reverse(items) + [])[0] == items[59];
  }

  class HistoryStore {
    /** The persisted list, newest first. */
    var items: seq<HistoryItem>

    ghost predicate Valid()
      reads this
    {
      |items| <= MaxHistory
    }

    /** Nothing persisted yet. */
    constructor ()
      ensures Valid() && items == []
    {
      items := [];
    }

    /** `getHistory`. */
    method GetHistory() returns (history: seq<HistoryItem>)
      ensures history == items
    {
      history := items;
    }

    /** `saveToHistory`: the new entry goes first, the others keep their order
        behind it, and the list is cut to 50. */
    method SaveToHistory(request: Request, response: Response)
      requires Valid()
      modifies this
      ensures Valid()
      ensures items == Prepended(old(items), ToHistoryItem(request, response))
    {
      var history := items;
      history := [ToHistoryItem(request, response)] + history;
      items := if |history| <= MaxHistory then history else history[..MaxHistory];
    }

    /** `deleteFromHistory`: every entry with this runId goes. */
    method DeleteFromHistory(runId: string)
      requires Valid()
      modifies this
      ensures Valid()
      ensures items == WithoutRun(old(items), runId)
    {
      items := WithoutRun(items, runId);
    }

    /** `clearHistory`: the stored document is removed, so the next
        `getHistory` returns the empty list. */
    method ClearHistory()
      modifies this
      ensures Valid() && items == []
    {
      items := [];
    }
  }

  /** The Markdown of one content item, one warning, one section. */
  function Bullet(item: string): string { "- " + item + "\n" }

  function Quote(warning: string): string { "> " + warning + "\n" }

  function Bullets(items: seq<string>): string
  {
    if items == [] then "" else Bullets(items[..|items| - 1]) + Bullet(items[|items| - 1])
  }

  function Quotes(warnings: seq<string>): string
  {
    if warnings == [] then "" else Quotes(warnings[..|warnings| - 1]) + Quote(warnings[|warnings| - 1])
  }

  function SectionMarkdown(s: Section): string {
    "## " + s.heading + "\n\n" + Bullets(s.content) + "\n"
  }

  function SectionsMarkdown(sections: seq<Section>): string
  {
    if sections == [] then ""
    else SectionsMarkdown(sections[..|sections| - 1]) + SectionMarkdown(sections[|sections| - 1])
  }

  /** `response.warnings?.length` is truthy. */
  predicate HasWarnings(warnings: Option<seq<string>>) {
    warnings.Some? && |warnings.value| > 0
  }

  function WarningsMarkdown(warnings: Option<seq<string>>): string {
    if HasWarnings(warnings) then "## Warnings\n\n" + Quotes(warnings.value) else ""
  }

  function Header(r: Response): string {
    "# " + r.title + "\n\n" + r.summary + "\n\n"
  }

  /** The document `exportAsMarkdown` produces. */
  function Markdown(r: Response): string {
    Header(r) + SectionsMarkdown(r.sections) + WarningsMarkdown(r.warnings)
  }

  lemma {:induction false} BulletsConcat(a: seq<string>, b: seq<string>)
    ensures Bullets(a + b) == Bullets(a) + Bullets(b)
    decreases |b|
  {
    if b != [] {
      assert (a + b)[..|a + b| - 1] == a + b[..|b| - 1];
      BulletsConcat(a, b[..|b| - 1]);
    } else {
      assert a + b == a;
    }
  }

  lemma {:induction false} SectionsMarkdownConcat(a: seq<Section>, b: seq<Section>)
    ensures SectionsMarkdown(a + b) == SectionsMarkdown(a) + SectionsMarkdown(b)
    decreases |b|
  {
    if b != [] {
      assert (a + b)[..|a + b| - 1] == a + b[..|b| - 1];
      SectionsMarkdownConcat(a, b[..|b| - 1]);
    } else {
      assert a + b == a;
    }
  }

  /** Every content item is one bullet line, in order: the bullets of a
      section are the bullets of its first item followed by the rest. */
  lemma BulletsCons(item: string, rest: seq<string>)
    ensures Bullets([item] + rest) == "- " + item + "\n" + Bullets(rest)
  {
    BulletsConcat([item], rest);
    assert [item][..0] == [];
  }

  /** The document starts with the title and summary block, and removing the
      warnings removes exactly the trailing warnings block: it is present iff
      there is at least one warning, and nothing follows it. */
  lemma MarkdownLayout(r: Response)
    ensures Seqs.StartsWith(Markdown(r), "# " + r.title + "\n\n" + r.summary + "\n\n")
    ensures Markdown(r) == Markdown(r.(warnings := None)) + WarningsMarkdown(r.warnings)
    ensures HasWarnings(r.warnings) <==> |Markdown(r)| > |Markdown(r.(warnings := None))|
  {
    var h := "# " + r.title + "\n\n" + r.summary + "\n\n";
    assert Markdown(r) == h + (SectionsMarkdown(r.sections) + WarningsMarkdown(r.warnings));
  }

  /** The inner loop of `exportAsMarkdown` over a section's content. */
  method AppendBullets(md: string, items: seq<string>) returns (r: string)
    ensures r == md + Bullets(items)
  {
    r := md;
    for j := 0 to |items|
      invariant r == md + Bullets(items[..j])
    {
      assert items[..j + 1][..j] == items[..j];
      r := r + "- " + items[j] + "\n";
    }
    assert items[..|items|] == items;
  }

  /** The loop of `exportAsMarkdown` over the warnings. */
  method AppendQuotes(md: string, warnings: seq<string>) returns (r: string)
    ensures r == md + Quotes(warnings)
  {
    r := md;
    for j := 0 to |warnings|
      invariant r == md + Quotes(warnings[..j])
    {
      assert warnings[..j + 1][..j] == warnings[..j];
      r := r + "> " + warnings[j] + "\n";
    }
    assert warnings[..|warnings|] == warnings;
  }

  /** One iteration of the section loop of `exportAsMarkdown`. */
  method AppendSection(md: string, section: Section) returns (r: string)
    ensures r == md + SectionMarkdown(section)
  {
    r := md + "## " + section.heading + "\n\n";
    r := AppendBullets(r, section.content);
    r := r + "\n";
  }

  /** `exportAsMarkdown`: appends to `md` section by section and item by item. */
  method ExportAsMarkdown(response: Response) returns (md: string)
    ensures md == Markdown(response)
  {
    md := "# " + response.title + "\n\n";
    md := md + response.summary + "\n\n";
    var sections := response.sections;

    for k := 0 to |sections|
      invariant md == Header(response) + SectionsMarkdown(sections[..k])
    {
      md := AppendSection(md, sections[k]);
      assert sections[..k + 1][..k] == sections[..k];
    }
    assert sections[..|sections|] == sections;

    if response.warnings.Some? && |response.warnings.value| > 0 {
      md := md + "## Warnings\n\n";
      md := AppendQuotes(md, response.warnings.value);
    }
  }
}
