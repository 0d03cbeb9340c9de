/** components/history-detail-drawer.tsx: the output preview of a saved run
    (at most two sections of at most three items, with "+N more" counters)
    and the actions of its buttons. */
module HistoryDrawer {
  import opened Wrappers
  import opened Types
  import MockApi

  const PreviewSections: nat := 2
  const PreviewItems: nat := 3

  /** One previewed section: its heading, the items shown and the
      "+k more items" counter when there is one. */
  datatype SectionPreview = SectionPreview(heading: string, items: seq<string>, moreItems: Option<nat>)

  /** What the drawer shows of a saved run's output. */
  datatype Preview = Preview(summary: string, sections: seq<SectionPreview>, moreSections: Option<nat>)

  function Take<T>(s: seq<T>, n: nat): (r: seq<T>)
    ensures |r| == if |s| < n then |s| else n
    ensures forall i :: 0 <= i < |r| ==> r[i] == s[i]
  {
    if |s| <= n then s else s[..n]
  }

  function PreviewSection(s: Section): (p: SectionPreview)
    ensures p.heading == s.heading
    ensures |p.items| <= PreviewItems && |p.items| <= |s.content|
    ensures forall j :: 0 <= j < |p.items| ==> p.items[j] == s.content[j]
    ensures |p.items| == |s.content| || |p.items| == PreviewItems
    ensures p.moreItems.Some? <==> |s.content| > PreviewItems
    ensures p.moreItems.Some? ==> p.moreItems.value + |p.items| == |s.content|
  {
    SectionPreview(s.heading, Take(s.content, PreviewItems),
      if |s.content| > PreviewItems then Some(|s.content| - PreviewItems) else None)
  }

  /** The drawer for `item`; a `null` item renders nothing. */
  function Render(item: Option<HistoryItem>): (r: Option<Preview>)
    ensures r.None? <==> item.None?
    ensures r.Some? ==> |r.value.sections| <= PreviewSections && |r.value.sections| <= |item.value.sections|
    ensures r.Some? ==> forall i :: 0 <= i < |r.value.sections| ==>
      r.value.sections[i] == PreviewSection(item.value.sections[i])
    ensures r.Some? ==> (r.value.moreSections.Some? <==> |item.value.sections| > PreviewSections)
    ensures r.Some? && r.value.moreSections.Some? ==>
      r.value.moreSections.value == |item.value.sections| - PreviewSections
  {
    if item.None? then None
    else
      var shown := Take(item.value.sections, PreviewSections);
      Some(Preview(item.value.summary,
        seq(|shown|, i requires 0 <= i < |shown| => PreviewSection(shown[i])),
        if |item.value.sections| > PreviewSections then Some(|item.value.sections| - PreviewSections) else None))
  }

  /** Nothing is hidden without a counter saying how much: the items shown
      plus the counter account for every content item of a shown section. */
  lemma PreviewAccountsForEverything(item: HistoryItem)
    ensures var p := Render(Some(item)).value;
      |p.sections| + p.moreSections.GetOr(0) == |item.sections| &&
      forall i :: 0 <= i < |p.sections| ==>
        |p.sections[i].items| + p.sections[i].moreItems.GetOr(0) == |item.sections[i].content|
  {
  }

  /** The callbacks a button click invokes, in order. */
  datatype Action = Restore(item: HistoryItem) | Copy(item: HistoryItem) | Delete(runId: string) | Close

  /** "Restore to Workspace": restore, then close. */
  function RestoreClicked(item: HistoryItem): (actions: seq<Action>)
    ensures |actions| == 2 && actions[0] == Restore(item) && actions[1] == Close
  {
    [Restore(item), Close]
  }

  /** "Copy": copy only; the drawer stays open. */
  function CopyClicked(item: HistoryItem): (actions: seq<Action>)
    ensures actions == [Copy(item)] && Close !in actions
  {
    [Copy(item)]
  }

  /** "Delete": delete this run, then close. */
  function DeleteClicked(item: HistoryItem): (actions: seq<Action>)
    ensures |actions| == 2 && actions[0] == Delete(item.runId) && actions[1] == Close
  {
    [Delete(item.runId), Close]
  }

  /** What the history page's callbacks act on: the persisted history, the
      listed items, the selected item and whether the drawer is open, the
      clipboard, and the request left for the workspace together with
      whether the page has moved there. */
  datatype HistoryPage = HistoryPage(stored: seq<HistoryItem>, items: seq<HistoryItem>,
    selected: Option<HistoryItem>, drawerOpen: bool, clipboard: Option<string>,
    restored: Option<Request>, atWorkspace: bool)

  /** One callback as the history page implements it: `handleRestore`
      leaves the request for the workspace and navigates there,
      `handleCopy` writes the run's Markdown to the clipboard,
      `handleDelete` removes the run from storage and from the list, and
      `handleCloseDrawer` closes the drawer and clears the selection. */
  function Perform(page: HistoryPage, a: Action): HistoryPage {
    match a
    case Restore(item) => page.(restored := Some(item.request), atWorkspace := true)
    case Copy(item) => page.(clipboard := Some(MockApi.Markdown(ResponseOf(item))))
    case Delete(runId) =>
      page.(stored := MockApi.WithoutRun(page.stored, runId), items := MockApi.WithoutRun(page.items, runId))
    case Close => page.(drawerOpen := false, selected := None)
  }

  /** The callbacks of one click, in order. */
  function PerformAll(page: HistoryPage, actions: seq<Action>): HistoryPage
    decreases |actions|
  {
    if actions == [] then page else PerformAll(Perform(page, actions[0]), actions[1..])
  }

  lemma PerformOne(page: HistoryPage, a: Action)
    ensures PerformAll(page, [a]) == Perform(page, a)
  {
    assert [a][1..] == [];
  }

  lemma PerformTwo(page: HistoryPage, a: Action, b: Action)
    ensures PerformAll(page, [a, b]) == Perform(Perform(page, a), b)
  {
    assert [a, b][1..] == [b];
    PerformOne(Perform(page, a), b);
  }

  /** "Restore to Workspace" hands the run's request to the workspace, moves
      there and closes the drawer; the history and the clipboard are
      untouched. */
  lemma RestoreClickedEffect(page: HistoryPage, item: HistoryItem)
    ensures var p := PerformAll(page, RestoreClicked(item));
      p.restored == Some(item.request) && p.atWorkspace &&
      !p.drawerOpen && p.selected.None? &&
      p.stored == page.stored && p.items == page.items && p.clipboard == page.clipboard
  {
    PerformTwo(page, Restore(item), Close);
  }

  /** "Copy" puts the run's Markdown export on the clipboard and changes
      nothing else: the drawer stays open on the same item. */
  lemma CopyClickedEffect(page: HistoryPage, item: HistoryItem)
    ensures PerformAll(page, CopyClicked(item)) ==
      page.(clipboard := Some(MockApi.Markdown(ResponseOf(item))))
    ensures PerformAll(page, CopyClicked(item)).drawerOpen == page.drawerOpen
  {
    PerformOne(page, Copy(item));
  }

  /** "Delete" removes every entry of the run from the persisted history and
      from the list, keeping all other entries with their number of copies,
      and closes the drawer with nothing selected. */
  lemma DeleteClickedEffect(page: HistoryPage, item: HistoryItem)
    ensures var p := PerformAll(page, DeleteClicked(item));
      p.stored == MockApi.WithoutRun(page.stored, item.runId) &&
      p.items == MockApi.WithoutRun(page.items, item.runId) &&
      (forall i :: 0 <= i < |p.items| ==> p.items[i].runId != item.runId) &&
      (forall x: HistoryItem :: x.runId != item.runId ==> multiset(p.stored)[x] == multiset(page.stored)[x]) &&
      !p.drawerOpen && p.selected.None? &&
      p.clipboard == page.clipboard && p.restored == page.restored
  {
    PerformTwo(page, Delete(item.runId), Close);
  }

  /** Deleting from the drawer twice, for example once the list has been
      reloaded, leaves the same history as deleting once. */
  lemma DeleteClickedTwice(page: HistoryPage, item: HistoryItem)
    ensures PerformAll(PerformAll(page, DeleteClicked(item)), DeleteClicked(item)) ==
      PerformAll(page, DeleteClicked(item))
  {
    var once := PerformAll(page, DeleteClicked(item));
    PerformTwo(page, Delete(item.runId), Close);
    PerformTwo(once, Delete(item.runId), Close);
    MockApi.DeleteIdempotent(page.stored, item.runId);
    MockApi.DeleteIdempotent(page.items, item.runId);
  }
}
