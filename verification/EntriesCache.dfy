/**
 The query cache of one cycle: how a mutation response is merged into the cached list, and how the list
 is fetched, the first page alone and the remaining pages in batches.
 */
module EntriesCache {
  import opened Drafts
  import opened ServerModel

  type Relation = string

  /** A cached entry; `employee` and `site` are relations that mutation responses do not carry. */
  datatype Entry = Entry(id: EntryId, employee: Relation, site: Relation, snapshot: Snapshot)

  /** The entry in a mutation response. */
  datatype Response = Response(id: EntryId, snapshot: Snapshot)

  function MergeEntry(previous: Entry, incoming: Response): Entry {
    Entry(incoming.id, previous.employee, previous.site, incoming.snapshot)
  }

  function ReplaceEntry(list: seq<Entry>, entryId: EntryId, incoming: Response): seq<Entry> {
    seq(|list|, i requires 0 <= i < |list| => if list[i].id == entryId then MergeEntry(list[i], incoming) else list[i])
  }

  /** `reloadPayrollEntry` puts the fetched entry, relations included, in the place of the cached one. */
  function ReloadEntry(list: seq<Entry>, entry: Entry): seq<Entry> {
    seq(|list|, i requires 0 <= i < |list| => if list[i].id == entry.id then entry else list[i])
  }

  function Ids(list: seq<Entry>): seq<EntryId> {
    seq(|list|, i requires 0 <= i < |list| => list[i].id)
  }

  /** One write to the cached list: a merged response or a reloaded entry. */
  datatype CacheWrite = Merge(response: Response) | Reload(entry: Entry)

  function WriteCache(list: seq<Entry>, w: CacheWrite): seq<Entry> {
    match w
    case Merge(response) => ReplaceEntry(list, response.id, response)
    case Reload(entry) => ReloadEntry(list, entry)
  }

  function WriteAll(list: seq<Entry>, ws: seq<CacheWrite>): seq<Entry> {
    if ws == [] then list else WriteCache(WriteAll(list, ws[..|ws| - 1]), ws[|ws| - 1])
  }

  function WrittenId(w: CacheWrite): EntryId {
    match w
    case Merge(response) => response.id
    case Reload(entry) => entry.id
  }

  function WrittenSnapshot(w: CacheWrite): Snapshot {
    match w
    case Merge(response) => response.snapshot
    case Reload(entry) => entry.snapshot
  }

  /** The snapshot an entry ends up with: that of the last write for its id, or the one it started with. */
  function LastSnapshot(start: Snapshot, ws: seq<CacheWrite>, id: EntryId): Snapshot {
    if ws == [] then start
    else if WrittenId(ws[|ws| - 1]) == id then WrittenSnapshot(ws[|ws| - 1])
    else LastSnapshot(start, ws[..|ws| - 1], id)
  }

  /** The entry whose relations an entry ends up with: the one reloaded last for its id, or itself. */
  function LastReloaded(start: Entry, ws: seq<CacheWrite>): Entry {
    if ws == [] then start
    else if ws[|ws| - 1].Reload? && ws[|ws| - 1].entry.id == start.id then ws[|ws| - 1].entry
    else LastReloaded(start, ws[..|ws| - 1])
  }

  /**
   After any sequence of merges and reloads the list has the same length and order; every entry holds the
   snapshot of the last write for it and of no other, and the relations of the last reload of it, which merges
   leave alone.
   */
  lemma {:induction false} CacheWritesAreLocal(list: seq<Entry>, ws: seq<CacheWrite>)
    ensures var out := WriteAll(list, ws);
            && |out| == |list| && Ids(out) == Ids(list)
            && (forall i :: 0 <= i < |list| ==> out[i].snapshot == LastSnapshot(list[i].snapshot, ws, list[i].id))
            && (forall i :: 0 <= i < |list| ==>
                  var e := LastReloaded(list[i], ws); out[i].employee == e.employee && out[i].site == e.site)
  {
    if ws != [] {
      var init := ws[..|ws| - 1];
      CacheWritesAreLocal(list, init);
      var before, after := WriteAll(list, init), WriteAll(list, ws);
      forall i | 0 <= i < |list|
        ensures after[i].id == list[i].id
        ensures after[i].snapshot == LastSnapshot(list[i].snapshot, ws, list[i].id)
        ensures after[i].employee == LastReloaded(list[i], ws).employee
        ensures after[i].site == LastReloaded(list[i], ws).site
      {
        assert Ids(before)[i] == Ids(list)[i];
      }
    }
  }

  // ---------------------------------------------------------------- the batched fetch

  function Min(a: int, b: int): int { if a <= b then a else b }

  function CeilDiv(a: nat, b: nat): nat
    requires b > 0
  {
    (a + b - 1) / b
  }

  /** The server's answer for one page, numbered from 1: a slice of its ordered list. */
  function PageOf<T>(list: seq<T>, pageSize: nat, page: nat): seq<T>
    requires page >= 1 && pageSize > 0
  {
    var from := Min((page - 1) * pageSize, |list|);
    list[from..Min(from + pageSize, |list|)]
  }

  function PageRange(from: nat, to: nat): seq<nat>
    requires from <= to
  {
    seq(to - from, i requires 0 <= i < to - from => from + i)
  }

  function Flatten(batches: seq<seq<nat>>): seq<nat> {
    if batches == [] then [] else Flatten(batches[..|batches| - 1]) + batches[|batches| - 1]
  }

  lemma PageStarts(n: nat, pageSize: nat, pages: nat)
    requires pageSize > 0 && pages == CeilDiv(n, pageSize)
    ensures pages * pageSize >= n
    ensures forall p: nat :: p < pages ==> p * pageSize < n
  {
    var m := n + pageSize - 1;
    assert m == (m / pageSize) * pageSize + m % pageSize;
    forall p: nat | p < pages ensures p * pageSize < n {
      assert (p + 1) * pageSize <= pages * pageSize;
      assert p * pageSize + pageSize == (p + 1) * pageSize;
    }
  }

  /** The first `pages` answers, one after the other. */
  function Concat<T>(fetch: nat -> seq<T>, pages: nat): seq<T> {
    if pages == 0 then [] else Concat(fetch, pages - 1) + fetch(pages)
  }

  /** The server answers every page from the same ordered list. */
  ghost predicate Stable<T(!new)>(fetch: nat -> seq<T>, list: seq<T>, pageSize: nat)
    requires pageSize > 0
  {
    forall p: nat :: p >= 1 ==> fetch(p) == PageOf(list, pageSize, p)
  }

  lemma PrefixGrows<T>(list: seq<T>, at: nat, size: nat)
    ensures var from := Min(at, |list|);
            list[..from] + list[from..Min(from + size, |list|)] == list[..Min(at + size, |list|)]
  {
  }

  lemma {:induction false} PagesArePrefix<T(!new)>(fetch: nat -> seq<T>, list: seq<T>, pageSize: nat, pages: nat)
    requires pageSize > 0 && Stable(fetch, list, pageSize)
    ensures Concat(fetch, pages) == list[..Min(pages * pageSize, |list|)]
  {
    if pages > 0 {
      PagesArePrefix(fetch, list, pageSize, pages - 1);
      var at := (pages - 1) * pageSize;
      assert at + pageSize == pages * pageSize;
      PrefixGrows(list, at, pageSize);
      assert fetch(pages) == PageOf(list, pageSize, pages);
    }
  }

  /** The number of pages `FetchAll` asks for: the first one always, the others by the total it reports. */
  function PagesAsked(total: nat, pageSize: nat): nat
    requires pageSize > 0
  {
    if CeilDiv(total, pageSize) == 0 then 1 else CeilDiv(total, pageSize)
  }

  /** No page is asked for in vain: the last one begins before the end of the list, unless it is the first. */
  lemma NoPageInVain(total: nat, pageSize: nat)
    requires pageSize > 0
    ensures var pages := PagesAsked(total, pageSize);
            && pages >= 1 && total <= pages * pageSize && (pages > 1 ==> (pages - 1) * pageSize < total)
  {
    PageStarts(total, pageSize, CeilDiv(total, pageSize));
  }

  /** On a stable list, the pages asked for are the whole list, whatever its length and the page size. */
  lemma AskedPagesAreTheList<T(!new)>(fetch: nat -> seq<T>, list: seq<T>, pageSize: nat)
    requires pageSize > 0 && Stable(fetch, list, pageSize)
    ensures Concat(fetch, PagesAsked(|list|, pageSize)) == list
  {
    var pages := PagesAsked(|list|, pageSize);
    PageStarts(|list|, pageSize, CeilDiv(|list|, pageSize));
    PagesArePrefix(fetch, list, pageSize, pages);
    assert pages * pageSize >= |list|;
  }

  /** One batch: its answers are appended in the order of its pages. */
  method FetchBatch<T>(fetch: nat -> seq<T>, all: seq<T>, done: nat, batch: seq<nat>) returns (more: seq<T>)
    requires all == Concat(fetch, done) && batch == PageRange(done + 1, done + 1 + |batch|)
    ensures more == Concat(fetch, done + |batch|)
  {
    more := all;
    for x := 0 to |batch|
      invariant more == Concat(fetch, done + x)
    {
      more := more + fetch(batch[x]);
    }
  }

  /**
   The fetch of a whole cycle: `fetch(p)` is what the server answers for page p when it is asked, `total`
   the count in its first answer. `batches` are the page numbers requested, batch by batch: every page
   once and in order, the first page alone, never more than `concurrency` at a time.
   */
  method FetchAll<T(!new)>(fetch: nat -> seq<T>, total: nat, pageSize: nat, concurrency: nat)
    returns (all: seq<T>, batches: seq<seq<nat>>)
    requires pageSize > 0 && concurrency > 0
    ensures all == Concat(fetch, PagesAsked(total, pageSize))
    ensures forall list :: Stable(fetch, list, pageSize) && total == |list| ==> all == list
    ensures batches != [] && batches[0] == [1]
    ensures Flatten(batches) == PageRange(1, PagesAsked(total, pageSize) + 1)
    ensures forall b :: 0 <= b < |batches| ==> 1 <= |batches[b]| <= concurrency
  {
    var totalPages := CeilDiv(total, pageSize);
    all, batches := FetchPages(fetch, totalPages, concurrency);
    forall list | Stable(fetch, list, pageSize) && total == |list| ensures all == list {
      AskedPagesAreTheList(fetch, list, pageSize);
    }
  }

  lemma BatchPages(n: nat, i: nat, size: nat)
    requires i + size <= n
    ensures PageRange(2, n + 2)[i..i + size] == PageRange(i + 2, i + 2 + size)
    ensures PageRange(1, i + 2) + PageRange(i + 2, i + 2 + size) == PageRange(1, i + 2 + size)
  {
  }

  /** The first `done` pages were requested, once and in order, and answered. */
  ghost predicate Fetched<T>(fetch: nat -> seq<T>, all: seq<T>, batches: seq<seq<nat>>, done: nat, concurrency: nat) {
    && all == Concat(fetch, done) && Flatten(batches) == PageRange(1, done + 1)
    && batches != [] && batches[0] == [1]
    && forall b :: 0 <= b < |batches| ==> 1 <= |batches[b]| <= concurrency
  }

  lemma FirstPageFetched<T>(fetch: nat -> seq<T>, concurrency: nat)
    requires concurrency > 0
    ensures Fetched(fetch, fetch(1), [[1]], 1, concurrency)
  {
    var batches: seq<seq<nat>> := [[1]];
    assert Concat(fetch, 0) == [] && Concat(fetch, 1) == fetch(1);
    assert batches[..0] == [] && Flatten(batches) == [1];
  }

  lemma BatchFetched<T>(fetch: nat -> seq<T>, all: seq<T>, batches: seq<seq<nat>>, done: nat, concurrency: nat,
                        batch: seq<nat>)
    requires Fetched(fetch, all, batches, done, concurrency) && 1 <= |batch| <= concurrency
    requires PageRange(1, done + 1) + batch == PageRange(1, done + |batch| + 1)
    ensures Fetched(fetch, Concat(fetch, done + |batch|), batches + [batch], done + |batch|, concurrency)
  {
    FlattenAppend(batches, batch);
  }

  /** The first page alone, then the remaining pages in batches. */
  method FetchPages<T>(fetch: nat -> seq<T>, totalPages: nat, concurrency: nat)
    returns (all: seq<T>, batches: seq<seq<nat>>)
    requires concurrency > 0
    ensures Fetched(fetch, all, batches, if totalPages == 0 then 1 else totalPages, concurrency)
  {
    all := fetch(1);
    batches := [[1]];
    FirstPageFetched(fetch, concurrency);
    var n := if totalPages > 1 then totalPages - 1 else 0;
    var remainingPages := PageRange(2, n + 2);
    var i := 0;
    while i < n
      invariant 0 <= i
      invariant Fetched(fetch, all, batches, 1 + Min(i, n), concurrency)
    {
      var size := Min(concurrency, n - i);
      BatchPages(n, i, size);
      var batch := remainingPages[i..i + size];
      BatchFetched(fetch, all, batches, 1 + i, concurrency, batch);
      all := FetchBatch(fetch, all, 1 + i, batch);
      batches := batches + [batch];
      i := i + concurrency;
    }
  }

  lemma FlattenAppend(batches: seq<seq<nat>>, batch: seq<nat>)
    ensures Flatten(batches + [batch]) == Flatten(batches) + batch
  {
    assert (batches + [batch])[..|batches|] == batches;
  }
}
