/**
 The release interlock end to end: the client lists the version of every cached release candidate of a
 unit, the server rejects the release unless each listed entry is still a candidate at that version.
 */
module Release {
  import opened Options
  import opened Drafts
  import opened ServerModel
  import opened RowSystem
  import opened Invariants
  import opened UnloadGuard

  datatype CachedEntry = CachedEntry(id: EntryId, snapshot: Snapshot)
  datatype Expected = Expected(entryId: EntryId, version: nat)

  // ---------------------------------------------------------------- two filters

  /** The values of a field over the lines that have one. */
  function LineValues(c: Content, f: LineField): set<Value> {
    set line | line in c.lines && LineKey(line, f) in c.fields :: c.fields[LineKey(line, f)]
  }

  /** The server's query: an unreleased entry, not on hold, without a payout outcome, with a work line at the unit. */
  predicate IsCandidate(c: Content, unitId: string) {
    && c.released == false && c.resolved == false
    && !(EntryKey(Hold) in c.fields && c.fields[EntryKey(Hold)] == Flag(true))
    && Text(unitId) in LineValues(c, UnitId)
  }

  /** The client's filter over the cached entries, kept beside the query by hand. */
  predicate IsListable(c: Content, unitId: string) {
    && !c.released && !(EntryKey(Hold) in c.fields && c.fields[EntryKey(Hold)] == Flag(true)) && !c.resolved
    && exists line :: line in c.lines && HoldsUnit(c, line, Text(unitId))
  }

  /** The two agree on every entry. */
  lemma FiltersAgree(c: Content, unitId: string)
    ensures IsListable(c, unitId) <==> IsCandidate(c, unitId)
  {
    if Text(unitId) in LineValues(c, UnitId) {
      var line :|
        line in c.lines && LineKey(line, UnitId) in c.fields && c.fields[LineKey(line, UnitId)] == Text(unitId);
      assert HoldsUnit(c, line, Text(unitId));
    }
    if line :| line in c.lines && HoldsUnit(c, line, Text(unitId)) {
      assert c.fields[LineKey(line, UnitId)] in LineValues(c, UnitId);
    }
  }

  function ExpectedVersionsForUnit(entries: seq<CachedEntry>, unitId: string): seq<Expected> {
    if entries == [] then []
    else
      var rest := ExpectedVersionsForUnit(entries[1..], unitId);
      var e := entries[0];
      if IsListable(e.snapshot.content, unitId) then [Expected(e.id, e.snapshot.version)] + rest else rest
  }

  /** Exactly the cached candidates are listed, each with its cached version. */
  lemma {:induction false} ListsExactlyTheCandidates(entries: seq<CachedEntry>, unitId: string, x: Expected)
    ensures x in ExpectedVersionsForUnit(entries, unitId) <==>
              exists i :: 0 <= i < |entries| && IsListable(entries[i].snapshot.content, unitId)
                && x == Expected(entries[i].id, entries[i].snapshot.version)
  {
    if entries != [] {
      ListsExactlyTheCandidates(entries[1..], unitId, x);
      var rest := entries[1..];
      if x in ExpectedVersionsForUnit(rest, unitId) {
        var i :| 0 <= i < |rest| && IsListable(rest[i].snapshot.content, unitId)
          && x == Expected(rest[i].id, rest[i].snapshot.version);
        assert entries[i + 1] == rest[i];
      }
      if exists i :: 0 <= i < |entries| && IsListable(entries[i].snapshot.content, unitId)
                     && x == Expected(entries[i].id, entries[i].snapshot.version) {
        var i :| 0 <= i < |entries| && IsListable(entries[i].snapshot.content, unitId)
          && x == Expected(entries[i].id, entries[i].snapshot.version);
        if i > 0 { assert rest[i - 1] == entries[i]; }
      }
    }
  }

  /** The listed entries keep the order of the cached list, so no cached entry is listed twice. */
  lemma {:induction false} EachIsListedOnce(entries: seq<CachedEntry>, unitId: string, i: nat, j: nat)
    requires i < j < |ExpectedVersionsForUnit(entries, unitId)|
    ensures var listed := ExpectedVersionsForUnit(entries, unitId);
            exists x, y :: 0 <= x < y < |entries| && listed[i].entryId == entries[x].id
              && listed[j].entryId == entries[y].id
  {
    var rest := ExpectedVersionsForUnit(entries[1..], unitId);
    var listed := ExpectedVersionsForUnit(entries, unitId);
    if !IsListable(entries[0].snapshot.content, unitId) {
      EachIsListedOnce(entries[1..], unitId, i, j);
      var x, y :| 0 <= x < y < |entries[1..]| && rest[i].entryId == entries[1..][x].id
                  && rest[j].entryId == entries[1..][y].id;
      assert entries[x + 1] == entries[1..][x] && entries[y + 1] == entries[1..][y];
    } else if i > 0 {
      EachIsListedOnce(entries[1..], unitId, i - 1, j - 1);
      var x, y :| 0 <= x < y < |entries[1..]| && rest[i - 1].entryId == entries[1..][x].id
                  && rest[j - 1].entryId == entries[1..][y].id;
      assert entries[x + 1] == entries[1..][x] && entries[y + 1] == entries[1..][y];
    } else {
      ListsExactlyTheCandidates(entries[1..], unitId, listed[j]);
      assert listed[j] in rest;
      var y :| 0 <= y < |entries[1..]| && listed[j] == Expected(entries[1..][y].id, entries[1..][y].snapshot.version);
      assert entries[y + 1] == entries[1..][y];
      assert listed[0].entryId == entries[0].id && listed[j].entryId == entries[y + 1].id;
    }
  }

  // ---------------------------------------------------------------- one cycle

  type Cycle = map<EntryId, Row>

  /** The server's current content of an entry. */
  function Current(r: Row): Content
    requires r.history != []
  {
    r.history[|r.history| - 1]
  }

  /** The cached list, in its order. */
  function CachedList(rows: Cycle, ids: seq<EntryId>): seq<CachedEntry>
    requires forall i :: 0 <= i < |ids| ==> ids[i] in rows
  {
    seq(|ids|, i requires 0 <= i < |ids| => CachedEntry(ids[i], rows[ids[i]].cache))
  }

  /** The row of the entry is in the grid. */
  predicate Displayed(r: Row) {
    r.editors != [] && r.editors[|r.editors| - 1].mounted
  }

  /** What the row displays: the entry it was last rendered with, under its draft. */
  function Shown(r: Row): Content
    requires Displayed(r)
  {
    var ed := r.editors[|r.editors| - 1];
    ed.seen.content.(fields := ed.seen.content.fields + ed.draft)
  }

  /** The row was rendered with the content that is cached now. */
  predicate Rendered(r: Row)
    requires Displayed(r)
  {
    r.editors[|r.editors| - 1].seen.content == r.cache.content
  }

  /** The server's check of a release request. */
  predicate ReleaseAccepted(rows: Cycle, unitId: string, expected: seq<Expected>) {
    forall x :: x in expected ==>
      && x.entryId in rows && rows[x.entryId].history != []
      && IsCandidate(Current(rows[x.entryId]), unitId) && Version(rows[x.entryId]) == x.version
  }

  /** This tab has nothing pending for the cycle, and every entry of it was edited as the guard asks. */
  ghost predicate NothingPending(rows: Cycle, ids: seq<EntryId>) {
    forall i :: 0 <= i < |ids| ==> ids[i] in rows && SafelyReachable(rows[ids[i]]) && rows[ids[i]].record == None
  }

  /** With nothing pending, a row shows the entry it was rendered with and nothing else. */
  lemma SavedRowShowsWhatItSaw(r: Row)
    requires SafelyReachable(r) && r.record == None
    ensures RowOk(r)
    ensures Displayed(r) ==> Shown(r) == r.editors[|r.editors| - 1].seen.content
  {
    NoRecordMeansSaved(r);
    if r.editors != [] {
      assert Quiet(r.editors[|r.editors| - 1]);
    }
  }

  lemma ListedIsCurrent(rows: Cycle, ids: seq<EntryId>, unitId: string, i: nat)
    requires NothingPending(rows, ids) && i < |ids|
    requires ReleaseAccepted(rows, unitId, ExpectedVersionsForUnit(CachedList(rows, ids), unitId))
    requires IsListable(rows[ids[i]].cache.content, unitId)
    ensures rows[ids[i]].history != [] && Current(rows[ids[i]]) == rows[ids[i]].cache.content
  {
    var entries := CachedList(rows, ids);
    var x := Expected(ids[i], rows[ids[i]].cache.version);
    assert entries[i] == CachedEntry(ids[i], rows[ids[i]].cache);
    ListsExactlyTheCandidates(entries, unitId, x);
    SavedRowShowsWhatItSaw(rows[ids[i]]);
    assert x in ExpectedVersionsForUnit(entries, unitId);
  }

  lemma ListedEntry(rows: Cycle, ids: seq<EntryId>, unitId: string, x: Expected) returns (i: nat)
    requires forall j :: 0 <= j < |ids| ==> ids[j] in rows
    requires x in ExpectedVersionsForUnit(CachedList(rows, ids), unitId)
    ensures i < |ids| && x.entryId == ids[i] && IsListable(rows[ids[i]].cache.content, unitId)
  {
    var entries := CachedList(rows, ids);
    ListsExactlyTheCandidates(entries, unitId, x);
    var j :| 0 <= j < |entries| && IsListable(entries[j].snapshot.content, unitId)
      && x == Expected(entries[j].id, entries[j].snapshot.version);
    i := j;
  }

  /**
   Release agreement: with nothing pending in this tab, an accepted release finds every listed entry on the
   server exactly as it is cached, and as its row displays it if and only if the row was rendered with that.
   */
  lemma ReleaseAgreement(rows: Cycle, ids: seq<EntryId>, unitId: string, x: Expected)
    requires NothingPending(rows, ids)
    requires var expected := ExpectedVersionsForUnit(CachedList(rows, ids), unitId);
             ReleaseAccepted(rows, unitId, expected) && x in expected
    ensures x.entryId in rows && rows[x.entryId].history != []
    ensures Current(rows[x.entryId]) == rows[x.entryId].cache.content
    ensures Displayed(rows[x.entryId]) ==>
              (Current(rows[x.entryId]) == Shown(rows[x.entryId]) <==> Rendered(rows[x.entryId]))
  {
    var i := ListedEntry(rows, ids, unitId, x);
    ListedIsCurrent(rows, ids, unitId, i);
    SavedRowShowsWhatItSaw(rows[ids[i]]);
  }

  /** The server resolves the candidate entries of the unit: each of them is in the list, cached as it is. */
  ghost predicate SweptAsCached(rows: Cycle, ids: seq<EntryId>, unitId: string)
    requires forall id :: id in rows ==> rows[id].history != []
  {
    forall id :: id in rows && IsCandidate(Current(rows[id]), unitId) ==>
      id in ids && Current(rows[id]) == rows[id].cache.content
  }

  /** Every entry that is a candidate on the server is one in the cached list, so the request names it. */
  ghost predicate AllListed(rows: Cycle, ids: seq<EntryId>, unitId: string)
    requires forall id :: id in rows ==> rows[id].history != []
  {
    forall id :: id in rows && IsCandidate(Current(rows[id]), unitId) ==>
      id in ids && IsListable(rows[id].cache.content, unitId)
  }

  /**
   The check covers the listed entries only. `rows` are all entries the cycle has on the server, `ids` those of
   the cached list: an accepted release resolves every entry as cached if and only if none was created or became
   a candidate since, say by another user lifting a hold.
   */
  lemma SweptAsCachedIff(rows: Cycle, ids: seq<EntryId>, unitId: string)
    requires NothingPending(rows, ids)
    requires forall id :: id in rows ==> rows[id].history != []
    requires ReleaseAccepted(rows, unitId, ExpectedVersionsForUnit(CachedList(rows, ids), unitId))
    ensures SweptAsCached(rows, ids, unitId) <==> AllListed(rows, ids, unitId)
  {
    forall id | id in rows ensures IsListable(Current(rows[id]), unitId) <==> IsCandidate(Current(rows[id]), unitId) {
      FiltersAgree(Current(rows[id]), unitId);
    }
    if AllListed(rows, ids, unitId) {
      forall id | id in rows && IsCandidate(Current(rows[id]), unitId)
        ensures id in ids && Current(rows[id]) == rows[id].cache.content
      {
        var i :| 0 <= i < |ids| && ids[i] == id;
        ListedIsCurrent(rows, ids, unitId, i);
      }
    }
  }
}
